/**
 * The shipping dashboard (src/app/shipping/page.tsx).
 *
 * The page lists shipments filtered by a search query: a shipment is shown
 * when its order number or its destination contains the query, ignoring case.
 * Status chips are coloured by status. Tracking a shipment selects it and
 * opens the tracking dialog; closing the dialog only closes it, and the
 * selection stays.
 */
module ShippingPage {
  import opened Common

  datatype TrackingEvent = TrackingEvent(date: string, status: string, location: string, description: string)

  datatype Shipment = Shipment(id: string, orderNumber: string, destination: string, status: string,
                               estimatedDelivery: string, trackingEvents: Option<seq<TrackingEvent>>)

  const Order001 := Shipment("1", "ORD-001", "New York, NY", "in-transit", "2024-02-20",
    Some([ TrackingEvent("2024-02-18 14:30", "In Transit", "Newark, NJ", "Package in transit to destination"),
           TrackingEvent("2024-02-18 09:15", "Picked Up", "Philadelphia, PA", "Package picked up by courier") ]))

  const Order002 := Shipment("2", "ORD-002", "Los Angeles, CA", "pending", "2024-02-22", None)

  const Order003 := Shipment("3", "ORD-003", "Chicago, IL", "delivered", "2024-02-18",
    Some([ TrackingEvent("2024-02-18 15:00", "Delivered", "Chicago, IL", "Package delivered to recipient"),
           TrackingEvent("2024-02-18 08:30", "Out for Delivery", "Chicago, IL", "Package out for delivery") ]))

  /** The shipments the page starts with. */
  function MockShipments(): seq<Shipment> {
    [Order001, Order002, Order003]
  }

  /** `getStatusColor`. */
  function StatusColor(status: string): Color {
    match status
    case "pending" => Warning
    case "in-transit" => Info
    case "delivered" => Success
    case _ => Default
  }

  /** The search test of `filteredShipments`. */
  predicate MatchesShipment(s: Shipment, query: string) {
    MatchesQuery(s.orderNumber, query) || MatchesQuery(s.destination, query)
  }

  /** `filteredShipments`. */
  function FilterShipments(shipments: seq<Shipment>, query: string): (r: seq<Shipment>)
    ensures forall s :: s in r <==> s in shipments && MatchesShipment(s, query)
    ensures forall s :: multiset(r)[s] == if MatchesShipment(s, query) then multiset(shipments)[s] else 0
    ensures IsSubsequence(r, shipments)
  {
    Filter(shipments, (s: Shipment) => MatchesShipment(s, query))
  }

  /** The page's state. */
  class ShippingDashboard {
    var searchQuery: string
    var shipments: seq<Shipment>
    var selectedShipment: Option<Shipment>
    var trackingDialogOpen: bool

    constructor ()
      ensures searchQuery == "" && shipments == MockShipments() && selectedShipment == None && !trackingDialogOpen
    {
      searchQuery, shipments := "", MockShipments();
      selectedShipment, trackingDialogOpen := None, false;
    }

    /** Typing in the search field: the shipments themselves are untouched. */
    method SetSearchQuery(query: string)
      modifies this`searchQuery
      ensures searchQuery == query
    {
      searchQuery := query;
    }

    /** `handleTrackShipment`. */
    method HandleTrackShipment(s: Shipment)
      modifies this`selectedShipment, this`trackingDialogOpen
      ensures selectedShipment == Some(s) && trackingDialogOpen
    {
      selectedShipment := Some(s);
      trackingDialogOpen := true;
    }

    /** The dialog's Close button and its `onClose`: the selection stays. */
    method CloseTrackingDialog()
      modifies this`trackingDialogOpen
      ensures !trackingDialogOpen
    {
      trackingDialogOpen := false;
    }

    /** The rows of the table. */
    function Shown(): seq<Shipment>
      reads this
    {
      FilterShipments(shipments, searchQuery)
    }
  }

  // ---------------------------------------------------------------------------
  // Properties

  /** An empty query keeps every shipment. */
  lemma EmptyQueryKeepsAll(shipments: seq<Shipment>)
    ensures FilterShipments(shipments, "") == shipments
  {
    forall s | s in shipments ensures MatchesShipment(s, "") {
      assert Lower("") == "";
      ContainsTrivial(Lower(s.orderNumber));
    }
    FilterAll(shipments, (s: Shipment) => MatchesShipment(s, ""));
  }

  /** Filtering what is shown again by the same query changes nothing. */
  lemma FilterIdempotent(shipments: seq<Shipment>, query: string)
    ensures FilterShipments(FilterShipments(shipments, query), query) == FilterShipments(shipments, query)
  {
    FilterAll(FilterShipments(shipments, query), (s: Shipment) => MatchesShipment(s, query));
  }

  /** A shipment's own order number finds it. */
  lemma OrderNumberFindsShipment(shipments: seq<Shipment>, s: Shipment)
    requires s in shipments
    ensures s in FilterShipments(shipments, s.orderNumber)
  {
    ContainsTrivial(Lower(s.orderNumber));
  }

  /** The three statuses have three different colours, and every other status the default one. */
  lemma StatusColorsDistinct(status: string)
    ensures StatusColor(status) == Default <==> status != "pending" && status != "in-transit" && status != "delivered"
    ensures StatusColor(status) == Warning <==> status == "pending"
    ensures StatusColor(status) == Info <==> status == "in-transit"
    ensures StatusColor(status) == Success <==> status == "delivered"
  {
  }
}
