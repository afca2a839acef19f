/**
 * The custom dashboard builder
 * (src/app/business-intelligence/components/CustomDashboardBuilder.tsx).
 *
 * The builder keeps a list of chart widgets. The three Add buttons append a
 * medium widget of their chart type, titled "New Line Chart", "New Bar Chart"
 * or "New Pie Chart", whose id is `widget-` and the current time in
 * milliseconds. A widget's delete button removes the widgets with its id and
 * its title field renames the widgets with its id. The widget's size fixes
 * the chart's height and the grid columns it spans.
 *
 * The clock reading is a parameter; the charts' sample data is not modelled.
 */
module DashboardBuilder {
  import opened Common

  datatype WidgetType = Line | Bar | Pie

  datatype WidgetSize = Small | Medium | Large

  datatype Widget = Widget(id: string, kind: WidgetType, title: string, size: WidgetSize)

  /** The type's name as the source spells it. */
  function TypeName(t: WidgetType): string {
    match t
    case Line => "line"
    case Bar => "bar"
    case Pie => "pie"
  }

  /** `s.charAt(0).toUpperCase() + s.slice(1)`. */
  function Capitalize(s: string): (r: string)
    ensures |r| == |s|
    ensures s != [] ==> r[0] == UpperChar(s[0]) && r[1..] == s[1..]
  {
    if s == [] then [] else [UpperChar(s[0])] + s[1..]
  }

  /** The title of a new widget. */
  function NewTitle(t: WidgetType): string {
    "New " + Capitalize(TypeName(t)) + " Chart"
  }

  /** The widget `addWidget` creates at time `now`. */
  function NewWidget(t: WidgetType, now: nat): Widget {
    Widget("widget-" + NatToString(now), t, NewTitle(t), Medium)
  }

  /** `addWidget`. */
  function AddWidget(ws: seq<Widget>, t: WidgetType, now: nat): seq<Widget> {
    ws + [NewWidget(t, now)]
  }

  /** `removeWidget`. */
  function RemoveWidget(ws: seq<Widget>, id: string): (r: seq<Widget>)
    ensures forall w :: w in r <==> w in ws && w.id != id
    ensures forall w :: multiset(r)[w] == if w.id != id then multiset(ws)[w] else 0
    ensures IsSubsequence(r, ws)
  {
    Filter(ws, (w: Widget) => w.id != id)
  }

  /** The title field's `onChange`: `widgets.map(w => w.id === id ? { ...w, title } : w)`. */
  function RenameWidget(ws: seq<Widget>, id: string, title: string): (r: seq<Widget>)
    ensures |r| == |ws|
    ensures forall i :: 0 <= i < |ws| ==> r[i] == if ws[i].id == id then ws[i].(title := title) else ws[i]
  {
    if ws == [] then [] else [if ws[0].id == id then ws[0].(title := title) else ws[0]] + RenameWidget(ws[1..], id, title)
  }

  /** `chartProps.height`. */
  function ChartHeight(s: WidgetSize): nat {
    if s == Small then 200 else if s == Medium then 300 else 400
  }

  /** The grid item's `md` columns. */
  function GridColumns(s: WidgetSize): nat {
    if s == Small then 4 else if s == Medium then 6 else 12
  }

  /** The builder's state. */
  class CustomDashboardBuilder {
    var widgets: seq<Widget>
    var dashboardTitle: string

    constructor ()
      ensures widgets == [] && dashboardTitle == "My Custom Dashboard"
    {
      widgets, dashboardTitle := [], "My Custom Dashboard";
    }

    method AddWidgetAt(t: WidgetType, now: nat)
      modifies this`widgets
      ensures widgets == AddWidget(old(widgets), t, now)
    {
      widgets := widgets + [NewWidget(t, now)];
    }

    method RemoveWidgetById(id: string)
      modifies this`widgets
      ensures widgets == RemoveWidget(old(widgets), id)
    {
      widgets := RemoveWidget(widgets, id);
    }

    method RenameWidgetById(id: string, title: string)
      modifies this`widgets
      ensures widgets == RenameWidget(old(widgets), id, title)
    {
      widgets := RenameWidget(widgets, id, title);
    }

    method SetDashboardTitle(title: string)
      modifies this`dashboardTitle
      ensures dashboardTitle == title
    {
      dashboardTitle := title;
    }
  }

  // ---------------------------------------------------------------------------
  // Properties

  /** The titles the three Add buttons produce. */
  lemma NewTitles(t: WidgetType)
    ensures NewTitle(t) == match t
                           case Line => "New Line Chart"
                           case Bar => "New Bar Chart"
                           case Pie => "New Pie Chart"
  {
    var name := TypeName(t);
    assert Capitalize(name) == [UpperChar(name[0])] + name[1..];
  }

  /**
   * Adding appends one medium widget of the type, with its title and an id
   * made of `widget-` and the time's digits; the widgets before are kept in
   * order.
   */
  lemma AddAppendsWidget(ws: seq<Widget>, t: WidgetType, now: nat)
    ensures var r := AddWidget(ws, t, now);
            |r| == |ws| + 1 && r[..|ws|] == ws && r[|ws|].kind == t && r[|ws|].size == Medium &&
            r[|ws|].title == NewTitle(t) && r[|ws|].id[..7] == "widget-" && DigitsValue(r[|ws|].id[7..]) == now
  {
    var id := "widget-" + NatToString(now);
    assert id[7..] == NatToString(now);
    NatToStringRoundTrip(now);
  }

  /** Removing leaves no widget with the id. */
  lemma RemoveDeletesId(ws: seq<Widget>, id: string)
    ensures forall i :: 0 <= i < |RemoveWidget(ws, id)| ==> RemoveWidget(ws, id)[i].id != id
  {
    var r := RemoveWidget(ws, id);
    forall i | 0 <= i < |r| ensures r[i].id != id {
      assert r[i] in r;
    }
  }

  /** Renaming changes only the titles of the widgets with the id. */
  lemma RenameChangesOnlyTitle(ws: seq<Widget>, id: string, title: string)
    ensures var r := RenameWidget(ws, id, title);
            forall i :: 0 <= i < |ws| ==>
              r[i].id == ws[i].id && r[i].kind == ws[i].kind && r[i].size == ws[i].size &&
              (r[i].title != ws[i].title ==> ws[i].id == id && r[i].title == title)
  {
  }

  /**
   * Ids come from the clock: two widgets added in the same millisecond share
   * their id, and deleting either deletes both.
   */
  lemma SameMillisecondSharesId(ws: seq<Widget>, t: WidgetType, u: WidgetType, now: nat)
    requires forall w :: w in ws ==> w.id != NewWidget(t, now).id
    ensures var r := AddWidget(AddWidget(ws, t, now), u, now);
            r[|ws|].id == r[|ws| + 1].id && RemoveWidget(r, r[|ws|].id) == ws
  {
    var r := AddWidget(AddWidget(ws, t, now), u, now);
    var id := NewWidget(t, now).id;
    var gone := (w: Widget) => w.id != id;
    assert r == ws + [NewWidget(t, now), NewWidget(u, now)];
    FilterAppend(ws, [NewWidget(t, now), NewWidget(u, now)], gone);
    FilterAll(ws, gone);
    FilterNone([NewWidget(t, now), NewWidget(u, now)], gone);
  }

  /**
   * Charts are 200, 300 and 400 high and grid items 4, 6 and 12 columns wide:
   * bigger sizes give taller charts and wider grid items, and a large widget
   * spans the whole row.
   */
  lemma SizesGrow(s: WidgetSize, t: WidgetSize)
    ensures ChartHeight(Small) == 200 && ChartHeight(Medium) == 300 && ChartHeight(Large) == 400
    ensures GridColumns(Small) == 4 && GridColumns(Medium) == 6
    ensures ChartHeight(s) < ChartHeight(t) <==> GridColumns(s) < GridColumns(t)
    ensures ChartHeight(s) == ChartHeight(t) <==> s == t
    ensures GridColumns(Large) == 12 && 12 % GridColumns(s) == 0
  {
  }
}
