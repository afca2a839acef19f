/**
 * The support help desk (src/app/support/components/HelpDesk.tsx).
 *
 * A form collects a new ticket's subject, description, category and
 * priority; the submit button is enabled only when the three text fields are
 * filled in. Submitting puts the new ticket, with status open, a generated id
 * and the current time, first in the list and resets the form. The id is
 * `TICKET-` followed by a random number below 1000 padded to three digits.
 * Status and priority are shown as coloured chips.
 *
 * The random draw and the clock reading are parameters.
 */
module HelpDesk {
  import opened Common

  datatype TicketStatus = Open | InProgress | Resolved

  datatype TicketPriority = Low | Medium | High

  datatype Ticket = Ticket(id: string, subject: string, description: string, status: TicketStatus,
                           priority: TicketPriority, category: string, createdAt: string)

  datatype NewTicketForm = NewTicketForm(subject: string, description: string, category: string,
                                         priority: TicketPriority)

  /** The form's text fields. */
  datatype TextField = Subject | Description | Category

  /** `initialFormState`. */
  const InitialForm: NewTicketForm := NewTicketForm("", "", "", Medium)

  /** The two demonstration tickets the list starts with. */
  function DemoTickets(): seq<Ticket> {
    [ Ticket("TICKET-001", "Cannot access inventory module",
             "Getting an error when trying to access the inventory management section.",
             Open, High, "Technical Issue", "2024-01-15T10:30:00Z"),
      Ticket("TICKET-002", "Need help with financial reports",
             "Having trouble generating custom financial reports.",
             InProgress, Medium, "Usage Help", "2024-01-14T15:45:00Z") ]
  }

  /** `s.padStart(width, c)`. */
  function PadStart(s: string, width: nat, c: char): (r: string)
    ensures |r| == if |s| >= width then |s| else width
    ensures r[|r| - |s|..] == s
    ensures forall i :: 0 <= i < |r| - |s| ==> r[i] == c
  {
    if |s| >= width then s else seq(width - |s|, _ => c) + s
  }

  /** `generateTicketId`, where `draw` is `Math.floor(Math.random() * 1000)`. */
  function GenerateTicketId(draw: nat): string
    requires draw < 1000
  {
    "TICKET-" + PadStart(NatToString(draw), 3, '0')
  }

  /** `isFormValid`. */
  predicate IsFormValid(f: NewTicketForm) {
    f.subject != "" && f.description != "" && f.category != ""
  }

  /** The ticket `handleSubmitTicket` builds. */
  function NewTicket(f: NewTicketForm, draw: nat, nowIso: string): Ticket
    requires draw < 1000
  {
    Ticket(GenerateTicketId(draw), f.subject, f.description, Open, f.priority, f.category, nowIso)
  }

  function SetText(f: NewTicketForm, field: TextField, value: string): NewTicketForm {
    match field
    case Subject => f.(subject := value)
    case Description => f.(description := value)
    case Category => f.(category := value)
  }

  /** `getStatusColor`. */
  function StatusColor(s: TicketStatus): Color {
    match s
    case Open => Error
    case InProgress => Warning
    case Resolved => Success
  }

  /** `getPriorityColor`. */
  function PriorityColor(p: TicketPriority): Color {
    match p
    case High => Error
    case Medium => Warning
    case Low => Success
  }

  /** The status a status chip's colour stands for. */
  function StatusOfColor(c: Color): Option<TicketStatus> {
    match c
    case Error => Some(Open)
    case Warning => Some(InProgress)
    case Success => Some(Resolved)
    case _ => None
  }

  /** The priority a priority chip's colour stands for. */
  function PriorityOfColor(c: Color): Option<TicketPriority> {
    match c
    case Error => Some(High)
    case Warning => Some(Medium)
    case Success => Some(Low)
    case _ => None
  }

  /** The help desk's state. */
  class HelpDeskState {
    var tickets: seq<Ticket>
    var newTicket: NewTicketForm

    constructor ()
      ensures tickets == DemoTickets() && newTicket == InitialForm
    {
      tickets := DemoTickets();
      newTicket := InitialForm;
    }

    /** `handleInputChange` on a text field. */
    method HandleInputChange(field: TextField, value: string)
      modifies this`newTicket
      ensures newTicket == SetText(old(newTicket), field, value)
    {
      newTicket := SetText(newTicket, field, value);
    }

    /** `handlePriorityChange`. */
    method HandlePriorityChange(p: TicketPriority)
      modifies this`newTicket
      ensures newTicket == old(newTicket).(priority := p)
    {
      newTicket := newTicket.(priority := p);
    }

    /** `isFormValid`, read from the state. */
    method FormValid() returns (valid: bool)
      ensures valid <==> newTicket.subject != "" && newTicket.description != "" && newTicket.category != ""
    {
      valid := IsFormValid(newTicket);
    }

    /**
     * `handleSubmitTicket` with the random draw and the current time; its one
     * caller is the submit button, disabled while the form is not valid.
     */
    method HandleSubmitTicket(draw: nat, nowIso: string)
      requires draw < 1000
      requires IsFormValid(newTicket)
      modifies this
      ensures tickets == [NewTicket(old(newTicket), draw, nowIso)] + old(tickets)
      ensures tickets[0].subject != "" && tickets[0].description != "" && tickets[0].category != ""
      ensures newTicket == InitialForm
    {
      tickets := [NewTicket(newTicket, draw, nowIso)] + tickets;
      newTicket := InitialForm;
    }
  }

  // ---------------------------------------------------------------------------
  // Properties

  /**
   * A submitted ticket goes first, open, with the form's subject, description,
   * category and priority; the earlier tickets follow in their order.
   */
  lemma SubmitPutsTicketFirst(tickets: seq<Ticket>, f: NewTicketForm, draw: nat, nowIso: string)
    requires draw < 1000
    ensures var r := [NewTicket(f, draw, nowIso)] + tickets;
            |r| == |tickets| + 1 && r[1..] == tickets && r[0].status == Open &&
            r[0].subject == f.subject && r[0].description == f.description &&
            r[0].category == f.category && r[0].priority == f.priority && r[0].createdAt == nowIso
  {
    assert ([NewTicket(f, draw, nowIso)] + tickets)[1..] == tickets;
  }

  /** The form is valid exactly when none of its three text fields is empty, whatever the priority. */
  lemma FormValidity(f: NewTicketForm, p: TicketPriority)
    ensures IsFormValid(f) <==> f.subject != [] && f.description != [] && f.category != []
    ensures IsFormValid(f) == IsFormValid(f.(priority := p))
    ensures !IsFormValid(InitialForm)
  {
  }

  /** The decimal digits of a number below 1000, padded to three. */
  lemma ThreeDigits(n: nat)
    requires n < 1000
    ensures PadStart(NatToString(n), 3, '0') == [DigitChar(n / 100), DigitChar(n / 10 % 10), DigitChar(n % 10)]
  {
    var h, t, u := n / 100, n / 10 % 10, n % 10;
    if n >= 100 {
      assert n / 10 >= 10 && n / 10 / 10 == h;
      assert NatToString(n / 10) == [DigitChar(h)] + [DigitChar(t)];
      assert NatToString(n) == [DigitChar(h), DigitChar(t)] + [DigitChar(u)];
    } else if n >= 10 {
      assert h == 0 && n / 10 == t;
      assert NatToString(n) == [DigitChar(t)] + [DigitChar(u)];
    } else {
      assert h == 0 && t == 0 && n == u;
    }
  }

  /** Three digit characters read back as the number they spell. */
  lemma ThreeDigitsValue(h: nat, t: nat, u: nat)
    requires h < 10 && t < 10 && u < 10
    ensures DigitsValue([DigitChar(h), DigitChar(t), DigitChar(u)]) == h * 100 + t * 10 + u
  {
    var digits := [DigitChar(h), DigitChar(t), DigitChar(u)];
    assert DigitValue(DigitChar(h)) == h && DigitValue(DigitChar(t)) == t && DigitValue(DigitChar(u)) == u;
    assert digits[..2][..1][..0] == [];
    assert DigitsValue(digits[..2][..1]) == h;
    assert digits[..2][..1] == [DigitChar(h)];
    assert DigitsValue(digits[..2]) == h * 10 + t;
  }

  /**
   * A ticket id is ten characters: `TICKET-` and three decimal digits that
   * read back as the draw.
   */
  lemma TicketIdFormat(draw: nat)
    requires draw < 1000
    ensures var id := GenerateTicketId(draw);
            |id| == 10 && id[..7] == "TICKET-" && (forall i :: 7 <= i < 10 ==> IsDigit(id[i])) &&
            DigitsValue(id[7..]) == draw
  {
    var h, t, u := draw / 100, draw / 10 % 10, draw % 10;
    var digits := [DigitChar(h), DigitChar(t), DigitChar(u)];
    ThreeDigits(draw);
    var id := "TICKET-" + digits;
    assert GenerateTicketId(draw) == id;
    assert id[7..] == digits && id[..7] == "TICKET-";
    assert IsDigit(digits[0]) && IsDigit(digits[1]) && IsDigit(digits[2]);
    ThreeDigitsValue(h, t, u);
    assert draw == h * 100 + t * 10 + u by {
      assert draw / 10 == h * 10 + t;
    }
  }

  /** Each chip colour names one status and one priority, so a chip's colour gives back its value. */
  lemma ChipColorsRoundTrip(s: TicketStatus, p: TicketPriority)
    ensures StatusOfColor(StatusColor(s)) == Some(s)
    ensures PriorityOfColor(PriorityColor(p)) == Some(p)
    ensures StatusColor(s) != Default && PriorityColor(p) != Default
  {
  }

  /** Status and priority use the same three colours: open and high, in progress and medium, resolved and low. */
  lemma StatusAndPriorityShareColors(s: TicketStatus, p: TicketPriority)
    ensures StatusColor(s) == PriorityColor(p) <==>
              (s == Open && p == High) || (s == InProgress && p == Medium) || (s == Resolved && p == Low)
  {
  }
}
