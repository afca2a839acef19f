/**
 * The HR leave requests (src/app/hr/components/LeaveManagement.tsx).
 *
 * Submitting the request dialog appends a request with status Pending and
 * the current time in milliseconds, as a decimal string, for its id, then
 * closes the dialog. Approving or rejecting sets the status of every request
 * with the given id; the table offers those two buttons only on a request
 * that is still Pending.
 *
 * The clock reading is a parameter.
 */
module LeaveManagement {
  import opened Common

  datatype Status = Pending | Approved | Rejected

  /** The statuses a decision can set. */
  datatype Decision = Approve | Reject

  datatype LeaveRequest = LeaveRequest(id: string, employeeId: string, employeeName: string, leaveType: string,
                                       startDate: string, endDate: string, reason: string, status: Status)

  /** The fields read from the submitted form. */
  datatype RequestForm = RequestForm(employeeId: string, employeeName: string, leaveType: string,
                                     startDate: string, endDate: string, reason: string)

  function StatusOf(d: Decision): (s: Status)
    ensures s != Pending
  {
    match d
    case Approve => Approved
    case Reject => Rejected
  }

  /** The request built by `handleSubmit` at time `now`. */
  function NewRequest(f: RequestForm, now: nat): LeaveRequest {
    LeaveRequest(NatToString(now), f.employeeId, f.employeeName, f.leaveType, f.startDate, f.endDate, f.reason, Pending)
  }

  /** `requests.map(req => req.id === id ? { ...req, status } : req)`. */
  function UpdateStatus(reqs: seq<LeaveRequest>, id: string, d: Decision): (r: seq<LeaveRequest>)
    ensures |r| == |reqs|
    ensures forall i :: 0 <= i < |reqs| ==> r[i] == if reqs[i].id == id then reqs[i].(status := StatusOf(d)) else reqs[i]
  {
    if reqs == [] then []
    else [if reqs[0].id == id then reqs[0].(status := StatusOf(d)) else reqs[0]] + UpdateStatus(reqs[1..], id, d)
  }

  predicate IsPending(r: LeaveRequest) {
    r.status == Pending
  }

  /** No id is shared by two requests. */
  predicate UniqueIds(reqs: seq<LeaveRequest>) {
    forall i, j :: 0 <= i < j < |reqs| ==> reqs[i].id != reqs[j].id
  }

  /** The component's state. */
  class LeaveManagementState {
    var requests: seq<LeaveRequest>
    var open: bool

    constructor ()
      ensures requests == [] && !open
    {
      requests, open := [], false;
    }

    method HandleClickOpen()
      modifies this`open
      ensures open
    {
      open := true;
    }

    method HandleClose()
      modifies this`open
      ensures !open
    {
      open := false;
    }

    /** `handleSubmit` of the dialog's form at time `now`. */
    method HandleSubmit(f: RequestForm, now: nat)
      requires open
      modifies this
      ensures !open && requests == old(requests) + [NewRequest(f, now)]
    {
      requests := requests + [NewRequest(f, now)];
      HandleClose();
    }

    /** `handleStatusUpdate`: it does not look at the current status. */
    method HandleStatusUpdate(id: string, d: Decision)
      modifies this`requests
      ensures requests == UpdateStatus(old(requests), id, d)
    {
      requests := UpdateStatus(requests, id, d);
    }

    /** A click on the Approve or Reject button of row `i`, which is shown only while that request is Pending. */
    method ClickDecision(i: nat, d: Decision)
      requires i < |requests| && requests[i].status == Pending
      modifies this`requests
      ensures requests == UpdateStatus(old(requests), old(requests)[i].id, d)
    {
      HandleStatusUpdate(requests[i].id, d);
    }
  }

  // ---------------------------------------------------------------------------
  // Properties

  /** A submitted request goes last, Pending, with the form's fields and a decimal time stamp as id. */
  lemma SubmitAppendsPending(reqs: seq<LeaveRequest>, f: RequestForm, now: nat)
    ensures var r := reqs + [NewRequest(f, now)];
            r[..|reqs|] == reqs && r[|reqs|].status == Pending && DigitsValue(r[|reqs|].id) == now &&
            r[|reqs|].employeeId == f.employeeId && r[|reqs|].employeeName == f.employeeName &&
            r[|reqs|].leaveType == f.leaveType && r[|reqs|].startDate == f.startDate &&
            r[|reqs|].endDate == f.endDate && r[|reqs|].reason == f.reason
  {
    NatToStringRoundTrip(now);
  }

  /**
   * A status update changes only the status, and only of the requests with
   * the id; no request is made Pending.
   */
  lemma UpdateChangesOnlyStatus(reqs: seq<LeaveRequest>, id: string, d: Decision)
    ensures var r := UpdateStatus(reqs, id, d);
            forall i :: 0 <= i < |reqs| ==>
              r[i].(status := reqs[i].status) == reqs[i] &&
              (r[i].status != reqs[i].status ==> reqs[i].id == id) &&
              (reqs[i].status != Pending ==> r[i].status != Pending)
  {
  }

  /** No update adds Pending requests. */
  lemma {:induction false} PendingNeverGrows(reqs: seq<LeaveRequest>, id: string, d: Decision)
    ensures Count(UpdateStatus(reqs, id, d), IsPending) <= Count(reqs, IsPending)
  {
    if reqs != [] {
      var r := UpdateStatus(reqs, id, d);
      assert r == [r[0]] + UpdateStatus(reqs[1..], id, d);
      assert reqs == [reqs[0]] + reqs[1..];
      FilterAppend([r[0]], UpdateStatus(reqs[1..], id, d), IsPending);
      FilterAppend([reqs[0]], reqs[1..], IsPending);
      PendingNeverGrows(reqs[1..], id, d);
    }
  }

  /**
   * With distinct ids, a decision made through the buttons changes only the
   * clicked request, which was Pending; every request already decided keeps
   * its status, so through the interface each request is decided at most once.
   */
  lemma ClickDecidesOnlyThatRequest(reqs: seq<LeaveRequest>, i: nat, d: Decision)
    requires UniqueIds(reqs) && i < |reqs| && reqs[i].status == Pending
    ensures var r := UpdateStatus(reqs, reqs[i].id, d);
            r[i] == reqs[i].(status := StatusOf(d)) &&
            forall j :: 0 <= j < |reqs| && j != i ==> r[j] == reqs[j]
  {
  }

  /**
   * `handleStatusUpdate` itself does not check the status: two requests
   * sharing an id, one already approved and one pending, are both rejected
   * by one click on the pending one.
   */
  lemma SharedIdRedecides(a: LeaveRequest, b: LeaveRequest)
    requires a.id == b.id && a.status == Approved && b.status == Pending
    ensures UpdateStatus([a, b], b.id, Reject) == [a.(status := Rejected), b.(status := Rejected)]
  {
  }
}
