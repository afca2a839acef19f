/**
 * The HR attendance log (src/app/hr/components/AttendanceTracking.tsx).
 *
 * Submitting the dialog appends a record built from the form, with the
 * current time in milliseconds, as a decimal string, for its id and the
 * status Present, then closes the dialog. The date field defaults to today's
 * date, taken from an ISO timestamp as the part before its `T`.
 *
 * The clock readings are parameters.
 */
module AttendanceTracking {
  import opened Common

  datatype AttendanceRecord = AttendanceRecord(id: string, employeeId: string, employeeName: string, date: string,
                                               timeIn: string, timeOut: string, status: string)

  /** The fields read from the submitted form. */
  datatype AttendanceForm = AttendanceForm(employeeId: string, employeeName: string, date: string,
                                           timeIn: string, timeOut: string)

  /** `iso.split('T')[0]`: the text before the first `T`, or all of it when there is none. */
  function DateOf(iso: string): (d: string)
    ensures d <= iso
    ensures 'T' !in d
    ensures |d| < |iso| ==> iso[|d|] == 'T'
  {
    if iso == [] || iso[0] == 'T' then [] else [iso[0]] + DateOf(iso[1..])
  }

  /** The record `handleSubmit` builds at time `now`. */
  function NewRecord(f: AttendanceForm, now: nat): AttendanceRecord {
    AttendanceRecord(NatToString(now), f.employeeId, f.employeeName, f.date, f.timeIn, f.timeOut, "Present")
  }

  /** The component's state. */
  class AttendanceTrackingState {
    var records: seq<AttendanceRecord>
    var open: bool
    /** The default of the date field, fixed when the component is created. */
    const currentDate: string

    constructor (iso: string)
      ensures records == [] && !open && currentDate == DateOf(iso)
    {
      records, open := [], false;
      currentDate := DateOf(iso);
    }

    method HandleClickOpen()
      modifies this`open
      ensures open
    {
      open := true;
    }

    method HandleClose()
      modifies this`open
      ensures !open
    {
      open := false;
    }

    /** `handleSubmit` of the dialog's form at time `now`. */
    method HandleSubmit(f: AttendanceForm, now: nat)
      requires open
      modifies this
      ensures !open && records == old(records) + [NewRecord(f, now)]
    {
      records := records + [NewRecord(f, now)];
      HandleClose();
    }
  }

  // ---------------------------------------------------------------------------
  // Properties

  /**
   * A submit adds exactly one record, last, with status Present, the form's
   * fields and a decimal time stamp as id; the earlier records are kept in
   * order.
   */
  lemma SubmitAppendsPresent(records: seq<AttendanceRecord>, f: AttendanceForm, now: nat)
    ensures var r := records + [NewRecord(f, now)];
            |r| == |records| + 1 && r[..|records|] == records && r[|records|].status == "Present" &&
            r[|records|].employeeId == f.employeeId && r[|records|].employeeName == f.employeeName &&
            r[|records|].date == f.date && r[|records|].timeIn == f.timeIn && r[|records|].timeOut == f.timeOut &&
            DigitsValue(r[|records|].id) == now
  {
    NatToStringRoundTrip(now);
  }

  /** Text without a `T` passes through `DateOf` untouched up to what follows it. */
  lemma {:induction false} DateOfSkipsPrefix(date: string, rest: string)
    requires 'T' !in date
    ensures DateOf(date + rest) == date + DateOf(rest)
  {
    if date != [] {
      var s := date + rest;
      assert date[0] in date;
      assert s[0] == date[0] && s[1..] == date[1..] + rest;
      assert forall c :: c in date[1..] ==> c in date;
      DateOfSkipsPrefix(date[1..], rest);
      assert date == [date[0]] + date[1..];
    } else {
      assert date + rest == rest;
    }
  }

  /** The date part of an ISO timestamp `date + "T" + time` is `date`. */
  lemma DateOfTimestamp(date: string, time: string)
    requires 'T' !in date
    ensures DateOf(date + "T" + time) == date
  {
    assert date + "T" + time == date + ("T" + time);
    DateOfSkipsPrefix(date, "T" + time);
  }
}
