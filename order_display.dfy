/**
 * The two display helpers of the orders table: the duration shown in the
 * "Dauer (min)" column and the CSS class of the status badge.
 */
module OrderDisplay {
  import opened Wrappers
  import opened Orders

  const MillisPerMinute: real := 60000.0

  /** JavaScript truthiness of an optional number: present and not zero. */
  predicate IsTruthy(n: Option<real>)
  {
    n.Some? && n.value != 0.0
  }

  /**
   * `getDuration`: a truthy `durationMinutes` as it is; otherwise, when an
   * ETA is known, the minutes from creation to ETA; otherwise no duration.
   */
  function Duration(o: Order): (r: Option<real>)
    ensures r.None? <==> !IsTruthy(o.durationMinutes) && o.eta.None?
    ensures IsTruthy(o.durationMinutes) ==> r == o.durationMinutes
    ensures !IsTruthy(o.durationMinutes) && o.eta.Some? ==>
              r.Some? && r.value * MillisPerMinute == (o.eta.value - o.createdAt) as real
  {
    if IsTruthy(o.durationMinutes) then o.durationMinutes
    else if o.eta.Some? then Some((o.eta.value - o.createdAt) as real / MillisPerMinute)
    else None
  }

  /** A recorded duration of zero is falsy, so the ETA decides, as for an order without one. */
  lemma ZeroDurationFallsThrough(o: Order)
    requires o.durationMinutes == Some(0.0)
    ensures Duration(o) == Duration(o.(durationMinutes := None))
  {
  }

  /** An order created at 10:00 with ETA 10:45 lasts 45 minutes. */
  lemma DurationExample()
    ensures Duration(Order("o-1", Queued, High, "Lager A", "Rampe 3", None, 1704103200000,
                           Some(1704105900000), None)) == Some(45.0)
  {
  }

  /** `getStatusColor`: the badge class of a status string, `''` for any other string. */
  function StatusColor(status: string): (r: string)
    ensures r == "" <==> (forall s: Status :: StatusName(s) != status)
    ensures r != "" ==> |r| > 7 && r[..7] == "status-"
    ensures r in {"", "status-queued", "status-in-progress", "status-completed", "status-failed"}
  {
    if status == "queued" then assert StatusName(Queued) == status; "status-queued"
    else if status == "in_progress" then assert StatusName(InProgress) == status; "status-in-progress"
    else if status == "completed" then assert StatusName(Completed) == status; "status-completed"
    else if status == "failed" then assert StatusName(Failed) == status; "status-failed"
    else NotAStatusName(status); ""
  }

  lemma NotAStatusName(status: string)
    requires status != "queued" && status != "in_progress" && status != "completed" && status != "failed"
    ensures forall s: Status :: StatusName(s) != status
  {
    forall s: Status ensures StatusName(s) != status {
      match s
      case Queued =>
      case InProgress =>
      case Completed =>
      case Failed =>
    }
  }

  /** The CSS spelling of a status name: every `_` becomes `-`. */
  function Dashed(name: string): (r: string)
    ensures |r| == |name|
    ensures forall i :: 0 <= i < |name| ==> r[i] == (if name[i] == '_' then '-' else name[i])
  {
    seq(|name|, i requires 0 <= i < |name| => if name[i] == '_' then '-' else name[i])
  }

  /** Each status gets the class named after it: `status-` and its name with dashes for underscores. */
  lemma {:induction false} StatusColorOfName(s: Status)
    ensures StatusColor(StatusName(s)) == "status-" + Dashed(StatusName(s))
  {
    match s
    case Queued =>
      assert Dashed("queued") == "queued";
    case InProgress =>
      assert Dashed("in_progress") == "in-progress";
    case Completed =>
      assert Dashed("completed") == "completed";
    case Failed =>
      assert Dashed("failed") == "failed";
  }

  /** Every status gets a badge class of its own. */
  lemma {:induction false} StatusColorsDistinct(s: Status, t: Status)
    requires s != t
    ensures StatusColor(StatusName(s)) != ""
    ensures StatusColor(StatusName(s)) != StatusColor(StatusName(t))
  {
    match s
    case Queued =>
    case InProgress =>
    case Completed =>
    case Failed =>
  }
}
