/** The order record the orders service delivers (src/app/services/orders.ts). */
module Orders {
  import opened Wrappers

  datatype Status = Queued | InProgress | Completed | Failed

  datatype Priority = Low | Medium | High | Urgent

  /** Timestamps are milliseconds since the epoch, already parsed from their ISO text. */
  type Millis = int

  /**
   * One dispatch order. `eta` is only set for queued or running orders and
   * `durationMinutes` only for finished ones, but the record type does not
   * enforce either.
   */
  datatype Order = Order(
    id: string,
    status: Status,
    priority: Priority,
    source: string,
    target: string,
    vehicleId: Option<string>,
    createdAt: Millis,
    eta: Option<Millis>,
    durationMinutes: Option<real>)

  /** An order as an object: the table compares orders by reference, so the model compares handles. */
  type OrderRef = nat

  /** The string the JSON payload carries for a status. */
  function StatusName(s: Status): string
  {
    match s
    case Queued => "queued"
    case InProgress => "in_progress"
    case Completed => "completed"
    case Failed => "failed"
  }

  /** Different statuses are written differently, so a status string names at most one status. */
  lemma {:induction false} StatusNameInjective(s: Status, t: Status)
    requires s != t
    ensures StatusName(s) != StatusName(t)
  {
    match s
    case Queued =>
      assert StatusName(s)[0] == 'q';
    case InProgress =>
      assert StatusName(s)[0] == 'i';
    case Completed =>
      assert StatusName(s)[0] == 'c';
    case Failed =>
      assert StatusName(s)[0] == 'f';
  }

}
