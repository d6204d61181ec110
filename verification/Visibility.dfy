/** When a file can be seen and when it is collected. */
module Visibility {
  import opened Rows
  import opened World
  import opened Protocol
  import opened Invariant
  import opened Safety
  import Jobs

  /** At `now` a row is seen by Get and List, or returned by Expired, and not both, exactly
      if it is marked, or its expiry is not negative, or lies ahead.  A negative expiry that
      has passed is neither seen nor collected. */
  lemma SeenOrCollected(row: Row, now: int)
    ensures !(Visible(row, now) && Collectable(row, now))
    ensures Visible(row, now) || Collectable(row, now) <==> row.deletedAt.Some? || row.expiresAt >= 0 || now < row.expiresAt
  {}

  /** In every run each row is, at every moment, either visible or collectable. */
  lemma EveryRowIsSeenOrCollected(ws: seq<World>, ss: seq<Step>, i: nat, id: FileId)
    requires IsRun(ws, ss) && i < |ws| && id in ws[i].rows
    ensures Visible(ws[i].rows[id], ws[i].now) <==> !Collectable(ws[i].rows[id], ws[i].now)
  {
    RunKeepsInv(ws, ss, i);
    hide LeakInv, DiskInv, WorkDiskInv, ConversionInv, LeaseInv, ReaderInv, MarkerInv, DeleterInv, AwaitConversionInv,
      AwaitLeaseInv, PendingInv, StrandInv, CreatorInv, WorkerInv, BacklogInv, QueueInv, TimerInv, RetryInv, ForgetInv;
  }

  ghost predicate Seen(w: World, id: FileId) {
    id in w.rows && Visible(w.rows[id], w.now)
  }

  /** A file that was inserted and is not visible never becomes visible again, through any
      later steps and restarts. */
  lemma HiddenForGood(ws: seq<World>, ss: seq<Step>, i: nat, j: nat, id: FileId)
    requires IsRun(ws, ss) && i <= j < |ws|
    requires id in ws[i].hist.added && !Seen(ws[i], id)
    ensures !Seen(ws[j], id)
  {
    Jobs.StatusesSettle(ws, ss, i, j);
    hide IsRun, Next;
    EveryRowKeepsItsHistory(ws[i], ws[j], id);
  }

  lemma EveryRowKeepsItsHistory(w: World, w': World, id: FileId)
    requires Jobs.RowsSettle(w, w') && id in w.hist.added && !Seen(w, id)
    ensures !Seen(w', id)
  {}
}
