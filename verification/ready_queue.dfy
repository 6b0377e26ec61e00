/**
  The contract of the ready-time queue (`util.Queue`) that the test group
  overlay is built on. Only what the overlay relies on is modelled: the queue
  is a sequence of (name, ready time) entries; `Init` replaces it with a batch
  of names all ready at the same time, `Status` reports its depth and the
  entry that becomes ready first, and `Send` emits a finite stream of names
  followed by an error. How the queue orders, times and reschedules
  entries internally is not part of this model.
 */
module ReadyQueue {
  import opened Wrappers

  /** A point in time, passed through opaquely. */
  type Timestamp = int

  /** The ready time reported for an empty queue (Go's zero `time.Time`). */
  const ZeroTime: Timestamp := 0

  /** One scheduled name and the time at which it becomes ready. */
  datatype Entry = Entry(name: string, readyAt: Timestamp)

  datatype Queue = Queue(entries: seq<Entry>)

  /** What `Queue.Status` reports: depth, next-ready name (nil when empty) and its ready time. */
  datatype QueueStatus = QueueStatus(depth: nat, next: Option<string>, readyAt: Timestamp)

  /** The names currently scheduled, duplicates included. */
  function Scheduled(q: Queue): (names: seq<string>)
    ensures |names| == |q.entries|
    ensures forall i :: 0 <= i < |names| ==> names[i] == q.entries[i].name
  {
    seq(|q.entries|, i requires 0 <= i < |q.entries| => q.entries[i].name)
  }

  /** `Queue.Init`: replace the whole schedule with `names`, every one ready at `when`. */
  function Init(names: seq<string>, when: Timestamp): (q: Queue)
    ensures Scheduled(q) == names
    ensures forall i :: 0 <= i < |q.entries| ==> q.entries[i].readyAt == when
  {
    Queue(seq(|names|, i requires 0 <= i < |names| => Entry(names[i], when)))
  }

  /** The errors a cancelled `context.Context` reports. */
  datatype ContextError = Canceled | DeadlineExceeded

  /** A Go `error` value: nil, a context error, or another error. */
  datatype Error = Nil | Context(cause: ContextError) | Failed(message: string)

  /**
    What one run of `Queue.Send` produces: the names it emitted, in order,
    and the error it returned. Which names it emits, when, and whether it
    reschedules them depends on the queue's clock and the resend frequency,
    none of which is modelled; any finite emission is admitted.
   */
  datatype Emission = Emission(names: seq<string>, err: Error)

  /** Index of the first entry whose ready time is the earliest of all. */
  function Earliest(entries: seq<Entry>): (k: nat)
    requires |entries| > 0
    ensures k < |entries|
    ensures forall j :: 0 <= j < |entries| ==> entries[k].readyAt <= entries[j].readyAt
    ensures forall j :: 0 <= j < k ==> entries[j].readyAt > entries[k].readyAt
  {
    if |entries| == 1 then 0
    else
      var k := Earliest(entries[..|entries| - 1]);
      if entries[k].readyAt <= entries[|entries| - 1].readyAt then k else |entries| - 1
  }

  /** `Queue.Status`: the depth, and the earliest entry if there is one. */
  function Status(q: Queue): (s: QueueStatus)
    ensures s.depth == |q.entries|
    ensures s.next.None? <==> |q.entries| == 0
    ensures s.next.None? ==> s.readyAt == ZeroTime
    ensures s.next.Some? ==>
      exists k :: 0 <= k < |q.entries| && q.entries[k] == Entry(s.next.value, s.readyAt)
    ensures forall j :: 0 <= j < |q.entries| ==> s.readyAt <= q.entries[j].readyAt
  {
    if |q.entries| == 0 then QueueStatus(0, None, ZeroTime)
    else
      var e := q.entries[Earliest(q.entries)];
      QueueStatus(|q.entries|, Some(e.name), e.readyAt)
  }

  /** Right after `Init` with a non-empty batch, the next name is one of the batch, ready at `when`. */
  lemma StatusAfterInit(names: seq<string>, when: Timestamp)
    ensures var s := Status(Init(names, when));
      && s.depth == |names|
      && (|names| == 0 ==> s.next.None? && s.readyAt == ZeroTime)
      && (|names| > 0 ==> s.next.Some? && s.next.value in names && s.readyAt == when)
  {
  }
}
