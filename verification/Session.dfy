/** The submit lifecycle: handles reserve budget and send commands; the driver dequeues, commits,
    reaps, retires and tears down. One reservation guard moves from the caller to the queued
    command to the pending entry, and is dropped wherever the submit ends. */
module Session {
  import opened Wrappers

  /** The submit's oneshot, as its receiver sees it. */
  datatype Cell = Open | Answered | Dropped

  datatype Outcome = Replied | Retired | ReplyDropped | Busy | DriverGone | TooLarge

  /** The `submit` call itself. */
  datatype Caller =
    | Checked            // past the latch and size checks, nothing reserved
    | Sending            // guard taken, command not yet sent
    | Waiting            // command sent, awaiting the oneshot
    | Cancelled          // the future was dropped
    | Done(outcome: Outcome)

  datatype Submit = Submit(len: nat, caller: Caller, cell: Cell)

  /** One budget reservation: the submit it is for, and the bytes it gives back. */
  datatype Guard = Guard(id: nat, bytes: nat)

  datatype Command = Submission(guard: Guard) | Reconfigure(id: nat) | Shutdown

  /** A `reconfigure_to` call: queued, handed to the driver's executor, or refused. */
  datatype Goal = Queued | Entered | RefusedRetired | Lost

  datatype Phase = Running | Retiring | Draining | Closing | Acked

  datatype Limits = Limits(maxCount: nat, maxBytes: nat, maxBody: nat)

  datatype State = State(
    subs: seq<Submit>,
    goals: seq<Goal>,
    sending: seq<Guard>,      // guards in callers' frames
    channel: seq<Command>,
    pending: seq<Guard>,
    releasing: seq<Guard>,    // entries the driver has answered or dropped, guard about to drop
    minted: seq<nat>,         // the submit behind request number i + 1
    sent: seq<nat>,           // every submit whose command entered the channel
    committed: seq<nat>,      // every submit whose request was reported committed
    count: int, bytes: int,
    latched: bool,
    admits: bool,             // the command channel is open
    phase: Phase)

  function Init(): State {
    State([], [], [], [], [], [], [], [], [], 0, 0, false, true, Running)
  }

  datatype Step =
    // callers
    | Call(len: nat)
    | Acquire(id: nat)
    | TrySend(k: nat, full: bool)
    | Cancel(id: nat)
    | Wake(id: nat)
    | CallReconfigure(full: bool)
    | CallShutdown
    // the driver
    | Dequeue
    | Commit(request: nat)
    | Reap(k: nat)
    | Retire
    | DropPending             // one entry of a `drain_pending`
    | Drained
    | DropCommand             // one command of the teardown's channel drain
    | Release
    | Ack

  /** The driver is one thread: it finishes dropping a guard before anything else. */
  predicate DriverFree(s: State) { s.releasing == [] }

  predicate Can(s: State, step: Step) {
    match step
    case Call(_) => true
    case Acquire(id) => id < |s.subs| && s.subs[id].caller.Checked?
    case TrySend(k, _) => k < |s.sending| && s.sending[k].id < |s.subs|
    case Cancel(id) => id < |s.subs| && s.subs[id].caller.Waiting?
    case Wake(id) => id < |s.subs| && s.subs[id].caller.Waiting? && !s.subs[id].cell.Open?
    case CallReconfigure(_) => true
    case CallShutdown => true
    case Dequeue => DriverFree(s) && s.phase.Running? && s.channel != []
    case Commit(r) => DriverFree(s) && s.phase.Running? && 1 <= r <= |s.minted|
    case Reap(k) =>
      DriverFree(s) && s.phase.Running? && k < |s.pending| && s.pending[k].id < |s.subs| && s.subs[s.pending[k].id].caller.Cancelled?
    case Retire => DriverFree(s) && s.phase.Running?
    case DropPending => DriverFree(s) && (s.phase.Retiring? || s.phase.Draining?) && s.pending != []
    case Drained => DriverFree(s) && (s.phase.Retiring? || s.phase.Draining?) && s.pending == []
    case DropCommand => DriverFree(s) && s.phase.Closing? && s.channel != []
    case Release => s.releasing != []
    case Ack => DriverFree(s) && s.phase.Closing? && s.channel == []
  }

  function Finish(s: State, id: nat, outcome: Outcome): State
    requires id < |s.subs|
  {
    s.(subs := s.subs[id := s.subs[id].(caller := Done(outcome))])
  }

  function SetCell(s: State, id: nat, cell: Cell): State {
    if id < |s.subs| then s.(subs := s.subs[id := s.subs[id].(cell := cell)]) else s
  }

  function Refund(s: State, g: Guard): State { s.(count := s.count - 1, bytes := s.bytes - g.bytes) }

  function Cut<T>(xs: seq<T>, k: nat): seq<T>
    requires k < |xs|
  {
    xs[..k] + xs[k + 1..]
  }

  /** The latch is read before anything else, then the size. */
  function DoCall(l: Limits, s: State, len: nat): State {
    var caller := if s.latched then Done(Retired) else if len > l.maxBody then Done(TooLarge) else Checked;
    s.(subs := s.subs + [Submit(len, caller, Open)])
  }

  function DoAcquire(l: Limits, s: State, id: nat): State
    requires id < |s.subs|
  {
    if s.count + 1 <= l.maxCount && s.bytes + s.subs[id].len <= l.maxBytes then
      s.(subs := s.subs[id := s.subs[id].(caller := Sending)], sending := s.sending + [Guard(id, s.subs[id].len)],
         count := s.count + 1, bytes := s.bytes + s.subs[id].len)
    else Finish(s, id, Busy)
  }

  function DoTrySend(s: State, k: nat, full: bool): State
    requires k < |s.sending| && s.sending[k].id < |s.subs|
  {
    var g := s.sending[k];
    var t := s.(sending := Cut(s.sending, k));
    if !s.admits then Finish(Refund(t, g), g.id, DriverGone)
    else if full then Finish(Refund(t, g), g.id, Busy)
    else
      t.(subs := s.subs[g.id := s.subs[g.id].(caller := Waiting)], channel := s.channel + [Submission(g)],
         sent := s.sent + [g.id])
  }

  /** A dropped oneshot reads `Retired` once the latch is set, else `ReplyDropped`. */
  function DoWake(s: State, id: nat): State
    requires id < |s.subs|
  {
    Finish(s, id, if s.subs[id].cell.Answered? then Replied else if s.latched then Retired else ReplyDropped)
  }

  function DoCallReconfigure(s: State, full: bool): State {
    if s.latched then s.(goals := s.goals + [RefusedRetired])
    else if !s.admits || full then s.(goals := s.goals + [Lost])
    else s.(goals := s.goals + [Queued], channel := s.channel + [Reconfigure(|s.goals|)])
  }

  /** The driver drops an entry: its sender, then its guard. */
  function DropEntry(s: State, g: Guard): State { SetCell(s, g.id, Dropped).(releasing := [g]) }

  /** Consumption: the retirement gate, then the cancelled-caller check, then consensus. */
  function DoDequeue(s: State): State
    requires s.channel != []
  {
    var t := s.(channel := s.channel[1..]);
    match s.channel[0]
    case Submission(g) =>
      if s.latched || (g.id < |s.subs| && s.subs[g.id].caller.Cancelled?) then DropEntry(t, g)
      else t.(minted := s.minted + [g.id], pending := s.pending + [g])
    case Reconfigure(g) =>
      if g < |s.goals| then t.(goals := s.goals[g := if s.latched then RefusedRetired else Entered]) else t
    case Shutdown => t.(phase := Draining)
  }

  /** Where the pending entry of submit `id` is, if anywhere. */
  function Find(gs: seq<Guard>, id: nat): (k: Option<nat>)
    ensures k.Some? ==> k.value < |gs| && gs[k.value].id == id
    ensures k.None? ==> forall g :: g in gs ==> g.id != id
  {
    if gs == [] then None
    else if gs[0].id == id then Some(0)
    else match Find(gs[1..], id)
         case None => None
         case Some(k) => Some(k + 1)
  }

  /** A committed event removes the matching entry, answers it, and then drops its guard. */
  function DoCommit(s: State, request: nat): State
    requires 1 <= request <= |s.minted|
  {
    var t := s.(committed := s.committed + [s.minted[request - 1]]);
    match Find(s.pending, s.minted[request - 1])
    case None => t
    case Some(k) =>
      SetCell(t, s.pending[k].id, Answered).(pending := Cut(s.pending, k), releasing := [s.pending[k]])
  }

  function DoDropCommand(s: State): State
    requires s.channel != []
  {
    var t := s.(channel := s.channel[1..]);
    match s.channel[0]
    case Submission(g) => DropEntry(t, g)
    case Reconfigure(g) => if g < |s.goals| then t.(goals := s.goals[g := Lost]) else t
    case Shutdown => t
  }

  function Do(l: Limits, s: State, step: Step): State
    requires Can(s, step)
  {
    match step
    case Call(len) => DoCall(l, s, len)
    case Acquire(id) => DoAcquire(l, s, id)
    case TrySend(k, full) => DoTrySend(s, k, full)
    case Cancel(id) => s.(subs := s.subs[id := s.subs[id].(caller := Cancelled)])
    case Wake(id) => DoWake(s, id)
    case CallReconfigure(full) => DoCallReconfigure(s, full)
    case CallShutdown => if s.admits then s.(channel := s.channel + [Shutdown]) else s
    case Dequeue => DoDequeue(s)
    case Commit(r) => DoCommit(s, r)
    case Reap(k) => DropEntry(s, s.pending[k]).(pending := Cut(s.pending, k))
    case Retire => s.(latched := true, phase := Retiring)
    case DropPending => DropEntry(s, s.pending[0]).(pending := s.pending[1..])
    case Drained => if s.phase.Retiring? then s.(phase := Running) else s.(phase := Closing, admits := false)
    case DropCommand => DoDropCommand(s)
    case Release => Refund(s, s.releasing[0]).(releasing := s.releasing[1..])
    case Ack => s.(phase := Acked)
  }

  // ---- The reap and retransmit walk --------------------------------------------------------

  /** A pending entry as the walk sees it: its request, when it was last sent, and whether its
      receiver is gone. */
  datatype Entry = Entry(request: nat, lastSent: nat, cancelled: bool)

  predicate DueAt(e: Entry, now: nat, timeout: nat) {
    (if now >= e.lastSent then now - e.lastSent else 0) >= timeout
  }

  function Reaped(es: seq<Entry>, now: nat, timeout: nat): seq<Entry> {
    if es == [] then []
    else
      var e := es[|es| - 1];
      Reaped(es[..|es| - 1], now, timeout)
      + if e.cancelled then [] else [if DueAt(e, now, timeout) then e.(lastSent := now) else e]
  }

  function Stale(es: seq<Entry>, now: nat, timeout: nat): seq<nat> {
    if es == [] then []
    else
      var e := es[|es| - 1];
      Stale(es[..|es| - 1], now, timeout) + if !e.cancelled && DueAt(e, now, timeout) then [e.request] else []
  }

  class PendingTable {
    var entries: seq<Entry>

    /** Drop the cancelled, stamp and collect the due, in one pass. */
    method ReapAndCollect(now: nat, timeout: nat) returns (stale: seq<nat>)
      modifies this
      ensures entries == Reaped(old(entries), now, timeout)
      ensures stale == Stale(old(entries), now, timeout)
    {
      var all := entries;
      stale, entries := [], [];
      for i := 0 to |all|
        invariant entries == Reaped(all[..i], now, timeout) && stale == Stale(all[..i], now, timeout)
      {
        assert all[..i + 1][..i] == all[..i];
        if !all[i].cancelled {
          if DueAt(all[i], now, timeout) {
            entries := entries + [all[i].(lastSent := now)];
            stale := stale + [all[i].request];
          } else {
            entries := entries + [all[i]];
          }
        }
      }
      assert all[..|all|] == all;
    }
  }

  /** After the walk no entry is cancelled or, with a timeout at all, due again at once; exactly
      the live entries are left, each stamped with `now` if it was due and with its old time if
      not; and exactly the live due ones were collected. */
  lemma {:induction false} WalkIsExact(es: seq<Entry>, now: nat, timeout: nat, y: Entry, request: nat)
    ensures forall e :: e in Reaped(es, now, timeout) ==> !e.cancelled && (timeout > 0 ==> !DueAt(e, now, timeout))
    ensures y in Reaped(es, now, timeout)
       <==> exists e :: e in es && !e.cancelled && y.request == e.request && !y.cancelled
                        && y.lastSent == (if timeout == 0 || now >= e.lastSent + timeout then now else e.lastSent)
    ensures request in Stale(es, now, timeout)
       <==> exists e :: e in es && e.request == request && !e.cancelled && (timeout == 0 || now >= e.lastSent + timeout)
  {
    if es != [] {
      var n := |es| - 1;
      var rest, e := es[..n], es[n];
      WalkIsExact(rest, now, timeout, y, request);
      assert es == rest + [e];
      var mine := if DueAt(e, now, timeout) then e.(lastSent := now) else e;
      assert Reaped(es, now, timeout) == Reaped(rest, now, timeout) + if e.cancelled then [] else [mine];
      assert e in es;
    }
  }

  // ---- Many walks --------------------------------------------------------------------------

  /** The table at each walk, and when. Between walks anything may happen to other requests, but
      `request` is neither answered nor cancelled; no table has two entries for it. */
  ghost predicate Rounds(tables: seq<seq<Entry>>, times: seq<nat>, timeout: nat, request: nat) {
    && |tables| == |times|
    && (forall i :: 0 <= i < |tables| - 1 ==> Carries(tables[i], times[i], timeout, request, tables[i + 1]))
    && (forall i :: 0 <= i < |tables| ==> Single(tables[i], request))
  }

  ghost predicate Carries(es: seq<Entry>, now: nat, timeout: nat, request: nat, next: seq<Entry>) {
    forall e :: e in Reaped(es, now, timeout) && e.request == request ==> e in next
  }

  ghost predicate Single(es: seq<Entry>, request: nat) {
    forall x, y :: x in es && y in es && x.request == y.request == request ==> x == y
  }

  /** RETRANSMITTED ON TIME: a live request is collected by the first walk at or past its last
      sending plus the timeout, and by none before, however often the table is walked. */
  lemma {:induction false} RetransmittedOnTime(tables: seq<seq<Entry>>, times: seq<nat>, timeout: nat, e: Entry, n: nat)
    requires Rounds(tables, times, timeout, e.request) && n < |tables| && e in tables[0] && !e.cancelled
    requires n > 0 ==> timeout > 0
    requires forall i :: 0 <= i < n ==> times[i] < e.lastSent + timeout
    ensures e in tables[n]
    ensures forall i :: 0 <= i < n ==> e.request !in Stale(tables[i], times[i], timeout)
    ensures e.request in Stale(tables[n], times[n], timeout) <==> timeout == 0 || times[n] >= e.lastSent + timeout
    decreases n
  {
    hide Reaped, Stale;
    if n > 0 {
      RetransmittedOnTime(tables, times, timeout, e, n - 1);
      WalkIsExact(tables[n - 1], times[n - 1], timeout, e, e.request);
      assert Carries(tables[n - 1], times[n - 1], timeout, e.request, tables[n]);
    }
    assert Single(tables[n], e.request);
    WalkIsExact(tables[n], times[n], timeout, e, e.request);
  }
}
