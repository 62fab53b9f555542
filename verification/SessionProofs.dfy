/** What holds of every submit, in every interleaving of callers and driver. */
module SessionProofs {
  import opened Wrappers
  import opened Session

  // ---- Guards in lists -------------------------------------------------------------------

  function Times(gs: seq<Guard>, id: nat): nat {
    if gs == [] then 0 else (if gs[0].id == id then 1 else 0) + Times(gs[1..], id)
  }

  function Bytes(gs: seq<Guard>): nat {
    if gs == [] then 0 else gs[0].bytes + Bytes(gs[1..])
  }

  /** The guards riding queued submissions. */
  function Riding(cs: seq<Command>): seq<Guard> {
    if cs == [] then [] else (if cs[0].Submission? then [cs[0].guard] else []) + Riding(cs[1..])
  }

  lemma {:induction false} Concat(a: seq<Guard>, b: seq<Guard>, id: nat)
    ensures Times(a + b, id) == Times(a, id) + Times(b, id) && Bytes(a + b) == Bytes(a) + Bytes(b)
  {
    if a == [] {
      assert a + b == b;
    } else {
      assert (a + b)[0] == a[0] && (a + b)[1..] == a[1..] + b;
      Concat(a[1..], b, id);
    }
  }

  lemma Push(gs: seq<Guard>, g: Guard, id: nat)
    ensures Times(gs + [g], id) == Times(gs, id) + (if g.id == id then 1 else 0)
    ensures Bytes(gs + [g]) == Bytes(gs) + g.bytes
  {
    Concat(gs, [g], id);
    assert [g][1..] == [];
  }

  lemma CutOne(gs: seq<Guard>, k: nat, id: nat)
    requires k < |gs|
    ensures Times(gs, id) == Times(Cut(gs, k), id) + (if gs[k].id == id then 1 else 0)
    ensures Bytes(gs) == Bytes(Cut(gs, k)) + gs[k].bytes && |gs| == |Cut(gs, k)| + 1
  {
    assert gs == gs[..k] + gs[k..];
    Concat(gs[..k], gs[k..], id);
    Concat(gs[..k], gs[k + 1..], id);
  }

  lemma {:induction false} RidingPush(cs: seq<Command>, c: Command)
    ensures Riding(cs + [c]) == Riding(cs) + if c.Submission? then [c.guard] else []
  {
    if cs == [] {
      assert cs + [c] == [c] && [c][1..] == [];
    } else {
      assert (cs + [c])[0] == cs[0] && (cs + [c])[1..] == cs[1..] + [c];
      RidingPush(cs[1..], c);
    }
  }

  // ---- Phases ----------------------------------------------------------------------------

  ghost predicate Phases(s: State) {
    && |s.releasing| <= 1
    && (s.admits <==> !s.phase.Closing? && !s.phase.Acked?)
    && (s.phase.Retiring? ==> s.latched)
    && (s.latched && s.phase.Running? ==> s.pending == [])
    && (s.phase.Closing? ==> s.pending == [])
    && (s.phase.Acked? ==> s.channel == [] && s.pending == [] && s.releasing == [])
  }

  lemma PhasesCaller(l: Limits, s: State, step: Step)
    requires Phases(s) && Can(s, step) && ByCaller(step)
    ensures Phases(Do(l, s, step))
  {}

  lemma PhasesDriver(l: Limits, s: State, step: Step)
    requires Phases(s) && Can(s, step) && !ByCaller(step)
    ensures Phases(Do(l, s, step))
  {
    hide Do, Phases;
    if step.Dequeue? || step.DropCommand? {
      PhasesChannel(l, s, step);
    } else if step.Commit? {
      PhasesCommit(l, s, step);
    } else {
      PhasesRest(l, s, step);
    }
  }

  lemma PhasesChannel(l: Limits, s: State, step: Step)
    requires Phases(s) && Can(s, step) && (step.Dequeue? || step.DropCommand?)
    ensures Phases(Do(l, s, step))
  {}

  lemma PhasesCommit(l: Limits, s: State, step: Step)
    requires Phases(s) && Can(s, step) && step.Commit?
    ensures Phases(Do(l, s, step))
  {
    hide Find;
  }

  lemma PhasesRest(l: Limits, s: State, step: Step)
    requires Phases(s) && Can(s, step) && !ByCaller(step) && !step.Dequeue? && !step.DropCommand? && !step.Commit?
    ensures Phases(Do(l, s, step))
  {}

  predicate ByCaller(step: Step) {
    step.Call? || step.Acquire? || step.TrySend? || step.Cancel? || step.Wake? || step.CallReconfigure? || step.CallShutdown?
  }

  // ---- One place per submit ----------------------------------------------------------------

  /** The submit still owns its guard. */
  predicate Owned(u: Submit) { u.cell.Open? && (u.caller.Sending? || u.caller.Waiting? || u.caller.Cancelled?) }

  /** Submit `id` is unreserved, being sent, queued, pending or settled: the one place its guard
      is in is the one its call and its oneshot say. */
  ghost predicate Placed(s: State, id: nat) {
    var homes := Times(s.sending, id) + Times(Riding(s.channel), id) + Times(s.pending, id);
    if id < |s.subs| then
      var u := s.subs[id];
      && homes == (if Owned(u) then 1 else 0)
      && Times(s.sending, id) == (if u.caller.Sending? then 1 else 0)
      && Times(s.releasing, id) <= (if u.cell.Open? then 0 else 1)
      && (u.caller.Checked? || u.caller.Sending? ==> u.cell.Open?)
      && (u.caller == Done(Replied) ==> u.cell.Answered?)
      && (u.caller == Done(ReplyDropped) ==> u.cell.Dropped?)
      && (u.caller == Done(Retired) ==> !u.cell.Answered? && s.latched)
    else
      homes == 0 && Times(s.releasing, id) == 0
  }

  lemma PlacedCaller(l: Limits, s: State, step: Step, id: nat)
    requires Placed(s, id) && Can(s, step)
    requires ByCaller(step)
    requires step.TrySend? ==> Placed(s, s.sending[step.k].id)
    ensures Placed(Do(l, s, step), id)
  {
    hide Times, Bytes, Riding;
    match step
    case Acquire(a) => Push(s.sending, Guard(a, s.subs[a].len), id);
    case TrySend(k, full) =>
      var g := s.sending[k];
      CutOne(s.sending, k, id);
      CutOne(s.sending, k, g.id);
      RidingPush(s.channel, Submission(g));
      Push(Riding(s.channel), g, id);
    case CallReconfigure(_) => RidingPush(s.channel, Reconfigure(|s.goals|)); assert Riding(s.channel) + [] == Riding(s.channel);
    case CallShutdown => RidingPush(s.channel, Shutdown); assert Riding(s.channel) + [] == Riding(s.channel);
    case _ =>
  }

  ghost predicate Leaves(s: State, t: State, g: Guard, x: nat) {
    Times(Riding(s.channel), x) + Times(s.pending, x)
    == Times(Riding(t.channel), x) + Times(t.pending, x) + (if g.id == x then 1 else 0)
  }

  /** The driver settles the guard `g`, which leaves the list it was in. */
  lemma PlacedSettle(s: State, t: State, g: Guard, cell: Cell, id: nat)
    requires Placed(s, id) && Placed(s, g.id) && s.releasing == [] && !cell.Open?
    requires t.subs == SetCell(s, g.id, cell).subs && t.sending == s.sending && t.releasing == [g] && t.latched == s.latched
    requires Leaves(s, t, g, id) && Leaves(s, t, g, g.id)
    ensures Placed(t, id)
  {
    assert Times([g], id) == if g.id == id then 1 else 0 by { assert [g][1..] == []; }
    hide Times, Riding;
  }

  /** The guard a driver step settles. */
  ghost function Settled(s: State, step: Step): Option<Guard> {
    match step
    case Dequeue =>
      if s.channel != [] && s.channel[0].Submission? then
        var g := s.channel[0].guard;
        if s.latched || (g.id < |s.subs| && s.subs[g.id].caller.Cancelled?) then Some(g) else None
      else None
    case Commit(r) =>
      if 1 <= r <= |s.minted| then
        match Find(s.pending, s.minted[r - 1])
        case None => None
        case Some(k) => Some(s.pending[k])
      else None
    case Reap(k) => if k < |s.pending| then Some(s.pending[k]) else None
    case DropPending => if s.pending != [] then Some(s.pending[0]) else None
    case DropCommand => if s.channel != [] && s.channel[0].Submission? then Some(s.channel[0].guard) else None
    case _ => None
  }

  predicate Settles(step: Step) { step.Dequeue? || step.Commit? || step.Reap? || step.DropPending? || step.DropCommand? }

  lemma HeadRides(cs: seq<Command>, x: nat)
    requires cs != []
    ensures Times(Riding(cs), x)
         == Times(Riding(cs[1..]), x) + (if cs[0].Submission? && cs[0].guard.id == x then 1 else 0)
    ensures Bytes(Riding(cs)) == Bytes(Riding(cs[1..])) + (if cs[0].Submission? then cs[0].guard.bytes else 0)
    ensures |Riding(cs)| == |Riding(cs[1..])| + (if cs[0].Submission? then 1 else 0)
  {
    if cs[0].Submission? { Concat([cs[0].guard], Riding(cs[1..]), x); }
    else { assert [] + Riding(cs[1..]) == Riding(cs[1..]); }
  }

  /** A settling step changes the oneshot, and moves the guard to `releasing`. */
  lemma SettledShape(l: Limits, s: State, step: Step)
    requires Can(s, step) && Settles(step) && Settled(s, step).Some?
    ensures
      var t, g := Do(l, s, step), Settled(s, step).value;
      && t.subs == SetCell(s, g.id, if step.Commit? then Answered else Dropped).subs
      && t.sending == s.sending && t.releasing == [g] && s.releasing == []
      && t.count == s.count && t.bytes == s.bytes && t.latched == s.latched
  {
    hide Find;
  }

  /** Any other step of the kind leaves every guard where it is, or moves the head of the
      channel to the pending table. */
  lemma UnsettledShape(l: Limits, s: State, step: Step, x: nat)
    requires Can(s, step) && Settles(step) && Settled(s, step).None?
    ensures
      var t := Do(l, s, step);
      && t.subs == s.subs && t.sending == s.sending && t.releasing == s.releasing
      && t.count == s.count && t.bytes == s.bytes && t.latched == s.latched
      && Times(Riding(s.channel), x) + Times(s.pending, x) == Times(Riding(t.channel), x) + Times(t.pending, x)
      && Bytes(Riding(s.channel)) + Bytes(s.pending) == Bytes(Riding(t.channel)) + Bytes(t.pending)
      && |Riding(s.channel)| + |s.pending| == |Riding(t.channel)| + |t.pending|
  {
    hide Times, Bytes, Riding, Find;
    if step.Dequeue? || step.DropCommand? {
      HeadRides(s.channel, x);
      if s.channel[0].Submission? { Push(s.pending, s.channel[0].guard, x); }
    }
  }

  lemma PlacedDriver(l: Limits, s: State, step: Step, id: nat)
    requires Can(s, step) && Settles(step)
    requires Placed(s, id) && (Settled(s, step).Some? ==> Placed(s, Settled(s, step).value.id))
    ensures Placed(Do(l, s, step), id)
  {
    hide Times, Riding, Do, Can;
    match Settled(s, step)
    case Some(g) =>
      SettledShape(l, s, step);
      SettledLeaves(l, s, step, id);
      SettledLeaves(l, s, step, g.id);
      PlacedSettle(s, Do(l, s, step), g, if step.Commit? then Answered else Dropped, id);
    case None => UnsettledShape(l, s, step, id);
  }

  lemma SettledLeaves(l: Limits, s: State, step: Step, x: nat)
    requires Can(s, step) && Settles(step) && Settled(s, step).Some?
    ensures
      var t, g := Do(l, s, step), Settled(s, step).value;
      && Leaves(s, t, g, x)
      && Bytes(Riding(s.channel)) + Bytes(s.pending) == Bytes(Riding(t.channel)) + Bytes(t.pending) + g.bytes
      && |Riding(s.channel)| + |s.pending| == |Riding(t.channel)| + |t.pending| + 1
  {
    hide Times, Bytes, Riding, Find;
    match step
    case Dequeue => HeadRides(s.channel, x);
    case Commit(r) => CutOne(s.pending, Find(s.pending, s.minted[r - 1]).value, x);
    case Reap(k) => CutOne(s.pending, k, x);
    case DropPending => assert s.pending[1..] == Cut(s.pending, 0); CutOne(s.pending, 0, x);
    case DropCommand => HeadRides(s.channel, x);
  }

  lemma KeepsPlaced(l: Limits, s: State, step: Step, id: nat)
    requires Can(s, step) && forall x: nat :: Placed(s, x)
    ensures Placed(Do(l, s, step), id)
  {
    assert Placed(s, id);
    if Settles(step) {
      if Settled(s, step).Some? { assert Placed(s, Settled(s, step).value.id); }
      PlacedDriver(l, s, step, id);
    } else if step.Retire? || step.Drained? || step.Release? || step.Ack? {
    } else {
      if step.TrySend? { assert Placed(s, s.sending[step.k].id); }
      PlacedCaller(l, s, step, id);
    }
  }

  // ---- The budget ------------------------------------------------------------------------

  /** The counters are exactly the live guards. */
  ghost predicate Charged(l: Limits, s: State) {
    && s.count == |s.sending| + |Riding(s.channel)| + |s.pending| + |s.releasing|
    && s.bytes == Bytes(s.sending) + Bytes(Riding(s.channel)) + Bytes(s.pending) + Bytes(s.releasing)
    && s.count <= l.maxCount && s.bytes <= l.maxBytes
  }

  lemma ChargedCaller(l: Limits, s: State, step: Step)
    requires Charged(l, s) && Can(s, step)
    requires ByCaller(step)
    ensures Charged(l, Do(l, s, step))
  {
    hide Times, Bytes, Riding;
    match step
    case Acquire(a) => Push(s.sending, Guard(a, s.subs[a].len), 0);
    case TrySend(k, full) =>
      var g := s.sending[k];
      CutOne(s.sending, k, 0);
      RidingPush(s.channel, Submission(g));
      Push(Riding(s.channel), g, 0);
    case CallReconfigure(_) => RidingPush(s.channel, Reconfigure(|s.goals|)); assert Riding(s.channel) + [] == Riding(s.channel);
    case CallShutdown => RidingPush(s.channel, Shutdown); assert Riding(s.channel) + [] == Riding(s.channel);
    case _ =>
  }

  lemma ChargedDriver(l: Limits, s: State, step: Step)
    requires Charged(l, s) && Can(s, step) && Settles(step)
    ensures Charged(l, Do(l, s, step))
  {
    if Settled(s, step).Some? {
      var g := Settled(s, step).value;
      SettledShape(l, s, step);
      SettledLeaves(l, s, step, 0);
      assert Bytes([g]) == g.bytes by { assert [g][1..] == []; }
    } else {
      UnsettledShape(l, s, step, 0);
    }
    assert Bytes([]) == 0;
    hide Do, Times, Riding, Bytes;
  }

  lemma ChargedRest(l: Limits, s: State, step: Step)
    requires Charged(l, s) && Can(s, step) && (step.Retire? || step.Drained? || step.Release? || step.Ack?)
    ensures Charged(l, Do(l, s, step))
  {
    hide Riding;
  }

  /** Every guard carries its submit's own length. */
  ghost predicate Priced(s: State) {
    && (forall g :: g in s.sending || g in s.pending || g in s.releasing ==> Prices(s, g))
    && (forall c :: c in s.channel && c.Submission? ==> Prices(s, c.guard))
  }

  predicate Prices(s: State, g: Guard) { g.id < |s.subs| && g.bytes == s.subs[g.id].len }

  lemma PricedCaller(l: Limits, s: State, step: Step)
    requires Priced(s) && Can(s, step) && ByCaller(step)
    ensures Priced(Do(l, s, step))
  {
    hide Prices;
    PricesStay(l, s, step);
    if step.Acquire? { PricesNew(l, s, step.id); }
    if step.TrySend? { assert s.sending[step.k] in s.sending; }
  }

  lemma PricesNew(l: Limits, s: State, id: nat)
    requires id < |s.subs|
    ensures Prices(DoAcquire(l, s, id), Guard(id, s.subs[id].len))
  {}

  lemma PricesStay(l: Limits, s: State, step: Step)
    requires Can(s, step)
    ensures forall g: Guard :: Prices(s, g) ==> Prices(Do(l, s, step), g)
  {
    hide Do;
    if ByCaller(step) { CallerKeepsPrices(l, s, step); } else { DriverKeepsPrices(l, s, step); }
  }

  lemma CallerKeepsPrices(l: Limits, s: State, step: Step)
    requires Can(s, step) && ByCaller(step)
    ensures forall g: Guard :: Prices(s, g) ==> Prices(Do(l, s, step), g)
  {
    hide Find;
  }

  lemma DriverKeepsPrices(l: Limits, s: State, step: Step)
    requires Can(s, step) && !ByCaller(step)
    ensures forall g: Guard :: Prices(s, g) ==> Prices(Do(l, s, step), g)
  {
    hide Find;
  }

  lemma PricedDequeue(l: Limits, s: State, step: Step)
    requires Priced(s) && Can(s, step) && (step.Dequeue? || step.DropCommand?)
    ensures Priced(Do(l, s, step))
  {
    hide Prices;
    PricesStay(l, s, step);
    assert s.channel[0] in s.channel;
  }

  lemma PricedDriver(l: Limits, s: State, step: Step)
    requires Priced(s) && Can(s, step) && !ByCaller(step) && !step.Dequeue? && !step.DropCommand?
    ensures Priced(Do(l, s, step))
  {
    hide Prices;
    PricesStay(l, s, step);
    if step.Reap? { assert s.pending[step.k] in s.pending; }
  }

  // ---- What an outcome says ----------------------------------------------------------------

  /** The outcomes of a call whose command never entered the channel. */
  predicate Unsent(c: Caller) {
    c.Checked? || c.Sending? || c == Done(Busy) || c == Done(DriverGone) || c == Done(TooLarge)
  }

  /** How a call and its oneshot bear on what happened to its command: sent or not, minted only
      if sent, committed if answered. */
  ghost predicate Fated(s: State, id: nat) {
    && (id in s.minted ==> id in s.sent) && (id in s.committed ==> id in s.minted)
    && (Times(Riding(s.channel), id) > 0 ==> id in s.sent) && (Times(s.pending, id) > 0 ==> id in s.minted)
    && if id < |s.subs| then
         var u := s.subs[id];
         && (Unsent(u.caller) ==> id !in s.sent)
         && (u.caller.Waiting? || u.caller.Cancelled? || u.caller == Done(Replied) || u.caller == Done(ReplyDropped) ==>
               id in s.sent)
         && (u.caller == Done(Retired) ==> (id in s.sent <==> !u.cell.Open?))
         && (!u.cell.Open? ==> id in s.sent)
         && (u.cell.Answered? ==> id in s.committed)
       else id !in s.sent
  }

  lemma FatedTrySend(l: Limits, s: State, k: nat, full: bool, id: nat)
    requires Fated(s, id) && Can(s, TrySend(k, full)) && Placed(s, s.sending[k].id) && Fated(s, s.sending[k].id)
    ensures Fated(Do(l, s, TrySend(k, full)), id)
  {
    hide Times, Bytes, Riding;
    var g := s.sending[k];
    CutOne(s.sending, k, g.id);
    RidingPush(s.channel, Submission(g));
    Push(Riding(s.channel), g, id);
  }

  lemma FatedCaller(l: Limits, s: State, step: Step, id: nat)
    requires Fated(s, id) && Placed(s, id) && Can(s, step) && ByCaller(step) && !step.TrySend?
    ensures Fated(Do(l, s, step), id)
  {
    hide Times, Bytes, Riding;
    if step.CallReconfigure? { RidingPush(s.channel, Reconfigure(|s.goals|)); }
    if step.CallShutdown? { RidingPush(s.channel, Shutdown); }
    assert Riding(s.channel) + [] == Riding(s.channel);
  }

  lemma FatedDequeue(l: Limits, s: State, id: nat)
    requires Fated(s, id) && Can(s, Dequeue)
    ensures Fated(Do(l, s, Dequeue), id)
  {
    hide Times, Bytes, Riding;
    HeadRides(s.channel, id);
    if s.channel[0].Submission? { Push(s.pending, s.channel[0].guard, id); }
  }

  lemma FatedCommit(l: Limits, s: State, r: nat, id: nat)
    requires Fated(s, id) && Can(s, Commit(r))
    ensures Fated(Do(l, s, Commit(r)), id)
  {
    hide Times, Bytes, Riding, Find;
    var found := Find(s.pending, s.minted[r - 1]);
    if found.Some? { CutOne(s.pending, found.value, id); }
  }

  lemma FatedDrop(l: Limits, s: State, step: Step, id: nat)
    requires Fated(s, id) && Can(s, step) && (step.Reap? || step.DropPending?)
    ensures Fated(Do(l, s, step), id)
  {
    hide Times, Bytes, Riding;
    match step
    case Reap(k) => CutOne(s.pending, k, id);
    case DropPending => assert s.pending[1..] == Cut(s.pending, 0); CutOne(s.pending, 0, id);
  }

  lemma FatedDropCommand(l: Limits, s: State, id: nat)
    requires Fated(s, id) && Can(s, DropCommand)
    ensures Fated(Do(l, s, DropCommand), id)
  {
    hide Times, Bytes, Riding;
    HeadRides(s.channel, id);
  }

  lemma FatedRest(l: Limits, s: State, step: Step, id: nat)
    requires Fated(s, id) && Can(s, step) && (step.Retire? || step.Drained? || step.Release? || step.Ack?)
    ensures Fated(Do(l, s, step), id)
  {
    hide Times, Riding;
  }

  lemma KeepsFated(l: Limits, s: State, step: Step, id: nat)
    requires Can(s, step) && (forall x: nat :: Placed(s, x)) && (forall x: nat :: Fated(s, x))
    ensures Fated(Do(l, s, step), id)
  {
    hide Fated, Placed, Do;
    assert Fated(s, id) && Placed(s, id);
    if step.TrySend? {
      assert Placed(s, s.sending[step.k].id) && Fated(s, s.sending[step.k].id);
      FatedTrySend(l, s, step.k, step.full, id);
    } else if ByCaller(step) {
      FatedCaller(l, s, step, id);
    } else if step.Dequeue? {
      FatedDequeue(l, s, id);
    } else if step.Commit? {
      FatedCommit(l, s, step.request, id);
    } else if step.Reap? || step.DropPending? {
      FatedDrop(l, s, step, id);
    } else if step.DropCommand? {
      FatedDropCommand(l, s, id);
    } else {
      FatedRest(l, s, step, id);
    }
  }

  // ---- Every run -------------------------------------------------------------------------

  ghost predicate Inv(l: Limits, s: State) {
    Phases(s) && Charged(l, s) && Priced(s) && (forall id: nat :: Placed(s, id)) && forall id: nat :: Fated(s, id)
  }

  lemma KeepsInv(l: Limits, s: State, step: Step)
    requires Inv(l, s) && Can(s, step)
    ensures Inv(l, Do(l, s, step))
  {
    if ByCaller(step) {
      PhasesCaller(l, s, step);
      PricedCaller(l, s, step);
    } else {
      PhasesDriver(l, s, step);
      if step.Dequeue? || step.DropCommand? { PricedDequeue(l, s, step); } else { PricedDriver(l, s, step); }
    }
    if Settles(step) {
      ChargedDriver(l, s, step);
    } else if step.Retire? || step.Drained? || step.Release? || step.Ack? {
      ChargedRest(l, s, step);
    } else {
      ChargedCaller(l, s, step);
    }
    hide Placed, Fated, Phases, Charged, Priced, Do, Can;
    forall id: nat ensures Placed(Do(l, s, step), id) { KeepsPlaced(l, s, step, id); }
    forall id: nat ensures Fated(Do(l, s, step), id) { KeepsFated(l, s, step, id); }
  }

  ghost predicate Runs(l: Limits, s: State, steps: seq<Step>)
    decreases steps
  {
    steps == [] || (Can(s, steps[0]) && Runs(l, Do(l, s, steps[0]), steps[1..]))
  }

  ghost function Final(l: Limits, s: State, steps: seq<Step>): State
    requires Runs(l, s, steps)
    decreases steps
  {
    if steps == [] then s else Final(l, Do(l, s, steps[0]), steps[1..])
  }

  lemma {:induction false} RunInv(l: Limits, s: State, steps: seq<Step>)
    requires Inv(l, s) && Runs(l, s, steps)
    ensures Inv(l, Final(l, s, steps))
    decreases steps
  {
    hide Inv, Can, Do;
    if steps != [] {
      KeepsInv(l, s, steps[0]);
      RunInv(l, Do(l, s, steps[0]), steps[1..]);
    }
  }

  ghost predicate Reached(l: Limits, s: State) {
    exists steps: seq<Step> :: Runs(l, Init(), steps) && Final(l, Init(), steps) == s
  }

  lemma ReachedInv(l: Limits, s: State)
    requires Reached(l, s)
    ensures Inv(l, s)
  {
    var steps :| Runs(l, Init(), steps) && Final(l, Init(), steps) == s;
    assert Inv(l, Init());
    RunInv(l, Init(), steps);
  }

  /** CONSERVATION: in every reachable state each submit is in exactly one of unreserved, being
      sent, queued, pending or settled, and the budget is exactly the guards alive. */
  lemma Conserved(l: Limits, s: State, id: nat)
    requires Reached(l, s) && id < |s.subs|
    ensures
      var u := s.subs[id];
      var unreserved := if u.caller.Checked? || (u.caller.Done? && u.cell.Open?) then 1 else 0;
      var settled := if u.cell.Open? then 0 else 1;
      unreserved + Times(s.sending, id) + Times(Riding(s.channel), id) + Times(s.pending, id) + settled == 1
    ensures s.count == |s.sending| + |Riding(s.channel)| + |s.pending| + |s.releasing|
    ensures s.bytes == Bytes(s.sending) + Bytes(Riding(s.channel)) + Bytes(s.pending) + Bytes(s.releasing)
    ensures 0 <= s.count <= l.maxCount && 0 <= s.bytes <= l.maxBytes
  {
    ReachedInv(l, s);
    assert Placed(s, id);
  }

  /** WHAT AN OUTCOME SAYS, in every reachable state: `Busy`, `DriverGone` and `TooLarge` only of a
      submit that never entered the channel, hence was never minted; `ReplyDropped` only of one
      that did; a reply only of one whose request was committed; and `Retired` of one that
      entered exactly when its oneshot was dropped. */
  lemma OutcomeIsHonest(l: Limits, s: State, id: nat)
    requires Reached(l, s) && id < |s.subs|
    ensures
      var c := s.subs[id].caller;
      && (c == Done(Busy) || c == Done(DriverGone) || c == Done(TooLarge) ==>
            id !in s.sent && id !in s.minted && id !in s.committed)
      && (c == Done(ReplyDropped) ==> id in s.sent)
      && (c == Done(Replied) ==> id in s.sent && id in s.minted && id in s.committed)
      && (c == Done(Retired) ==> (id in s.sent <==> s.subs[id].cell.Dropped?))
    ensures Times(Riding(s.channel), id) > 0 ==> id in s.sent
  {
    ReachedInv(l, s);
    assert Fated(s, id) && Placed(s, id);
  }

  /** Why a submit was refused: its size and the closed channel. */
  ghost predicate Reasoned(l: Limits, s: State, id: nat) {
    id < |s.subs| ==>
      var u := s.subs[id];
      && (u.caller == Done(TooLarge) ==> u.len > l.maxBody)
      && (u.len > l.maxBody ==> u.caller == Done(TooLarge) || u.caller == Done(Retired))
      && (u.caller == Done(DriverGone) ==> !s.admits)
  }

  lemma ReasonedCaller(l: Limits, s: State, step: Step, id: nat)
    requires Reasoned(l, s, id) && Can(s, step) && ByCaller(step)
    requires step.TrySend? ==> Reasoned(l, s, s.sending[step.k].id) && Placed(s, s.sending[step.k].id)
    ensures Reasoned(l, Do(l, s, step), id)
  {
    hide Times, Bytes, Riding, Find;
    if step.TrySend? { CutOne(s.sending, step.k, s.sending[step.k].id); }
  }

  lemma ReasonedDriver(l: Limits, s: State, step: Step, id: nat)
    requires Reasoned(l, s, id) && Can(s, step) && !ByCaller(step)
    ensures Reasoned(l, Do(l, s, step), id)
  {
    hide Times, Bytes, Riding, Find;
  }

  lemma {:induction false} RunReasoned(l: Limits, s: State, steps: seq<Step>)
    requires Inv(l, s) && Runs(l, s, steps) && forall id: nat :: Reasoned(l, s, id)
    ensures forall id: nat :: Reasoned(l, Final(l, s, steps), id)
    decreases steps
  {
    hide Do, Reasoned, Fated, Placed;
    if steps != [] {
      var step := steps[0];
      forall id: nat ensures Reasoned(l, Do(l, s, step), id) {
        if ByCaller(step) { ReasonedCaller(l, s, step, id); } else { ReasonedDriver(l, s, step, id); }
      }
      KeepsInv(l, s, step);
      RunReasoned(l, Do(l, s, step), steps[1..]);
    }
  }

  /** WHY A SUBMIT IS REFUSED, in every reachable state: `TooLarge` only a body over the bound, and
      such a body is never anything but `TooLarge` or, on a retired node, `Retired`; `DriverGone`
      only once the channel is closed. */
  lemma RefusalReasons(l: Limits, s: State, id: nat)
    requires Reached(l, s) && id < |s.subs|
    ensures
      var u := s.subs[id];
      && (u.caller == Done(TooLarge) ==> u.len > l.maxBody)
      && (u.len > l.maxBody ==> u.caller == Done(TooLarge) || (u.caller == Done(Retired) && s.latched))
      && (u.caller == Done(DriverGone) ==> !s.admits)
  {
    hide Inv, Runs;
    var steps :| Runs(l, Init(), steps) && Final(l, Init(), steps) == s;
    InitInv(l);
    RunReasoned(l, Init(), steps);
    assert Reasoned(l, s, id);
    if s.subs[id].caller == Done(Retired) { RetiredMeansLatched(l, s, id); }
  }

  lemma InitInv(l: Limits)
    ensures Inv(l, Init())
  {}

  /** A fresh call is let on exactly when the node is not retired and the body is within the
      bound. */
  lemma CallExactly(l: Limits, s: State, len: nat)
    ensures
      var t := Do(l, s, Call(len));
      && |t.subs| == |s.subs| + 1 && t.subs[..|s.subs|] == s.subs && t.subs[|s.subs|].len == len
      && (t.subs[|s.subs|].caller.Checked? <==> !s.latched && len <= l.maxBody)
      && (t.subs[|s.subs|].caller == Done(TooLarge) <==> !s.latched && len > l.maxBody)
      && (t.subs[|s.subs|].caller == Done(Retired) <==> s.latched)
      && t == s.(subs := t.subs)
  {}

  /** THE CHANNEL CLOSES only behind a shutdown: nothing but a dequeued shutdown starts the
      teardown, only its drain closes the channel, and a retirement's drain leaves the driver
      running. */
  lemma ClosesOnlyOnShutdown(l: Limits, s: State, step: Step)
    requires Can(s, step)
    ensures
      var t := Do(l, s, step);
      && (s.admits && !t.admits ==> step.Drained? && s.phase.Draining?)
      && (!s.phase.Draining? && t.phase.Draining? ==> step.Dequeue? && s.channel[0].Shutdown?)
      && (step.Drained? && s.phase.Retiring? ==> t == s.(phase := Running))
      && (step.Drained? && s.phase.Draining? ==> !t.admits)
  {
    hide Find;
  }

  /** GOALS: on a retired node a reconfiguration is refused as such, when it is called and, if it
      was queued before, when it is dequeued; otherwise a queued one enters. */
  lemma GoalsOfRetired(l: Limits, s: State, full: bool, g: nat)
    ensures
      var t := Do(l, s, CallReconfigure(full));
      && |t.goals| == |s.goals| + 1
      && (t.goals[|s.goals|].RefusedRetired? <==> s.latched)
      && (t.goals[|s.goals|].Queued? <==> !s.latched && s.admits && !full)
    ensures Can(s, Dequeue) && s.channel[0] == Reconfigure(g) && g < |s.goals| ==>
      Do(l, s, Dequeue).goals == s.goals[g := if s.latched then RefusedRetired else Entered]
  {}

  /** A command dequeued enters consensus exactly if the node is not retired and its caller still
      waits; otherwise its oneshot is dropped. */
  lemma DequeueExactly(l: Limits, s: State, g: Guard)
    requires Inv(l, s) && Can(s, Dequeue) && s.channel[0] == Submission(g)
    ensures g.id < |s.subs|
    ensures
      var t := Do(l, s, Dequeue);
      if !s.latched && !s.subs[g.id].caller.Cancelled?
      then t.minted == s.minted + [g.id] && t.pending == s.pending + [g] && t.subs == s.subs
      else t.minted == s.minted && t.pending == s.pending && t.subs[g.id].cell.Dropped?
  {
    assert Placed(s, g.id);
    assert s.channel == [s.channel[0]] + s.channel[1..];
    RidingHead(s.channel, g);
  }

  lemma RidingHead(channel: seq<Command>, g: Guard)
    requires channel != [] && channel[0] == Submission(g)
    ensures Times(Riding(channel), g.id) > 0
  {}

  /** A commit answers the submit behind it if it is still pending, and touches no other. */
  lemma CommitExactly(l: Limits, s: State, request: nat, id: nat)
    requires Inv(l, s) && Can(s, Commit(request)) && id < |s.subs|
    ensures
      var t := Do(l, s, Commit(request));
      && |t.subs| == |s.subs| && t.subs[id].caller == s.subs[id].caller
      && t.subs[id].cell == if id == s.minted[request - 1] && Times(s.pending, id) > 0 then Answered else s.subs[id].cell
  {
    FindExactly(s.pending, s.minted[request - 1]);
  }

  lemma {:induction false} FindExactly(gs: seq<Guard>, id: nat)
    ensures Find(gs, id).Some? <==> Times(gs, id) > 0
  {
    if gs != [] { FindExactly(gs[1..], id); }
  }

  /** A CANCELLED SUBMIT NEVER ENTERS: once its caller has left before the driver took the command,
      no run mints a request for it. */
  lemma {:induction false} CancelledNeverEnters(l: Limits, s: State, steps: seq<Step>, id: nat)
    requires Inv(l, s) && Runs(l, s, steps) && id < |s.subs| && s.subs[id].caller.Cancelled? && id !in s.minted
    ensures id !in Final(l, s, steps).minted
    decreases steps
  {
    hide Do, Can, Inv;
    if steps != [] {
      CancelledStays(l, s, steps[0], id);
      KeepsInv(l, s, steps[0]);
      CancelledNeverEnters(l, Do(l, s, steps[0]), steps[1..], id);
    }
  }

  lemma CancelledStays(l: Limits, s: State, step: Step, id: nat)
    requires Inv(l, s) && Can(s, step) && id < |s.subs| && s.subs[id].caller.Cancelled? && id !in s.minted
    ensures
      var t := Do(l, s, step);
      id < |t.subs| && t.subs[id].caller.Cancelled? && id !in t.minted
  {
    hide Do, Fated, Placed, Phases, Priced;
    if ByCaller(step) {
      if step.TrySend? { assert Placed(s, s.sending[step.k].id); }
      CancelledCaller(l, s, step, id);
    } else {
      CancelledDriver(l, s, step, id);
    }
  }

  lemma CancelledCaller(l: Limits, s: State, step: Step, id: nat)
    requires Can(s, step) && ByCaller(step) && (step.TrySend? ==> Placed(s, s.sending[step.k].id))
    requires id < |s.subs| && s.subs[id].caller.Cancelled? && id !in s.minted
    ensures
      var t := Do(l, s, step);
      id < |t.subs| && t.subs[id].caller.Cancelled? && id !in t.minted
  {
    hide Times, Bytes, Riding;
    if step.TrySend? { CutOne(s.sending, step.k, s.sending[step.k].id); }
  }

  lemma CancelledDriver(l: Limits, s: State, step: Step, id: nat)
    requires Can(s, step) && !ByCaller(step)
    requires id < |s.subs| && s.subs[id].caller.Cancelled? && id !in s.minted
    ensures
      var t := Do(l, s, step);
      id < |t.subs| && t.subs[id].caller.Cancelled? && id !in t.minted
  {
    hide Do;
    CallersStay(l, s, step, id);
    if step.Dequeue? { CancelledDequeue(l, s, id); } else { MintedStays(l, s, step); }
  }

  lemma CancelledDequeue(l: Limits, s: State, id: nat)
    requires Can(s, Dequeue) && id < |s.subs| && s.subs[id].caller.Cancelled? && id !in s.minted
    ensures id !in Do(l, s, Dequeue).minted
  {}

  lemma MintedStays(l: Limits, s: State, step: Step)
    requires Can(s, step) && !ByCaller(step) && !step.Dequeue?
    ensures Do(l, s, step).minted == s.minted
  {
    hide Find;
  }

  /** The driver settles oneshots; what a call is doing only the call changes. */
  lemma CallersStay(l: Limits, s: State, step: Step, id: nat)
    requires Can(s, step) && !ByCaller(step) && id < |s.subs|
    ensures id < |Do(l, s, step).subs| && Do(l, s, step).subs[id].caller == s.subs[id].caller
  {
    hide Find;
  }

  lemma RetiredMeansLatched(l: Limits, s: State, id: nat)
    requires Reached(l, s) && id < |s.subs| && s.subs[id].caller == Done(Retired)
    ensures s.latched
  {
    ReachedInv(l, s);
    assert Placed(s, id);
  }

  /** AFTER THE ACK: nothing is queued or pending, every awaiting caller's oneshot is settled,
      and the only guards left are of callers whose send will be refused. */
  lemma NothingSurvivesTheAck(l: Limits, s: State, id: nat)
    requires Reached(l, s) && s.phase.Acked? && id < |s.subs|
    ensures s.channel == [] && s.pending == [] && s.releasing == [] && s.count == |s.sending|
    ensures s.subs[id].caller.Waiting? ==> !s.subs[id].cell.Open?
    ensures forall k, full :: 0 <= k < |s.sending| && s.sending[k].id < |s.subs| ==>
      DoTrySend(s, k, full).channel == [] && DoTrySend(s, k, full).subs[s.sending[k].id].caller == Done(DriverGone)
  {
    ReachedInv(l, s);
    assert Placed(s, id);
  }

  /** What may become of a submit once the node is retired: an unanswered oneshot is never
      answered, a settled one never changes, and an awaiting caller ends with its answer if it
      has one and as `Retired` if not. */
  predicate Fate(u: Submit, v: Submit) {
    && (v.cell.Answered? ==> u.cell.Answered?)
    && (!u.cell.Open? ==> v.cell == u.cell)
    && (u.caller.Done? || u.caller.Cancelled? ==> v.caller == u.caller)
    && (v.caller == Done(ReplyDropped) ==> u.caller == Done(ReplyDropped))
    && (u.caller.Waiting? ==>
          v.caller.Waiting? || v.caller.Cancelled? || v.caller == Done(if u.cell.Answered? then Replied else Retired))
  }

  lemma RetiredCaller(l: Limits, s: State, step: Step, id: nat)
    requires Can(s, step) && s.latched && id < |s.subs| && !Settles(step)
    requires forall x: nat :: Placed(s, x)
    ensures id < |Do(l, s, step).subs| && Fate(s.subs[id], Do(l, s, step).subs[id])
  {
    hide Times, Riding, Bytes, Find;
    assert Placed(s, id);
    if step.TrySend? {
      var g := s.sending[step.k];
      assert Placed(s, g.id);
      CutOne(s.sending, step.k, g.id);
    }
  }

  lemma RetiredDriver(l: Limits, s: State, step: Step, id: nat)
    requires Can(s, step) && s.latched && Phases(s) && id < |s.subs| && Settles(step)
    requires forall x: nat :: Placed(s, x)
    ensures id < |Do(l, s, step).subs| && Fate(s.subs[id], Do(l, s, step).subs[id])
  {
    hide Times, Riding, Bytes, Find;
    if Settled(s, step).Some? {
      var g := Settled(s, step).value;
      assert Placed(s, g.id);
      SettledLeaves(l, s, step, g.id);
    }
  }

  /** Nothing is minted, added to the pending table or handed to the executor. */
  ghost predicate Quiet(s: State, t: State) {
    && t.latched && t.minted == s.minted && |t.pending| <= |s.pending| && |s.subs| <= |t.subs|
    && (forall g :: 0 <= g < |t.goals| && t.goals[g].Entered? ==> g < |s.goals| && s.goals[g].Entered?)
  }

  lemma RetiredQuiet(l: Limits, s: State, step: Step)
    requires Can(s, step) && s.latched
    ensures Quiet(s, Do(l, s, step))
  {
    hide Do;
    if ByCaller(step) { CallerQuiet(l, s, step); } else { DriverQuiet(l, s, step); }
  }

  lemma CallerQuiet(l: Limits, s: State, step: Step)
    requires Can(s, step) && s.latched && ByCaller(step)
    ensures Quiet(s, Do(l, s, step))
  {
    hide Find;
  }

  lemma DriverQuiet(l: Limits, s: State, step: Step)
    requires Can(s, step) && s.latched && !ByCaller(step)
    ensures Quiet(s, Do(l, s, step))
  {
    hide Find;
  }

  /** RETIREMENT IS RACE-FREE: from the latch on, whatever is interleaved, no submit enters the
      pending table or consensus and no goal the executor; a submit awaiting an answer it has
      not got ends as `Retired`, never as `ReplyDropped` and never as a late reply. */
  lemma {:induction false} RetirementIsRaceFree(l: Limits, s: State, steps: seq<Step>, id: nat)
    requires Inv(l, s) && s.latched && Runs(l, s, steps) && id < |s.subs|
    ensures Quiet(s, Final(l, s, steps))
    ensures id < |Final(l, s, steps).subs| && Fate(s.subs[id], Final(l, s, steps).subs[id])
    decreases steps
  {
    if steps != [] {
      if Settles(steps[0]) { RetiredDriver(l, s, steps[0], id); } else { RetiredCaller(l, s, steps[0], id); }
      RetiredQuiet(l, s, steps[0]);
      KeepsInv(l, s, steps[0]);
      hide Do, Can, Inv;
      RetirementIsRaceFree(l, Do(l, s, steps[0]), steps[1..], id);
    }
  }

  /** ... and its budget is freed: once the drain is over and the channel read out, the only
      guards left are in callers about to be gated. */
  lemma RetirementFreesBudget(l: Limits, s: State)
    requires Reached(l, s) && s.latched && s.phase.Running? && s.channel == [] && s.releasing == []
    ensures s.pending == [] && s.count == |s.sending| && s.bytes == Bytes(s.sending)
  {
    ReachedInv(l, s);
  }

  // ---- The sole submitter ------------------------------------------------------------------

  /** Nobody else is between reserving and settling. */
  ghost predicate Alone(s: State) { s.sending == [] && Riding(s.channel) == [] && s.pending == [] }

  /** WHEN A SOLE SUBMITTER IS REFUSED BUSY: a body within the limits, submitted while no other
      submit is outstanding, is refused by the budget exactly when the previous delivery has
      answered but not yet dropped its guard, and the two do not fit side by side. */
  lemma SoleSubmitterBusy(l: Limits, s: State, id: nat)
    requires Reached(l, s) && Alone(s) && Can(s, Acquire(id))
    requires s.subs[id].len <= l.maxBytes && l.maxCount >= 1
    ensures DoAcquire(l, s, id).subs[id].caller == Done(Busy)
       <==> s.releasing != [] && (l.maxCount < 2 || s.releasing[0].bytes + s.subs[id].len > l.maxBytes)
  {
    ReachedInv(l, s);
    assert |s.releasing| == 1 ==> s.releasing[1..] == [];
  }

  /** So, checkably before any call: with room for two submits and for any two bodies side by
      side, a sole submitter is never refused by the budget. */
  lemma RoomForTwoIsEnough(l: Limits, s: State, id: nat, largest: nat)
    requires Reached(l, s) && Alone(s) && Can(s, Acquire(id))
    requires l.maxCount >= 2 && 2 * largest <= l.maxBytes && forall u :: u in s.subs ==> u.len <= largest
    ensures DoAcquire(l, s, id).subs[id].caller.Sending?
  {
    assert s.subs[id] in s.subs;
    ReachedInv(l, s);
    if s.releasing != [] {
      assert s.releasing[0] in s.releasing && Prices(s, s.releasing[0]);
      assert s.subs[s.releasing[0].id] in s.subs;
    }
    SoleSubmitterBusy(l, s, id);
  }

  // It does happen: one caller, one body at a time, each within the limits.

  function BusySteps(len: nat): seq<Step> {
    [Call(len), Acquire(0), TrySend(0, false), Dequeue, Commit(1), Wake(0), Call(len), Acquire(1)]
  }

  /** The state before step `i` of that run. */
  function BusyState(len: nat, i: nat): State {
    var g, u := Guard(0, len), Submit(len, Checked, Open);
    var v := Submit(len, Done(Replied), Answered);
    var held := Init().(count := 1, bytes := len);
    var gone := held.(minted := [0], sent := [0], committed := [0], releasing := [g]);
    if i == 0 then Init()
    else if i == 1 then Init().(subs := [u])
    else if i == 2 then held.(subs := [u.(caller := Sending)], sending := [g])
    else if i == 3 then held.(subs := [u.(caller := Waiting)], channel := [Submission(g)], sent := [0])
    else if i == 4 then held.(subs := [u.(caller := Waiting)], minted := [0], sent := [0], pending := [g])
    else if i == 5 then gone.(subs := [u.(caller := Waiting, cell := Answered)])
    else if i == 6 then gone.(subs := [v])
    else if i == 7 then gone.(subs := [v, u])
    else gone.(subs := [v, u.(caller := Done(Busy))])
  }

  lemma BusyStepsEarly(len: nat, i: nat)
    requires i < 4
    ensures
      var l, s, step := Limits(1, len, len), BusyState(len, i), BusySteps(len)[i];
      Can(s, step) && Do(l, s, step) == BusyState(len, i + 1)
  {}

  lemma BusyStepsLate(len: nat, i: nat)
    requires 4 <= i < 8
    ensures
      var l, s, step := Limits(1, len, len), BusyState(len, i), BusySteps(len)[i];
      Can(s, step) && Do(l, s, step) == BusyState(len, i + 1)
  {
    if i == 4 { assert Find([Guard(0, len)], 0) == Some(0); }
  }

  lemma {:induction false} BusyRun(len: nat, i: nat)
    requires i <= 8
    ensures
      var l, s, rest := Limits(1, len, len), BusyState(len, i), BusySteps(len)[i..];
      Runs(l, s, rest) && Final(l, s, rest) == BusyState(len, 8)
    decreases 8 - i
  {
    hide BusyState, Can, Do;
    if i < 8 {
      if i < 4 { BusyStepsEarly(len, i); } else { BusyStepsLate(len, i); }
      BusyRun(len, i + 1);
      assert BusySteps(len)[i..][1..] == BusySteps(len)[i + 1..];
      Unroll(Limits(1, len, len), BusyState(len, i), BusySteps(len)[i..]);
    }
  }

  /** An instance: the second submit of a lone caller is refused. */
  lemma SoleSubmitterCanBeBusy(len: nat)
    ensures
      var l := Limits(1, len, len);
      && Runs(l, Init(), BusySteps(len))
      && Final(l, Init(), BusySteps(len)).subs == [Submit(len, Done(Replied), Answered), Submit(len, Done(Busy), Open)]
  {
    BusyRun(len, 0);
    assert BusySteps(len)[0..] == BusySteps(len);
  }

  lemma Unroll(l: Limits, s: State, steps: seq<Step>)
    requires steps != [] && Can(s, steps[0]) && Runs(l, Do(l, s, steps[0]), steps[1..])
    ensures Runs(l, s, steps) && Final(l, s, steps) == Final(l, Do(l, s, steps[0]), steps[1..])
  {}
}
