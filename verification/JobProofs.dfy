/** What a job guarantees from its start to its one reply, whatever it is fed. */
module JobProofs {
  import opened Wrappers
  import opened Membership
  import opened Planner
  import opened PlannerProofs
  import opened Executor
  import opened ExecutorProofs
  import opened Job

  // ---- What holds between advances ---------------------------------------------------------

  function FirstMemory(turns: seq<Turn>): Memory {
    if turns == [] then Memory({}, false, None) else turns[0].memory
  }

  /** The turns are a chain, and the executor is parked where its last turn left it. */
  ghost predicate Threaded(g: Goal, j: Job) {
    && Chain(g, FirstMemory(j.turns), j.turns) && !FirstMemory(j.turns).committed
    && match j.parked
       case Unpolled => j.turns == []
       case Ended => true
       case OnReply(step, m) => Awaits(g, j.turns, step, m)
       case OnBackoff(Some(step), m) => Awaits(g, j.turns, step, m)
       case OnBackoff(None, m) => j.turns != [] && Leads(g, j.turns[|j.turns| - 1], m)
  }

  /** The last turn proposed `step`, whose install is still to come. */
  ghost predicate Awaits(g: Goal, turns: seq<Turn>, step: Delta, m: Memory) {
    && turns != []
    && var last := turns[|turns| - 1];
    && last.action == Propose(step) && m == Remember(g, last.memory, last.reading, last.action)
  }

  /** One reply, sent exactly when the job ends; a proposal outstanding is the last one carried,
      and the id awaited is its step's successor of the membership it was carried against; a
      verdict of `Retry` is waiting exactly when that last one was refused transiently, one of
      `Failed` exactly when it was refused for good; and the stall on record is the latest since
      the latest install. */
  ghost predicate Settled(j: Job) {
    && j.slot.None?
    && |j.replies| == (if j.parked.Ended? then 1 else 0)
    && (!j.parked.Ended? ==>
          && (j.outcome.Some? ==> j.parked.OnReply?)
          && (j.parked.Unpolled? || j.tick)
          && (j.parked.OnBackoff? ==> j.parked.repost.None?)
          && (j.parked.OnReply? ==> j.deliveries != [] && Last(j).step == j.parked.step)
          && (j.expected.Some? ==> j.parked.OnReply? && j.outcome.None?)
          && (j.parked.OnReply? && j.outcome.None? ==> Last(j).verdict.Accepted? && j.expected == Predicted(Last(j)))
          && (j.outcome == Some(Retry) <==> j.deliveries != [] && Last(j).verdict.Transient?)
          && (j.outcome == Some(Failed) <==> j.deliveries != [] && Last(j).verdict.Fatal?)
          && j.outcome != Some(Installed) && j.stall == LatestStall(j.turns))
  }

  function Last(j: Job): Delivery
    requires j.deliveries != []
  {
    j.deliveries[|j.deliveries| - 1]
  }

  /** The id a carried step installs, if it applies at all. */
  function Predicted(d: Delivery): Option<ConfigId> {
    match ApplyDelta(d.live, d.step)
    case Ok(n) => Some(n.configId)
    case Err(_) => None
  }

  /** Every acknowledgement carried was given and needed. */
  ghost predicate Acknowledged(g: Goal, j: Job) {
    forall d :: d in j.deliveries ==> d.ack == (g.ack && AckAttached(d.live, d.step))
  }

  /** A progress report has a non-empty plan that is still the plan from its membership, or a
      reason why there is none, and not both. */
  ghost predicate HonestProgress(g: Goal, p: Progress) {
    if p.remaining.Some? then
      p.reason.None? && p.remaining.value != [] && Plan(p.live, g.target) == Ok(p.remaining.value)
    else
      p.reason.Some? && (Plan(p.live, g.target) == Err(p.reason.value) || p.reason.value.MemberConcurrentlyRemoved?)
  }

  ghost predicate HonestReply(g: Goal, turns: seq<Turn>, r: Result<(), RunError>) {
    match r
    case Ok(_) => true
    case Err(InvalidTarget(_)) => turns != [] && turns[|turns| - 1].action == Finish(r)
    case Err(PlanConflict(p)) => HonestProgress(g, p)
    case Err(DemotedSelf(p)) => HonestProgress(g, p)
    case Err(InsufficientLiveness(p, unproven)) => HonestProgress(g, p) && LatestStall(turns) == Some(unproven)
    case Err(Timeout(p)) => HonestProgress(g, p) && (p.remaining.Some? ==> LatestStall(turns).None?)
    case Err(_) => true
  }

  ghost predicate Honest(g: Goal, j: Job) { forall r :: r in j.replies ==> HonestReply(g, j.turns, r) }

  ghost predicate Inv(g: Goal, j: Job) { Threaded(g, j) && Settled(j) && Acknowledged(g, j) && Honest(g, j) }

  // ---- The executor's log ------------------------------------------------------------------

  lemma ChainPush(g: Goal, turns: seq<Turn>, t: Turn)
    requires Chain(g, FirstMemory(turns), turns) && Decided(g, t)
    requires turns != [] ==> Leads(g, turns[|turns| - 1], t.memory)
    ensures Chain(g, FirstMemory(turns + [t]), turns + [t])
  {
    hide Decided, Leads;
    var all := turns + [t];
    forall k | 0 <= k < |all| - 1 ensures Leads(g, all[k], all[k + 1].memory) {
      if k < |turns| - 1 { assert Leads(g, turns[k], turns[k + 1].memory); }
    }
  }

  lemma DecideIgnoresInstalls(g: Goal, m: Memory, o: Reading, b: bool)
    ensures Decide(g, m, o) == Decide(g, m, o.(installs := b))
    ensures Observe(g, m, o) == Observe(g, m, o.(installs := b))
  {
    hide Plan, ShrinkCandidates, Pick;
  }

  lemma ChainMark(g: Goal, turns: seq<Turn>, step: Delta, m: Memory)
    requires Chain(g, FirstMemory(turns), turns) && Awaits(g, turns, step, m)
    ensures
      var marked := MarkInstalled(turns);
      && Chain(g, FirstMemory(marked), marked) && FirstMemory(marked) == FirstMemory(turns)
      && |marked| == |turns| && Leads(g, marked[|marked| - 1], m)
  {
    hide Decide;
    var marked, n := MarkInstalled(turns), |turns| - 1;
    var last := turns[n];
    assert Decided(g, last);
    DecideIgnoresInstalls(g, last.memory, last.reading, true);
    forall k | 0 <= k < |marked| ensures Decided(g, marked[k]) {
      if k < n { assert Decided(g, turns[k]); }
    }
    forall k | 0 <= k < |marked| - 1 ensures Leads(g, marked[k], marked[k + 1].memory) {
      assert Leads(g, turns[k], turns[k + 1].memory);
    }
  }

  // ---- Polling ---------------------------------------------------------------------------

  /** What a poll leaves behind: nothing carried yet, a fresh proposal in the slot if any. */
  ghost predicate Polled(g: Goal, j: Job, before: Job) {
    && Threaded(g, j) && Honest(g, j)
    && |j.replies| == (if j.parked.Ended? then 1 else 0)
    && j.stall == LatestStall(j.turns)
    && j.deadline == before.deadline && j.deliveries == before.deliveries
    && (j.slot.Some? ==> j.parked.OnReply? && j.outcome.None? && j.slot.value == j.parked.step && j.expected.None?)
    && (!j.parked.Ended? && j.slot.None? ==>
          j == before || (j.parked.OnBackoff? && j.parked.repost.None? && j.outcome.None? && j.expected.None?))
  }

  lemma FinishIsHonest(g: Goal, m: Memory, o: Reading, turns: seq<Turn>)
    requires Decide(g, m, o).Finish? && turns != [] && turns[|turns| - 1].action == Decide(g, m, o) && !o.cap
    ensures HonestReply(g, turns, Decide(g, m, o).result)
  {
    hide Plan, ShrinkCandidates, Pick;
    if Decide(g, m, o).result.Err? { ReasonIsReal(g, m, o); HonestOutcome(g, m, o); }
  }

  /** A plan conflict's reason is the planner's own, or a member gone. */
  lemma ReasonIsReal(g: Goal, m: Memory, o: Reading)
    requires Decide(g, m, o).Finish? && Decide(g, m, o).result.Err?
    ensures
      var e := Decide(g, m, o).result.error;
      e.PlanConflict? ==>
        && e.progress.reason.Some? && e.progress.live == o.live
        && (Plan(o.live, g.target) == Err(e.progress.reason.value) || e.progress.reason.value.MemberConcurrentlyRemoved?)
  {
    hide Plan, Pick;
  }

  lemma StallPush(turns: seq<Turn>, t: Turn)
    ensures LatestStall(turns + [t])
         == if t.action.StallOn? then Some(t.action.unproven) else if t.Installed() then None else LatestStall(turns)
  {
    assert (turns + [t])[..|turns|] == turns;
  }

  lemma StallMark(turns: seq<Turn>)
    requires turns != [] && turns[|turns| - 1].action.Propose?
    ensures LatestStall(MarkInstalled(turns)).None?
  {}

  lemma IterateKeeps(g: Goal, j: Job, m: Memory, live: Membership, proven: set<MemberId>)
    requires j.slot.None? && j.expected.None? && j.outcome.None? && j.replies == [] && j.stall == LatestStall(j.turns)
    requires Chain(g, FirstMemory(j.turns), j.turns) && !FirstMemory(j.turns).committed
    requires if j.turns == [] then !m.committed else Leads(g, j.turns[|j.turns| - 1], m)
    ensures
      var k := Iterate(g, j, m, live, proven);
      && Polled(g, k, j)
      && |j.turns| < |k.turns| <= |j.turns| + (if j.tick then 2 else 1)
      && (!k.parked.Ended? && k.slot.None? ==>
            k.parked.OnBackoff? && k.parked.repost.None? && k.outcome.None? && k.expected.None?)
      && (k.slot.Some? ==> DecidedHere(g, k.turns, live, proven, k.slot.value))
    decreases if j.tick then 1 else 0
  {
    hide Decide, Chain, Observe, HonestReply, LatestStall;
    var o := ReadingOf(live, proven);
    var a := Decide(g, m, o);
    var t := Turn(m, o, a);
    ChainPush(g, j.turns, t);
    StallPush(j.turns, t);
    var turns, m1 := j.turns + [t], Remember(g, m, o, a);
    if a.Finish? { FinishIsHonest(g, m, o, turns); }
    if a.StallOn? || a.Backoff? {
      if j.tick {
        var j1 := j.(turns := turns, tick := false, stall := if a.StallOn? then Some(a.unproven) else j.stall);
        IterateKeeps(g, j1, m1, live, proven);
      }
    }
  }

  /** The last turn decided `step` on exactly this membership and these answers. */
  ghost predicate DecidedHere(g: Goal, turns: seq<Turn>, live: Membership, proven: set<MemberId>, step: Delta) {
    && turns != []
    && var last := turns[|turns| - 1];
    && last.reading == ReadingOf(live, proven) && last.action == Propose(step) && Decided(g, last)
  }

  /** What a poll does with each suspension. */
  lemma PollKeeps(g: Goal, j: Job, live: Membership, proven: set<MemberId>)
    requires Threaded(g, j) && j.slot.None? && j.replies == [] && !j.parked.Ended? && (j.parked.Unpolled? || j.tick)
    requires j.stall == LatestStall(j.turns)
    requires j.outcome.Some? ==> j.parked.OnReply? && j.expected.None?
    requires j.expected.Some? ==> j.parked.OnReply?
    requires j.parked.OnBackoff? ==> j.parked.repost.None?
    ensures
      var k := Poll(g, j, live, proven);
      && Polled(g, k, j)
      && |k.turns| <= |j.turns| + (if j.tick then 2 else 1)
      && (k.slot.Some? && j.outcome == Some(Retry) ==> k.turns == j.turns && k.slot.value == j.parked.step)
      && (k.slot.Some? && j.outcome != Some(Retry) ==>
            |k.turns| > |j.turns| && DecidedHere(g, k.turns, live, proven, k.slot.value))
      && (j.outcome == Some(Retry) ==> k.slot.Some?)
      && (j.outcome == Some(Failed) ==> k.parked.Ended?)
      && (k == j ==> j.outcome.None? && j.parked.OnReply?)
  {
    hide Chain, Decide, Observe, Iterate, HonestReply, DecidedHere;
    match j.parked
    case Unpolled => if Preflight(g, live).None? { IterateKeeps(g, j, Start(g, live), live, proven); } else { PreflightIsHonest(g, live); }
    case OnBackoff(repost, m) => IterateKeeps(g, j.(tick := false), m, live, proven);
    case OnReply(step, m) =>
      if j.outcome == Some(Installed) {
        ChainMark(g, j.turns, step, m);
        StallMark(j.turns);
        IterateKeeps(g, j.(outcome := None, stall := None, turns := MarkInstalled(j.turns)), m, live, proven);
      } else if j.outcome == Some(Failed) {
        BackendIsHonest(g, j.turns);
      }
  }

  lemma PreflightIsHonest(g: Goal, live: Membership)
    requires Preflight(g, live).Some?
    ensures HonestReply(g, [], Err(Preflight(g, live).value))
  {}

  lemma BackendIsHonest(g: Goal, turns: seq<Turn>)
    ensures HonestReply(g, turns, Err(Backend))
  {}

  lemma CapIsHonest(g: Goal, stall: Option<set<MemberId>>, live: Membership, turns: seq<Turn>)
    requires stall == LatestStall(turns)
    ensures HonestReply(g, turns, CapResult(g, stall, live))
  {
    hide Plan;
  }

  // ---- One advance -----------------------------------------------------------------------

  /** The job before its poll: deadline armed, install detected. */
  function Ready(timeout: nat, j: Job, f: Feed): Job
    requires f.Advanced?
  {
    Detect(Arm(j, f.now, timeout), f.live)
  }

  lemma ReadyKeeps(g: Goal, timeout: nat, j: Job, f: Feed)
    requires Inv(g, j) && !j.parked.Ended? && f.Advanced?
    ensures
      var k := Ready(timeout, j, f);
      && Threaded(g, k) && k.slot.None? && k.replies == [] && k.parked == j.parked && k.tick == j.tick && k.turns == j.turns
      && k.deliveries == j.deliveries && k.stall == j.stall && (k.outcome == Some(Retry) <==> j.outcome == Some(Retry))
      && (k.outcome == j.outcome || (j.outcome.None? && k.outcome == Some(Installed)))
      && (k.outcome.None? ==> k.expected == j.expected)
      && (k.outcome.Some? ==> k.parked.OnReply? && k.expected.None?)
      && (k.expected.Some? ==> k.parked.OnReply? && k.expected == j.expected)
      && k.deadline == Some(if j.deadline.Some? then j.deadline.value else f.now + timeout)
  {
    hide Threaded, ApplyDelta, Honest, Acknowledged;
    ThreadedSame(g, j, Ready(timeout, j, f));
  }

  /** THE JOB'S INVARIANT survives every advance, and one advance makes at most two decisions:
      one, and one more if a tick was waiting. */
  lemma AdvanceKeeps(g: Goal, timeout: nat, j: Job, f: Feed)
    requires Inv(g, j) && !j.parked.Ended? && f.Advanced?
    ensures Inv(g, Fed(g, timeout, j, f))
    ensures |Fed(g, timeout, j, f).turns| <= |j.turns| + (if j.tick then 2 else 1)
    ensures Fed(g, timeout, j, f).deadline.Some?
    ensures f.now >= Fed(g, timeout, j, f).deadline.value ==> Fed(g, timeout, j, f).parked.Ended?
    ensures Fed(g, timeout, j, f).deadline == Some(if j.deadline.Some? then j.deadline.value else f.now + timeout)
  {
    hide Threaded, Poll, Plan, ApplyDelta, HonestReply, AckAttached, LatestStall, Predicted;
    ReadyKeeps(g, timeout, j, f);
    var armed, ready := Arm(j, f.now, timeout), Ready(timeout, j, f);
    if f.now >= armed.deadline.value {
      ThreadedEnds(g, j, Fed(g, timeout, j, f));
      CapIsHonest(g, j.stall, f.live, j.turns);
    } else {
      PollKeeps(g, ready, f.live, f.proven);
      var polled := Poll(g, ready, f.live, f.proven);
      if !polled.parked.Ended? {
        if polled.slot.Some? { DeliverSome(g, j, ready, polled, f); } else { DeliverNone(g, j, ready, polled); }
      }
    }
  }

  /** An advance, as its parts: the cap past the deadline, else the poll and what it posted. */
  lemma AdvanceIs(g: Goal, timeout: nat, j: Job, f: Feed)
    requires j.slot.None? && f.Advanced?
    ensures
      var k, ready := Fed(g, timeout, j, f), Ready(timeout, j, f);
      && ready.slot.None? && ready.deadline.Some?
      && if f.now >= ready.deadline.value then
           && k.parked.Ended? && k.replies == j.replies + [CapResult(g, j.stall, f.live)]
           && k.turns == j.turns && k.deliveries == j.deliveries && k.deadline == ready.deadline
         else
           var polled := Poll(g, ready, f.live, f.proven);
           && k.parked == polled.parked && k.replies == polled.replies && k.turns == polled.turns
           && k.deadline == polled.deadline
           && k.deliveries == if polled.parked.Ended? || polled.slot.None? then polled.deliveries
                              else polled.deliveries + [Delivery(f.live, f.proven, polled.slot.value,
                                g.ack && AckAttached(f.live, polled.slot.value), f.verdict)]
  {
    hide Poll, CapResult, AckAttached, ApplyDelta;
  }

  /** What the invariant says of the verdict waiting. */
  lemma SettledOutcome(g: Goal, j: Job)
    requires Inv(g, j) && !j.parked.Ended?
    ensures j.outcome == Some(Retry) <==> j.deliveries != [] && Last(j).verdict.Transient?
    ensures j.outcome == Some(Failed) <==> j.deliveries != [] && Last(j).verdict.Fatal?
    ensures j.outcome.Some? ==> j.parked.OnReply?
    ensures j.parked.OnReply? ==> j.deliveries != [] && Last(j).step == j.parked.step
    ensures j.stall == LatestStall(j.turns) && (j.parked.Unpolled? || j.tick) && (j.parked.OnBackoff? ==> j.parked.repost.None?)
  {}

  /** How a poll's result relates to the job it started from, as `PollKeeps` gives it. */
  ghost predicate Carries(g: Goal, j: Job, ready: Job, polled: Job) {
    && Inv(g, j) && !j.parked.Ended? && Polled(g, polled, ready) && !polled.parked.Ended?
    && ready.deliveries == j.deliveries && ready.slot.None? && ready.parked == j.parked
    && (ready.outcome == Some(Retry) <==> j.outcome == Some(Retry))
    && (ready.outcome.Some? ==> ready.expected.None?)
    && (ready.expected.Some? ==> ready.parked.OnReply? && ready.expected == j.expected)
    && (ready.outcome == Some(Retry) ==> polled.slot.Some?)
    && (ready.outcome == j.outcome || (j.outcome.None? && ready.outcome == Some(Installed)))
    && (ready.outcome.None? ==> ready.expected == j.expected)
    && ready.outcome != Some(Failed)
    && (polled == ready ==> ready.outcome.None? && ready.parked.OnReply?)
  }

  /** Carrying what the poll posted restores the invariant. */
  lemma DeliverSome(g: Goal, j: Job, ready: Job, polled: Job, f: Feed)
    requires f.Advanced? && Carries(g, j, ready, polled) && polled.slot.Some?
    ensures Inv(g, Deliver(g, polled, f.live, f.proven, f.verdict).(tick := true))
  {
    hide Threaded, ApplyDelta, HonestReply, AckAttached, Settled, LatestStall;
    var k := Deliver(g, polled, f.live, f.proven, f.verdict).(tick := true);
    DeliverSettles(g, ready, polled, f);
    ThreadedSame(g, polled, k);
  }

  lemma DeliverSettles(g: Goal, ready: Job, polled: Job, f: Feed)
    requires f.Advanced? && Polled(g, polled, ready) && !polled.parked.Ended? && polled.slot.Some?
    ensures Settled(Deliver(g, polled, f.live, f.proven, f.verdict).(tick := true))
  {
    hide Threaded, ApplyDelta, Honest, AckAttached, LatestStall;
    var k := Deliver(g, polled, f.live, f.proven, f.verdict).(tick := true);
    assert Last(k) == Delivery(f.live, f.proven, polled.slot.value, g.ack && AckAttached(f.live, polled.slot.value), f.verdict);
  }

  lemma DeliverNone(g: Goal, j: Job, ready: Job, polled: Job)
    requires Carries(g, j, ready, polled) && polled.slot.None?
    ensures Inv(g, polled.(tick := true))
  {
    hide Threaded, ApplyDelta, HonestReply, AckAttached, LatestStall;
    ThreadedSame(g, polled, polled.(tick := true));
  }

  lemma ThreadedSame(g: Goal, j: Job, k: Job)
    requires Threaded(g, j) && k.turns == j.turns && k.parked == j.parked
    ensures Threaded(g, k)
  {}

  lemma ThreadedEnds(g: Goal, j: Job, k: Job)
    requires Threaded(g, j) && k.turns == j.turns && k.parked.Ended?
    ensures Threaded(g, k)
  {}

  // ---- Whole jobs --------------------------------------------------------------------------

  /** What the driver feeds a job: an advance, or the news that the local endpoint retired. */
  datatype Feed =
    | Advanced(now: nat, live: Membership, proven: set<MemberId>, verdict: Verdict)
    | RetiredAt(live: Membership)

  function Fed(g: Goal, timeout: nat, j: Job, f: Feed): Job
    requires j.slot.None?
  {
    match f
    case Advanced(now, live, proven, verdict) => Advance(g, timeout, j, now, live, proven, verdict)
    case RetiredAt(live) => j.(parked := Ended, replies := j.replies + [FinishOnRetire(g, live)])
  }

  lemma FedKeeps(g: Goal, timeout: nat, j: Job, f: Feed)
    requires Inv(g, j) && !j.parked.Ended?
    ensures Inv(g, Fed(g, timeout, j, f))
  {
    SettledSlot(g, j);
    hide Inv, Fed;
    if f.Advanced? { AdvanceKeeps(g, timeout, j, f); } else { RetireKeeps(g, timeout, j, f); }
  }

  lemma RetireKeeps(g: Goal, timeout: nat, j: Job, f: Feed)
    requires Inv(g, j) && !j.parked.Ended? && f.RetiredAt?
    ensures Inv(g, Fed(g, timeout, j, f))
  {
    hide Plan, ApplyDelta, Threaded, LatestStall, HonestProgress;
    ThreadedEnds(g, j, Fed(g, timeout, j, f));
    assert HonestReply(g, j.turns, FinishOnRetire(g, f.live));
  }

  /** The job after these feeds; an ended job has been dropped and is fed no more. */
  ghost function Life(g: Goal, timeout: nat, j: Job, feeds: seq<Feed>): (k: Job)
    requires Inv(g, j)
    ensures Inv(g, k)
    decreases feeds
  {
    if feeds == [] || j.parked.Ended? then j
    else
      FedKeeps(g, timeout, j, feeds[0]);
      Life(g, timeout, Fed(g, timeout, j, feeds[0]), feeds[1..])
  }

  lemma SettledSlot(g: Goal, j: Job)
    requires Inv(g, j)
    ensures j.slot.None?
  {}

  lemma BeginInv(g: Goal)
    ensures Inv(g, Begin())
  {}

  /** A job's whole life. */
  ghost function Lived(g: Goal, timeout: nat, feeds: seq<Feed>): (k: Job)
    ensures Inv(g, k)
  {
    BeginInv(g);
    Life(g, timeout, Begin(), feeds)
  }

  lemma {:induction false} LifeDeadline(g: Goal, timeout: nat, j: Job, feeds: seq<Feed>, k: nat)
    requires Inv(g, j) && k < |feeds| && feeds[k].Advanced?
    requires j.deadline.Some? && feeds[k].now >= j.deadline.value
    ensures Life(g, timeout, j, feeds).parked.Ended?
    decreases feeds
  {
    hide Inv, Advance;
    if !j.parked.Ended? {
      SettledSlot(g, j);
      FedKeeps(g, timeout, j, feeds[0]);
      if feeds[0].Advanced? { AdvanceKeeps(g, timeout, j, feeds[0]); }
      var next := Fed(g, timeout, j, feeds[0]);
      if k > 0 { LifeDeadline(g, timeout, next, feeds[1..], k - 1); }
    }
  }

  lemma OneReply(g: Goal, j: Job)
    requires Inv(g, j)
    ensures |j.replies| == (if j.parked.Ended? then 1 else 0)
  {}

  /** EXACTLY ONE REPLY, IN TIME: whatever it is fed, a retirement included, a job never replies
      twice, has replied exactly when it has ended, and has ended by the first advance at or past
      `timeout` after its first one, wherever its executor was parked. */
  lemma OneReplyInTime(g: Goal, timeout: nat, feeds: seq<Feed>, k: nat)
    requires k < |feeds| && feeds[0].Advanced? && feeds[k].Advanced? && feeds[k].now >= feeds[0].now + timeout
    ensures
      var j := Lived(g, timeout, feeds);
      j.parked.Ended? && |j.replies| == 1
  {
    hide Inv, Advance;
    BeginInv(g);
    AdvanceKeeps(g, timeout, Begin(), feeds[0]);
    OneReply(g, Lived(g, timeout, feeds));
    var first := Fed(g, timeout, Begin(), feeds[0]);
    assert Lived(g, timeout, feeds) == Life(g, timeout, first, feeds[1..]);
    if k > 0 { LifeDeadline(g, timeout, first, feeds[1..], k - 1); }
  }

  /** ... and over any feeds at all, one reply exactly when ended, a retirement ending it at
      once. */
  lemma RepliedExactlyWhenEnded(g: Goal, timeout: nat, feeds: seq<Feed>, live: Membership)
    ensures
      var j := Lived(g, timeout, feeds);
      && |j.replies| == (if j.parked.Ended? then 1 else 0)
      && (!j.parked.Ended? ==> Fed(g, timeout, j, RetiredAt(live)).replies == [FinishOnRetire(g, live)])
  {
    hide Plan;
  }

  /** HONEST REPLIES: whatever a job replies, from its executor, at its deadline or on retirement,
      a progress report has a non-empty plan that is the plan from its membership, or a reason,
      exactly one of them; missing liveness is reported exactly as the latest stall since the
      latest install found it; and `InvalidTarget` means no step of the job installed. */
  lemma RepliesAreHonest(g: Goal, timeout: nat, feeds: seq<Feed>, r: Result<(), RunError>)
    requires r in Lived(g, timeout, feeds).replies
    ensures
      match r
      case Err(PlanConflict(p)) => HonestProgress(g, p)
      case Err(DemotedSelf(p)) => HonestProgress(g, p)
      case Err(InsufficientLiveness(p, unproven)) =>
        HonestProgress(g, p) && LatestStall(Lived(g, timeout, feeds).turns) == Some(unproven)
      case Err(Timeout(p)) =>
        HonestProgress(g, p) && (p.remaining.Some? ==> LatestStall(Lived(g, timeout, feeds).turns).None?)
      case _ => true
    ensures
      var turns := Lived(g, timeout, feeds).turns;
      r.Err? && r.error.InvalidTarget? ==> forall i :: 0 <= i < |turns| ==> !turns[i].Installed()
  {
    hide HonestProgress, Decide;
    var j := Lived(g, timeout, feeds);
    assert HonestReply(g, j.turns, r);
    if r.Err? && r.error.InvalidTarget? {
      var m, n := FirstMemory(j.turns), |j.turns| - 1;
      ChainAt(g, m, j.turns, n);
      CommittedExactly(g, m, j.turns, n);
      HonestOutcome(g, j.turns[n].memory, j.turns[n].reading);
    }
  }

  // ---- Success -----------------------------------------------------------------------------

  /** From one suspension to the next, success is reported only of the membership read, and a
      decision made at the target reports it. */
  lemma IterateSucceeds(g: Goal, j: Job, m: Memory, live: Membership, proven: set<MemberId>)
    requires j.slot.None? && j.replies == [] && live.Valid()
    ensures
      var k := Iterate(g, j, m, live, proven);
      Ok(()) in k.replies <==> live.Sets() == g.target
    decreases if j.tick then 1 else 0
  {
    hide Decide, Remember, Membership.Sets, Membership.Valid;
    var o := ReadingOf(live, proven);
    var a := Decide(g, m, o);
    CompletionExactly(g, m, o);
    if (a.StallOn? || a.Backoff?) && j.tick {
      var j1 := j.(turns := j.turns + [Turn(m, o, a)], tick := false, stall := if a.StallOn? then Some(a.unproven) else j.stall);
      IterateSucceeds(g, j1, Remember(g, m, o, a), live, proven);
    }
  }

  /** Where a poll iterates, it succeeds exactly at the target; elsewhere it does not. */
  lemma PollSucceeds(g: Goal, j: Job, live: Membership, proven: set<MemberId>)
    requires j.slot.None? && j.replies == [] && !j.parked.Ended? && live.Valid()
    requires j.parked.OnBackoff? ==> j.parked.repost.None?
    ensures
      var k := Poll(g, j, live, proven);
      && (Ok(()) in k.replies ==> live.Sets() == g.target)
      && (live.Sets() == g.target && |k.turns| > |j.turns| ==> Ok(()) in k.replies)
  {
    hide Iterate, Preflight, Start, Membership.Sets, Membership.Valid;
    match j.parked
    case Unpolled => if Preflight(g, live).None? { IterateSucceeds(g, j, Start(g, live), live, proven); }
    case OnBackoff(repost, m) => if j.tick { IterateSucceeds(g, j.(tick := false), m, live, proven); }
    case OnReply(step, m) =>
      if j.outcome == Some(Installed) {
        IterateSucceeds(g, j.(outcome := None, stall := None, turns := MarkInstalled(j.turns)), m, live, proven);
      }
  }

  /** ONE FEED: it ends the job with success only if the membership it brings is the target;
      and at the target, a deadline, a retirement or a decision of the executor ends the job
      with success. */
  lemma FeedSucceeds(g: Goal, timeout: nat, j: Job, f: Feed)
    requires Inv(g, j) && !j.parked.Ended? && f.live.Valid()
    ensures j.slot.None?
    ensures
      var k := Fed(g, timeout, j, f);
      && (Ok(()) in k.replies ==> f.live.Sets() == g.target)
      && (f.live.Sets() == g.target
          && (f.Advanced? ==> (k.deadline.Some? && f.now >= k.deadline.value) || |k.turns| > |j.turns|)
          ==> k.replies == [Ok(())])
  {
    SettledSlot(g, j);
    OneReply(g, j);
    if f.Advanced? { AdvanceSucceeds(g, timeout, j, f); } else { DoneExactlyAtTarget(g, j, f.live); }
  }

  lemma AdvanceSucceeds(g: Goal, timeout: nat, j: Job, f: Feed)
    requires Inv(g, j) && !j.parked.Ended? && f.live.Valid() && f.Advanced?
    ensures
      var k := Fed(g, timeout, j, f);
      && (Ok(()) in k.replies ==> f.live.Sets() == g.target)
      && (f.live.Sets() == g.target && ((k.deadline.Some? && f.now >= k.deadline.value) || |k.turns| > |j.turns|)
          ==> k.replies == [Ok(())])
  {
    hide Poll, CapResult, Membership.Sets, Membership.Valid, Threaded, Inv, Fed, LatestStall, AckAttached;
    SettledSlot(g, j);
    SettledOutcome(g, j);
    OneReply(g, j);
    ReadyKeeps(g, timeout, j, f);
    AdvanceIs(g, timeout, j, f);
    var ready := Ready(timeout, j, f);
    if f.now >= ready.deadline.value {
      DoneExactlyAtTarget(g, j, f.live);
    } else {
      PollKeeps(g, ready, f.live, f.proven);
      PollSucceeds(g, ready, f.live, f.proven);
    }
  }

  lemma {:induction false} LifeSucceeds(g: Goal, timeout: nat, j: Job, feeds: seq<Feed>) returns (k: nat)
    requires Inv(g, j) && !j.parked.Ended? && Ok(()) in Life(g, timeout, j, feeds).replies
    requires forall f :: f in feeds ==> f.live.Valid()
    ensures k < |feeds| && feeds[k].live.Sets() == g.target
    ensures !Life(g, timeout, j, feeds[..k]).parked.Ended?
    ensures Life(g, timeout, j, feeds[..k + 1]) == Life(g, timeout, j, feeds)
    decreases feeds
  {
    hide Inv, Fed, Membership.Sets, Membership.Valid;
    OneReply(g, j);
    SettledSlot(g, j);
    assert feeds[0] in feeds;
    FedKeeps(g, timeout, j, feeds[0]);
    FeedSucceeds(g, timeout, j, feeds[0]);
    var next := Fed(g, timeout, j, feeds[0]);
    if next.parked.Ended? {
      k := 0;
      assert feeds[..1][1..] == [] && feeds[..0] == [];
    } else {
      var i := LifeSucceeds(g, timeout, next, feeds[1..]);
      k := i + 1;
      assert feeds[..k][1..] == feeds[1..][..i] && feeds[..k + 1][1..] == feeds[1..][..i + 1];
    }
  }

  /** SUCCESS MEANS THE TARGET, over every life: a job that answers `Ok` was ended by a feed whose
      membership has the target's sets. */
  lemma SuccessMeansTarget(g: Goal, timeout: nat, feeds: seq<Feed>) returns (k: nat)
    requires Ok(()) in Lived(g, timeout, feeds).replies && forall f :: f in feeds ==> f.live.Valid()
    ensures k < |feeds| && feeds[k].live.Sets() == g.target
    ensures !Lived(g, timeout, feeds[..k]).parked.Ended? && Lived(g, timeout, feeds[..k + 1]) == Lived(g, timeout, feeds)
  {
    hide Inv, Fed, Membership.Sets, Membership.Valid;
    BeginInv(g);
    k := LifeSucceeds(g, timeout, Begin(), feeds);
  }

  // ---- What an advance answers ---------------------------------------------------------------

  /** The executor's own answers: it neither times out nor fails a proposal by itself, and every
      stretch it runs makes a decision. */
  lemma IterateAnswers(g: Goal, j: Job, m: Memory, live: Membership, proven: set<MemberId>)
    requires j.slot.None? && j.replies == []
    ensures
      var k := Iterate(g, j, m, live, proven);
      && |k.turns| > |j.turns|
      && forall r :: r in k.replies ==> r.Ok? || r.error.InvalidTarget? || r.error.PlanConflict? || r.error.DemotedSelf?
    decreases if j.tick then 1 else 0
  {
    hide Decide, Remember;
    var o := ReadingOf(live, proven);
    var a := Decide(g, m, o);
    if a.Finish? && a.result.Err? { HonestOutcome(g, m, o); }
    if (a.StallOn? || a.Backoff?) && j.tick {
      var j1 := j.(turns := j.turns + [Turn(m, o, a)], tick := false, stall := if a.StallOn? then Some(a.unproven) else j.stall);
      IterateAnswers(g, j1, Remember(g, m, o, a), live, proven);
    }
  }

  /** What a poll answers, by where the executor is parked. */
  ghost predicate Answers(g: Goal, j: Job, live: Membership, k: Job) {
    if j.parked.Unpolled? && Preflight(g, live).Some? then k.replies == [Err(Preflight(g, live).value)] && k.turns == j.turns
    else if j.outcome == Some(Failed) then k.replies == [Err(Backend)] && k.turns == j.turns
    else if j.parked.OnReply? && j.outcome != Some(Installed) then k.replies == [] && k.turns == j.turns
    else
      && |k.turns| > |j.turns|
      && forall r :: r in k.replies ==> r.Ok? || r.error.InvalidTarget? || r.error.PlanConflict? || r.error.DemotedSelf?
  }

  lemma PollAnswers(g: Goal, j: Job, live: Membership, proven: set<MemberId>)
    requires j.slot.None? && j.replies == [] && !j.parked.Ended? && (j.parked.Unpolled? || j.tick)
    requires j.outcome.Some? ==> j.parked.OnReply?
    requires j.parked.OnBackoff? ==> j.parked.repost.None?
    ensures Answers(g, j, live, Poll(g, j, live, proven))
  {
    hide Iterate, Preflight, Start;
    match j.parked
    case Unpolled => if Preflight(g, live).None? { IterateAnswers(g, j, Start(g, live), live, proven); }
    case OnBackoff(repost, m) => IterateAnswers(g, j.(tick := false), m, live, proven);
    case OnReply(step, m) =>
      if j.outcome == Some(Installed) {
        IterateAnswers(g, j.(outcome := None, stall := None, turns := MarkInstalled(j.turns)), m, live, proven);
      }
  }

  /** EVERY ADVANCE: past the deadline the job ends with the cap's answer, which is success exactly
      at the target. Before it, the preflight is answered exactly at the first poll; `Backend`
      exactly after a fatal verdict; a job awaiting an install that is not this membership, or
      posting again, answers and decides nothing; and otherwise the executor decides, answering
      neither a timeout nor a failed proposal. */
  lemma AdvanceAnswers(g: Goal, timeout: nat, j: Job, f: Feed)
    requires Inv(g, j) && !j.parked.Ended? && f.Advanced?
    ensures j.slot.None? && Fed(g, timeout, j, f).deadline.Some?
    ensures
      var k, ready := Fed(g, timeout, j, f), Detect(j, f.live);
      if f.now >= k.deadline.value then k.replies == [CapResult(g, LatestStall(j.turns), f.live)]
      else if j.parked.Unpolled? && Preflight(g, f.live).Some? then k.replies == [Err(Preflight(g, f.live).value)]
      else if j.deliveries != [] && Last(j).verdict.Fatal? then k.replies == [Err(Backend)]
      else if j.parked.OnReply? && ready.outcome != Some(Installed) then k.replies == [] && k.turns == j.turns
      else
        && |k.turns| > |j.turns|
        && forall r :: r in k.replies ==> r.Ok? || r.error.InvalidTarget? || r.error.PlanConflict? || r.error.DemotedSelf?
  {
    hide Poll, CapResult, Threaded, Inv, Fed, LatestStall, AckAttached, Preflight;
    SettledSlot(g, j);
    SettledOutcome(g, j);
    OneReply(g, j);
    ReadyKeeps(g, timeout, j, f);
    AdvanceIs(g, timeout, j, f);
    var ready := Ready(timeout, j, f);
    if f.now < ready.deadline.value {
      PollKeeps(g, ready, f.live, f.proven);
      PollAnswers(g, ready, f.live, f.proven);
    }
  }

  // ---- Deliveries --------------------------------------------------------------------------

  /** The membership's id is the hash of its contents. */
  ghost predicate Hashed(m: Membership) {
    exists prev: ConfigId :: m.configId == Hash(m.epoch, m.voters, m.learners, prev)
  }

  /** EXACT INSTALL: the executor is told its step installed exactly when it awaits one the
      endpoint accepted and the live membership is that step applied to the very membership it
      was carried against. */
  lemma InstallIsExact(g: Goal, j: Job, live: Membership)
    requires Inv(g, j) && !j.parked.Ended? && Hashed(live)
    ensures Detect(j, live).outcome == Some(Installed)
       <==> && j.parked.OnReply? && j.deliveries != [] && Last(j).verdict.Accepted? && Last(j).step == j.parked.step
            && ApplyDelta(Last(j).live, j.parked.step) == Ok(live)
  {
    hide Threaded, Honest, Acknowledged, ApplyDelta, LatestStall;
    if j.parked.OnReply? && ApplyDelta(Last(j).live, Last(j).step).Ok? {
      AppliedIsHashed(Last(j).live, Last(j).step);
      var n := ApplyDelta(Last(j).live, Last(j).step).value;
      var prev :| live.configId == Hash(live.epoch, live.voters, live.learners, prev);
      assert n.configId == live.configId ==> n == live;
      assert j.outcome.Some? ==> j.outcome.value.Installed? || j.outcome.value.Retry? || j.outcome.value.Failed?;
    }
  }

  lemma AppliedIsHashed(pred: Membership, step: Delta)
    requires ApplyDelta(pred, step).Ok?
    ensures
      var n := ApplyDelta(pred, step).value;
      n.configId == Hash(n.epoch, n.voters, n.learners, pred.configId)
  {
    hide Without, Distinct;
  }

  /** THE ACKNOWLEDGEMENT over every life: it rides a proposal exactly when the operator gave it
      and the step lowers the fault tolerance of the membership it is proposed against. */
  lemma AckRidesExactlyTheLosses(g: Goal, timeout: nat, feeds: seq<Feed>, d: Delivery)
    requires d in Lived(g, timeout, feeds).deliveries
    requires d.live.Valid() && ApplyDelta(d.live, d.step).Ok?
    ensures d.ack <==> g.ack && FaultTolerance(|ApplyDelta(d.live, d.step).value.voters|) < FaultTolerance(|d.live.voters|)
  {
    hide AckAttached, ApplyDelta, FaultTolerance;
    AckLowers(d.live, d.step);
  }

  /** WHEN A PROPOSAL IS FRESH: whatever a job has been fed, a proposal its next advance carries
      was decided in that advance, on that membership and those answers, exactly when the
      previous one was not refused transiently; after a transient refusal the next advance
      before the deadline carries the same step again, and nothing is decided. */
  lemma FreshExactly(g: Goal, timeout: nat, feeds: seq<Feed>, f: Feed)
    requires f.Advanced? && !Lived(g, timeout, feeds).parked.Ended?
    ensures Lived(g, timeout, feeds).slot.None? && Fed(g, timeout, Lived(g, timeout, feeds), f).deadline.Some?
    ensures
      var j := Lived(g, timeout, feeds);
      var k := Fed(g, timeout, j, f);
      && (j.deliveries != [] && Last(j).verdict.Transient? && f.now < k.deadline.value ==> |k.deliveries| == |j.deliveries| + 1)
      && (|k.deliveries| > |j.deliveries| ==>
        && Last(k).live == f.live && Last(k).proven == f.proven
        && (|k.turns| > |j.turns| && DecidedHere(g, k.turns, f.live, f.proven, Last(k).step)
            <==> !(j.deliveries != [] && Last(j).verdict.Transient?))
        && (j.deliveries != [] && Last(j).verdict.Transient? ==> Last(k).step == Last(j).step && k.turns == j.turns))
  {
    hide DecidedHere, Threaded, Poll, Inv, Fed, AckAttached, LatestStall;
    var j := Lived(g, timeout, feeds);
    SettledSlot(g, j);
    SettledOutcome(g, j);
    ReadyKeeps(g, timeout, j, f);
    AdvanceIs(g, timeout, j, f);
    PollKeeps(g, Ready(timeout, j, f), f.live, f.proven);
  }

  /** ... so a fresh demotion leaves a proven-live majority there, and a fresh removal has a
      proven majority of the current voters. */
  lemma FreshIsSafe(g: Goal, turns: seq<Turn>, live: Membership, proven: set<MemberId>, step: Delta)
    requires live.Valid() && DecidedHere(g, turns, live, proven, step)
    ensures step.DemoteVoter? ==>
      var n := After(live.Sets(), step).voters;
      |n * (proven - g.knownDown)| >= |n| / 2 + 1
    ensures step.RemoveLearner? ==> |live.Sets().voters * proven| >= |live.Sets().voters| / 2 + 1
  {
    hide Decide, Membership.Sets, Membership.Valid;
    var t := turns[|turns| - 1];
    if step.DemoteVoter? { DemotionKeepsQuorum(g, t.memory, t.reading, step.member); }
    if step.RemoveLearner? { RemovalKeepsQuorum(g, t.memory, t.reading, step.member); }
  }

  const TWO: Membership := Membership(0, [1, 2], [], Zero)
  const SHRINK: Goal := Goal(Config({1}, {}), {}, 1, true)

  function Memory0(): Memory { Start(SHRINK, TWO) }

  function FirstTurn(): Turn { Turn(Memory0(), ReadingOf(TWO, {1}), Propose(DemoteVoter(2))) }

  function AfterFirst(): Job {
    Job(OnReply(DemoteVoter(2), Remember(SHRINK, Memory0(), ReadingOf(TWO, {1}), Propose(DemoteVoter(2)))), None,
        Some(Retry), true, None, Some(10), None, [], [FirstTurn()],
        [Delivery(TWO, {1}, DemoteVoter(2), false, Transient)])
  }

  lemma FirstAdvance()
    ensures Fed(SHRINK, 10, Begin(), Advanced(0, TWO, {1}, Transient)) == AfterFirst()
  {
    hide Decide, Remember, Start;
    SomeDemotionIsDecided(Memory0(), false);
  }

  lemma SecondAdvance()
    ensures
      var k := Fed(SHRINK, 10, AfterFirst(), Advanced(1, TWO, {}, Transient));
      && k.deliveries == AfterFirst().deliveries + [Delivery(TWO, {}, DemoteVoter(2), false, Transient)]
      && !k.parked.Ended?
  {
    hide Decide, Remember, Start, Iterate;
  }

  /** A RE-POSTED DEMOTION CAN BE UNSAFE where it is posted: the first carrying is refused
      transiently, the probe goes silent, and the step goes out again with no majority of its
      successor proven live. */
  lemma RepostCanLoseQuorum()
    ensures
      var j := Lived(SHRINK, 10, [Advanced(0, TWO, {1}, Transient), Advanced(1, TWO, {}, Transient)]);
      && j.deliveries != [] && Last(j) == Delivery(TWO, {}, DemoteVoter(2), false, Transient)
      && var n := After(TWO.Sets(), DemoteVoter(2)).voters;
      |n * ({} - SHRINK.knownDown)| < |n| / 2 + 1
  {
    hide Fed, Inv;
    BeginInv(SHRINK);
    FirstAdvance();
    SecondAdvance();
    var f1, f2 := Advanced(0, TWO, {1}, Transient), Advanced(1, TWO, {}, Transient);
    FedKeeps(SHRINK, 10, Begin(), f1);
    LifeTwo(f1, f2);
    NobodyAlive();
  }

  lemma LifeTwo(f1: Feed, f2: Feed)
    requires Inv(SHRINK, Begin()) && Begin().slot.None? && Inv(SHRINK, Fed(SHRINK, 10, Begin(), f1))
    requires Fed(SHRINK, 10, Begin(), f1).slot.None? && !Fed(SHRINK, 10, Begin(), f1).parked.Ended?
    requires !Begin().parked.Ended?
    ensures Life(SHRINK, 10, Begin(), [f1, f2]) == Fed(SHRINK, 10, Fed(SHRINK, 10, Begin(), f1), f2)
  {
    hide Fed, Inv, Begin;
    var n := Fed(SHRINK, 10, Begin(), f1);
    FedKeeps(SHRINK, 10, n, f2);
    assert [f1, f2][1..] == [f2] && [f2][1..] == [];
    assert Life(SHRINK, 10, n, [f2]) == Life(SHRINK, 10, Fed(SHRINK, 10, n, f2), []);
  }

  lemma NobodyAlive()
    ensures
      var n := After(TWO.Sets(), DemoteVoter(2)).voters;
      |n * ({} - SHRINK.knownDown)| < |n| / 2 + 1
  {
    TwoVoters();
    var n: set<MemberId> := After(TWO.Sets(), DemoteVoter(2)).voters;
    assert n * {} == {};
  }

  /** EVERY DECISION A JOB MAKES IS THE EXECUTOR'S: its log is a chain from an uncommitted
      start, so each demotion in it was decided with a proven-live successor majority, each
      removal with a proven majority of the current voters. */
  lemma JobDecidesSafely(g: Goal, timeout: nat, feeds: seq<Feed>, k: nat)
    requires k < |Lived(g, timeout, feeds).turns|
    requires Lived(g, timeout, feeds).turns[k].reading.live.Valid()
    ensures
      var turns := Lived(g, timeout, feeds).turns;
      var t := turns[k];
      && Chain(g, FirstMemory(turns), turns) && !FirstMemory(turns).committed
      && (t.action.Propose? && t.action.step.DemoteVoter? ==>
            var n := After(t.reading.live.Sets(), t.action.step).voters;
            |n * (t.reading.proven - g.knownDown)| >= |n| / 2 + 1)
      && (t.action.Propose? && t.action.step.RemoveLearner? ==>
            |t.reading.live.Sets().voters * t.reading.proven| >= |t.reading.live.Sets().voters| / 2 + 1)
  {
    hide Decide;
    var turns := Lived(g, timeout, feeds).turns;
    var t := turns[k];
    ChainAt(g, FirstMemory(turns), turns, k);
    if t.action.Propose? && t.action.step.DemoteVoter? {
      DemotionKeepsQuorum(g, t.memory, t.reading, t.action.step.member);
    }
    if t.action.Propose? && t.action.step.RemoveLearner? {
      RemovalKeepsQuorum(g, t.memory, t.reading, t.action.step.member);
    }
  }

  /** THE GOAL TEST on retirement and at the deadline: success exactly when the live sets are the
      target's. */
  lemma DoneExactlyAtTarget(g: Goal, j: Job, live: Membership)
    requires live.Valid()
    ensures FinishOnRetire(g, live) == Ok(()) <==> live.Sets() == g.target
    ensures CapResult(g, j.stall, live) == Ok(()) <==> live.Sets() == g.target
  {
    hide Plan, Membership.Sets, Membership.Valid;
    EmptyPlanExactly(live, g.target);
  }
}
