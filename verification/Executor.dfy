/** The reconfiguration executor: a loop that re-plans from the live membership at every turn,
    proposes one step at a time, and takes membership away only on fresh evidence of a live
    quorum. Everything outside it (the live membership, probe answers, the cap, install
    verdicts) is an arbitrary script. */
module Executor {
  import opened Wrappers
  import opened Membership
  import opened Planner
  import opened PlannerProofs

  // ---- Picking a demotion ----------------------------------------------------------------

  /** What the picker judges by: the current voters, the operator's veto, this round's probe
      answers, and the node it runs on. */
  datatype Evidence = Evidence(voters: set<MemberId>, knownDown: set<MemberId>, proven: set<MemberId>, local: MemberId)
  {
    /** Proven live and not vetoed. */
    predicate Alive(m: MemberId) { m !in knownDown && m in proven }

    function AliveIn(s: set<MemberId>): set<MemberId> { set m | m in s && Alive(m) }

    /** Demoting `x` leaves voters of whom a majority is alive. */
    predicate Qualifies(x: MemberId) {
      |AliveIn(voters - {x})| >= |voters - {x}| / 2 + 1
    }

    /** Preference: others before self, then the apparently down before the alive, then by id. */
    predicate Before(a: MemberId, b: MemberId) {
      if (a == local) != (b == local) then b == local
      else if Alive(a) != Alive(b) then Alive(b)
      else a < b
    }
  }

  function Insert(ev: Evidence, d: Delta, ds: seq<Delta>): seq<Delta> {
    if ds == [] then [d]
    else if ev.Before(ds[0].member, d.member) then [ds[0]] + Insert(ev, d, ds[1..])
    else [d] + ds
  }

  function Ordered(ev: Evidence, ds: seq<Delta>): seq<Delta> {
    if ds == [] then [] else Insert(ev, ds[|ds| - 1], Ordered(ev, ds[..|ds| - 1]))
  }

  function FirstQualified(ev: Evidence, ds: seq<Delta>): Option<Delta> {
    if ds == [] then None else if ev.Qualifies(ds[0].member) then Some(ds[0]) else FirstQualified(ev, ds[1..])
  }

  function Unproven(ev: Evidence, except: MemberId): set<MemberId> {
    set m | m in ev.voters && m != except && !ev.Alive(m)
  }

  function Pick(ev: Evidence, candidates: seq<Delta>): Result<Delta, set<MemberId>>
    requires candidates != []
  {
    var ordered := Ordered(ev, candidates);
    OrderedKeeps(ev, candidates);
    match FirstQualified(ev, ordered)
    case Some(d) => Ok(d)
    case None => Err(Unproven(ev, ordered[0].member))
  }

  lemma {:induction false} InsertKeeps(ev: Evidence, d: Delta, ds: seq<Delta>)
    ensures |Insert(ev, d, ds)| == |ds| + 1
    ensures forall x :: x in Insert(ev, d, ds) <==> x == d || x in ds
  {
    if ds != [] && ev.Before(ds[0].member, d.member) {
      InsertKeeps(ev, d, ds[1..]);
      assert ds == [ds[0]] + ds[1..];
    }
  }

  lemma {:induction false} OrderedKeeps(ev: Evidence, ds: seq<Delta>)
    ensures |Ordered(ev, ds)| == |ds|
    ensures forall x :: x in Ordered(ev, ds) <==> x in ds
  {
    if ds != [] {
      var n := |ds| - 1;
      OrderedKeeps(ev, ds[..n]);
      InsertKeeps(ev, ds[n], Ordered(ev, ds[..n]));
      assert ds == ds[..n] + [ds[n]];
    }
  }

  /** The picker: sort the candidates by preference, then take the first that leaves a
      proven-live majority. */
  method PickDemotion(ev: Evidence, candidates: seq<Delta>) returns (r: Result<Delta, set<MemberId>>)
    requires candidates != []
    ensures r == Pick(ev, candidates)
  {
    var ordered: seq<Delta> := [];
    for i := 0 to |candidates|
      invariant ordered == Ordered(ev, candidates[..i])
    {
      assert candidates[..i + 1][..i] == candidates[..i];
      ordered := Insert(ev, candidates[i], ordered);
    }
    assert candidates[..|candidates|] == candidates;
    OrderedKeeps(ev, candidates);
    for i := 0 to |ordered|
      invariant FirstQualified(ev, ordered) == FirstQualified(ev, ordered[i..])
    {
      var x := ordered[i].member;
      var successor := ev.voters - {x};
      var quorum := |successor| / 2 + 1;
      var confirmed := |ev.AliveIn(successor)|;
      if confirmed >= quorum { return Ok(ordered[i]); }
      assert ordered[i..][1..] == ordered[i + 1..];
    }
    r := Err(Unproven(ev, ordered[0].member));
  }

  // ---- The run ---------------------------------------------------------------------------

  /** The durable intermediate a failed run reports. */
  datatype Progress = Progress(live: Membership, remaining: Option<seq<Delta>>, reason: Option<PlanError>)

  function Stalled(live: Membership, plan: seq<Delta>): Progress { Progress(live, Some(plan), None) }
  function Failed(live: Membership, e: PlanError): Progress { Progress(live, None, Some(e)) }

  datatype RunError =
    | ReducedFaultToleranceUnacknowledged(fromVoters: nat, toVoters: nat)
    | InvalidTarget(error: PlanError)
    | PlanConflict(progress: Progress)
    | DemotedSelf(progress: Progress)
    | InsufficientLiveness(progress: Progress, unproven: set<MemberId>)
    | Timeout(progress: Progress)
    | Backend            // the proposal itself failed
    | Retired            // the local endpoint left the configuration under the run

  datatype Goal = Goal(target: Config, knownDown: set<MemberId>, local: MemberId, ack: bool)

  /** What one turn reads: the live membership, whether the cap has fired, the probe's answers,
      and, if a step is proposed, whether it installed. */
  datatype Reading = Reading(live: Membership, cap: bool, proven: set<MemberId>, installs: bool)

  datatype Action =
    | Finish(result: Result<(), RunError>)
    | Propose(step: Delta)
    | StallOn(unproven: set<MemberId>)
    | Backoff

  /** What the loop carries from turn to turn. */
  datatype Memory = Memory(seen: set<MemberId>, committed: bool, lastStall: Option<set<MemberId>>)

  function EvidenceAt(g: Goal, o: Reading): Evidence { Evidence(o.live.Sets().voters, g.knownDown, o.proven, g.local) }

  /** Every target member present now, or before. */
  function Observe(g: Goal, m: Memory, o: Reading): set<MemberId> {
    m.seen + o.live.Sets().Members() * g.target.Members()
  }

  /** Target members seen before and gone now. */
  function Phantoms(g: Goal, m: Memory, o: Reading): set<MemberId> {
    (Observe(g, m, o) * g.target.Members()) - o.live.Sets().Members()
  }

  /** A planning failure: bare before anything was committed, with progress after. */
  function PlanFailure(m: Memory, live: Membership, e: PlanError): RunError {
    if !m.committed then InvalidTarget(e) else PlanConflict(Failed(live, e))
  }

  function ProposeDemotion(g: Goal, m: Memory, o: Reading): Action {
    match ShrinkCandidates(o.live, g.target)
    case Err(e) => Finish(Err(PlanFailure(m, o.live, e)))
    case Ok(candidates) =>
      if candidates == [] then Backoff
      else
        match Pick(EvidenceAt(g, o), candidates)
        case Ok(d) => Propose(d)
        case Err(unproven) => StallOn(unproven)
  }

  function ProposePrune(o: Reading, step: Delta): Action {
    var voters := o.live.Sets().voters;
    if |voters * o.proven| >= o.live.Quorum() then Propose(step) else StallOn(voters - o.proven)
  }

  function CapError(m: Memory, live: Membership, plan: seq<Delta>): RunError {
    match m.lastStall
    case Some(unproven) => InsufficientLiveness(Stalled(live, plan), unproven)
    case None => Timeout(Stalled(live, plan))
  }

  /** One turn: phantoms, completion, self-demotion, the cap, then the next step. */
  function Decide(g: Goal, m: Memory, o: Reading): Action {
    if Phantoms(g, m, o) != {} then
      Finish(Err(PlanFailure(m, o.live, MemberConcurrentlyRemoved(Phantoms(g, m, o)))))
    else
      match Plan(o.live, g.target)
      case Err(e) => Finish(Err(PlanFailure(m, o.live, e)))
      case Ok(plan) =>
        if plan == [] then Finish(Ok(()))
        else if m.committed && plan[0] == RemoveLearner(g.local) then Finish(Err(DemotedSelf(Stalled(o.live, plan))))
        else if o.cap then Finish(Err(CapError(m, o.live, plan)))
        else if plan[0].DemoteVoter? then ProposeDemotion(g, m, o)
        else if plan[0].RemoveLearner? then ProposePrune(o, plan[0])
        else Propose(plan[0])
  }

  /** The operator's acknowledgement rides a demotion from an odd voter count, and nothing else. */
  predicate AckAttached(live: Membership, d: Delta) { d.DemoteVoter? && |live.voters| % 2 == 1 }

  /** What the loop remembers after a turn that goes on. */
  function Remember(g: Goal, m: Memory, o: Reading, a: Action): Memory {
    var seen := Observe(g, m, o);
    match a
    case Propose(d) => Memory(if d.AddLearner? || d.PromoteLearner? then seen + {d.member} else seen, true, None)
    case StallOn(unproven) => Memory(seen, m.committed, Some(unproven))
    case _ => m.(seen := seen)
  }

  /** A turn as it went: what it remembered, read and did. */
  datatype Turn = Turn(memory: Memory, reading: Reading, action: Action)
  {
    predicate Installed() { action.Propose? && reading.installs }
  }

  /** The turns from here on, and the result once there is one. */
  function Exec(g: Goal, m: Memory, script: seq<Reading>): (seq<Turn>, Option<Result<(), RunError>>)
    decreases script
  {
    if script == [] then ([], None)
    else
      var o := script[0];
      var a := Decide(g, m, o);
      var turn := Turn(m, o, a);
      if a.Finish? then ([turn], Some(a.result))
      else if a.Propose? && !o.installs then ([turn], Some(Err(Backend)))
      else
        var (turns, end) := Exec(g, Remember(g, m, o, a), script[1..]);
        ([turn] + turns, end)
  }

  /** Refuse a goal that lowers the fault tolerance unless the operator accepted it. */
  function Preflight(g: Goal, live: Membership): Option<RunError> {
    var to := |g.target.voters|;
    if 1 <= to <= MAX_VOTERS && FaultTolerance(to) < FaultTolerance(|live.voters|) && !g.ack
    then Some(ReducedFaultToleranceUnacknowledged(|live.voters|, to))
    else None
  }

  function Start(g: Goal, live: Membership): Memory {
    Memory(live.Sets().Members() * g.target.Members(), false, None)
  }

  function Run(g: Goal, script: seq<Reading>): (seq<Turn>, Option<Result<(), RunError>>) {
    if script == [] then ([], None)
    else
      match Preflight(g, script[0].live)
      case Some(e) => ([], Some(Err(e)))
      case None => Exec(g, Start(g, script[0].live), script)
  }

  /** The re-planning loop, one turn for each reading of the script. */
  method RunReconfigure(g: Goal, script: seq<Reading>) returns (turns: seq<Turn>, end: Option<Result<(), RunError>>)
    ensures (turns, end) == Run(g, script)
  {
    hide Decide, Preflight, Exec;
    if script == [] { return [], None; }
    var preflight := Preflight(g, script[0].live);
    if preflight.Some? { return [], Some(Err(preflight.value)); }
    var lastStall: Option<set<MemberId>> := None;
    var seen := script[0].live.Sets().Members() * g.target.Members();
    var committed := false;
    turns, end := [], None;
    var i := 0;
    ghost var whole := Exec(g, Start(g, script[0].live), script);
    assert script[0..] == script && [] + whole.0 == whole.0;
    while i < |script|
      invariant 0 <= i <= |script|
      invariant
        var rest := Exec(g, Memory(seen, committed, lastStall), script[i..]);
        whole == (turns + rest.0, rest.1)
    {
      var o, m := script[i], Memory(seen, committed, lastStall);
      var a := Decide(g, m, o);
      ExecFrom(g, m, script, i, turns);
      turns := turns + [Turn(m, o, a)];
      seen := seen + o.live.Sets().Members() * g.target.Members();
      match a {
        case Finish(r) => end := Some(r); return;
        case Propose(d) =>
          if !o.installs { end := Some(Err(Backend)); return; }
          committed, lastStall := true, None;
          if d.AddLearner? || d.PromoteLearner? { seen := seen + {d.member}; }
        case StallOn(unproven) => lastStall := Some(unproven);
        case Backoff =>
      }
      i := i + 1;
    }
    assert script[|script|..] == [] && turns + [] == turns;
    assert Exec(g, Memory(seen, committed, lastStall), []) == ([], None) by { ExecDone(g, Memory(seen, committed, lastStall)); }
  }

  lemma ExecDone(g: Goal, m: Memory)
    ensures Exec(g, m, []) == ([], None)
  {}

  /** One turn of the script, after the turns already taken. */
  lemma ExecFrom(g: Goal, m: Memory, script: seq<Reading>, i: nat, before: seq<Turn>)
    requires i < |script|
    ensures
      var o := script[i];
      var a := Decide(g, m, o);
      var turns, (rest, end) := before + [Turn(m, o, a)], Exec(g, m, script[i..]);
      (before + rest, end)
      == if a.Finish? then (turns, Some(a.result))
         else if a.Propose? && !o.installs then (turns, Some(Err(Backend)))
         else (turns + Exec(g, Remember(g, m, o, a), script[i + 1..]).0, Exec(g, Remember(g, m, o, a), script[i + 1..]).1)
  {
    hide Decide, Remember;
    var o := script[i];
    var a := Decide(g, m, o);
    assert script[i..][0] == o && script[i..][1..] == script[i + 1..];
    var later := Exec(g, Remember(g, m, o, a), script[i + 1..]);
    assert before + ([Turn(m, o, a)] + later.0) == before + [Turn(m, o, a)] + later.0;
  }
}
