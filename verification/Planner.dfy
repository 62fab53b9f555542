/** The reconfiguration planner: lowers a set-valued goal to a demote-first sequence of
    single-member deltas. */
module Planner {
  import opened Wrappers
  import opened Membership

  datatype PlanError =
    | EmptyVoterSet
    | TooManyVoters(count: nat)
    | IntermediatePeakExceedsCap(peak: nat)
    | IntermediateNodePeakExceedsCap(peak: nat)
    | RemovesLastVoter
    | VoterLearnerOverlap
    | MemberConcurrentlyRemoved(members: set<MemberId>)

  /** The number of simultaneous voter crashes `n` voters survive (saturating at zero). */
  function FaultTolerance(n: nat): nat {
    if n == 0 then 0 else (n - 1) / 2
  }

  // ---- Ordered iteration over a set ------------------------------------------------------

  lemma MinExists(s: set<MemberId>)
    requires s != {}
    ensures exists x :: IsMin(s, x)
  {
    var x :| x in s;
    if s == {x} {
      assert IsMin(s, x);
    } else {
      MinExists(s - {x});
      var m :| IsMin(s - {x}, m);
      assert s == {x} + (s - {x});
      assert IsMin(s, if x < m then x else m);
    }
  }

  ghost predicate IsMin(s: set<MemberId>, x: MemberId) { x in s && forall y :: y in s ==> x <= y }

  function Min(s: set<MemberId>): (x: MemberId)
    requires s != {}
    ensures IsMin(s, x)
  {
    MinExists(s);
    var x :| x in s && forall y :: y in s ==> x <= y;
    x
  }

  lemma MinIs(s: set<MemberId>, x: MemberId)
    requires IsMin(s, x)
    ensures Min(s) == x
  {}

  /** The set in ascending order. */
  function Sorted(s: set<MemberId>): seq<MemberId> {
    if s == {} then [] else [Min(s)] + Sorted(s - {Min(s)})
  }

  /** `xs` minus `drop`, order kept. */
  function Kept(xs: seq<MemberId>, drop: set<MemberId>): seq<MemberId> {
    if xs == [] then []
    else (if xs[0] in drop then [] else [xs[0]]) + Kept(xs[1..], drop)
  }

  lemma {:induction false} KeptSorted(s: set<MemberId>, drop: set<MemberId>)
    ensures Kept(Sorted(s), drop) == Sorted(s - drop)
  {
    if s != {} {
      var x := Min(s);
      KeptSorted(s - {x}, drop);
      assert Sorted(s)[1..] == Sorted(s - {x});
      if x in drop {
        assert s - {x} - drop == s - drop;
      } else {
        MinIs(s - drop, x);
        assert s - drop - {x} == s - {x} - drop;
      }
    }
  }

  // ---- The plan --------------------------------------------------------------------------

  function Removes(xs: seq<MemberId>): seq<Delta> {
    if xs == [] then [] else [RemoveLearner(xs[0])] + Removes(xs[1..])
  }

  function Adds(xs: seq<MemberId>): seq<Delta> {
    if xs == [] then [] else [AddLearner(xs[0])] + Adds(xs[1..])
  }

  /** The parity core: at an odd voter count promote, at an even one demote, while both kinds
      remain; then whichever is left. A demotee the target does not keep is pruned at once. */
  function Core(promotes: seq<MemberId>, demotes: seq<MemberId>, n: int, keep: set<MemberId>): seq<Delta>
    decreases |promotes| + |demotes|
  {
    if promotes == [] && demotes == [] then []
    else if promotes != [] && (demotes == [] || n % 2 == 1) then
      [PromoteLearner(promotes[0])] + Core(promotes[1..], demotes, n + 1, keep)
    else
      [DemoteVoter(demotes[0])] + Prune(demotes[0], keep) + Core(promotes, demotes[1..], n - 1, keep)
  }

  function Prune(x: MemberId, keep: set<MemberId>): seq<Delta> {
    if x in keep then [] else [RemoveLearner(x)]
  }

  /** The work lists of a plan: learners to prune, voters to stage, voters to promote, voters
      to demote, learners to seat. */
  datatype Work = Work(
    obsolete: set<MemberId>, unstaged: set<MemberId>, promotions: set<MemberId>, demotions: set<MemberId>,
    unseated: set<MemberId>)

  function Lists(c: Config, t: Config): Work {
    Work(c.learners - (t.learners + t.voters), t.voters - (c.voters + c.learners), t.voters - c.voters,
         c.voters - t.voters, t.learners - (c.learners + c.voters))
  }

  /** The four phases: prune, stage, parity core from `n` voters, residual learners. */
  function Phases(w: Work, n: int, keep: set<MemberId>): seq<Delta> {
    Removes(Sorted(w.obsolete)) + (Adds(Sorted(w.unstaged))
      + (Core(Sorted(w.promotions), Sorted(w.demotions), n, keep) + Adds(Sorted(w.unseated))))
  }

  function BuildPlan(c: Config, t: Config): seq<Delta> {
    Phases(Lists(c, t), |c.voters|, t.learners)
  }

  /** Fold `ApplyDelta` along a plan, mapping the first rejection to a planning error. */
  function Simulate(m: Membership, plan: seq<Delta>): Result<Membership, PlanError>
    decreases plan
  {
    if plan == [] then Ok(m)
    else
      match ApplyDelta(m, plan[0])
      case Ok(n) => Simulate(n, plan[1..])
      case Err(WouldRemoveLastVoter) => Err(RemovesLastVoter)
      case Err(TooManyReplicas(count)) => Err(IntermediatePeakExceedsCap(count))
      case Err(TooManyNodes(count)) => Err(IntermediateNodePeakExceedsCap(count))
      case Err(_) => Err(RemovesLastVoter)
  }

  /** The goal's own admission: overlap, then empty, then oversize. */
  function Admission(t: Config): Result<(), PlanError> {
    if !t.Disjoint() then Err(VoterLearnerOverlap)
    else if t.voters == {} then Err(EmptyVoterSet)
    else if |t.voters| > MAX_VOTERS then Err(TooManyVoters(|t.voters|))
    else Ok(())
  }

  /** What planning answers for every input. */
  function Plan(m: Membership, t: Config): Result<seq<Delta>, PlanError> {
    match Admission(t)
    case Err(e) => Err(e)
    case Ok(_) =>
      match Simulate(m, BuildPlan(m.Sets(), t))
      case Err(e) => Err(e)
      case Ok(_) => Ok(BuildPlan(m.Sets(), t))
  }

  lemma {:induction false} RemovesSnoc(xs: seq<MemberId>, x: MemberId)
    ensures Removes(xs + [x]) == Removes(xs) + [RemoveLearner(x)]
  {
    if xs != [] {
      RemovesSnoc(xs[1..], x);
      assert (xs + [x])[1..] == xs[1..] + [x];
    }
  }

  lemma {:induction false} AddsSnoc(xs: seq<MemberId>, x: MemberId)
    ensures Adds(xs + [x]) == Adds(xs) + [AddLearner(x)]
  {
    if xs != [] {
      AddsSnoc(xs[1..], x);
      assert (xs + [x])[1..] == xs[1..] + [x];
    }
  }

  lemma {:induction false} KeptSnoc(xs: seq<MemberId>, x: MemberId, drop: set<MemberId>)
    ensures Kept(xs + [x], drop) == Kept(xs, drop) + (if x in drop then [] else [x])
  {
    if xs != [] {
      KeptSnoc(xs[1..], x, drop);
      assert (xs + [x])[1..] == xs[1..] + [x];
    }
  }

  /** A phase that stages or prunes: walk a set in order, skipping the members in `drop`. */
  method WalkPhase(s: set<MemberId>, drop: set<MemberId>, add: bool) returns (deltas: seq<Delta>)
    ensures deltas == if add then Adds(Sorted(s - drop)) else Removes(Sorted(s - drop))
  {
    KeptSorted(s, drop);
    var xs := Sorted(s);
    deltas := [];
    assert Kept(xs[..0], drop) == [] && Adds([]) == [] == Removes([]);
    hide Sorted, Kept, Adds, Removes;
    for i := 0 to |xs|
      invariant deltas == if add then Adds(Kept(xs[..i], drop)) else Removes(Kept(xs[..i], drop))
    {
      assert xs[..i + 1] == xs[..i] + [xs[i]];
      KeptSnoc(xs[..i], xs[i], drop);
      assert Kept(xs[..i], drop) + [] == Kept(xs[..i], drop);
      if xs[i] !in drop {
        AddsSnoc(Kept(xs[..i], drop), xs[i]);
        RemovesSnoc(Kept(xs[..i], drop), xs[i]);
        deltas := deltas + [if add then AddLearner(xs[i]) else RemoveLearner(xs[i])];
      }
    }
    assert xs[..|xs|] == xs;
  }

  /** The parity loop, over two cursors and a running voter count. */
  method ParityCore(promotes: seq<MemberId>, demotes: seq<MemberId>, voters: nat, keep: set<MemberId>)
    returns (deltas: seq<Delta>)
    ensures deltas == Core(promotes, demotes, voters, keep)
  {
    hide Core, Prune;
    var pi, di, n: int := 0, 0, voters;
    deltas := [];
    assert promotes[0..] == promotes && demotes[0..] == demotes;
    while pi < |promotes| || di < |demotes|
      invariant 0 <= pi <= |promotes| && 0 <= di <= |demotes|
      invariant deltas + Core(promotes[pi..], demotes[di..], n, keep) == Core(promotes, demotes, voters, keep)
      decreases |promotes| - pi + |demotes| - di
    {
      var promoteNow := pi < |promotes| && (di == |demotes| || n % 2 == 1);
      if promoteNow {
        CorePromotes(promotes, pi, demotes[di..], n, keep, deltas);
        deltas := deltas + [PromoteLearner(promotes[pi])];
        pi, n := pi + 1, n + 1;
      } else {
        CoreDemotes(promotes[pi..], demotes, di, n, keep, deltas);
        deltas := deltas + [DemoteVoter(demotes[di])];
        if demotes[di] !in keep {
          deltas := deltas + [RemoveLearner(demotes[di])];
        }
        di, n := di + 1, n - 1;
      }
    }
    CoreEnds(promotes[pi..], demotes[di..], n, keep, deltas);
  }

  lemma CoreEnds(promotes: seq<MemberId>, demotes: seq<MemberId>, n: int, keep: set<MemberId>, done: seq<Delta>)
    requires promotes == demotes == []
    ensures done + Core(promotes, demotes, n, keep) == done
  {}

  /** A promotion leaves the rest of the core to do. */
  lemma CorePromotes(promotes: seq<MemberId>, pi: nat, demotes: seq<MemberId>, n: int, keep: set<MemberId>, done: seq<Delta>)
    requires pi < |promotes| && (demotes == [] || n % 2 == 1)
    ensures done + Core(promotes[pi..], demotes, n, keep)
         == done + [PromoteLearner(promotes[pi])] + Core(promotes[pi + 1..], demotes, n + 1, keep)
  {
    assert promotes[pi..][1..] == promotes[pi + 1..];
    Regroup(done, [PromoteLearner(promotes[pi])], Core(promotes[pi + 1..], demotes, n + 1, keep));
  }

  /** So does a demotion, with the removal that may follow it. */
  lemma CoreDemotes(promotes: seq<MemberId>, demotes: seq<MemberId>, di: nat, n: int, keep: set<MemberId>, done: seq<Delta>)
    requires di < |demotes| && (promotes == [] || n % 2 == 0)
    ensures
      var x, rest := demotes[di], Core(promotes, demotes[di + 1..], n - 1, keep);
      var demoted := done + [DemoteVoter(x)];
      done + Core(promotes, demotes[di..], n, keep)
      == (if x in keep then demoted else demoted + [RemoveLearner(x)]) + rest
  {
    var x, rest := demotes[di], Core(promotes, demotes[di + 1..], n - 1, keep);
    assert demotes[di..][1..] == demotes[di + 1..];
    Regroup(done, [DemoteVoter(x)] + Prune(x, keep), rest);
    Regroup(done, [DemoteVoter(x)], Prune(x, keep));
  }

  lemma Regroup(a: seq<Delta>, b: seq<Delta>, c: seq<Delta>)
    ensures a + b + c == a + (b + c)
  {}

  /** Validation by simulation: replay the plan, tracking the running voter and node peaks. */
  method SimulatePlan(current: Membership, plan: seq<Delta>) returns (r: Result<Membership, PlanError>)
    requires current.Valid()
    ensures r == Simulate(current, plan)
  {
    var sim, i := current, 0;
    var maxVoters, maxNodes := |sim.voters|, |sim.voters| + |sim.learners|;
    while i < |plan|
      invariant 0 <= i <= |plan| && sim.Valid()
      invariant maxVoters <= MAX_VOTERS && maxNodes <= MAX_NODES
      invariant Simulate(current, plan) == Simulate(sim, plan[i..])
    {
      ApplyDeltaRefines(sim, plan[i]);
      assert plan[i..][1..] == plan[i + 1..];
      match ApplyDelta(sim, plan[i]) {
        case Ok(next) => sim := next;
        case Err(WouldRemoveLastVoter) => return Err(RemovesLastVoter);
        case Err(TooManyReplicas(count)) => return Err(IntermediatePeakExceedsCap(count));
        case Err(TooManyNodes(count)) => return Err(IntermediateNodePeakExceedsCap(count));
        case Err(_) => return Err(RemovesLastVoter);
      }
      maxVoters := if |sim.voters| > maxVoters then |sim.voters| else maxVoters;
      maxNodes := if |sim.voters| + |sim.learners| > maxNodes then |sim.voters| + |sim.learners| else maxNodes;
      i := i + 1;
    }
    if maxVoters > MAX_VOTERS || maxNodes > MAX_NODES {
      assert false; // every replayed configuration is already within both caps
    }
    r := Ok(sim);
  }

  /** The planner itself: admission, the four phases, then validation by simulation. */
  method PlanReconfiguration(current: Membership, t: Config) returns (r: Result<seq<Delta>, PlanError>)
    requires current.Valid()
    ensures r == Plan(current, t)
  {
    var c := current.Sets();
    if !t.Disjoint() { return Err(VoterLearnerOverlap); }
    if t.voters == {} { return Err(EmptyVoterSet); }
    if |t.voters| > MAX_VOTERS { return Err(TooManyVoters(|t.voters|)); }
    var prune := WalkPhase(c.learners, t.learners + t.voters, false);
    var stage := WalkPhase(t.voters, c.voters + c.learners, true);
    var core := ParityCore(Sorted(t.voters - c.voters), Sorted(c.voters - t.voters), |c.voters|, t.learners);
    var seat := WalkPhase(t.learners, c.learners + c.voters, true);
    var plan := prune + (stage + (core + seat));
    var sim := SimulatePlan(current, plan);
    match sim {
      case Err(e) => r := Err(e);
      case Ok(_) => r := Ok(plan);
    }
  }
}
