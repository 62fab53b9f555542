/** What the planner promises: its plan is memoryless, always legal, ends at the target, never
    dips below the smaller of the two fault tolerances, and fails only on the goal's own
    shape or the node cap. */
module PlannerProofs {
  import opened Wrappers
  import opened Membership
  import opened Planner

  /** A configuration the planner may meet: disjoint ranges, a legal voter count. */
  predicate Plannable(c: Config) {
    c.Disjoint() && 1 <= |c.voters| <= MAX_VOTERS
  }

  /** Fault tolerance counts the crashes that leave a majority: `k` of them do exactly when `k` is
      at most that. */
  lemma ToleranceMeans(n: nat, k: nat)
    requires n > 0
    ensures k <= FaultTolerance(n) <==> n - k >= n / 2 + 1
  {}

  // ---- Distance to the target ------------------------------------------------------------

  /** Position on the chain absent - learner - voter. */
  function Rank(c: Config, x: MemberId): int {
    if x in c.voters then 2 else if x in c.learners then 1 else 0
  }

  function Gap(c: Config, t: Config, x: MemberId): nat {
    var d := Rank(c, x) - Rank(t, x);
    if d < 0 then -d else d
  }

  /** The summed gap over `us`. */
  ghost function GapSum(us: set<MemberId>, c: Config, t: Config): nat {
    if us == {} then 0 else
      var x :| x in us;
      Gap(c, t, x) + GapSum(us - {x}, c, t)
  }

  ghost function Distance(c: Config, t: Config): nat {
    GapSum(c.Members() + t.Members(), c, t)
  }

  lemma {:induction false} GapSumRemove(us: set<MemberId>, c: Config, t: Config, x: MemberId)
    requires x in us
    ensures GapSum(us, c, t) == Gap(c, t, x) + GapSum(us - {x}, c, t)
    decreases us
  {
    var y :| y in us && GapSum(us, c, t) == Gap(c, t, y) + GapSum(us - {y}, c, t);
    if y != x {
      GapSumRemove(us - {y}, c, t, x);
      GapSumRemove(us - {x}, c, t, y);
      assert us - {y} - {x} == us - {x} - {y};
    }
  }

  lemma {:induction false} GapSumAgree(us: set<MemberId>, c: Config, d: Config, t: Config)
    requires forall y :: y in us ==> Rank(c, y) == Rank(d, y)
    ensures GapSum(us, c, t) == GapSum(us, d, t)
    decreases us
  {
    if us != {} {
      var x :| x in us;
      GapSumRemove(us, c, t, x);
      GapSumRemove(us, d, t, x);
      GapSumAgree(us - {x}, c, d, t);
    }
  }

  /** Moving one member moves the distance by that member's own gap. */
  lemma DistanceMove(c: Config, d: Config, t: Config, x: MemberId)
    requires forall y :: y != x ==> Rank(c, y) == Rank(d, y)
    ensures Distance(d, t) + Gap(c, t, x) == Distance(c, t) + Gap(d, t, x)
  {
    var rest := c.Members() + t.Members() - {x};
    assert rest == d.Members() + t.Members() - {x} by {
      forall y | y != x ensures y in c.Members() <==> y in d.Members() {
        assert Rank(c, y) == Rank(d, y);
      }
    }
    GapSumAgree(rest, c, d, t);
    DistanceSplit(c, t, x);
    DistanceSplit(d, t, x);
  }

  lemma DistanceSplit(c: Config, t: Config, x: MemberId)
    ensures Distance(c, t) == Gap(c, t, x) + GapSum(c.Members() + t.Members() - {x}, c, t)
  {
    var us := c.Members() + t.Members();
    if x in us {
      GapSumRemove(us, c, t, x);
    } else {
      assert us - {x} == us;
    }
  }

  lemma DistanceZero(c: Config, t: Config)
    requires c.Disjoint() && t.Disjoint()
    ensures Distance(c, t) == 0 <==> c == t
  {
    if Distance(c, t) == 0 {
      forall x ensures Rank(c, x) == Rank(t, x) { DistanceSplit(c, t, x); }
      forall x ensures x in c.voters <==> x in t.voters { assert Rank(c, x) == Rank(t, x); }
      forall x ensures x in c.learners <==> x in t.learners { assert Rank(c, x) == Rank(t, x); }
      assert c.voters == t.voters && c.learners == t.learners;
    } else {
      if c == t { GapSumSelf(c.Members() + t.Members(), c); }
    }
  }

  lemma {:induction false} GapSumSelf(us: set<MemberId>, c: Config)
    ensures GapSum(us, c, c) == 0
    decreases us
  {
    if us != {} {
      var x :| x in us;
      GapSumRemove(us, c, c, x);
      GapSumSelf(us - {x}, c);
    }
  }

  // ---- One step --------------------------------------------------------------------------

  /** The steps the planner may take with work lists `w` and `n` voters, phase by phase. A
      demotion may name any departing voter: its order is the executor's to choose. */
  predicate DueIn(w: Work, n: int, d: Delta) {
    if w.obsolete != {} then d.RemoveLearner? && d.member in w.obsolete
    else if w.unstaged != {} then d.AddLearner? && d.member in w.unstaged
    else if PromoteTurn(w, n) then d.PromoteLearner? && d.member in w.promotions
    else if w.demotions != {} then d.DemoteVoter? && d.member in w.demotions
    else d.AddLearner? && d.member in w.unseated
  }

  /** At an odd voter count the parity core promotes; at an even one it demotes. */
  predicate PromoteTurn(w: Work, n: int) {
    w.promotions != {} && (w.demotions == {} || n % 2 == 1)
  }

  predicate Due(c: Config, t: Config, d: Delta) {
    DueIn(Lists(c, t), |c.voters|, d)
  }

  /** `Due` without the parity: the member is in the list its delta serves, and a promotion
      waits for staging. */
  predicate Picks(w: Work, d: Delta) {
    match d
    case RemoveLearner(x) => x in w.obsolete
    case AddLearner(x) => if w.unstaged != {} then x in w.unstaged else x in w.unseated
    case PromoteLearner(x) => x in w.promotions && w.unstaged == {}
    case DemoteVoter(x) => x in w.demotions
  }

  lemma DueLegal(c: Config, t: Config, d: Delta)
    requires c.Disjoint() && t.Disjoint() && Picks(Lists(c, t), d)
    ensures Names(c, d) && After(c, d).Disjoint()
  {
    if d.PromoteLearner? { assert d.member !in Lists(c, t).unstaged; }
  }

  /** The voters a delta adds. */
  function Seats(d: Delta): int {
    if d.PromoteLearner? then 1 else if d.DemoteVoter? then -1 else 0
  }

  lemma VoterCount(c: Config, d: Delta)
    requires c.Disjoint() && Names(c, d)
    ensures |After(c, d).voters| == |c.voters| + Seats(d)
  {}

  /** The smaller of the tolerances here and at the target. */
  function Floor(c: Config, t: Config): nat {
    var f, ft := FaultTolerance(|c.voters|), FaultTolerance(|t.voters|);
    if f < ft then f else ft
  }

  /** A promotion comes at an odd count or below the target's, a demotion at an even count or
      above it. */
  lemma DueParity(c: Config, t: Config, d: Delta)
    requires Due(c, t, d)
    ensures d.PromoteLearner? ==> |c.voters| % 2 == 1 || |c.voters| < |t.voters|
    ensures d.DemoteVoter? ==> |c.voters| % 2 == 0 || |c.voters| > |t.voters|
  {
    var w := Lists(c, t);
    if d.PromoteLearner? && w.demotions == {} { ProperSubsetCard(c.voters, t.voters, d.member); }
    if d.DemoteVoter? && w.promotions == {} { ProperSubsetCard(t.voters, c.voters, d.member); }
  }

  /** A due step's voter count: within the caps, and at or above the tolerance floor. */
  lemma DueCount(c: Config, t: Config, d: Delta)
    requires Plannable(c) && Plannable(t) && Due(c, t, d)
    ensures |After(c, d).voters| == |c.voters| + Seats(d)
    ensures 1 <= |After(c, d).voters| <= MAX_VOTERS && FaultTolerance(|After(c, d).voters|) >= Floor(c, t)
  {
    DueLegal(c, t, d);
    VoterCount(c, d);
    DueParity(c, t, d);
    ParityKeepsFloor(|c.voters|, |t.voters|, d);
  }

  lemma ParityKeepsFloor(n: nat, target: nat, d: Delta)
    requires 1 <= n <= MAX_VOTERS && 1 <= target <= MAX_VOTERS
    requires d.PromoteLearner? ==> n % 2 == 1 || n < target
    requires d.DemoteVoter? ==> n % 2 == 0 || n > target
    ensures 1 <= n + Seats(d) <= MAX_VOTERS
    ensures FaultTolerance(n + Seats(d)) >= FaultTolerance(n) || FaultTolerance(n + Seats(d)) >= FaultTolerance(target)
  {}

  lemma DueGap(c: Config, t: Config, d: Delta)
    requires c.Disjoint() && t.Disjoint() && Picks(Lists(c, t), d)
    ensures forall y :: y != d.member ==> Rank(c, y) == Rank(After(c, d), y)
    ensures Gap(After(c, d), t, d.member) + 1 == Gap(c, t, d.member)
  {
    DueLegal(c, t, d);
  }

  /** Every due step is legal, keeps the configuration plannable, never takes the fault
      tolerance below the smaller of here and the target, and closes the distance by
      exactly one. */
  lemma DueStep(c: Config, t: Config, d: Delta)
    requires Plannable(c) && Plannable(t) && Due(c, t, d)
    ensures Names(c, d) && Plannable(After(c, d))
    ensures FaultTolerance(|After(c, d).voters|) >= Floor(c, t)
    ensures Distance(After(c, d), t) + 1 == Distance(c, t)
  {
    DueLegal(c, t, d);
    DueCount(c, t, d);
    DueGap(c, t, d);
    DistanceMove(c, After(c, d), t, d.member);
  }

  lemma ProperSubsetCard(a: set<MemberId>, b: set<MemberId>, x: MemberId)
    requires a - b == {} && x in b && x !in a
    ensures |a| < |b|
  {
    forall y | y in a ensures y in b { assert y !in a - b; }
    SubsetCard(a, b - {x});
  }

  lemma SubsetCard(a: set<MemberId>, b: set<MemberId>)
    requires a <= b
    ensures |a| <= |b|
  {
    assert b == a + (b - a);
  }

  // How a due step moves the work lists: its own list loses the member, and a demotee the
  // target does not keep becomes an obsolete learner.

  function Next(w: Work, d: Delta, keep: set<MemberId>): Work {
    match d
    case RemoveLearner(x) => w.(obsolete := w.obsolete - {x})
    case AddLearner(x) =>
      if w.unstaged != {} then w.(unstaged := w.unstaged - {x}) else w.(unseated := w.unseated - {x})
    case PromoteLearner(x) => w.(promotions := w.promotions - {x})
    case DemoteVoter(x) =>
      w.(demotions := w.demotions - {x}, obsolete := if x in keep then w.obsolete else w.obsolete + {x})
  }

  lemma ListsAfter(c: Config, t: Config, d: Delta)
    requires c.Disjoint() && t.Disjoint() && Picks(Lists(c, t), d)
    ensures Lists(After(c, d), t) == Next(Lists(c, t), d, t.learners)
  {
    DueLegal(c, t, d);
    ObsoleteAfter(c, t, d);
    UnstagedAfter(c, t, d);
    UnseatedAfter(c, t, d);
    VotersAfter(c, t, d);
    hide Lists, Next;
  }

  lemma VotersAfter(c: Config, t: Config, d: Delta)
    requires Picks(Lists(c, t), d)
    ensures
      var a, b := Lists(After(c, d), t), Next(Lists(c, t), d, t.learners);
      a.promotions == b.promotions && a.demotions == b.demotions
  {}

  lemma ObsoleteAfter(c: Config, t: Config, d: Delta)
    requires c.Disjoint() && t.Disjoint() && Picks(Lists(c, t), d)
    ensures Lists(After(c, d), t).obsolete == Next(Lists(c, t), d, t.learners).obsolete
  {
    var a, b := Lists(After(c, d), t).obsolete, Next(Lists(c, t), d, t.learners).obsolete;
    forall y ensures y in a <==> y in b {}
  }

  lemma UnstagedAfter(c: Config, t: Config, d: Delta)
    requires c.Disjoint() && Names(c, d) && t.Disjoint() && Picks(Lists(c, t), d)
    ensures Lists(After(c, d), t).unstaged == Next(Lists(c, t), d, t.learners).unstaged
  {
    var a, b := Lists(After(c, d), t).unstaged, Next(Lists(c, t), d, t.learners).unstaged;
    forall y ensures y in a <==> y in b { MembersAfter(c, d, y); }
  }

  lemma UnseatedAfter(c: Config, t: Config, d: Delta)
    requires c.Disjoint() && Names(c, d) && t.Disjoint() && Picks(Lists(c, t), d)
    ensures Lists(After(c, d), t).unseated == Next(Lists(c, t), d, t.learners).unseated
  {
    var a, b := Lists(After(c, d), t).unseated, Next(Lists(c, t), d, t.learners).unseated;
    forall y ensures y in a <==> y in b { MembersAfter(c, d, y); }
  }

  lemma MembersAfter(c: Config, d: Delta, y: MemberId)
    requires c.Disjoint() && Names(c, d)
    ensures y in After(c, d).voters || y in After(c, d).learners
       <==> if y == d.member then !d.RemoveLearner? else y in c.voters || y in c.learners
  {}

  // ---- The plan's head and tail ------------------------------------------------------------

  predicate Idle(w: Work) {
    w.obsolete == w.unstaged == w.promotions == w.demotions == w.unseated == {}
  }

  /** The step the phases lead with. */
  function Lead(w: Work, n: int): (d: Delta)
    requires !Idle(w)
    ensures DueIn(w, n, d)
  {
    if w.obsolete != {} then RemoveLearner(Min(w.obsolete))
    else if w.unstaged != {} then AddLearner(Min(w.unstaged))
    else if PromoteTurn(w, n) then PromoteLearner(Min(w.promotions))
    else if w.demotions != {} then DemoteVoter(Min(w.demotions))
    else AddLearner(Min(w.unseated))
  }

  lemma PrunePeels(w: Work, n: int, keep: set<MemberId>)
    requires w.obsolete != {}
    ensures Phases(w, n, keep) == [Lead(w, n)] + Phases(Next(w, Lead(w, n), keep), n, keep)
  {
    hide Core;
    var o := w.obsolete;
    var rest := Adds(Sorted(w.unstaged)) + (Core(Sorted(w.promotions), Sorted(w.demotions), n, keep) + Adds(Sorted(w.unseated)));
    Regroup([RemoveLearner(Min(o))], Removes(Sorted(o - {Min(o)})), rest);
  }

  lemma StagePeels(w: Work, n: int, keep: set<MemberId>)
    requires w.obsolete == {} && w.unstaged != {}
    ensures Phases(w, n, keep) == [Lead(w, n)] + Phases(Next(w, Lead(w, n), keep), n, keep)
  {
    hide Core;
    var u := w.unstaged;
    var rest := Core(Sorted(w.promotions), Sorted(w.demotions), n, keep) + Adds(Sorted(w.unseated));
    NoPrunes(Adds(Sorted(u)) + rest);
    NoPrunes(Adds(Sorted(u - {Min(u)})) + rest);
    Regroup([AddLearner(Min(u))], Adds(Sorted(u - {Min(u)})), rest);
  }

  lemma NoPrunes(rest: seq<Delta>)
    ensures Removes(Sorted({})) + rest == rest && Adds(Sorted({})) + rest == rest
  {}

  lemma SeatPeels(w: Work, n: int, keep: set<MemberId>)
    requires w.obsolete == w.unstaged == w.promotions == w.demotions == {} && w.unseated != {}
    ensures Phases(w, n, keep) == [Lead(w, n)] + Phases(Next(w, Lead(w, n), keep), n, keep)
  {
    var e := w.unseated;
    NoPrunes(Adds(Sorted(e)));
    NoPrunes(Adds(Sorted(e - {Min(e)})));
    assert Core([], [], n, keep) == [];
  }

  lemma PromotePeels(w: Work, n: int, keep: set<MemberId>)
    requires w.obsolete == w.unstaged == {} && PromoteTurn(w, n)
    ensures Phases(w, n, keep) == [Lead(w, n)] + Phases(Next(w, Lead(w, n), keep), n + 1, keep)
  {
    var p, d, e := w.promotions, Sorted(w.demotions), Adds(Sorted(w.unseated));
    var core := Core(Sorted(p - {Min(p)}), d, n + 1, keep);
    NoPrunes(Core(Sorted(p), d, n, keep) + e);
    NoPrunes(core + e);
    Regroup([PromoteLearner(Min(p))], core, e);
  }

  lemma DemotePeels(w: Work, n: int, keep: set<MemberId>)
    requires w.obsolete == w.unstaged == {} && !PromoteTurn(w, n) && w.demotions != {}
    ensures Phases(w, n, keep) == [Lead(w, n)] + Phases(Next(w, Lead(w, n), keep), n - 1, keep)
  {
    var x := Min(w.demotions);
    var p, e := Sorted(w.promotions), Adds(Sorted(w.unseated));
    var core := Core(p, Sorted(w.demotions - {x}), n - 1, keep);
    NoPrunes(Core(p, Sorted(w.demotions), n, keep) + e);
    NoPrunes(core + e);
    PruneOne(x, keep);
    Regroup([DemoteVoter(x)], Prune(x, keep), core);
    Regroup([DemoteVoter(x)], Prune(x, keep) + core, e);
    Regroup(Prune(x, keep), core, e);
  }

  lemma PruneOne(x: MemberId, keep: set<MemberId>)
    ensures Removes(Sorted(if x in keep then {} else {} + {x})) == Prune(x, keep)
  {
    assert {} + {x} == {x};
    SortedOne(x);
    assert Removes([x]) == [RemoveLearner(x)] + Removes([]);
  }

  lemma SortedOne(x: MemberId)
    ensures Sorted({x}) == [x]
  {
    MinIs({x}, x);
    assert {x} - {x} == {};
  }

  lemma PhasesPeel(w: Work, n: int, keep: set<MemberId>)
    requires !Idle(w)
    ensures
      var d := Lead(w, n);
      Phases(w, n, keep) == [d] + Phases(Next(w, d, keep), n + Seats(d), keep)
  {
    hide Phases;
    if w.obsolete != {} { PrunePeels(w, n, keep); }
    else if w.unstaged != {} { StagePeels(w, n, keep); }
    else if PromoteTurn(w, n) { PromotePeels(w, n, keep); }
    else if w.demotions != {} { DemotePeels(w, n, keep); }
    else { SeatPeels(w, n, keep); }
  }

  lemma IdleAtTarget(c: Config, t: Config)
    requires c.Disjoint() && t.Disjoint()
    ensures Idle(Lists(c, t)) <==> c == t
  {
    var w := Lists(c, t);
    if Idle(w) {
      forall y ensures y in c.voters <==> y in t.voters { assert y !in w.promotions && y !in w.demotions; }
      assert c.voters == t.voters;
      forall y ensures y in c.learners <==> y in t.learners { assert y !in w.obsolete && y !in w.unseated; }
      assert c.learners == t.learners;
    }
  }

  /** The step the plan from `c` leads with. */
  function First(c: Config, t: Config): (d: Delta)
    requires c != t && c.Disjoint() && t.Disjoint()
    ensures Due(c, t, d)
  {
    IdleAtTarget(c, t);
    Lead(Lists(c, t), |c.voters|)
  }

  /** The plan's tail is the plan from the configuration its head leads to. */
  lemma PlanSplits(c: Config, t: Config)
    requires Plannable(c) && Plannable(t) && c != t
    ensures BuildPlan(c, t) == [First(c, t)] + BuildPlan(After(c, First(c, t)), t)
  {
    hide Phases, Lead, Next, Lists;
    IdleAtTarget(c, t);
    var d := First(c, t);
    ListsAfter(c, t, d);
    DueCount(c, t, d);
    PhasesPeel(Lists(c, t), |c.voters|, t.learners);
  }

  lemma PlanDone(t: Config)
    requires t.Disjoint()
    ensures BuildPlan(t, t) == []
  {
    IdleAtTarget(t, t);
  }

  // ---- The whole plan --------------------------------------------------------------------

  /** Nodes seated at once along the plan: now, after staging, or at the target. */
  function NodePeak(c: Config, t: Config): nat {
    Max(Nodes(c), Max(Staged(c, t), Nodes(t)))
  }

  /** The node count once pruning and staging are done. */
  function Staged(c: Config, t: Config): int {
    Nodes(c) - |Lists(c, t).obsolete| + |Lists(c, t).unstaged|
  }

  function Max(a: int, b: int): int { if a < b then b else a }

  function Nodes(c: Config): nat { |c.voters| + |c.learners| }

  /** What holds at every configuration a plan passes through, from `c` to its end. */
  ghost predicate Sound(c: Config, t: Config, plan: seq<Delta>, floor: nat)
    decreases plan
  {
    && Plannable(c)
    && FaultTolerance(|c.voters|) >= floor
    && |plan| == Distance(c, t)
    && if plan == [] then c == t
       else Names(c, plan[0]) && Sound(After(c, plan[0]), t, plan[1..], floor)
  }

  /** THE PLAN IS SOUND: every step is legal where it is taken, every configuration passed
      through has 1 to 64 voters and a tolerance at or above the floor, the end is the
      target, and the length is the distance. */
  lemma {:induction false} PlanIsSound(c: Config, t: Config, floor: nat)
    requires Plannable(c) && Plannable(t) && floor <= Floor(c, t)
    ensures Sound(c, t, BuildPlan(c, t), floor)
    decreases Distance(c, t)
  {
    DistanceZero(c, t);
    if c == t {
      PlanDone(c);
    } else {
      var d := First(c, t);
      PlanSplits(c, t);
      DueStep(c, t, d);
      PlanIsSound(After(c, d), t, floor);
    }
  }

  /** MEMORYLESS: re-planning from the configuration any prefix of the plan leads to
      reproduces the rest of the plan. */
  lemma {:induction false} Memoryless(c: Config, t: Config, k: nat)
    requires Plannable(c) && Plannable(t) && k <= |BuildPlan(c, t)|
    ensures BuildPlan(c, t)[k..] == BuildPlan(AfterAll(c, BuildPlan(c, t)[..k]), t)
    decreases k
  {
    hide BuildPlan, First;
    var plan := BuildPlan(c, t);
    if k == 0 {
      assert plan[..0] == [] && plan[0..] == plan;
    } else if c == t {
      PlanDone(c);
      assert false;
    } else {
      var d := First(c, t);
      PlanSplits(c, t);
      DueStep(c, t, d);
      var n := After(c, d);
      Memoryless(n, t, k - 1);
      assert plan[..k][1..] == BuildPlan(n, t)[..k - 1];
    }
  }

  function AfterAll(c: Config, plan: seq<Delta>): Config
    decreases plan
  {
    if plan == [] then c else AfterAll(After(c, plan[0]), plan[1..])
  }

  lemma NodesAfter(c: Config, t: Config, d: Delta)
    requires c.Disjoint() && t.Disjoint() && Picks(Lists(c, t), d)
    ensures Nodes(After(c, d)) == Nodes(c) + (if d.AddLearner? then 1 else if d.RemoveLearner? then -1 else 0)
  {
    DueLegal(c, t, d);
  }

  lemma WorkCards(w: Work, n: int, d: Delta, keep: set<MemberId>)
    requires DueIn(w, n, d)
    ensures
      var v := Next(w, d, keep);
      if d.RemoveLearner? then |v.obsolete| == |w.obsolete| - 1 && |v.unstaged| == |w.unstaged|
      else if d.AddLearner? && w.unstaged != {} then
        |v.obsolete| == |w.obsolete| == 0 && |v.unstaged| == |w.unstaged| - 1
      else |w.obsolete| == |w.unstaged| == |v.unstaged| == 0
  {}

  /** The staging half of the peak is fixed until staging is over, and idle afterwards. */
  lemma StagedAfter(c: Config, t: Config, d: Delta)
    requires c.Disjoint() && t.Disjoint() && Due(c, t, d)
    ensures
      var n := After(c, d);
      if d.RemoveLearner? then Staged(n, t) == Staged(c, t)
      else if d.AddLearner? && Lists(c, t).unstaged != {} then Nodes(c) < Staged(c, t) == Staged(n, t)
      else Staged(c, t) == Nodes(c) && Staged(n, t) <= Nodes(n)
  {
    NodesAfter(c, t, d);
    ListsAfter(c, t, d);
    WorkCards(Lists(c, t), |c.voters|, d, t.learners);
    hide Lists, Next;
  }

  /** `NodePeak` is the running maximum: one step peels off the current node count. */
  lemma NodePeakStep(c: Config, t: Config, d: Delta)
    requires c.Disjoint() && t.Disjoint() && Due(c, t, d)
    ensures NodePeak(c, t) == Max(Nodes(c), NodePeak(After(c, d), t))
    ensures d.AddLearner? ==> Nodes(c) + 1 <= NodePeak(c, t)
  {
    NodesAfter(c, t, d);
    StagedAfter(c, t, d);
    if d.AddLearner? && Lists(c, t).unstaged == {} { UnseatedRoom(c, t, d); }
    RunningMax(Nodes(c), Staged(c, t), Nodes(After(c, d)), Staged(After(c, d), t), Nodes(t));
  }

  lemma RunningMax(here: int, staged: int, next: int, staged1: int, target: int)
    requires || (next <= here && staged1 == staged)
             || (next == here + 1 <= staged && staged1 == staged)
             || (staged == here && staged1 <= next && (next <= here || next <= target))
    ensures Max(here, Max(staged, target)) == Max(here, Max(next, Max(staged1, target)))
    ensures next == here + 1 ==> next <= Max(here, Max(staged, target))
  {}

  lemma UnseatedRoom(c: Config, t: Config, d: Delta)
    requires c.Disjoint() && t.Disjoint() && Due(c, t, d) && d.AddLearner? && Lists(c, t).unstaged == {}
    ensures Nodes(c) + 1 <= Nodes(t)
  {
    assert c.voters == t.voters by {
      assert Lists(c, t).promotions == {} && Lists(c, t).demotions == {};
    }
    ProperSubsetCard(c.learners, t.learners, d.member);
  }

  /** The head of the plan applies, unless it is one node too many. */
  lemma FirstApplies(m: Membership, t: Config)
    requires m.Valid() && Plannable(t) && m.Sets() != t
    ensures Plannable(m.Sets())
    ensures
      var d := First(m.Sets(), t);
      match ApplyDelta(m, d)
      case Ok(n) => n.Valid() && n.Sets() == After(m.Sets(), d)
      case Err(e) => e == TooManyNodes(MAX_NODES + 1) && d.AddLearner? && Nodes(m.Sets()) == MAX_NODES
  {
    SlotFacts(m);
    var c := m.Sets();
    var d := First(c, t);
    DueLegal(c, t, d);
    DueCount(c, t, d);
    ApplyDeltaRefines(m, d);
  }

  /** What simulating a whole plan towards `t` may return, given the node peak. */
  ghost predicate Verdict(r: Result<Membership, PlanError>, t: Config, peak: int) {
    if peak <= MAX_NODES then r.Ok? && r.value.Valid() && r.value.Sets() == t
    else r == Err(IntermediateNodePeakExceedsCap(MAX_NODES + 1))
  }

  lemma {:induction false} SimulateVerdict(m: Membership, t: Config)
    requires m.Valid() && Plannable(t)
    ensures Verdict(Simulate(m, BuildPlan(m.Sets(), t)), t, NodePeak(m.Sets(), t))
    decreases Distance(m.Sets(), t)
  {
    var c := m.Sets();
    SlotFacts(m);
    if c == t {
      PlanDone(c);
      assert NodePeak(c, t) == Nodes(c);
    } else {
      var d := First(c, t);
      FirstApplies(m, t);
      PlanSplits(c, t);
      NodePeakStep(c, t, d);
      SimulateCons(m, d, BuildPlan(After(c, d), t));
      if ApplyDelta(m, d).Ok? {
        DueStep(c, t, d);
        SimulateVerdict(ApplyDelta(m, d).value, t);
      }
    }
  }

  lemma SimulateCons(m: Membership, d: Delta, rest: seq<Delta>)
    ensures ApplyDelta(m, d).Ok? ==> Simulate(m, [d] + rest) == Simulate(ApplyDelta(m, d).value, rest)
    ensures forall k :: ApplyDelta(m, d) == Err(TooManyNodes(k)) ==>
      Simulate(m, [d] + rest) == Err(IntermediateNodePeakExceedsCap(k))
  {
    assert ([d] + rest)[1..] == rest;
  }

  /** THE PLANNER'S VERDICT, for every valid configuration and every goal: a goal is refused
      for its own shape, or because the node peak passes the cap, and for nothing else. The
      voter-peak and last-voter errors are never returned. */
  lemma PlannerVerdict(m: Membership, t: Config)
    requires m.Valid()
    ensures !(t.voters !! t.learners) ==> Plan(m, t) == Err(VoterLearnerOverlap)
    ensures t.voters == {} ==> Plan(m, t) == Err(EmptyVoterSet)
    ensures t.voters !! t.learners && |t.voters| > 64 ==> Plan(m, t) == Err(TooManyVoters(|t.voters|))
    ensures Admission(t).Ok? <==> t.voters !! t.learners && 1 <= |t.voters| <= 64
    ensures Admission(t).Ok? && NodePeak(m.Sets(), t) > MAX_NODES ==>
      Plan(m, t) == Err(IntermediateNodePeakExceedsCap(MAX_NODES + 1))
    ensures Admission(t).Ok? && NodePeak(m.Sets(), t) <= MAX_NODES ==>
      Plan(m, t) == Ok(BuildPlan(m.Sets(), t))
    ensures Plan(m, t).Err? ==> !Plan(m, t).error.IntermediatePeakExceedsCap? && !Plan(m, t).error.RemovesLastVoter?
  {
    if Admission(t).Ok? {
      assert |t.voters| != 0;
      SimulateVerdict(m, t);
    }
  }

  /** The goal test: the plan is empty exactly at the target. */
  lemma EmptyPlanExactly(m: Membership, t: Config)
    requires m.Valid()
    ensures Plan(m, t) == Ok([]) <==> m.Sets() == t
  {
    hide Plan, Phases;
    PlannerVerdict(m, t);
    SlotFacts(m);
    if m.Sets() == t {
      PlanDone(t);
      PeakAtTarget(t);
    } else if Admission(t).Ok? {
      assert |t.voters| != 0;
      PlanSplits(m.Sets(), t);
    }
  }

  lemma PeakAtTarget(t: Config)
    requires t.Disjoint()
    ensures NodePeak(t, t) == Nodes(t)
  {
    IdleAtTarget(t, t);
  }

  /** Any two majorities on either side of a legal delta share a voter. */
  lemma MajoritiesMeet(c: Config, d: Delta, p: set<MemberId>, q: set<MemberId>)
    requires Names(c, d)
    requires p <= c.voters && |p| >= |c.voters| / 2 + 1
    requires q <= After(c, d).voters && |q| >= |After(c, d).voters| / 2 + 1
    ensures p * q != {}
  {
    var all := c.voters + After(c, d).voters;
    SubsetCard(p + q, all);
    assert |p + q| + |p * q| == |p| + |q|;
    assert all == if d.PromoteLearner? then After(c, d).voters else c.voters;
  }

  // ---- The demotion set ------------------------------------------------------------------

  function DemotesOf(plan: seq<Delta>): seq<Delta> {
    if plan == [] then [] else (if plan[0].DemoteVoter? then [plan[0]] else []) + DemotesOf(plan[1..])
  }

  /** Whether a stage or promote comes before the first demotion. */
  predicate GrowsFirst(plan: seq<Delta>) {
    plan != [] && !plan[0].DemoteVoter? && (plan[0].AddLearner? || plan[0].PromoteLearner? || GrowsFirst(plan[1..]))
  }

  /** The departing voters to choose among, empty while a demotion is not yet due. */
  function ShrinkCandidates(m: Membership, t: Config): Result<seq<Delta>, PlanError> {
    match Plan(m, t)
    case Err(e) => Err(e)
    case Ok(plan) => Ok(if GrowsFirst(plan) then [] else DemotesOf(plan))
  }

  lemma {:induction false} DemotesOfConcat(a: seq<Delta>, b: seq<Delta>)
    ensures DemotesOf(a + b) == DemotesOf(a) + DemotesOf(b)
  {
    if a == [] {
      assert a + b == b;
    } else {
      DemotesOfConcat(a[1..], b);
      assert (a + b)[0] == a[0] && (a + b)[1..] == a[1..] + b;
      Regroup(if a[0].DemoteVoter? then [a[0]] else [], DemotesOf(a[1..]), DemotesOf(b));
    }
  }

  lemma {:induction false} NoDemotes(xs: seq<MemberId>)
    ensures DemotesOf(Adds(xs)) == [] && DemotesOf(Removes(xs)) == []
  {
    if xs != [] { NoDemotes(xs[1..]); }
  }

  function Demotes(xs: seq<MemberId>): seq<Delta> {
    if xs == [] then [] else [DemoteVoter(xs[0])] + Demotes(xs[1..])
  }

  lemma {:induction false} CoreDemotes(ps: seq<MemberId>, ds: seq<MemberId>, n: int, keep: set<MemberId>)
    ensures DemotesOf(Core(ps, ds, n, keep)) == Demotes(ds)
    decreases |ps| + |ds|
  {
    if ps == [] && ds == [] {
    } else if ps != [] && (ds == [] || n % 2 == 1) {
      CoreDemotes(ps[1..], ds, n + 1, keep);
      DemotesOfConcat([PromoteLearner(ps[0])], Core(ps[1..], ds, n + 1, keep));
    } else {
      var head := [DemoteVoter(ds[0])] + Prune(ds[0], keep);
      assert DemotesOf(head) == [DemoteVoter(ds[0])] by {
        assert head[1..] == Prune(ds[0], keep);
        assert DemotesOf(Prune(ds[0], keep)) == [] by { assert Prune(ds[0], keep) == [] || Prune(ds[0], keep)[1..] == []; }
      }
      CoreDemotes(ps, ds[1..], n - 1, keep);
      DemotesOfConcat(head, Core(ps, ds[1..], n - 1, keep));
    }
  }

  /** When the plan leads with a demotion, the candidates are exactly the departing voters, in
      order, and every one of them is due: the executor's "nothing due" arm is unreachable. */
  lemma CandidatesAreDepartures(m: Membership, t: Config)
    requires m.Valid() && Plan(m, t).Ok? && Plan(m, t).value != [] && Plan(m, t).value[0].DemoteVoter?
    ensures ShrinkCandidates(m, t) == Ok(Demotes(Sorted(Lists(m.Sets(), t).demotions)))
    ensures Lists(m.Sets(), t).demotions != {}
    ensures forall x :: x in Lists(m.Sets(), t).demotions ==> Due(m.Sets(), t, DemoteVoter(x))
  {
    SlotFacts(m);
    PlannerVerdict(m, t);
    assert |t.voters| != 0;
    var c := m.Sets();
    if c == t {
      PlanDone(c);
      assert false;
    }
    PlanSplits(c, t);
    PlanDemotes(c, t);
  }

  lemma PlanDemotes(c: Config, t: Config)
    ensures DemotesOf(BuildPlan(c, t)) == Demotes(Sorted(Lists(c, t).demotions))
  {
    var o, u, e := Sorted(Lists(c, t).obsolete), Sorted(Lists(c, t).unstaged), Sorted(Lists(c, t).unseated);
    var core := Core(Sorted(Lists(c, t).promotions), Sorted(Lists(c, t).demotions), |c.voters|, t.learners);
    NoDemotes(o);
    NoDemotes(u);
    NoDemotes(e);
    CoreDemotes(Sorted(Lists(c, t).promotions), Sorted(Lists(c, t).demotions), |c.voters|, t.learners);
    DemotesOfConcat(Removes(o), Adds(u) + (core + Adds(e)));
    DemotesOfConcat(Adds(u), core + Adds(e));
    DemotesOfConcat(core, Adds(e));
  }
}
