/** What every run of the executor guarantees, whatever the membership, the probe and the
    proposals do around it. */
module ExecutorProofs {
  import opened Wrappers
  import opened Membership
  import opened Planner
  import opened PlannerProofs
  import opened Executor

  // ---- The picker ------------------------------------------------------------------------

  lemma BeforeTransitive(ev: Evidence, a: MemberId, b: MemberId, c: MemberId)
    requires !ev.Before(b, a) && !ev.Before(c, b)
    ensures !ev.Before(c, a)
  {}

  ghost predicate InOrder(ev: Evidence, ds: seq<Delta>) {
    forall i, j :: 0 <= i < j < |ds| ==> !ev.Before(ds[j].member, ds[i].member)
  }

  lemma {:induction false} InsertInOrder(ev: Evidence, d: Delta, ds: seq<Delta>)
    requires InOrder(ev, ds)
    ensures InOrder(ev, Insert(ev, d, ds))
  {
    var out := Insert(ev, d, ds);
    if ds != [] {
      if ev.Before(ds[0].member, d.member) {
        InsertInOrder(ev, d, ds[1..]);
        InsertKeeps(ev, d, ds[1..]);
        forall j | 0 < j < |out| ensures !ev.Before(out[j].member, out[0].member) {
          assert out[j] in Insert(ev, d, ds[1..]);
        }
      } else {
        forall j | 0 < j < |out| ensures !ev.Before(out[j].member, out[0].member) {
          if j > 1 { BeforeTransitive(ev, d.member, ds[0].member, ds[j - 1].member); }
        }
      }
    }
  }

  lemma {:induction false} OrderedInOrder(ev: Evidence, ds: seq<Delta>)
    ensures InOrder(ev, Ordered(ev, ds))
  {
    if ds != [] {
      OrderedInOrder(ev, ds[..|ds| - 1]);
      InsertInOrder(ev, ds[|ds| - 1], Ordered(ev, ds[..|ds| - 1]));
    }
  }

  lemma {:induction false} FirstQualifiedIsFirst(ev: Evidence, ds: seq<Delta>)
    ensures match FirstQualified(ev, ds)
      case None => forall d :: d in ds ==> !ev.Qualifies(d.member)
      case Some(d) =>
        exists k :: 0 <= k < |ds| && ds[k] == d && ev.Qualifies(d.member) && forall i :: 0 <= i < k ==> !ev.Qualifies(ds[i].member)
  {
    hide Evidence.Qualifies;
    if ds != [] {
      if ev.Qualifies(ds[0].member) {
        assert ds[0] == FirstQualified(ev, ds).value;
      } else {
        FirstQualifiedIsFirst(ev, ds[1..]);
        match FirstQualified(ev, ds)
        case None => assert ds == [ds[0]] + ds[1..];
        case Some(d) =>
          var k :| 0 <= k < |ds[1..]| && ds[1..][k] == d && ev.Qualifies(d.member)
                   && forall i :: 0 <= i < k ==> !ev.Qualifies(ds[1..][i].member);
          assert ds[k + 1] == d;
          forall i | 0 <= i < k + 1 ensures !ev.Qualifies(ds[i].member) {
            if i > 0 { assert ds[i] == ds[1..][i - 1]; }
          }
      }
    }
  }

  /** Qualifying is leaving a majority proven live and not vetoed. */
  lemma QualifiesMeans(ev: Evidence, x: MemberId)
    ensures ev.Qualifies(x) <==> |(ev.voters - {x}) * (ev.proven - ev.knownDown)| >= |ev.voters - {x}| / 2 + 1
  {
    assert ev.AliveIn(ev.voters - {x}) == (ev.voters - {x}) * (ev.proven - ev.knownDown);
  }

  /** In the picker's own terms: the first qualified by rank, or the best-ranked's missing proof. */
  lemma PickByRank(ev: Evidence, candidates: seq<Delta>)
    requires candidates != []
    ensures match Pick(ev, candidates)
      case Ok(d) =>
        && d in candidates && ev.Qualifies(d.member)
        && (forall e :: e in candidates && ev.Qualifies(e.member) ==> !ev.Before(e.member, d.member))
      case Err(unproven) =>
        && (forall e :: e in candidates ==> !ev.Qualifies(e.member))
        && (exists best :: best in candidates && unproven == Unproven(ev, best.member)
              && forall e :: e in candidates ==> !ev.Before(e.member, best.member))
  {
    var ordered := Ordered(ev, candidates);
    OrderedKeeps(ev, candidates);
    OrderedInOrder(ev, candidates);
    FirstQualifiedIsFirst(ev, ordered);
    hide Ordered, FirstQualified, Evidence.Qualifies;
    match FirstQualified(ev, ordered)
    case Some(d) =>
      var k :| 0 <= k < |ordered| && ordered[k] == d && ev.Qualifies(d.member)
               && forall i :: 0 <= i < k ==> !ev.Qualifies(ordered[i].member);
      forall e | e in candidates && ev.Qualifies(e.member) ensures !ev.Before(e.member, d.member) {
        assert e in ordered;
        var j :| 0 <= j < |ordered| && ordered[j] == e;
      }
    case None =>
      forall e | e in candidates ensures !ev.Before(e.member, ordered[0].member) && !ev.Qualifies(e.member) {
        assert e in ordered;
        var j :| 0 <= j < |ordered| && ordered[j] == e;
      }
      assert ordered[0] in ordered;
  }

  /** Rank, spelled out: self last, the apparently down first, then by id. */
  lemma RankMeans(ev: Evidence, d: MemberId, e: MemberId)
    ensures
      var live := ev.proven - ev.knownDown;
      !ev.Before(e, d) ==>
        && (d == ev.local ==> e == ev.local)
        && (e != ev.local && d in live ==> e in live)
        && (e != ev.local && (d in live <==> e in live) ==> d <= e)
  {}

  /** THE PICKER: a demotion is chosen exactly when some candidate's departure leaves voters of
      whom a majority answered and is not vetoed; the one chosen does. Among those that do, this
      node comes last, members apparently down come before live ones, and then the smallest id
      wins. Otherwise the diagnostic names exactly the voters without proof that would be left by
      the candidate that comes first in that order. */
  lemma PickIsBest(ev: Evidence, candidates: seq<Delta>)
    requires candidates != []
    ensures
      var live := ev.proven - ev.knownDown;
      match Pick(ev, candidates)
      case Ok(d) =>
        && d in candidates && |(ev.voters - {d.member}) * live| >= |ev.voters - {d.member}| / 2 + 1
        && (forall e :: e in candidates && |(ev.voters - {e.member}) * live| >= |ev.voters - {e.member}| / 2 + 1 ==>
              && (d.member == ev.local ==> e.member == ev.local)
              && (e.member != ev.local && d.member in live ==> e.member in live)
              && (e.member != ev.local && (d.member in live <==> e.member in live) ==> d.member <= e.member))
      case Err(unproven) =>
        && (forall e :: e in candidates ==> |(ev.voters - {e.member}) * live| < |ev.voters - {e.member}| / 2 + 1)
        && (exists best :: best in candidates && unproven == ev.voters - {best.member} - live
              && forall e :: e in candidates ==>
                   && (best.member == ev.local ==> e.member == ev.local)
                   && (e.member != ev.local && best.member in live ==> e.member in live)
                   && (e.member != ev.local && (best.member in live <==> e.member in live) ==> best.member <= e.member))
  {
    hide Pick, Evidence.Qualifies, Evidence.Before;
    PickByRank(ev, candidates);
    var live := ev.proven - ev.knownDown;
    match Pick(ev, candidates)
    case Ok(d) =>
      QualifiesMeans(ev, d.member);
      forall e | e in candidates && |(ev.voters - {e.member}) * live| >= |ev.voters - {e.member}| / 2 + 1
        ensures && (d.member == ev.local ==> e.member == ev.local)
                && (e.member != ev.local && d.member in live ==> e.member in live)
                && (e.member != ev.local && (d.member in live <==> e.member in live) ==> d.member <= e.member)
      {
        QualifiesMeans(ev, e.member);
        RankMeans(ev, d.member, e.member);
      }
    case Err(unproven) =>
      var best :| best in candidates && unproven == Unproven(ev, best.member)
                  && forall e :: e in candidates ==> !ev.Before(e.member, best.member);
      assert unproven == ev.voters - {best.member} - live;
      forall e | e in candidates
        ensures |(ev.voters - {e.member}) * live| < |ev.voters - {e.member}| / 2 + 1
        ensures && (best.member == ev.local ==> e.member == ev.local)
                && (e.member != ev.local && best.member in live ==> e.member in live)
                && (e.member != ev.local && (best.member in live <==> e.member in live) ==> best.member <= e.member)
      {
        QualifiesMeans(ev, e.member);
        RankMeans(ev, best.member, e.member);
      }
  }

  // ---- One turn --------------------------------------------------------------------------

  lemma {:induction false} DemotesNames(xs: seq<MemberId>, d: Delta)
    ensures d in Demotes(xs) <==> d.DemoteVoter? && d.member in xs
    ensures |Demotes(xs)| == |xs|
  {
    if xs != [] {
      DemotesNames(xs[1..], d);
      assert xs == [xs[0]] + xs[1..];
    }
  }

  lemma {:induction false} SortedNames(s: set<MemberId>, x: MemberId)
    ensures x in Sorted(s) <==> x in s
    ensures s != {} ==> Sorted(s) != []
  {
    if s != {} {
      SortedNames(s - {Min(s)}, x);
    }
  }

  /** A goal the turn did not refuse outright: the plan exists and leads somewhere. */
  lemma Planned(g: Goal, o: Reading)
    requires o.live.Valid() && Plan(o.live, g.target).Ok? && Plan(o.live, g.target).value != []
    ensures Plannable(o.live.Sets()) && Plannable(g.target) && o.live.Sets() != g.target
    ensures Plan(o.live, g.target).value[0] == First(o.live.Sets(), g.target)
  {
    SlotFacts(o.live);
    PlannerVerdict(o.live, g.target);
    assert Admission(g.target).Ok?;
    assert |g.target.voters| != 0;
    if o.live.Sets() == g.target { PlanDone(g.target); } else { PlanSplits(o.live.Sets(), g.target); }
  }

  /** The plan leads with a demotion: what the turn does about it. */
  ghost predicate Shrinking(g: Goal, o: Reading) {
    && o.live.Valid() && Plan(o.live, g.target).Ok?
    && Plan(o.live, g.target).value != [] && Plan(o.live, g.target).value[0].DemoteVoter?
  }

  /** What the picker is asked, and how its answer becomes the turn's. */
  lemma DemotionIsPicked(g: Goal, m: Memory, o: Reading) returns (candidates: seq<Delta>)
    requires Shrinking(g, o)
    ensures candidates != []
    ensures forall d :: d in candidates <==> d.DemoteVoter? && d.member in o.live.Sets().voters - g.target.voters
    ensures forall x :: x in o.live.Sets().voters - g.target.voters ==> Due(o.live.Sets(), g.target, DemoteVoter(x))
    ensures ProposeDemotion(g, m, o)
         == match Pick(EvidenceAt(g, o), candidates) case Ok(d) => Propose(d) case Err(unproven) => StallOn(unproven)
  {
    hide Pick, Plan, Sorted, Demotes, ShrinkCandidates;
    CandidatesAreDepartures(o.live, g.target);
    var leaving := Lists(o.live.Sets(), g.target).demotions;
    candidates := Demotes(Sorted(leaving));
    forall d ensures d in candidates <==> d.DemoteVoter? && d.member in leaving {
      DemotesNames(Sorted(leaving), d);
      SortedNames(leaving, d.member);
    }
    var some :| some in leaving;
    SortedNames(leaving, some);
    DemotesNames(Sorted(leaving), DemoteVoter(some));
  }

  /** DEMOTIONS: when the plan leads with one, a voter leaving is demoted exactly when some
      voter's leaving keeps a majority of the voters left that answered the probe and is not
      vetoed, and the one demoted does; this node only if no other would. Otherwise the turn
      stalls, naming voters left without proof. */
  lemma DemotionExactly(g: Goal, m: Memory, o: Reading)
    requires Shrinking(g, o)
    ensures
      var c, live := o.live.Sets(), o.proven - g.knownDown;
      var leaving := c.voters - g.target.voters;
      match ProposeDemotion(g, m, o)
      case Propose(DemoteVoter(x)) =>
        && x in leaving && |(c.voters - {x}) * live| >= |c.voters - {x}| / 2 + 1
        && (x == g.local ==>
              forall y :: y in leaving && y != x ==> |(c.voters - {y}) * live| < |c.voters - {y}| / 2 + 1)
      case StallOn(unproven) =>
        && (forall y :: y in leaving ==> |(c.voters - {y}) * live| < |c.voters - {y}| / 2 + 1)
        && (exists y :: y in leaving && unproven == c.voters - {y} - live)
      case _ => false
  {
    hide Pick, ProposeDemotion, Shrinking, Due, Membership.Sets;
    var ev, c := EvidenceAt(g, o), o.live.Sets();
    var candidates := DemotionIsPicked(g, m, o);
    PickIsBest(ev, candidates);
    var live, leaving := o.proven - g.knownDown, c.voters - g.target.voters;
    forall y | y in leaving ensures DemoteVoter(y) in candidates {}
    match Pick(ev, candidates)
    case Ok(d) =>
      if d.member == g.local {
        forall y | y in leaving && y != d.member ensures |(c.voters - {y}) * live| < |c.voters - {y}| / 2 + 1 {
          assert DemoteVoter(y) in candidates && DemoteVoter(y).member == y;
        }
      }
    case Err(unproven) =>
      forall y | y in leaving ensures |(c.voters - {y}) * live| < |c.voters - {y}| / 2 + 1 {
        assert DemoteVoter(y) in candidates && DemoteVoter(y).member == y;
      }
      var best :| best in candidates && unproven == ev.voters - {best.member} - live;
      assert best.member in leaving;
  }

  /** So whatever demotion a turn proposes is of a voter leaving, is due, and keeps a live
      majority of its successor's voters. */
  lemma DemotionKeepsQuorum(g: Goal, m: Memory, o: Reading, x: MemberId)
    requires o.live.Valid() && Decide(g, m, o) == Propose(DemoteVoter(x))
    ensures
      var c, live := o.live.Sets(), o.proven - g.knownDown;
      var n, leaving := After(c, DemoteVoter(x)).voters, c.voters - g.target.voters;
      && x in leaving && Due(c, g.target, DemoteVoter(x))
      && |n * live| >= |n| / 2 + 1
      && (x == g.local ==>
            forall y :: y in leaving && y != x ==> |(c.voters - {y}) * live| < |c.voters - {y}| / 2 + 1)
  {
    hide Plan, ProposeDemotion, Due, Membership.Sets;
    assert Shrinking(g, o);
    DemotionExactly(g, m, o);
    var candidates := DemotionIsPicked(g, m, o);
  }

  /** LEARNER REMOVALS: one is proposed only with a probe-proven majority of the current voters
      (the operator's veto is not consulted), and never of this node once the run has committed
      a step. */
  lemma RemovalKeepsQuorum(g: Goal, m: Memory, o: Reading, x: MemberId)
    requires o.live.Valid() && Decide(g, m, o) == Propose(RemoveLearner(x))
    ensures |o.live.Sets().voters * o.proven| >= |o.live.Sets().voters| / 2 + 1
    ensures m.committed ==> x != g.local
  {
    hide Plan, ProposeDemotion;
    SlotFacts(o.live);
    if Plan(o.live, g.target).value[0].DemoteVoter? { DemotionExactly(g, m, o); }
  }

  // ---- What a turn does, by what it reads --------------------------------------------------

  /** COMPLETION: a turn reports success exactly when the live sets are the target's. */
  lemma CompletionExactly(g: Goal, m: Memory, o: Reading)
    requires o.live.Valid()
    ensures Decide(g, m, o) == Finish(Ok(())) <==> o.live.Sets() == g.target
  {
    hide Plan, ProposeDemotion, Membership.Sets;
    EmptyPlanExactly(o.live, g.target);
    if o.live.Sets() == g.target { assert Phantoms(g, m, o) == {}; }
    if Plan(o.live, g.target).Ok? && Plan(o.live, g.target).value != [] && Plan(o.live, g.target).value[0].DemoteVoter? {
      DemotionExactly(g, m, o);
    }
  }

  /** What the turn has before it once nothing is gone, the goal is plannable and the cap has
      not fired: the planner's first step, which is not the removal of this node by a run that
      has committed. */
  ghost predicate Facing(g: Goal, m: Memory, o: Reading, d: Delta) {
    && o.live.Valid() && !o.cap
    && m.seen * g.target.Members() <= o.live.Sets().Members()
    && Plan(o.live, g.target).Ok? && Plan(o.live, g.target).value != [] && Plan(o.live, g.target).value[0] == d
    && !(m.committed && d == RemoveLearner(g.local))
  }

  /** PROGRESS: a turn facing an addition or a promotion proposes it; facing a removal, it
      proposes it exactly with a proven majority of the current voters; facing a demotion, it
      proposes one exactly if the leaving of some voter keeps a live majority; and otherwise it
      stalls. */
  lemma FacedExactly(g: Goal, m: Memory, o: Reading, d: Delta)
    requires Facing(g, m, o, d)
    ensures
      var c, a, live := o.live.Sets(), Decide(g, m, o), o.proven - g.knownDown;
      match d
      case AddLearner(_) => a == Propose(d)
      case PromoteLearner(_) => a == Propose(d)
      case RemoveLearner(_) =>
        a == if |c.voters * o.proven| >= |c.voters| / 2 + 1 then Propose(d) else StallOn(c.voters - o.proven)
      case DemoteVoter(_) =>
        && (a.Propose? || a.StallOn?)
        && (a.Propose? <==> exists x :: x in c.voters - g.target.voters && |(c.voters - {x}) * live| >= |c.voters - {x}| / 2 + 1)
  {
    hide Plan, ProposeDemotion, Membership.Sets, Membership.Valid;
    SlotFacts(o.live);
    assert Phantoms(g, m, o) == {};
    if d.DemoteVoter? { DemotionExactly(g, m, o); }
  }

  /** ENDS: what a turn does before it faces a step. A target member seen before and absent now
      ends the run, and names exactly those members; then success at the target; then a goal the
      planner refuses; then the removal of this node by a run that has committed; then the cap,
      with the last stall if there is one. A turn past all of these faces its plan's first
      step. */
  lemma EndsExactly(g: Goal, m: Memory, o: Reading)
    requires o.live.Valid()
    ensures
      var c, t, a := o.live.Sets(), g.target, Decide(g, m, o);
      var gone := m.seen * t.Members() - c.Members();
      if gone != {} then
        a == Finish(Err(if m.committed then PlanConflict(Progress(o.live, None, Some(MemberConcurrentlyRemoved(gone))))
                        else InvalidTarget(MemberConcurrentlyRemoved(gone))))
      else if c == t then a == Finish(Ok(()))
      else
        match Plan(o.live, t)
        case Err(e) =>
          a == Finish(Err(if m.committed then PlanConflict(Progress(o.live, None, Some(e))) else InvalidTarget(e)))
        case Ok(plan) =>
          && plan != []
          && if m.committed && plan[0] == RemoveLearner(g.local) then
               a == Finish(Err(DemotedSelf(Progress(o.live, Some(plan), None))))
             else if o.cap then
               a == Finish(Err(if m.lastStall.Some?
                               then InsufficientLiveness(Progress(o.live, Some(plan), None), m.lastStall.value)
                               else Timeout(Progress(o.live, Some(plan), None))))
             else Facing(g, m, o, plan[0])
  {
    hide Plan, ProposeDemotion, Membership.Sets, Membership.Valid;
    EmptyPlanExactly(o.live, g.target);
    var gone := m.seen * g.target.Members() - o.live.Sets().Members();
    assert Phantoms(g, m, o) == gone;
    forall x | x in m.seen * g.target.Members() && x !in gone ensures x in o.live.Sets().Members() {}
  }

  /** THE PREFLIGHT refuses a goal exactly when it would be planned, the operator did not
      acknowledge a loss, and it takes fewer crashes to leave the target's voters without a
      majority than it takes now. */
  lemma PreflightExactly(g: Goal, live: Membership)
    requires live.Valid()
    ensures Preflight(g, live).Some?
       <==> !g.ack && 1 <= |g.target.voters| <= 64 && |g.target.voters| <= 2 * ((|live.voters| - 1) / 2)
    ensures Preflight(g, live).Some? ==>
      Preflight(g, live).value == ReducedFaultToleranceUnacknowledged(|live.voters|, |g.target.voters|)
  {
    hide Distinct;
  }

  /** ... and the step it faces is the due one that names the smallest member. */
  lemma FacedIsLeast(g: Goal, m: Memory, o: Reading, d: Delta, e: Delta)
    requires Facing(g, m, o, d) && Due(o.live.Sets(), g.target, e)
    ensures Due(o.live.Sets(), g.target, d) && d.member <= e.member
  {
    hide Plan, Membership.Sets, Membership.Valid;
    Planned(g, o);
  }

  /** STALLS: a turn stalls only before a removal without a proven majority, or before demotions
      none of which keeps a live one. */
  lemma StallMeansNoQuorum(g: Goal, m: Memory, o: Reading)
    requires o.live.Valid() && Decide(g, m, o).StallOn?
    ensures
      var c, live := o.live.Sets(), o.proven - g.knownDown;
      || |c.voters * o.proven| < |c.voters| / 2 + 1
      || (forall y :: y in c.voters - g.target.voters ==> |(c.voters - {y}) * live| < |c.voters - {y}| / 2 + 1)
  {
    hide Plan, ProposeDemotion, Membership.Sets, Membership.Valid;
    SlotFacts(o.live);
    if Plan(o.live, g.target).value[0].DemoteVoter? { DemotionExactly(g, m, o); }
  }

  /** EVERY PROPOSAL IS DUE: whatever a turn proposes, the health-chosen demotion included, is a
      step the planner could take from the live membership. */
  lemma ProposalIsDue(g: Goal, m: Memory, o: Reading)
    requires o.live.Valid() && Decide(g, m, o).Propose?
    ensures Due(o.live.Sets(), g.target, Decide(g, m, o).step)
    ensures Plannable(o.live.Sets()) && Plannable(g.target)
  {
    Planned(g, o);
    var plan, d := Plan(o.live, g.target).value, Decide(g, m, o).step;
    hide Plan, Pick, Sorted, Demotes, ShrinkCandidates, First, ProposeDemotion;
    if plan[0].DemoteVoter? {
      DemotionExactly(g, m, o);
      DemotionKeepsQuorum(g, m, o, d.member);
    }
  }

  /** So installing it where it was decided moves one member one place towards the target,
      never takes the fault tolerance below the smaller of here and there, and every majority
      before it meets every majority after it. */
  lemma ProposalIsSafe(g: Goal, m: Memory, o: Reading, p: set<MemberId>, q: set<MemberId>)
    requires o.live.Valid() && Decide(g, m, o).Propose?
    ensures
      var c, d := o.live.Sets(), Decide(g, m, o).step;
      var n := After(c, d);
      && Names(c, d) && Plannable(n)
      && Distance(n, g.target) + 1 == Distance(c, g.target)
      && FaultTolerance(|n.voters|) >= Floor(c, g.target)
      && (p <= c.voters && |p| >= |c.voters| / 2 + 1 && q <= n.voters && |q| >= |n.voters| / 2 + 1 ==> p * q != {})
  {
    ProposalIsDue(g, m, o);
    var c, d := o.live.Sets(), Decide(g, m, o).step;
    hide Decide;
    DueStep(c, g.target, d);
    var n := After(c, d);
    if p <= c.voters && |p| >= |c.voters| / 2 + 1 && q <= n.voters && |q| >= |n.voters| / 2 + 1 {
      MajoritiesMeet(c, d, p, q);
    }
  }

  /** HONEST OUTCOMES: `InvalidTarget` is reported only before the run committed anything, and
      every progress report has either a non-empty remaining plan from the live membership or a
      reason, never both and never neither. */
  lemma HonestOutcome(g: Goal, m: Memory, o: Reading)
    requires Decide(g, m, o).Finish? && Decide(g, m, o).result.Err?
    ensures
      match Decide(g, m, o).result.error
      case InvalidTarget(_) => !m.committed
      case PlanConflict(p) => m.committed && p.live == o.live && p.reason.Some? && p.remaining.None?
      case DemotedSelf(p) => m.committed && StillValid(g, o, p)
      case InsufficientLiveness(p, unproven) => o.cap && m.lastStall == Some(unproven) && StillValid(g, o, p)
      case Timeout(p) => o.cap && m.lastStall.None? && StillValid(g, o, p)
      case _ => false
  {
    hide Plan, Pick, ShrinkCandidates;
  }

  ghost predicate StillValid(g: Goal, o: Reading, p: Progress) {
    && p.live == o.live && p.reason.None? && p.remaining.Some? && p.remaining.value != []
    && Plan(o.live, g.target) == Ok(p.remaining.value)
  }

  /** An instance: two voters, one to leave, and the one that stays proven live. */
  lemma SomeDemotionIsDecided(m: Memory, installs: bool)
    ensures
      var live := Membership(0, [1, 2], [], Zero);
      var g := Goal(Config({1}, {}), {}, 1, true);
      live.Valid() && Decide(g, m, Reading(live, false, {1}, installs)) == Propose(DemoteVoter(2))
  {
    hide Plan, ProposeDemotion, Lists, Membership.Sets, Membership.Valid;
    var live := Membership(0, [1, 2], [], Zero);
    var g := Goal(Config({1}, {}), {}, 1, true);
    var o := Reading(live, false, {1}, installs);
    TwoVoters();
    TwoVotersPlan();
    DemotionExactly(g, m, o);
    OneIsLeft(live.Sets().voters, g.target.voters);
    assert Phantoms(g, m, o) == {};
  }

  lemma OneIsLeft(voters: set<MemberId>, target: set<MemberId>)
    requires voters == {1, 2} && target == {1}
    ensures voters - target == {2} && |(voters - {2}) * ({1} - {})| >= |voters - {2}| / 2 + 1
  {
    assert voters - {2} == {1} && {1} * ({1} - {}) == {1};
  }

  lemma TwoVotersPlan()
    ensures
      var live, t := Membership(0, [1, 2], [], Zero), Config({1}, {});
      && Plan(live, t).Ok? && Plan(live, t).value != [] && Plan(live, t).value[0] == DemoteVoter(2)
      && ShrinkCandidates(live, t) == Ok([DemoteVoter(2)])
  {
    hide Plan, BuildPlan, ShrinkCandidates, Lists, Membership.Sets;
    var live, t := Membership(0, [1, 2], [], Zero), Config({1}, {});
    TwoVoters();
    var c := live.Sets();
    PlannerVerdict(live, t);
    PeakHere(c, t);
    MinIs({2}, 2);
    PlanSplits(c, t);
    CandidatesAreDepartures(live, t);
    SortedOne(2);
    assert Demotes([2]) == [DemoteVoter(2)];
  }

  lemma TwoVoters()
    ensures
      var live, t := Membership(0, [1, 2], [], Zero), Config({1}, {});
      && live.Valid() && live.Sets() == Config({1, 2}, {})
      && Lists(live.Sets(), t) == Work({}, {}, {}, {2}, {}) && Admission(t).Ok? && Plannable(t) && Plannable(live.Sets())
  {
    assert [1, 2][1..] == [2] && [2][1..] == [];
    assert SetOf([1, 2]) == {1, 2};
    assert [1, 2] + [] == [1, 2];
    assert {1, 2} - {1} == {2};
  }

  lemma PeakHere(c: Config, t: Config)
    requires c == Config({1, 2}, {}) && t == Config({1}, {})
    ensures NodePeak(c, t) <= MAX_NODES
  {}

  // ---- Whole runs ------------------------------------------------------------------------

  /** A turn after which the loop goes round again. */
  predicate Continues(t: Turn) { !t.action.Finish? && (t.action.Propose? ==> t.reading.installs) }

  /** Turns in a row: each decides from its memory and reading, and hands its memory on. */
  ghost predicate Chain(g: Goal, m: Memory, turns: seq<Turn>) {
    && (turns != [] ==> turns[0].memory == m)
    && (forall k :: 0 <= k < |turns| ==> Decided(g, turns[k]))
    && (forall k :: 0 <= k < |turns| - 1 ==> Leads(g, turns[k], turns[k + 1].memory))
  }

  ghost predicate Decided(g: Goal, t: Turn) { t.action == Decide(g, t.memory, t.reading) }

  ghost predicate Leads(g: Goal, t: Turn, m: Memory) {
    Continues(t) && m == Remember(g, t.memory, t.reading, t.action)
  }

  /** Every run of the executor is such a chain over its script. */
  lemma {:induction false} ExecIsChain(g: Goal, m: Memory, script: seq<Reading>)
    ensures
      var turns := Exec(g, m, script).0;
      && Chain(g, m, turns) && |turns| <= |script|
      && forall i :: 0 <= i < |turns| ==> turns[i].reading == script[i]
    decreases script
  {
    hide Decide, Remember;
    if script != [] {
      var o := script[0];
      var t := Turn(m, o, Decide(g, m, o));
      var m1 := Remember(g, m, o, t.action);
      ExecIsChain(g, m1, script[1..]);
      var rest := Exec(g, m1, script[1..]).0;
      var turns := Exec(g, m, script).0;
      if Continues(t) {
        assert turns == [t] + rest;
        forall k | 0 <= k < |turns| - 1 ensures Leads(g, turns[k], turns[k + 1].memory) {
          if k > 0 { assert Leads(g, rest[k - 1], rest[k].memory); }
        }
      }
    }
  }

  /** How a run ends is how its last turn went. */
  lemma {:induction false} ExecEnds(g: Goal, m: Memory, script: seq<Reading>)
    ensures
      var (turns, end) := Exec(g, m, script);
      if turns == [] then script == [] && end.None?
      else
        var last := turns[|turns| - 1];
        end == if last.action.Finish? then Some(last.action.result)
               else if last.action.Propose? && !last.reading.installs then Some(Err(Backend))
               else None
    decreases script
  {
    hide Decide, Remember;
    if script != [] {
      var o := script[0];
      var a := Decide(g, m, o);
      if Continues(Turn(m, o, a)) {
        ExecEnds(g, Remember(g, m, o, a), script[1..]);
        var rest := Exec(g, Remember(g, m, o, a), script[1..]).0;
        if rest == [] {
          assert [Turn(m, o, a)] + rest == [Turn(m, o, a)];
        } else {
          assert ([Turn(m, o, a)] + rest)[|rest|] == rest[|rest| - 1];
        }
      }
    }
  }

  /** SUCCESS, over whole runs: the run reports success exactly at the first turn that reads the
      target, and ends there. */
  lemma RunSucceedsExactly(g: Goal, script: seq<Reading>, k: nat)
    requires k < |Run(g, script).0| && forall o :: o in script ==> o.live.Valid()
    ensures
      var (turns, end) := Run(g, script);
      turns[k].reading.live.Sets() == g.target <==> k == |turns| - 1 && end == Some(Ok(()))
  {
    hide Decide, Exec, Membership.Sets, Membership.Valid, Preflight;
    var m := Start(g, script[0].live);
    ExecIsChain(g, m, script);
    ExecEnds(g, m, script);
    var turns := Exec(g, m, script).0;
    ChainAt(g, m, turns, k);
    assert turns[k].reading == script[k] && script[k] in script;
    CompletionExactly(g, turns[k].memory, turns[k].reading);
  }

  lemma ChainAt(g: Goal, m: Memory, turns: seq<Turn>, k: nat)
    requires Chain(g, m, turns) && k < |turns|
    ensures turns[k].action == Decide(g, turns[k].memory, turns[k].reading)
    ensures k + 1 < |turns| ==>
      && Continues(turns[k])
      && turns[k + 1].memory == Remember(g, turns[k].memory, turns[k].reading, turns[k].action)
  {
    hide Decide, Remember;
    assert Decided(g, turns[k]);
    if k + 1 < |turns| { assert Leads(g, turns[k], turns[k + 1].memory); }
  }

  lemma RememberGrows(g: Goal, m: Memory, o: Reading, a: Action)
    ensures m.seen <= Remember(g, m, o, a).seen
    ensures Remember(g, m, o, a).committed <==> m.committed || a.Propose?
  {
    hide Membership.Sets;
  }

  /** The loop forgets nothing it has seen or done. */
  lemma {:induction false} MemoryGrows(g: Goal, m: Memory, turns: seq<Turn>, i: nat, j: nat)
    requires Chain(g, m, turns) && i < j < |turns|
    ensures Remember(g, turns[i].memory, turns[i].reading, turns[i].action).seen <= turns[j].memory.seen
    decreases j
  {
    hide Decide, Remember, Chain;
    ChainAt(g, m, turns, j - 1);
    if i < j - 1 {
      MemoryGrows(g, m, turns, i, j - 1);
      RememberGrows(g, turns[j - 1].memory, turns[j - 1].reading, turns[j - 1].action);
    }
  }

  /** The run has committed something exactly if some earlier turn installed its step. */
  lemma {:induction false} CommittedExactly(g: Goal, m: Memory, turns: seq<Turn>, k: nat)
    requires Chain(g, m, turns) && k < |turns| && !m.committed
    ensures turns[k].memory.committed <==> exists i :: 0 <= i < k && turns[i].Installed()
    decreases k
  {
    hide Decide, Remember;
    if k == 0 {
      assert turns[0].memory == m;
    } else {
      ChainAt(g, m, turns, k - 1);
      CommittedExactly(g, m, turns, k - 1);
      RememberGrows(g, turns[k - 1].memory, turns[k - 1].reading, turns[k - 1].action);
      if turns[k].memory.committed {
        if turns[k - 1].memory.committed {
          var i :| 0 <= i < k - 1 && turns[i].Installed();
        } else {
          assert turns[k - 1].Installed();
        }
      }
    }
  }

  // ---- The stall a run reports -------------------------------------------------------------

  /** The diagnostic of the latest stall since the latest install. */
  function LatestStall(turns: seq<Turn>): Option<set<MemberId>> {
    if turns == [] then None
    else
      var last := turns[|turns| - 1];
      if last.action.StallOn? then Some(last.action.unproven)
      else if last.Installed() then None
      else LatestStall(turns[..|turns| - 1])
  }

  /** Turn `i` stalled on `unproven`, and no turn since has stalled or installed. */
  ghost predicate StandsAt(turns: seq<Turn>, i: nat, unproven: set<MemberId>) {
    && i < |turns| && turns[i].action == StallOn(unproven)
    && forall k :: i < k < |turns| ==> !turns[k].action.StallOn? && !turns[k].Installed()
  }

  lemma StandsOn(turns: seq<Turn>, i: nat, unproven: set<MemberId>)
    requires turns != []
    ensures
      var n := |turns| - 1;
      StandsAt(turns, i, unproven)
      <==> if i == n then turns[n].action == StallOn(unproven)
           else StandsAt(turns[..n], i, unproven) && !turns[n].action.StallOn? && !turns[n].Installed()
  {
    var n := |turns| - 1;
    assert forall k :: 0 <= k < n ==> turns[..n][k] == turns[k];
  }

  lemma {:induction false} LatestStallMeans(turns: seq<Turn>, unproven: set<MemberId>)
    ensures LatestStall(turns) == Some(unproven) <==> exists i :: StandsAt(turns, i, unproven)
  {
    if turns == [] {
      assert forall i :: !StandsAt(turns, i, unproven);
    } else {
      hide StandsAt;
      var n := |turns| - 1;
      LatestStallMeans(turns[..n], unproven);
      forall i: nat ensures StandsAt(turns, i, unproven)
        <==> if i == n then turns[n].action == StallOn(unproven)
             else StandsAt(turns[..n], i, unproven) && !turns[n].action.StallOn? && !turns[n].Installed()
      {
        StandsOn(turns, i, unproven);
      }
      if turns[n].action == StallOn(unproven) { assert StandsAt(turns, n, unproven); }
      if exists i :: StandsAt(turns[..n], i, unproven) {
        var i :| StandsAt(turns[..n], i, unproven);
        StandsInside(turns[..n], i, unproven);
        assert StandsAt(turns, i, unproven) <==> !turns[n].action.StallOn? && !turns[n].Installed();
      }
    }
  }

  lemma StandsInside(turns: seq<Turn>, i: nat, unproven: set<MemberId>)
    requires StandsAt(turns, i, unproven)
    ensures i < |turns|
  {}

  lemma {:induction false} MemoryStall(g: Goal, m: Memory, turns: seq<Turn>, k: nat)
    requires Chain(g, m, turns) && k < |turns| && m.lastStall.None?
    ensures turns[k].memory.lastStall == LatestStall(turns[..k])
    decreases k
  {
    hide Decide, Chain, Observe;
    ChainStarts(g, m, turns);
    if k > 0 {
      MemoryStall(g, m, turns, k - 1);
      ChainAt(g, m, turns, k - 1);
      assert turns[..k][..k - 1] == turns[..k - 1];
    }
  }

  lemma ChainStarts(g: Goal, m: Memory, turns: seq<Turn>)
    requires Chain(g, m, turns) && turns != []
    ensures turns[0].memory == m
  {}

  /** THE STALL REPORTED: a run cut off by its cap names what the latest stall since the latest
      install was missing, and reports a bare timeout exactly when there was no such stall. */
  lemma CapReportsLatestStall(g: Goal, m: Memory, turns: seq<Turn>, k: nat)
    requires Chain(g, m, turns) && k < |turns| && m.lastStall.None?
    requires turns[k].action.Finish? && turns[k].action.result.Err?
    ensures
      match turns[k].action.result.error
      case InsufficientLiveness(_, unproven) => LatestStall(turns[..k]) == Some(unproven)
      case Timeout(_) => LatestStall(turns[..k]).None?
      case _ => true
  {
    hide Decide, Chain, LatestStall;
    ChainAt(g, m, turns, k);
    MemoryStall(g, m, turns, k);
    HonestOutcome(g, turns[k].memory, turns[k].reading);
  }

  /** A target member present at a turn, or staged or promoted by it. */
  ghost predicate Shown(t: Turn, x: MemberId) {
    x in t.reading.live.Sets().Members() || t.action == Propose(AddLearner(x)) || t.action == Propose(PromoteLearner(x))
  }

  /** SEEN, THEN GONE: a target member that was present, or that the run put in, and is absent at
      a later turn, ends the run there with the member named. */
  lemma SeenThenGone(g: Goal, m: Memory, turns: seq<Turn>, i: nat, j: nat, x: MemberId)
    requires Chain(g, m, turns) && i < j < |turns|
    requires x in g.target.Members() && Shown(turns[i], x) && x !in turns[j].reading.live.Sets().Members()
    ensures j == |turns| - 1 && turns[j].action.Finish? && turns[j].action.result.Err?
    ensures
      match turns[j].action.result.error
      case InvalidTarget(MemberConcurrentlyRemoved(gone)) => x in gone
      case PlanConflict(p) => p.reason.Some? && p.reason.value.MemberConcurrentlyRemoved? && x in p.reason.value.members
      case _ => false
  {
    hide Chain, Plan, ShrinkCandidates, Pick, Membership.Sets;
    MemoryGrows(g, m, turns, i, j);
    ChainAt(g, m, turns, j);
    ChainAt(g, m, turns, i);
    var t := turns[j];
    assert x in Remember(g, turns[i].memory, turns[i].reading, turns[i].action).seen;
    assert x in Phantoms(g, t.memory, t.reading);
  }

  /** ... and nobody else is: what the loop takes as seen of the target was there at the start or
      was shown by an earlier turn. */
  lemma {:induction false} SeenExactly(g: Goal, m: Memory, turns: seq<Turn>, j: nat, x: MemberId)
    requires Chain(g, m, turns) && j < |turns| && x in g.target.Members()
    ensures x in turns[j].memory.seen <==> x in m.seen || exists i :: 0 <= i < j && Shown(turns[i], x)
    decreases j
  {
    hide Decide, Chain, Membership.Sets;
    ChainStarts(g, m, turns);
    if j > 0 {
      SeenExactly(g, m, turns, j - 1, x);
      ChainAt(g, m, turns, j - 1);
      var t := turns[j - 1];
      assert x in turns[j].memory.seen <==> x in t.memory.seen || Shown(t, x);
      if exists i :: 0 <= i < j && Shown(turns[i], x) {
        var i :| 0 <= i < j && Shown(turns[i], x);
        assert i == j - 1 || (0 <= i < j - 1 && Shown(turns[i], x));
      }
    }
  }

  /** NO PHANTOM RE-ADD: a run stages a given member at most once. */
  lemma StagedAtMostOnce(g: Goal, m: Memory, turns: seq<Turn>, i: nat, j: nat, x: MemberId)
    requires Chain(g, m, turns) && i < j < |turns| && turns[j].reading.live.Valid()
    requires turns[i].action == Propose(AddLearner(x))
    ensures turns[j].action != Propose(AddLearner(x))
  {
    hide Decide, Chain, Due;
    ChainAt(g, m, turns, j);
    if turns[j].action == Propose(AddLearner(x)) {
      var o := turns[j].reading;
      ProposalIsDue(g, turns[j].memory, o);
      StagingIsNew(o.live.Sets(), g.target, x);
      SeenThenGone(g, m, turns, i, j, x);
    }
  }

  lemma StagingIsNew(c: Config, t: Config, x: MemberId)
    requires Due(c, t, AddLearner(x))
    ensures x in t.Members() && x !in c.Members()
  {}

  /** INVALID TARGET MEANS NOTHING HAPPENED, and a run that has committed never proposes its own
      node's removal. */
  lemma NothingInstalledBeforeInvalidTarget(g: Goal, m: Memory, turns: seq<Turn>, i: nat, j: nat)
    requires Chain(g, m, turns) && !m.committed && i < j < |turns| && turns[j].reading.live.Valid()
    ensures turns[j].action.Finish? && turns[j].action.result.Err? && turns[j].action.result.error.InvalidTarget? ==>
      !turns[i].Installed()
    ensures turns[i].Installed() ==> turns[j].action != Propose(RemoveLearner(g.local))
  {
    hide Decide, Chain;
    ChainAt(g, m, turns, j);
    CommittedExactly(g, m, turns, j);
    var t := turns[j];
    if t.action.Finish? && t.action.result.Err? { HonestOutcome(g, t.memory, t.reading); }
    if t.action == Propose(RemoveLearner(g.local)) { RemovalKeepsQuorum(g, t.memory, t.reading, g.local); }
  }

  // ---- Undisturbed runs ------------------------------------------------------------------

  /** Nobody else changes the membership: between turns it moves by exactly what the turn
      installed. */
  ghost predicate Undisturbed(turns: seq<Turn>) {
    && (forall i :: 0 <= i < |turns| ==> turns[i].reading.live.Valid())
    && forall i :: 0 <= i < |turns| - 1 ==> Follows(turns[i], turns[i + 1].reading.live)
  }

  ghost predicate Follows(t: Turn, live: Membership) {
    if t.Installed() then ApplyDelta(t.reading.live, t.action.step) == Ok(live) else live == t.reading.live
  }

  function Installs(turns: seq<Turn>): nat {
    if turns == [] then 0
    else Installs(turns[..|turns| - 1]) + if turns[|turns| - 1].Installed() then 1 else 0
  }

  ghost function DistanceAt(g: Goal, t: Turn): nat { Distance(t.reading.live.Sets(), g.target) }

  /** An installed turn closes the distance by one and moves the voter count by what its step
      says; any other turn changes nothing. */
  lemma TurnMoves(g: Goal, t: Turn, live: Membership)
    requires t.reading.live.Valid() && live.Valid() && t.action == Decide(g, t.memory, t.reading) && Follows(t, live)
    ensures Distance(live.Sets(), g.target) + (if t.Installed() then 1 else 0) == DistanceAt(g, t)
    ensures |live.voters| == |t.reading.live.voters| + (if t.Installed() then PlannerProofs.Seats(t.action.step) else 0)
    ensures t.Installed() ==> Due(t.reading.live.Sets(), g.target, t.action.step)
    ensures 1 <= |live.voters| && 1 <= |t.reading.live.voters|
  {
    hide Decide, Distance, Due;
    SlotFacts(t.reading.live);
    SlotFacts(live);
    if t.Installed() {
      var c, d := t.reading.live.Sets(), t.action.step;
      ProposalIsDue(g, t.memory, t.reading);
      DueStep(c, g.target, d);
      DueCount(c, g.target, d);
      ApplyDeltaRefines(t.reading.live, d);
    }
  }

  /** The same at turn `k` of an undisturbed run. */
  lemma StepAt(g: Goal, m: Memory, turns: seq<Turn>, k: nat)
    requires Chain(g, m, turns) && Undisturbed(turns) && k + 1 < |turns|
    ensures
      var t, live := turns[k], turns[k + 1].reading.live;
      t.reading.live.Valid() && live.Valid() && t.action == Decide(g, t.memory, t.reading) && Follows(t, live)
  {
    hide Decide, Chain, Membership.Valid, ApplyDelta;
    ChainAt(g, m, turns, k);
    assert Follows(turns[k], turns[k + 1].reading.live);
  }

  /** THE MEASURE: the distance left and the steps installed always add up to the distance at the
      start. */
  lemma {:induction false} DistanceSpent(g: Goal, m: Memory, turns: seq<Turn>, k: nat)
    requires Chain(g, m, turns) && Undisturbed(turns) && k < |turns|
    ensures DistanceAt(g, turns[k]) + Installs(turns[..k]) == DistanceAt(g, turns[0])
    decreases k
  {
    hide Decide, Chain, Undisturbed, Distance, Follows, Due, Membership.Valid;
    if k > 0 {
      DistanceSpent(g, m, turns, k - 1);
      StepAt(g, m, turns, k - 1);
      TurnMoves(g, turns[k - 1], turns[k].reading.live);
      assert turns[..k][..k - 1] == turns[..k - 1];
    }
  }

  /** A turn that installs has somewhere to go. */
  lemma InstallNeedsDistance(g: Goal, m: Memory, turns: seq<Turn>, k: nat)
    requires Chain(g, m, turns) && Undisturbed(turns) && k < |turns| && turns[k].Installed()
    ensures DistanceAt(g, turns[k]) > 0
  {
    hide Decide, Chain, Distance, Due;
    ChainAt(g, m, turns, k);
    var t := turns[k];
    ProposalIsDue(g, t.memory, t.reading);
    DueStep(t.reading.live.Sets(), g.target, t.action.step);
  }

  /** So an undisturbed run installs at most that many steps, and never comes back to a
      configuration it has left. */
  lemma UndisturbedTerminates(g: Goal, m: Memory, turns: seq<Turn>, i: nat, j: nat)
    requires Chain(g, m, turns) && Undisturbed(turns) && i < j < |turns|
    ensures Installs(turns) <= DistanceAt(g, turns[0])
    ensures turns[i].reading.live.Sets() == turns[j].reading.live.Sets() ==> Installs(turns[..i]) == Installs(turns[..j])
  {
    hide Decide, Chain, Undisturbed, Distance;
    var n := |turns| - 1;
    DistanceSpent(g, m, turns, i);
    DistanceSpent(g, m, turns, j);
    DistanceSpent(g, m, turns, n);
    if turns[n].Installed() { InstallNeedsDistance(g, m, turns, n); }
  }

  // ---- Fault tolerance -------------------------------------------------------------------

  /** The same of any step, decided anywhere, on any membership it applies to. */
  lemma AckLowers(live: Membership, d: Delta)
    requires live.Valid() && ApplyDelta(live, d).Ok?
    ensures AckAttached(live, d) <==> FaultTolerance(|ApplyDelta(live, d).value.voters|) < FaultTolerance(|live.voters|)
  {
    hide Distinct, ValidateStructure;
    if d.DemoteVoter? {
      VotersLeft(live, d);
    }
  }

  /** A demotion that applies leaves one voter fewer, and at least one. */
  lemma VotersLeft(live: Membership, d: Delta)
    requires live.Valid() && d.DemoteVoter? && ApplyDelta(live, d).Ok?
    ensures |ApplyDelta(live, d).value.voters| == |live.voters| - 1 >= 1
  {
    var n := ApplyDelta(live, d).value;
    ApplyDeltaRefines(live, d);
    SlotFacts(live);
    SlotFacts(n);
    VoterCount(live.Sets(), d);
  }

  /** A promotion from an even voter count. */
  predicate Raises(live: Membership, d: Delta) { d.PromoteLearner? && |live.voters| % 2 == 0 }

  /** The steps an acknowledgement rides are exactly those that lower the fault tolerance where
      they were decided, and it moves by exactly one, one way or the other, or not at all. */
  lemma AckExactly(g: Goal, t: Turn, live: Membership)
    requires t.reading.live.Valid() && live.Valid() && t.action == Decide(g, t.memory, t.reading) && Follows(t, live)
    requires t.Installed()
    ensures
      var before, after := FaultTolerance(|t.reading.live.voters|), FaultTolerance(|live.voters|);
      && (AckAttached(t.reading.live, t.action.step) <==> after < before)
      && after - before == (if AckAttached(t.reading.live, t.action.step) then -1
                            else if Raises(t.reading.live, t.action.step) then 1 else 0)
  {
    hide Decide, Distance, Due, Membership.Valid, Follows;
    TurnMoves(g, t, live);
  }

  function Lowered(turns: seq<Turn>): nat {
    if turns == [] then 0
    else
      var t := turns[|turns| - 1];
      Lowered(turns[..|turns| - 1]) + if t.Installed() && AckAttached(t.reading.live, t.action.step) then 1 else 0
  }

  function Raised(turns: seq<Turn>): nat {
    if turns == [] then 0
    else
      var t := turns[|turns| - 1];
      Raised(turns[..|turns| - 1]) + if t.Installed() && Raises(t.reading.live, t.action.step) then 1 else 0
  }

  /** ACCOUNTING: over any undisturbed run the acknowledged steps minus the raising promotions
      are the tolerance at the start minus the tolerance at the end. */
  lemma {:induction false} ToleranceAccounted(g: Goal, m: Memory, turns: seq<Turn>, k: nat)
    requires Chain(g, m, turns) && Undisturbed(turns) && k < |turns|
    ensures Lowered(turns[..k]) - Raised(turns[..k])
         == FaultTolerance(|turns[0].reading.live.voters|) - FaultTolerance(|turns[k].reading.live.voters|)
    decreases k
  {
    hide Decide, Chain, Undisturbed, Membership.Valid, FaultTolerance, AckAttached, Raises, ApplyDelta;
    if k > 0 {
      ToleranceAccounted(g, m, turns, k - 1);
      StepAt(g, m, turns, k - 1);
      if turns[k - 1].Installed() { AckExactly(g, turns[k - 1], turns[k].reading.live); }
      assert turns[..k][..k - 1] == turns[..k - 1];
      OneWayOrTheOther(turns[k - 1]);
    }
  }

  lemma OneWayOrTheOther(t: Turn)
    ensures t.action.Propose? ==> !(AckAttached(t.reading.live, t.action.step) && Raises(t.reading.live, t.action.step))
  {}

  /** A due promotion or demotion, and the tolerance it may reach. */
  lemma CeilingStep(g: Goal, t: Turn, live: Membership)
    requires t.reading.live.Valid() && live.Valid() && t.action == Decide(g, t.memory, t.reading) && Follows(t, live)
    requires FaultTolerance(|t.reading.live.voters|) <= FaultTolerance(|g.target.voters|)
    ensures FaultTolerance(|live.voters|) <= FaultTolerance(|g.target.voters|)
  {
    hide Decide, Distance, Due, ApplyDelta, Membership.Valid;
    TurnMoves(g, t, live);
    if t.Installed() {
      SlotFacts(t.reading.live);
      DueParity(t.reading.live.Sets(), g.target, t.action.step);
    }
  }

  lemma {:induction false} Ceiling(g: Goal, m: Memory, turns: seq<Turn>, k: nat)
    requires Chain(g, m, turns) && Undisturbed(turns) && k < |turns|
    requires FaultTolerance(|turns[0].reading.live.voters|) <= FaultTolerance(|g.target.voters|)
    ensures FaultTolerance(|turns[k].reading.live.voters|) <= FaultTolerance(|g.target.voters|)
    decreases k
  {
    hide Decide, Chain, Undisturbed, Membership.Valid, Follows;
    if k > 0 {
      Ceiling(g, m, turns, k - 1);
      StepAt(g, m, turns, k - 1);
      CeilingStep(g, turns[k - 1], turns[k].reading.live);
    }
  }

  /** At a count whose tolerance the target does not undercut, no demotion is due from an odd
      count. */
  lemma NoOddDemotion(g: Goal, m: Memory, o: Reading)
    requires o.live.Valid() && Decide(g, m, o).Propose?
    requires FaultTolerance(|o.live.voters|) <= FaultTolerance(|g.target.voters|)
    ensures !AckAttached(o.live, Decide(g, m, o).step)
  {
    hide Decide, Due, Distance;
    ProposalIsDue(g, m, o);
    SlotFacts(o.live);
    DueParity(o.live.Sets(), g.target, Decide(g, m, o).step);
  }

  /** NO ACKNOWLEDGEMENT, NO LOSS: a goal that passes the preflight without one asks for at
      least the starting tolerance, and an undisturbed run towards it never decides a step that
      would need one. */
  lemma UnacknowledgedNeverLowers(g: Goal, script: seq<Reading>, k: nat)
    requires !g.ack && script != [] && 1 <= |g.target.voters| <= MAX_VOTERS
    requires Preflight(g, script[0].live).None?
    requires Undisturbed(Run(g, script).0) && k < |Run(g, script).0|
    ensures FaultTolerance(|g.target.voters|) >= FaultTolerance(|script[0].live.voters|)
    ensures
      var t := Run(g, script).0[k];
      t.action.Propose? ==> !AckAttached(t.reading.live, t.action.step)
  {
    hide Decide, Exec, Start, Chain, FaultTolerance, AckAttached, Undisturbed;
    var m := Start(g, script[0].live);
    var turns := Run(g, script).0;
    assert turns == Exec(g, m, script).0;
    ExecIsChain(g, m, script);
    Ceiling(g, m, turns, k);
    ChainAt(g, m, turns, k);
    UndisturbedValid(turns, k);
    if turns[k].action.Propose? { NoOddDemotion(g, turns[k].memory, turns[k].reading); }
  }

  lemma UndisturbedValid(turns: seq<Turn>, k: nat)
    requires Undisturbed(turns) && k < |turns|
    ensures turns[k].reading.live.Valid()
  {}
}
