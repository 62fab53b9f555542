/** The polled reconfiguration job: it feeds the executor one snapshot per advance, carries its
    proposals to the endpoint, detects the exact install, and enforces the deadline wherever the
    executor is parked. */
module Job {
  import opened Wrappers
  import opened Membership
  import opened Planner
  import opened Executor

  datatype StepOutcome = Installed | Retry | Failed

  /** Where the executor is suspended. */
  datatype Parked =
    | Unpolled
    | OnReply(step: Delta, memory: Memory)                 // a posted proposal, awaiting its verdict
    | OnBackoff(repost: Option<Delta>, memory: Memory)     // awaiting a tick, then re-post or loop
    | Ended

  /** The endpoint's answer to a proposal. */
  datatype Verdict = Accepted | Transient | Fatal

  /** A proposal carried to the endpoint: against which membership and probe answers, with or
      without the acknowledgement, and how it was taken. */
  datatype Delivery = Delivery(live: Membership, proven: set<MemberId>, step: Delta, ack: bool, verdict: Verdict)

  datatype Job = Job(
    parked: Parked,
    slot: Option<Delta>,                  // the one-slot proposal channel
    outcome: Option<StepOutcome>,         // the resolved verdict the executor has not read yet
    tick: bool,                           // a tick is ready to be consumed
    stall: Option<set<MemberId>>,         // the recorded shrink stall
    deadline: Option<nat>,
    expected: Option<ConfigId>,           // the successor the outstanding proposal installs
    replies: seq<Result<(), RunError>>,   // what the caller has been sent
    turns: seq<Turn>,                     // the executor's decisions so far
    deliveries: seq<Delivery>)            // the proposals carried so far

  function Begin(): Job { Job(Unpolled, None, None, false, None, None, None, [], [], []) }

  // ---- The executor, from one suspension to the next ---------------------------------------

  /** Post a proposal: the slot must have been drained. */
  function Post(j: Job, step: Delta, m: Memory): Job
    requires j.slot.None?
  {
    j.(slot := Some(step), outcome := None, parked := OnReply(step, m))
  }

  function ReadingOf(live: Membership, proven: set<MemberId>): Reading { Reading(live, false, proven, false) }

  /** One loop iteration, then whatever follows without suspending. */
  function Iterate(g: Goal, j: Job, m: Memory, live: Membership, proven: set<MemberId>): Job
    requires j.slot.None?
    decreases if j.tick then 1 else 0, 1
  {
    var o := ReadingOf(live, proven);
    var a := Decide(g, m, o);
    var j1, m1 := j.(turns := j.turns + [Turn(m, o, a)]), Remember(g, m, o, a);
    match a
    case Finish(r) => j1.(parked := Ended, replies := j.replies + [r])
    case Propose(d) => Post(j1, d, m1)
    case StallOn(unproven) => AwaitTick(g, j1.(stall := Some(unproven)), None, m1, live, proven)
    case Backoff => AwaitTick(g, j1, None, m1, live, proven)
  }

  function AwaitTick(g: Goal, j: Job, repost: Option<Delta>, m: Memory, live: Membership, proven: set<MemberId>): Job
    requires j.slot.None?
    decreases if j.tick then 1 else 0, 0
  {
    if !j.tick then j.(parked := OnBackoff(repost, m))
    else
      match repost
      case Some(step) => Post(j.(tick := false), step, m)
      case None => Iterate(g, j.(tick := false), m, live, proven)
  }

  /** The last turn's step did install. */
  function MarkInstalled(turns: seq<Turn>): seq<Turn> {
    if turns == [] then []
    else
      var n := |turns| - 1;
      turns[n := turns[n].(reading := turns[n].reading.(installs := true))]
  }

  /** Poll the executor once. Memory after an install is what `Remember` made of the proposal. */
  function Poll(g: Goal, j: Job, live: Membership, proven: set<MemberId>): Job
    requires j.slot.None?
  {
    match j.parked
    case Ended => j
    case Unpolled =>
      (match Preflight(g, live)
       case Some(e) => j.(parked := Ended, replies := j.replies + [Err(e)])
       case None => Iterate(g, j, Start(g, live), live, proven))
    case OnBackoff(repost, m) => AwaitTick(g, j, repost, m, live, proven)
    case OnReply(step, m) =>
      match j.outcome
      case None => j
      case Some(Installed) =>
        Iterate(g, j.(outcome := None, stall := None, turns := MarkInstalled(j.turns)), m, live, proven)
      case Some(Retry) => AwaitTick(g, j.(outcome := None), Some(step), m, live, proven)
      case Some(Failed) => j.(parked := Ended, replies := j.replies + [Err(Backend)])
  }

  // ---- One advance -----------------------------------------------------------------------

  /** The cap outcome, from wherever the executor is parked. */
  function CapResult(g: Goal, stall: Option<set<MemberId>>, live: Membership): Result<(), RunError> {
    match Plan(live, g.target)
    case Err(e) => Err(Timeout(Executor.Failed(live, e)))
    case Ok(plan) =>
      if plan == [] then Ok(())
      else
        match stall
        case Some(unproven) => Err(InsufficientLiveness(Stalled(live, plan), unproven))
        case None => Err(Timeout(Stalled(live, plan)))
  }

  function Arm(j: Job, now: nat, timeout: nat): Job {
    if j.deadline.None? then j.(deadline := Some(now + timeout)) else j
  }

  /** The outstanding step committed exactly if the live id is the predicted one. */
  function Detect(j: Job, live: Membership): Job {
    if j.expected == Some(live.configId) then j.(expected := None, outcome := Some(Installed)) else j
  }

  /** Carry a posted proposal to the endpoint, with the acknowledgement if the step needs one at
      this membership and the operator gave it. */
  function Deliver(g: Goal, j: Job, live: Membership, proven: set<MemberId>, verdict: Verdict): Job {
    match j.slot
    case None => j
    case Some(step) =>
      var delivery := Delivery(live, proven, step, g.ack && AckAttached(live, step), verdict);
      var drained := j.(slot := None, deliveries := j.deliveries + [delivery]);
      match verdict
      case Accepted =>
        drained.(expected := match ApplyDelta(live, step) case Ok(n) => Some(n.configId) case Err(_) => None)
      case Transient => drained.(outcome := Some(Retry))
      case Fatal => drained.(outcome := Some(Failed))
  }

  function Advance(g: Goal, timeout: nat, j: Job, now: nat, live: Membership, proven: set<MemberId>, verdict: Verdict): Job
    requires j.slot.None?
  {
    var armed := Arm(j, now, timeout);
    if now >= armed.deadline.value then
      armed.(parked := Ended, replies := j.replies + [CapResult(g, j.stall, live)])
    else
      var polled := Poll(g, Detect(armed, live), live, proven);
      if polled.parked.Ended? then polled else Deliver(g, polled, live, proven, verdict).(tick := true)
  }

  /** The endpoint retired under the job: the goal is reached, or the job is over. */
  function FinishOnRetire(g: Goal, live: Membership): Result<(), RunError> {
    if Plan(live, g.target) == Ok([]) then Ok(()) else Err(Retired)
  }

  /** The job as the driver holds it. */
  class ReconfigureJob {
    const goal: Goal
    const timeout: nat
    var parked: Parked
    var slot: Option<Delta>
    var outcome: Option<StepOutcome>
    var tick: bool
    var stall: Option<set<MemberId>>
    var deadline: Option<nat>
    var expected: Option<ConfigId>
    var replies: seq<Result<(), RunError>>
    var turns: seq<Turn>
    var deliveries: seq<Delivery>

    ghost function Value(): Job
      reads this
    {
      Job(parked, slot, outcome, tick, stall, deadline, expected, replies, turns, deliveries)
    }

    constructor (goal: Goal, timeout: nat)
      ensures Value() == Begin() && this.goal == goal && this.timeout == timeout
    {
      this.goal, this.timeout := goal, timeout;
      parked, slot, outcome, tick, stall, deadline, expected, replies, turns, deliveries :=
        Unpolled, None, None, false, None, None, None, [], [], [];
    }

    /** The executor's loop from `memory` to its next suspension. */
    method Loop(memory: Memory, live: Membership, proven: set<MemberId>)
      requires slot.None?
      modifies this
      ensures Value() == Iterate(goal, old(Value()), memory, live, proven)
    {
      hide Decide, Remember;
      var m, running := memory, true;
      while running
        invariant slot.None? || !running
        invariant running ==> Iterate(goal, Value(), m, live, proven) == Iterate(goal, old(Value()), memory, live, proven)
        invariant !running ==> Value() == Iterate(goal, old(Value()), memory, live, proven)
        decreases running, tick
      {
        var o := ReadingOf(live, proven);
        var a := Decide(goal, m, o);
        turns := turns + [Turn(m, o, a)];
        m := Remember(goal, m, o, a);
        running := false;
        match a {
          case Finish(r) => parked, replies := Ended, replies + [r];
          case Propose(d) => slot, outcome, parked := Some(d), None, OnReply(d, m);
          case StallOn(unproven) =>
            stall := Some(unproven);
            if tick { tick, running := false, true; } else { parked := OnBackoff(None, m); }
          case Backoff =>
            if tick { tick, running := false, true; } else { parked := OnBackoff(None, m); }
        }
      }
    }

    method Resume(live: Membership, proven: set<MemberId>)
      requires slot.None?
      modifies this
      ensures Value() == Poll(goal, old(Value()), live, proven)
    {
      hide Iterate, Preflight, Start;
      match parked {
        case Ended =>
        case Unpolled =>
          var preflight := Preflight(goal, live);
          match preflight {
            case Some(e) => parked, replies := Ended, replies + [Err(e)];
            case None => Loop(Start(goal, live), live, proven);
          }
        case OnBackoff(repost, m) =>
          if tick {
            tick := false;
            match repost {
              case Some(step) => slot, outcome, parked := Some(step), None, OnReply(step, m);
              case None => Loop(m, live, proven);
            }
          }
        case OnReply(step, m) =>
          match outcome {
            case None =>
            case Some(Installed) =>
              outcome, stall, turns := None, None, MarkInstalled(turns);
              Loop(m, live, proven);
            case Some(Retry) =>
              outcome := None;
              if tick {
                tick, slot, parked := false, Some(step), OnReply(step, m);
              } else {
                parked := OnBackoff(Some(step), m);
              }
            case Some(Failed) => parked, replies := Ended, replies + [Err(Backend)];
          }
      }
    }

    /** Drain the slot and carry what was in it to the endpoint. */
    method Propose(live: Membership, proven: set<MemberId>, verdict: Verdict)
      modifies this
      ensures Value() == Deliver(goal, old(Value()), live, proven, verdict) && parked == old(parked)
    {
      hide ApplyDelta;
      if slot.None? { return; }
      var step := slot.value;
      var ack := goal.ack && step.DemoteVoter? && |live.voters| % 2 == 1;
      slot, deliveries := None, deliveries + [Delivery(live, proven, step, ack, verdict)];
      match verdict {
        case Accepted =>
          expected := match ApplyDelta(live, step) case Ok(n) => Some(n.configId) case Err(_) => None;
        case Transient => outcome := Some(Retry);
        case Fatal => outcome := Some(Failed);
      }
    }

    /** One advance: arm the deadline, cancel past it, detect the install, poll, deliver, tick. */
    method Step(now: nat, live: Membership, proven: set<MemberId>, verdict: Verdict) returns (done: bool)
      requires slot.None? && !parked.Ended?
      modifies this
      ensures Value() == Advance(goal, timeout, old(Value()), now, live, proven, verdict)
      ensures done == parked.Ended?
    {
      hide Poll, Deliver, Plan;
      if deadline.None? { deadline := Some(now + timeout); }
      if now >= deadline.value {
        parked, replies := Ended, replies + [CapResult(goal, stall, live)];
        return true;
      }
      if expected == Some(live.configId) {
        expected, outcome := None, Some(Installed);
      }
      Resume(live, proven);
      if parked.Ended? { return true; }
      Propose(live, proven, verdict);
      tick := true;
      done := false;
    }

    /** The local endpoint retired: the outstanding step is discarded and the caller answered. */
    method Retire(live: Membership)
      requires !parked.Ended?
      modifies this
      ensures Value() == old(Value()).(parked := Ended, replies := old(replies) + [FinishOnRetire(goal, live)])
    {
      var plan := Plan(live, goal.target);
      var result: Result<(), RunError> := if plan == Ok([]) then Ok(()) else Err(Retired);
      parked, replies := Ended, replies + [result];
    }
  }
}
