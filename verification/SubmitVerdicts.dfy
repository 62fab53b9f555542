/** The aggregator's verdicts, from what a submit's outcome says about its command: the link
    between the retry classes its callers see and the driver's side of the channel. */
module SubmitVerdicts {
  import opened Wrappers
  import Session
  import SessionProofs
  import Aggregate

  /** The error a finished `Handle::submit` returns. */
  function ErrorOf(o: Session.Outcome): Option<Aggregate.DriverError> {
    match o
    case Replied => None
    case Retired => Some(Aggregate.DriverError.Retired)
    case ReplyDropped => Some(Aggregate.DriverError.ReplyDropped)
    case Busy => Some(Aggregate.DriverError.Busy)
    case DriverGone => Some(Aggregate.DriverError.DriverGone)
    case TooLarge => Some(Aggregate.DriverError.RequestTooLarge)
  }

  /** THE VERDICT GUARDS: in every reachable state of the submit machine, a submit that ended
      without entering the channel returned an error the pump meets at its first poll; one that
      entered and ended in error returned one it meets only later; and one that ended with a
      reply entered, and its request was committed. */
  lemma VerdictGuards(l: Session.Limits, s: Session.State, id: nat)
    requires SessionProofs.Reached(l, s) && id < |s.subs| && s.subs[id].caller.Done?
    ensures
      var err := ErrorOf(s.subs[id].caller.outcome);
      && (err.Some? && id !in s.sent ==> Aggregate.BeforeEntry(err.value))
      && (err.Some? && id in s.sent ==> Aggregate.AfterEntry(err.value))
      && (err.None? ==> id in s.sent && id in s.committed)
  {
    SessionProofs.OutcomeIsHonest(l, s, id);
  }

  /** THE RETRY CONTRACT, end to end: a packed body's callers are told `Refused` only if its
      command never entered the driver, so that nothing was ever minted for it; one that entered
      is told `OutcomeUnknown`; and one that did not is told so only by a retired node. */
  lemma RefusalMeansNeverEntered(l: Session.Limits, s: Session.State, id: nat)
    requires SessionProofs.Reached(l, s) && id < |s.subs| && s.subs[id].caller.Done?
    requires !s.subs[id].caller.outcome.Replied?
    ensures
      var told := Aggregate.SubmitFailure(ErrorOf(s.subs[id].caller.outcome).value);
      && (told.Refused? ==> id !in s.sent && id !in s.minted && id !in s.committed)
      && (id in s.sent ==> told.OutcomeUnknown?)
      && (told.OutcomeUnknown? && id !in s.sent ==> s.latched)
  {
    SessionProofs.OutcomeIsHonest(l, s, id);
    if s.subs[id].caller.outcome.Retired? { SessionProofs.RetiredMeansLatched(l, s, id); }
  }
}
