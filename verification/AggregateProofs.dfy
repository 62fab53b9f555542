/** What holds of the aggregator in every interleaving of senders, handles, cancellations, the
    driver and the pump. */
module AggregateProofs {
  import opened Wrappers
  import opened Batch
  import opened Aggregate

  // ---- Loads, logs and bodies ------------------------------------------------------------

  lemma {:induction false} Split(a: seq<Entry>, b: seq<Entry>, id: nat)
    ensures Times(a + b, id) == Times(a, id) + Times(b, id)
    ensures Weight(a + b) == Weight(a) + Weight(b) && Size(a + b) == Size(a) + Size(b)
  {
    hide UnitTimes, UnitsLen, UnitBodies;
    if a == [] {
      assert a + b == b;
    } else {
      assert (a + b)[0] == a[0] && (a + b)[1..] == a[1..] + b;
      Split(a[1..], b, id);
    }
  }

  lemma Push(es: seq<Entry>, e: Entry, id: nat)
    ensures Times(es + [e], id) == Times(es, id) + UnitTimes(e.units, id)
    ensures Weight(es + [e]) == Weight(es) + UnitsLen(UnitBodies(e.units)) && Size(es + [e]) == Size(es) + |e.units|
  {
    Split(es, [e], id);
    One(e, id);
  }

  lemma One(e: Entry, id: nat)
    ensures Times([e], id) == UnitTimes(e.units, id)
    ensures Weight([e]) == UnitsLen(UnitBodies(e.units)) && Size([e]) == |e.units|
  {
    assert [e][1..] == [];
  }

  lemma TakeOut(es: seq<Entry>, k: nat, id: nat)
    requires k < |es|
    ensures
      var rest := es[..k] + es[k + 1..];
      && Times(es, id) == Times(rest, id) + UnitTimes(es[k].units, id)
      && Weight(es) == Weight(rest) + UnitsLen(UnitBodies(es[k].units))
      && Size(es) == Size(rest) + |es[k].units|
  {
    assert es == es[..k] + es[k..];
    Split(es[..k], es[k..], id);
    Split(es[..k], es[k + 1..], id);
  }

  lemma {:induction false} UnitsConcat(a: seq<Unit>, b: seq<Unit>, id: nat)
    ensures UnitTimes(a + b, id) == UnitTimes(a, id) + UnitTimes(b, id)
    ensures UnitsLen(UnitBodies(a + b)) == UnitsLen(UnitBodies(a)) + UnitsLen(UnitBodies(b))
  {
    if a == [] {
      assert a + b == b;
    } else {
      assert (a + b)[0] == a[0] && (a + b)[1..] == a[1..] + b;
      UnitsConcat(a[1..], b, id);
    }
  }

  lemma {:induction false} FlatLoad(es: seq<Entry>, id: nat)
    ensures UnitTimes(Flat(es), id) == Times(es, id)
    ensures |Flat(es)| == Size(es) && UnitsLen(UnitBodies(Flat(es))) == Weight(es)
  {
    if es != [] {
      FlatLoad(es[1..], id);
      UnitsConcat(es[0].units, Flat(es[1..]), id);
    }
  }

  function LogTimes(log: seq<Record>, id: nat): nat {
    if log == [] then 0 else (if log[0].id == id then 1 else 0) + LogTimes(log[1..], id)
  }

  lemma {:induction false} LogConcat(a: seq<Record>, b: seq<Record>, id: nat)
    ensures LogTimes(a + b, id) == LogTimes(a, id) + LogTimes(b, id)
  {
    if a == [] {
      assert a + b == b;
    } else {
      assert (a + b)[0] == a[0] && (a + b)[1..] == a[1..] + b;
      LogConcat(a[1..], b, id);
    }
  }

  lemma {:induction false} ResolveAllTimes(us: seq<Unit>, body: Option<nat>, outcome: Outcome, id: nat)
    ensures LogTimes(ResolveAll(us, body, outcome), id) == UnitTimes(us, id)
  {
    if us != [] {
      var log := ResolveAll(us, body, outcome);
      assert log[1..] == ResolveAll(us[1..], body, outcome);
      ResolveAllTimes(us[1..], body, outcome, id);
    }
  }

  lemma {:induction false} ReplyEachTimes(us: seq<Unit>, body: Option<nat>, replies: seq<Bytes>, id: nat)
    requires |us| == |replies|
    ensures LogTimes(ReplyEach(us, body, replies), id) == UnitTimes(us, id)
  {
    if us != [] {
      var log := ReplyEach(us, body, replies);
      assert log[1..] == ReplyEach(us[1..], body, replies[1..]);
      ReplyEachTimes(us[1..], body, replies[1..], id);
    }
  }

  lemma DemuxTimes(us: seq<Unit>, body: Option<nat>, reply: Bytes, id: nat)
    ensures LogTimes(Demux(us, body, reply), id) == UnitTimes(us, id)
  {
    match Parse(reply)
    case Err(_) => ResolveAllTimes(us, body, CommittedReplyLost(MalformedReply), id);
    case Ok(replies) =>
      if |replies| != |us| {
        ResolveAllTimes(us, body, CommittedReplyLost(ReplyCountMismatch), id);
      } else {
        ReplyEachTimes(us, body, replies, id);
      }
  }

  /** Appending the replies to `us` to a log. */
  lemma Refuse(log: seq<Record>, us: seq<Unit>, body: Option<nat>, outcome: Outcome, id: nat)
    ensures LogTimes(log + ResolveAll(us, body, outcome), id) == LogTimes(log, id) + UnitTimes(us, id)
  {
    LogConcat(log, ResolveAll(us, body, outcome), id);
    ResolveAllTimes(us, body, outcome, id);
  }

  /** POSITIONAL DEMUX: a reply body that encodes one result per unit gives caller `i` result
      `i`, whatever else the results are. */
  lemma DemuxIsPositional(us: seq<Unit>, body: Option<nat>, results: seq<Bytes>, i: nat)
    requires us != [] && |results| == |us| && Encodable(results) && i < |us|
    ensures |Demux(us, body, Encode(results))| == |us|
    ensures Demux(us, body, Encode(results))[i] == Record(us[i].id, body, Reply(results[i]))
  {
    RoundTrip(results);
  }

  /** ... and any other reply, malformed or miscounted, tells every caller its reply is lost, never
      that the body was refused. */
  lemma OtherRepliesAreLost(us: seq<Unit>, body: Option<nat>, reply: Bytes, i: nat)
    requires i < |us|
    requires forall results :: Encodable(results) && |results| == |us| ==> Encode(results) != reply
    ensures |Demux(us, body, reply)| == |us|
    ensures
      var r := Demux(us, body, reply)[i];
      r.id == us[i].id && r.body == body && r.outcome.CommittedReplyLost?
  {
    if Parse(reply).Ok? {
      Canonical(reply);
    }
    ResolveAllAt(us, body, CommittedReplyLost(MalformedReply), i);
    ResolveAllAt(us, body, CommittedReplyLost(ReplyCountMismatch), i);
  }

  lemma {:induction false} ResolveAllAt(us: seq<Unit>, body: Option<nat>, outcome: Outcome, i: nat)
    requires i < |us|
    ensures |ResolveAll(us, body, outcome)| == |us| && ResolveAll(us, body, outcome)[i] == Record(us[i].id, body, outcome)
  {
    if |us| > 1 { ResolveAllAt(us[1..], body, outcome, if i > 0 then i - 1 else 0); }
  }

  /** Every entry shipped so far, in order. */
  function Carried(bodies: seq<Body>): seq<Entry> {
    if bodies == [] then [] else Carried(bodies[..|bodies| - 1]) + bodies[|bodies| - 1].entries
  }

  lemma CarriedShip(bodies: seq<Body>, b: Body)
    ensures Carried(bodies + [b]) == Carried(bodies) + b.entries
  {
    assert (bodies + [b])[..|bodies|] == bodies;
  }

  lemma {:induction false} CarriedFlag(bodies: seq<Body>, k: nat, b: Body)
    requires k < |bodies| && b.entries == bodies[k].entries
    ensures Carried(Mark(bodies, k, b)) == Carried(bodies)
  {
    var n := |bodies| - 1;
    if k < n {
      CarriedFlag(bodies[..n], k, b);
      assert Mark(bodies, k, b)[..n] == Mark(bodies[..n], k, b);
    } else {
      assert Mark(bodies, k, b)[..n] == bodies[..n];
    }
  }

  // ---- Shape -----------------------------------------------------------------------------

  /** At most one deferred entry; the queue is closed exactly once the pump is gone, and is
      then empty. */
  ghost predicate Slots(s: State) {
    && |s.deferred| <= 1
    && (s.phase.Unstarted? || s.phase.Parked? ==> s.deferred == [])
    && (s.queue.closed <==> s.phase.Gone?)
    && (s.phase.Gone? ==> s.queue.entries == [] && s.deferred == [])
  }

  /** At most one body flies, and the staged callers are exactly its. */
  ghost predicate OneFlight(s: State) {
    && (s.phase.Flying() ==> s.log.bodies != [] && s.flight == Flat(s.log.bodies[Last(s)].entries))
    && (!s.phase.Flying() ==> s.flight == [])
    && (s.phase.Handed? ==> s.phase.open == s.log.bodies[Last(s)].entries && !s.log.bodies[Last(s)].entered)
    && (s.phase.InFlight? ==> s.log.bodies[Last(s)].entered)
    && forall k :: 0 <= k < |s.log.bodies| && s.log.bodies[k].committed ==> s.log.bodies[k].entered
  }

  lemma SlotsOutside(c: Setup, s: State, o: Outside)
    requires Slots(s) && CanOutside(c, s, o)
    ensures Slots(DoOutside(c, s, o))
  {
    hide Size, Weight, Mint, Admits, ResolveAll;
  }

  lemma SlotsPack(c: Setup, s: State, p: Pack)
    requires Slots(s) && CanPack(s, p)
    ensures Slots(DoPack(c, s, p))
  {
    hide Size, Weight, Flat, Fits, FullyCanceled, ResolveAll;
  }

  lemma SlotsVerdict(c: Setup, s: State, v: Verdict)
    requires Slots(s) && CanVerdict(c, s, v)
    ensures Slots(DoVerdict(c, s, v))
  {
    hide Size, Weight, Flat, ResolveAll, Demux, DrainAll;
  }

  lemma OneFlightOutside(c: Setup, s: State, o: Outside)
    requires OneFlight(s) && CanOutside(c, s, o)
    ensures OneFlight(DoOutside(c, s, o))
  {
    hide Size, Weight, Mint, Admits, ResolveAll, Flat;
  }

  lemma OneFlightPack(c: Setup, s: State, p: Pack)
    requires OneFlight(s) && CanPack(s, p)
    ensures OneFlight(DoPack(c, s, p))
  {
    hide Size, Weight, Flat, Fits, FullyCanceled, ResolveAll;
  }

  lemma OneFlightVerdict(c: Setup, s: State, v: Verdict)
    requires OneFlight(s) && CanVerdict(c, s, v)
    ensures OneFlight(DoVerdict(c, s, v))
  {
    hide Size, Weight, Flat, ResolveAll, Demux, DrainAll;
  }

  // ---- Wakeups ---------------------------------------------------------------------------

  /** While parked, either a wake is on its way or the waker is registered over an empty queue
      with a live handle. */
  ghost predicate Wakeable(s: State) {
    s.phase.Parked? ==>
      s.wakes > 0 || s.scheduled || (s.queue.waker && s.queue.entries == [] && s.queue.handles > 0)
  }

  lemma KeepsWakeable(c: Setup, s: State, step: Step)
    requires Slots(s) && Wakeable(s) && Can(c, s, step)
    ensures Wakeable(Do(c, s, step))
  {
    hide Size, Weight, Flat, Fits, FullyCanceled, ResolveAll, Demux, DrainAll, Mint, Admits;
  }

  // ---- The ledger of units ---------------------------------------------------------------

  /** How many places unit `id` is in. */
  ghost function Places(s: State, id: nat): nat {
    Times(s.sending, id) + Times(s.queue.entries, id) + Times(s.deferred, id) + Times(s.phase.Loose(), id)
    + LogTimes(s.log.early, id) + Times(s.log.skipped, id) + Times(Carried(s.log.bodies), id)
  }

  /** A minted unit is in exactly one place, and nothing else is anywhere. */
  ghost predicate InOnePlace(s: State, id: nat) {
    Places(s, id) == if id < s.next then 1 else 0
  }

  /** A unit of a body is flying, answered or abandoned. */
  ghost predicate BodyAccounted(s: State, id: nat) {
    Times(Carried(s.log.bodies), id) == UnitTimes(s.flight, id) + LogTimes(s.log.late, id) + UnitTimes(s.log.abandoned, id)
  }

  lemma PlaceSend(s: State, k: nat, id: nat)
    requires k < |s.sending|
    ensures Places(DoSend(s, k), id) == Places(s, id) && DoSend(s, k).next == s.next
  {
    var e := s.sending[k];
    TakeOut(s.sending, k, id);
    Push(s.queue.entries, e, id);
    Refuse(s.log.early, e.units, None, Refused(RefusedReason.PumpGone), id);
    hide Times, LogTimes, UnitTimes, ResolveAll, Carried, Size, Weight;
  }

  lemma PlaceOutside(c: Setup, s: State, o: Outside, id: nat)
    requires InOnePlace(s, id) && CanOutside(c, s, o)
    ensures InOnePlace(DoOutside(c, s, o), id)
  {
    hide Times, LogTimes, UnitTimes, Carried, Size, Weight, DoSend;
    match o
    case Reserve(us) => Push(s.sending, Entry(Mint(s.next, us)), id);
    case Send(k) => PlaceSend(s, k, id); hide Places;
    case Commit(k) => CarriedFlag(s.log.bodies, k, s.log.bodies[k].(committed := true));
    case _ =>
  }

  lemma PlacePlace(c: Setup, s: State, open: seq<Entry>, e: Entry, id: nat)
    requires s.phase == Packing(open)
    ensures Places(Place(c, s, open, e), id) == Places(s, id) + UnitTimes(e.units, id)
  {
    Split([e], s.deferred, id);
    One(e, id);
    Push(open, e, id);
    Push(s.log.skipped, e, id);
    Refuse(s.log.early, e.units, None, Refused(if |e.units| > 1 then GroupTooLarge else UnitTooLarge), id);
    hide Times, LogTimes, UnitTimes, ResolveAll, Fits, FullyCanceled, Weight, Size, Carried;
  }

  lemma PlaceTake(s: State, id: nat)
    requires s.deferred != [] || s.queue.entries != []
    ensures Places(s, id) == Places(TakeNext(s), id) + UnitTimes(NextEntry(s).units, id)
  {
    hide LogTimes, Carried, UnitTimes;
  }

  lemma PlacePop(c: Setup, s: State, id: nat)
    requires s.phase.Packing?
    ensures Places(DoPop(c, s), id) == Places(s, id)
  {
    if s.deferred != [] || s.queue.entries != [] {
      PlaceTake(s, id);
      PlacePlace(c, TakeNext(s), s.phase.open, NextEntry(s), id);
      hide Places, NextEntry, Place;
    }
  }

  lemma PlaceLook(s: State, id: nat)
    requires s.phase.Top?
    ensures Places(DoLook(s), id) == Places(s, id)
  {
    if s.queue.entries != [] { One(s.queue.entries[0], id); }
    hide LogTimes, Carried, UnitTimes;
  }

  lemma PlaceShip(s: State, id: nat)
    requires s.phase.Sealed?
    ensures Places(DoShip(s), id) == Places(s, id)
  {
    var open := s.phase.open;
    CarriedShip(s.log.bodies, Body(open, false, false));
    Split(Carried(s.log.bodies), open, id);
    assert Times([], id) == 0;
    hide Carried, LogTimes, Flat, Times;
  }

  lemma PlacePack(c: Setup, s: State, p: Pack, id: nat)
    requires CanPack(s, p)
    ensures Places(DoPack(c, s, p), id) == Places(s, id)
  {
    hide Times, LogTimes, Carried, DoLook, DoPop, DoShip;
    match p
    case Poll =>
    case Look => PlaceLook(s, id);
    case Pop => PlacePop(c, s, id);
    case Ship => PlaceShip(s, id);
  }

  lemma PlaceDrain(s: State, id: nat)
    requires s.phase.Closing?
    ensures Places(DoCloseDrain(s), id) == Places(s, id)
  {
    var rest := s.deferred + s.queue.entries;
    Split(s.deferred, s.queue.entries, id);
    FlatLoad(rest, id);
    Refuse(s.log.early, Flat(rest), None, Refused(s.phase.reason), id);
    assert Times([], id) == 0;
    hide ResolveAll, Weight, Size, Flat, LogTimes, UnitTimes, Carried, Times, DrainAll;
  }

  lemma PlaceVerdict(c: Setup, s: State, v: Verdict, id: nat)
    requires CanVerdict(c, s, v)
    ensures Places(DoVerdict(c, s, v), id) == Places(s, id)
  {
    hide ResolveAll, Demux, LogTimes, Carried, Times, DoCloseDrain, DoEnter;
    match v
    case Enter => PlaceEnter(s, id);
    case CloseDrain => PlaceDrain(s, id);
    case _ =>
  }

  lemma PlaceEnter(s: State, id: nat)
    requires s.phase.Handed?
    ensures Places(DoEnter(s), id) == Places(s, id)
  {
    hide LogTimes, Carried, Times, Size, Weight;
    if s.log.bodies != [] { CarriedFlag(s.log.bodies, Last(s), s.log.bodies[Last(s)].(entered := true)); }
  }

  lemma KeepsInOnePlace(c: Setup, s: State, step: Step, id: nat)
    requires InOnePlace(s, id) && Can(c, s, step)
    ensures InOnePlace(Do(c, s, step), id)
  {
    hide Times, LogTimes, Carried, DoPop, DoLook, DoShip, DoCloseDrain;
    match step
    case ByOthers(o) => PlaceOutside(c, s, o, id); hide DoOutside;
    case ByPack(p) => PlacePack(c, s, p, id); NextSame(c, s, step); hide DoPack, Places;
    case ByVerdict(v) => PlaceVerdict(c, s, v, id); NextSame(c, s, step); hide DoVerdict, Places;
  }

  lemma NextSame(c: Setup, s: State, step: Step)
    requires Can(c, s, step) && !step.ByOthers?
    ensures Do(c, s, step).next == s.next
  {
    hide Size, Weight, Flat, Fits, FullyCanceled, ResolveAll, Demux, DrainAll;
  }

  lemma SettlesBody(c: Setup, s: State, v: Verdict, id: nat)
    requires BodyAccounted(s, id) && OneFlight(s) && CanVerdict(c, s, v)
    ensures BodyAccounted(DoVerdict(c, s, v), id)
  {
    var last := Some(Last(s));
    assert UnitTimes([], id) == 0;
    hide ResolveAll, Demux, Weight, Size, Flat, LogTimes, UnitTimes, Carried, Times;
    match v
    case Enter => CarriedFlag(s.log.bodies, Last(s), s.log.bodies[Last(s)].(entered := true));
    case Bounce(err) => Refuse(s.log.late, s.flight, last, SubmitFailure(err), id);
    case Answer(reply) => DemuxTimes(s.flight, last, reply, id); LogConcat(s.log.late, Demux(s.flight, last, reply), id);
    case Fail(err) => Refuse(s.log.late, s.flight, last, SubmitFailure(err), id);
    case Stall => Refuse(s.log.late, s.flight, last, OutcomeUnknown(UnknownReason.Stalled), id);
    case Abandon => UnitsConcat(s.log.abandoned, s.flight, id);
    case PumpDrop => Refuse(s.log.late, s.flight, last, OutcomeUnknown(UnknownReason.PumpGone), id);
    case CloseDrain =>
  }

  lemma AccountedOutside(c: Setup, s: State, o: Outside, id: nat)
    requires BodyAccounted(s, id) && CanOutside(c, s, o)
    ensures BodyAccounted(DoOutside(c, s, o), id)
  {
    hide Times, LogTimes, UnitTimes, Carried, Mint, ResolveAll, Size, Weight;
    if o.Commit? { CarriedFlag(s.log.bodies, o.k, s.log.bodies[o.k].(committed := true)); }
  }

  /** Nothing before the handover touches a body, a flight or its replies. */
  lemma PackFrame(c: Setup, s: State, p: Pack)
    requires CanPack(s, p) && !p.Ship?
    ensures
      var t := DoPack(c, s, p);
      && t.flight == s.flight && t.log.bodies == s.log.bodies
      && t.log.late == s.log.late && t.log.abandoned == s.log.abandoned
  {
    hide Flat, Fits, FullyCanceled, ResolveAll, Size, Weight;
  }

  lemma ShipTimes(bodies: seq<Body>, b: Body, id: nat)
    ensures Times(Carried(bodies + [b]), id) == Times(Carried(bodies), id) + UnitTimes(Flat(b.entries), id)
  {
    CarriedShip(bodies, b);
    Split(Carried(bodies), b.entries, id);
    FlatLoad(b.entries, id);
  }

  lemma AccountedShip(s: State, id: nat)
    requires BodyAccounted(s, id) && s.flight == [] && s.phase.Sealed?
    ensures BodyAccounted(DoShip(s), id)
  {
    assert UnitTimes([], id) == 0;
    hide Times, LogTimes, UnitTimes, Carried, Flat;
    ShipTimes(s.log.bodies, Body(s.phase.open, false, false), id);
  }

  lemma AccountedPack(c: Setup, s: State, p: Pack, id: nat)
    requires BodyAccounted(s, id) && OneFlight(s) && CanPack(s, p)
    ensures BodyAccounted(DoPack(c, s, p), id)
  {
    hide Times, LogTimes, UnitTimes, Carried, DoPop, DoLook, DoShip;
    if p.Ship? { AccountedShip(s, id); } else { PackFrame(c, s, p); }
  }

  // ---- The queue budget ------------------------------------------------------------------

  /** What is reserved is exactly what is still before its driver reservation, and both caps
      hold. */
  ghost predicate Charged(c: Setup, s: State) {
    && s.charge == Charge(
         Size(s.sending) + Size(s.queue.entries) + Size(s.deferred) + Size(s.phase.Held()),
         Weight(s.sending) + Weight(s.queue.entries) + Weight(s.deferred) + Weight(s.phase.Held()))
    && s.charge.count <= c.maxCount && s.charge.bytes <= c.maxBytes
  }

  lemma ChargedSend(c: Setup, s: State, k: nat)
    requires Charged(c, s) && k < |s.sending|
    ensures Charged(c, DoSend(s, k))
  {
    var e := s.sending[k];
    TakeOut(s.sending, k, 0);
    Push(s.queue.entries, e, 0);
    One(e, 0);
    hide ResolveAll, Size, Weight, UnitsLen, UnitBodies;
  }

  lemma ChargedOutside(c: Setup, s: State, o: Outside)
    requires Charged(c, s) && CanOutside(c, s, o)
    ensures Charged(c, DoOutside(c, s, o))
  {
    hide ResolveAll, Size, Weight, UnitsLen, UnitBodies, DoSend;
    if o.Reserve? { Push(s.sending, Entry(Mint(s.next, o.units)), 0); }
    if o.Send? { ChargedSend(c, s, o.k); }
  }

  lemma ChargedPlace(c: Setup, s: State, open: seq<Entry>, e: Entry)
    requires s.phase == Packing(open)
    requires s.charge.count == Size(s.sending) + Size(s.queue.entries) + Size(s.deferred) + Size(open) + |e.units|
    requires s.charge.bytes == Weight(s.sending) + Weight(s.queue.entries) + Weight(s.deferred) + Weight(open)
                               + UnitsLen(UnitBodies(e.units))
    requires s.charge.count <= c.maxCount && s.charge.bytes <= c.maxBytes
    ensures Charged(c, Place(c, s, open, e))
  {
    hide ResolveAll, Fits, FullyCanceled, Size, Weight, UnitsLen, UnitBodies, Times, UnitTimes;
    Split([e], s.deferred, 0);
    Push(open, e, 0);
    One(e, 0);
  }

  lemma ChargedPop(c: Setup, s: State)
    requires Charged(c, s) && s.phase.Packing?
    ensures Charged(c, DoPop(c, s))
  {
    hide UnitsLen, UnitBodies, Place;
    if s.deferred != [] || s.queue.entries != [] {
      ChargedPlace(c, TakeNext(s), s.phase.open, NextEntry(s));
    }
  }

  lemma ChargedLook(c: Setup, s: State)
    requires Charged(c, s) && s.phase.Top?
    ensures Charged(c, DoLook(s))
  {
    hide UnitsLen, UnitBodies, Times;
    if s.queue.entries != [] { One(s.queue.entries[0], 0); }
  }

  lemma ChargedPack(c: Setup, s: State, p: Pack)
    requires Charged(c, s) && CanPack(s, p)
    ensures Charged(c, DoPack(c, s, p))
  {
    hide DoPop, DoLook, Flat, Size, Weight;
    if p.Pop? { ChargedPop(c, s); }
    if p.Look? { ChargedLook(c, s); }
  }

  lemma NoLoad()
    ensures Size([]) == 0 && Weight([]) == 0
  {}

  lemma ChargedDrain(c: Setup, s: State)
    requires Charged(c, s) && s.phase.Closing?
    ensures Charged(c, DoCloseDrain(s))
  {
    hide ResolveAll, Flat, DrainAll, Size, Weight, Times;
    NoLoad();
    Split(s.deferred, s.queue.entries, 0);
  }

  lemma ChargedEnter(c: Setup, s: State)
    requires Charged(c, s) && s.phase.Handed?
    ensures Charged(c, DoEnter(s))
  {
    hide Size, Weight, Mark;
    NoLoad();
  }

  lemma ChargedVerdict(c: Setup, s: State, v: Verdict)
    requires Charged(c, s) && CanVerdict(c, s, v)
    ensures Charged(c, DoVerdict(c, s, v))
  {
    hide ResolveAll, Demux, Size, Weight, DoCloseDrain, DoEnter;
    NoLoad();
    match v
    case CloseDrain => ChargedDrain(c, s);
    case Enter => ChargedEnter(c, s);
    case _ =>
  }

  // ---- Admission and packing -------------------------------------------------------------

  /** The limits come from `Snapshot`, so a byte limit always fits the builder's own cap. */
  ghost predicate Sane(c: Setup) { c.limits.submitLimit <= U32_MAX }

  /** A body's request bytes and its unit count fit the limits. */
  ghost predicate BodyFits(c: Setup, es: seq<Entry>) {
    Size(es) <= c.limits.maxUnits && (es != [] ==> Size(es) > 0 && COUNT_OVERHEAD + Weight(es) <= c.limits.submitLimit)
  }

  ghost predicate AllAdmitted(c: Setup, es: seq<Entry>) { forall e :: e in es ==> Admits(c.limits, e) }

  /** Everything waiting was admitted, everything packed fits, and no entry ever proved too
      large at pack time. */
  ghost predicate Packable(c: Setup, s: State) {
    && AllAdmitted(c, s.sending) && AllAdmitted(c, s.queue.entries) && AllAdmitted(c, s.deferred)
    && BodyFits(c, s.phase.Loose())
    && (forall k :: 0 <= k < |s.log.bodies| ==> s.log.bodies[k].entries != [] && BodyFits(c, s.log.bodies[k].entries))
    && (forall p :: p in s.log.history ==> !p.fate.Misfit?)
  }

  lemma PackableOutside(c: Setup, s: State, o: Outside)
    requires Packable(c, s) && CanOutside(c, s, o)
    ensures Packable(c, DoOutside(c, s, o))
  {
    hide Admits, BodyFits, Mint, ResolveAll, Size, Weight;
  }

  lemma PackablePlace(c: Setup, s: State, open: seq<Entry>, e: Entry)
    requires Sane(c) && Packable(c, s) && s.phase == Packing(open) && Admits(c.limits, e)
    ensures Packable(c, Place(c, s, open, e))
  {
    Push(open, e, 0);
    assert Fits(c.limits, open, e) ==> BodyFits(c, open + [e]);
    assert open == [] ==> Fits(c.limits, open, e);
    hide Admits, BodyFits, ResolveAll, Size, Weight, Fits, FullyCanceled;
  }

  lemma PackablePop(c: Setup, s: State)
    requires Sane(c) && Packable(c, s) && s.phase.Packing?
    ensures Packable(c, DoPop(c, s))
  {
    hide Admits, BodyFits, Place;
    if s.deferred != [] || s.queue.entries != [] {
      PackablePlace(c, TakeNext(s), s.phase.open, NextEntry(s));
    }
  }

  lemma PackablePack(c: Setup, s: State, p: Pack)
    requires Sane(c) && Packable(c, s) && CanPack(s, p)
    ensures Packable(c, DoPack(c, s, p))
  {
    assert BodyFits(c, []);
    hide Admits, BodyFits, DoPop, Flat;
    if p.Pop? { PackablePop(c, s); hide Packable; }
  }

  lemma PackableDrain(c: Setup, s: State)
    requires Packable(c, s) && s.phase.Closing?
    ensures Packable(c, DoCloseDrain(s))
  {
    Drains(s.deferred + s.queue.entries);
    hide Admits, BodyFits, ResolveAll, Flat, DrainAll, Size, Weight;
  }

  lemma PackableVerdict(c: Setup, s: State, v: Verdict)
    requires Packable(c, s) && CanVerdict(c, s, v)
    ensures Packable(c, DoVerdict(c, s, v))
  {
    assert BodyFits(c, []);
    hide Admits, BodyFits, ResolveAll, Demux, Size, Weight, DoCloseDrain;
    if v.CloseDrain? { PackableDrain(c, s); hide Packable; }
  }

  lemma {:induction false} Drains(es: seq<Entry>)
    ensures forall p :: p in DrainAll(es) ==> p.fate.Drained?
    ensures EntriesOf(DrainAll(es)) == es && PackedOf(DrainAll(es)) == []
  {
    if es != [] {
      Drains(es[1..]);
      assert DrainAll(es)[1..] == DrainAll(es[1..]);
      assert es == [es[0]] + es[1..];
    }
  }

  // ---- Order -----------------------------------------------------------------------------

  function EntriesOf(h: seq<Popped>): seq<Entry> {
    if h == [] then [] else [h[0].entry] + EntriesOf(h[1..])
  }

  function PackedOf(h: seq<Popped>): seq<Entry> {
    if h == [] then [] else (if h[0].fate.Packed? then [h[0].entry] else []) + PackedOf(h[1..])
  }

  lemma {:induction false} HistoryConcat(a: seq<Popped>, b: seq<Popped>)
    ensures EntriesOf(a + b) == EntriesOf(a) + EntriesOf(b)
  {
    if a == [] {
      assert a + b == b;
    } else {
      assert (a + b)[0] == a[0] && (a + b)[1..] == a[1..] + b;
      HistoryConcat(a[1..], b);
    }
  }

  lemma {:induction false} PackedConcat(a: seq<Popped>, b: seq<Popped>)
    ensures PackedOf(a + b) == PackedOf(a) + PackedOf(b)
  {
    if a == [] {
      assert a + b == b;
    } else {
      assert (a + b)[0] == a[0] && (a + b)[1..] == a[1..] + b;
      PackedConcat(a[1..], b);
      var head := if a[0].fate.Packed? then [a[0].entry] else [];
      assert head + (PackedOf(a[1..]) + PackedOf(b)) == head + PackedOf(a[1..]) + PackedOf(b);
    }
  }

  lemma HistoryPush(h: seq<Popped>, e: Entry, fate: Fate)
    ensures EntriesOf(h + [Popped(e, fate)]) == EntriesOf(h) + [e]
    ensures PackedOf(h + [Popped(e, fate)]) == PackedOf(h) + if fate.Packed? then [e] else []
  {
    HistoryConcat(h, [Popped(e, fate)]);
    PackedConcat(h, [Popped(e, fate)]);
    assert [Popped(e, fate)][1..] == [];
  }

  /** Entries leave in the order they were accepted, and the bodies carry, in that order,
      exactly the ones packed. */
  ghost predicate Fifo(s: State) {
    && s.log.accepted == EntriesOf(s.log.history) + (s.deferred + s.queue.entries)
    && PackedOf(s.log.history) == Carried(s.log.bodies) + s.phase.Loose()
  }

  lemma FifoOutside(c: Setup, s: State, o: Outside)
    requires Fifo(s) && CanOutside(c, s, o) && Slots(s)
    ensures Fifo(DoOutside(c, s, o))
  {
    hide EntriesOf, PackedOf, Carried, Mint, Admits, ResolveAll, Size, Weight;
    if o.Commit? { CarriedFlag(s.log.bodies, o.k, s.log.bodies[o.k].(committed := true)); }
    if o.Send? && !s.queue.closed {
      var e := s.sending[o.k];
      assert s.deferred + (s.queue.entries + [e]) == s.deferred + s.queue.entries + [e];
      assert EntriesOf(s.log.history) + (s.deferred + s.queue.entries + [e])
          == EntriesOf(s.log.history) + (s.deferred + s.queue.entries) + [e];
    }
  }

  lemma FifoPlace(c: Setup, s: State, open: seq<Entry>, e: Entry)
    requires Fifo(s.(log := s.log.(history := s.log.history + [Popped(e, Skipped)]))) && s.phase == Packing(open)
    ensures Fifo(Place(c, s, open, e))
  {
    var h := s.log.history;
    HistoryPush(h, e, Skipped);
    HistoryPush(h, e, Packed);
    HistoryPush(h, e, Misfit);
    hide EntriesOf, PackedOf, Carried, ResolveAll, Size, Weight, Fits, FullyCanceled;
    assert EntriesOf(h) + [e] + (s.deferred + s.queue.entries) == EntriesOf(h) + ([e] + s.deferred + s.queue.entries);
    assert Carried(s.log.bodies) + open + [e] == Carried(s.log.bodies) + (open + [e]);
  }

  lemma FifoPop(c: Setup, s: State)
    requires Fifo(s) && s.phase.Packing?
    ensures Fifo(DoPop(c, s))
  {
    if s.deferred != [] || s.queue.entries != [] {
      var e, t := NextEntry(s), TakeNext(s);
      HistoryPush(s.log.history, e, Skipped);
      assert s.deferred + s.queue.entries == [e] + (t.deferred + t.queue.entries);
      FifoPlace(c, t, s.phase.open, e);
      hide Place;
    }
  }

  lemma FifoPack(c: Setup, s: State, p: Pack)
    requires Fifo(s) && CanPack(s, p)
    ensures Fifo(DoPack(c, s, p))
  {
    hide DoPop, EntriesOf, PackedOf, Carried, Flat;
    match p
    case Poll =>
    case Look =>
      if s.deferred == [] && s.queue.entries != [] {
        assert s.deferred + s.queue.entries == [s.queue.entries[0]] + s.queue.entries[1..];
      }
      assert Carried(s.log.bodies) + [] == Carried(s.log.bodies);
    case Pop => FifoPop(c, s); hide Fifo;
    case Ship =>
      CarriedShip(s.log.bodies, Body(s.phase.open, false, false));
      assert Carried(s.log.bodies) + s.phase.open + [] == Carried(s.log.bodies) + s.phase.open;
  }

  lemma FifoVerdict(c: Setup, s: State, v: Verdict)
    requires Fifo(s) && CanVerdict(c, s, v)
    ensures Fifo(DoVerdict(c, s, v))
  {
    var rest := s.deferred + s.queue.entries;
    Drains(rest);
    HistoryConcat(s.log.history, DrainAll(rest));
    PackedConcat(s.log.history, DrainAll(rest));
    hide EntriesOf, PackedOf, Carried, ResolveAll, Demux, Flat, DrainAll, Size, Weight;
    assert PackedOf(s.log.history) + [] == PackedOf(s.log.history);
    if v.CloseDrain? { assert EntriesOf(s.log.history) + rest + ([] + []) == EntriesOf(s.log.history) + rest; }
    if v.Enter? && s.log.bodies != [] { CarriedFlag(s.log.bodies, Last(s), s.log.bodies[Last(s)].(entered := true)); }
  }

  // ---- Retry classes ---------------------------------------------------------------------

  /** What a reply to a unit of a body says about that body: a refusal, that it never entered
      the driver; a result or a lost reply, that it committed. */
  ghost predicate Classed(s: State, r: Record) {
    && r.body.Some? && r.body.value < |s.log.bodies|
    && Times(s.log.bodies[r.body.value].entries, r.id) > 0
    && (s.phase.Flying() ==> r.body.value < Last(s))
    && (r.outcome.Refused? ==> !s.log.bodies[r.body.value].entered)
    && (r.outcome.Reply? || r.outcome.CommittedReplyLost? ==> s.log.bodies[r.body.value].committed)
  }

  ghost predicate Classes(s: State) {
    && (forall r :: r in s.log.early ==> r.body.None? && r.outcome.Refused?)
    && (forall r :: r in s.log.late ==> Classed(s, r))
  }

  lemma {:induction false} ResolveAllEach(us: seq<Unit>, body: Option<nat>, outcome: Outcome)
    ensures forall r :: r in ResolveAll(us, body, outcome) ==>
      r.body == body && r.outcome == outcome && UnitTimes(us, r.id) > 0
  {
    if us != [] {
      ResolveAllEach(us[1..], body, outcome);
      assert ResolveAll(us, body, outcome) == [Record(us[0].id, body, outcome)] + ResolveAll(us[1..], body, outcome);
    }
  }

  lemma {:induction false} ReplyEachEach(us: seq<Unit>, body: Option<nat>, replies: seq<Bytes>)
    requires |us| == |replies|
    ensures forall r :: r in ReplyEach(us, body, replies) ==> r.body == body && r.outcome.Reply? && UnitTimes(us, r.id) > 0
  {
    if us != [] {
      ReplyEachEach(us[1..], body, replies[1..]);
      assert ReplyEach(us, body, replies)
          == [Record(us[0].id, body, Reply(replies[0]))] + ReplyEach(us[1..], body, replies[1..]);
    }
  }

  lemma DemuxEach(us: seq<Unit>, body: Option<nat>, reply: Bytes)
    ensures forall r :: r in Demux(us, body, reply) ==>
      r.body == body && (r.outcome.Reply? || r.outcome.CommittedReplyLost?) && UnitTimes(us, r.id) > 0
  {
    ResolveAllEach(us, body, CommittedReplyLost(MalformedReply));
    ResolveAllEach(us, body, CommittedReplyLost(ReplyCountMismatch));
    if Parse(reply).Ok? && |Parse(reply).value| == |us| { ReplyEachEach(us, body, Parse(reply).value); }
    hide ResolveAll, ReplyEach, UnitTimes, Parse;
  }

  lemma ClassesOutside(c: Setup, s: State, o: Outside)
    requires Classes(s) && CanOutside(c, s, o)
    ensures Classes(DoOutside(c, s, o))
  {
    if o.Send? { ResolveAllEach(s.sending[o.k].units, None, Refused(RefusedReason.PumpGone)); }
    hide Mint, Admits, ResolveAll, Size, Weight;
    var t := DoOutside(c, s, o);
    forall r | r in s.log.late ensures Classed(t, r) { assert Classed(s, r); }
  }

  lemma ClassesShip(s: State)
    requires Classes(s) && s.phase.Sealed?
    ensures Classes(DoShip(s))
  {
    hide Flat, Times;
    var t := DoShip(s);
    forall r | r in s.log.late ensures Classed(t, r) { assert Classed(s, r); }
  }

  lemma ClassesUnshipped(c: Setup, s: State, p: Pack)
    requires Classes(s) && CanPack(s, p) && !p.Ship?
    ensures Classes(DoPack(c, s, p))
  {
    hide ResolveAll, Size, Weight, Fits, FullyCanceled, Flat, Times, UnitTimes, DoShip;
    if p.Pop? && (s.deferred != [] || s.queue.entries != []) {
      var us := NextEntry(s).units;
      ResolveAllEach(us, None, Refused(if |us| > 1 then GroupTooLarge else UnitTooLarge));
    }
    var t := DoPack(c, s, p);
    forall r | r in s.log.late ensures Classed(t, r) { assert Classed(s, r); }
  }

  lemma ClassesPack(c: Setup, s: State, p: Pack)
    requires Classes(s) && CanPack(s, p)
    ensures Classes(DoPack(c, s, p))
  {
    hide Classes, DoShip, DoPop, DoLook;
    if p.Ship? { ClassesShip(s); } else { ClassesUnshipped(c, s, p); }
  }

  /** A verdict's replies, all about the last body, are classed once the flight is over. */
  lemma ClassesSettle(s: State, replies: seq<Record>, phase: Phase)
    requires Classes(s) && OneFlight(s) && s.phase.Flying() && !phase.Flying()
    requires forall r :: r in replies ==> r.body == Some(Last(s)) && UnitTimes(s.flight, r.id) > 0
    requires forall r :: r in replies && r.outcome.Refused? ==> !s.log.bodies[Last(s)].entered
    requires forall r :: r in replies && (r.outcome.Reply? || r.outcome.CommittedReplyLost?) ==> s.log.bodies[Last(s)].committed
    ensures Classes(Settle(s, replies, phase))
  {
    hide UnitTimes, Times, Flat, Size, Weight, UnitsLen, UnitBodies;
    var t := Settle(s, replies, phase);
    forall r | r in t.log.late ensures Classed(t, r) {
      if r in s.log.late {
        assert Classed(s, r);
      } else {
        FlatLoad(s.log.bodies[Last(s)].entries, r.id);
      }
    }
  }

  lemma ClassesEnter(s: State)
    requires Classes(s) && OneFlight(s) && s.phase.Handed?
    ensures Classes(DoEnter(s))
  {
    var t := DoEnter(s);
    forall r | r in s.log.late ensures Classed(t, r) { assert Classed(s, r); }
    hide Size, Weight;
  }

  lemma ClassesDrain(s: State)
    requires Classes(s) && s.phase.Closing?
    ensures Classes(DoCloseDrain(s))
  {
    ResolveAllEach(Flat(s.deferred + s.queue.entries), None, Refused(s.phase.reason));
    hide Size, Weight, Flat, ResolveAll, DrainAll;
    var t := DoCloseDrain(s);
    forall r | r in s.log.late ensures Classed(t, r) { assert Classed(s, r); }
  }

  lemma ClassesVerdict(c: Setup, s: State, v: Verdict)
    requires Classes(s) && OneFlight(s) && CanVerdict(c, s, v)
    ensures Classes(DoVerdict(c, s, v))
  {
    var last := Some(Last(s));
    hide Size, Weight, Flat, ResolveAll, DrainAll, Demux, DoEnter, DoCloseDrain;
    match v
    case Enter => ClassesEnter(s);
    case Bounce(err) =>
      ResolveAllEach(s.flight, last, SubmitFailure(err));
      ClassesSettle(s, ResolveAll(s.flight, last, SubmitFailure(err)), Top);
    case Answer(reply) =>
      DemuxEach(s.flight, last, reply);
      ClassesSettle(s, Demux(s.flight, last, reply), Top);
    case Fail(err) =>
      ResolveAllEach(s.flight, last, SubmitFailure(err));
      ClassesSettle(s, ResolveAll(s.flight, last, SubmitFailure(err)), Top);
    case Stall =>
      var o := OutcomeUnknown(UnknownReason.Stalled);
      ResolveAllEach(s.flight, last, o);
      ClassesSettle(s, ResolveAll(s.flight, last, o), Closing(RefusedReason.Stalled));
    case Abandon =>
      var t := DoVerdict(c, s, v);
      forall r | r in s.log.late ensures Classed(t, r) { assert Classed(s, r); }
    case PumpDrop => ClassesPumpDrop(c, s);
    case CloseDrain => ClassesDrain(s);
  }

  lemma ClassesPumpDrop(c: Setup, s: State)
    requires Classes(s) && OneFlight(s) && CanVerdict(c, s, PumpDrop)
    ensures Classes(DoVerdict(c, s, PumpDrop))
  {
    var replies := ResolveAll(s.flight, Some(Last(s)), OutcomeUnknown(UnknownReason.PumpGone));
    if s.phase.InFlight? {
      ResolveAllEach(s.flight, Some(Last(s)), OutcomeUnknown(UnknownReason.PumpGone));
      ClassesSettle(s, replies, Closing(RefusedReason.PumpGone));
    } else {
      assert replies == [];
      var t := DoVerdict(c, s, PumpDrop);
      forall r | r in s.log.late ensures Classed(t, r) { assert Classed(s, r); }
    }
  }

  // ---- Dropped senders -------------------------------------------------------------------

  /** A sender is dropped unsent only where the receiver is already gone; an entry leaves the
      queue unpacked only because every caller left, or because the pump ended. */
  ghost predicate Unobserved(s: State) {
    && (forall e :: e in s.log.skipped ==> FullyCanceled(s.canceled, e))
    && (forall u :: u in s.log.abandoned ==> u.id in s.canceled)
    && (forall p :: p in s.log.history && p.fate.Skipped? ==> FullyCanceled(s.canceled, p.entry))
    && (forall p :: p in s.log.history && p.fate.Drained? ==> s.phase.Gone?)
  }

  lemma UnobservedOutside(c: Setup, s: State, o: Outside)
    requires Unobserved(s) && CanOutside(c, s, o)
    ensures Unobserved(DoOutside(c, s, o))
  {
    hide Size, Weight, ResolveAll, Mint, Admits;
  }

  lemma UnobservedPlace(c: Setup, s: State, open: seq<Entry>, e: Entry)
    requires Unobserved(s) && s.phase.Packing?
    ensures Unobserved(Place(c, s, open, e))
  {
    hide Size, Weight, ResolveAll, Fits, FullyCanceled;
  }

  lemma UnobservedPack(c: Setup, s: State, p: Pack)
    requires Unobserved(s) && CanPack(s, p)
    ensures Unobserved(DoPack(c, s, p))
  {
    hide Flat, Place, FullyCanceled;
    if p.Pop? && (s.deferred != [] || s.queue.entries != []) {
      UnobservedPlace(c, TakeNext(s), s.phase.open, NextEntry(s));
    }
  }

  lemma UnobservedVerdict(c: Setup, s: State, v: Verdict)
    requires Unobserved(s) && CanVerdict(c, s, v)
    ensures Unobserved(DoVerdict(c, s, v))
  {
    Drains(s.deferred + s.queue.entries);
    hide Size, Weight, Flat, ResolveAll, DrainAll, Demux, EntriesOf, PackedOf;
  }

  // ---- Every run -------------------------------------------------------------------------

  ghost predicate Inv(c: Setup, s: State) {
    && Slots(s) && OneFlight(s) && Wakeable(s) && Charged(c, s) && Packable(c, s) && Fifo(s) && Classes(s) && Unobserved(s)
    && (forall id: nat :: InOnePlace(s, id))
    && (forall id: nat :: BodyAccounted(s, id))
  }

  lemma KeepsOutside(c: Setup, s: State, o: Outside)
    requires Inv(c, s) && CanOutside(c, s, o)
    ensures Inv(c, DoOutside(c, s, o))
  {
    SlotsOutside(c, s, o);
    OneFlightOutside(c, s, o);
    KeepsWakeable(c, s, ByOthers(o));
    ChargedOutside(c, s, o);
    PackableOutside(c, s, o);
    FifoOutside(c, s, o);
    ClassesOutside(c, s, o);
    UnobservedOutside(c, s, o);
    hide Slots, OneFlight, Wakeable, Charged, Packable, Fifo, Classes, Unobserved, InOnePlace, BodyAccounted, DoOutside, CanOutside;
    forall id: nat ensures InOnePlace(DoOutside(c, s, o), id) { PlaceOutside(c, s, o, id); }
    forall id: nat ensures BodyAccounted(DoOutside(c, s, o), id) { AccountedOutside(c, s, o, id); }
  }

  lemma KeepsPack(c: Setup, s: State, p: Pack)
    requires Sane(c) && Inv(c, s) && CanPack(s, p)
    ensures Inv(c, DoPack(c, s, p))
  {
    SlotsPack(c, s, p);
    OneFlightPack(c, s, p);
    KeepsWakeable(c, s, ByPack(p));
    ChargedPack(c, s, p);
    PackablePack(c, s, p);
    FifoPack(c, s, p);
    ClassesPack(c, s, p);
    UnobservedPack(c, s, p);
    hide Slots, OneFlight, Wakeable, Charged, Packable, Fifo, Classes, Unobserved, InOnePlace, BodyAccounted, DoPack, CanPack;
    forall id: nat ensures InOnePlace(DoPack(c, s, p), id) { KeepsInOnePlace(c, s, ByPack(p), id); }
    forall id: nat ensures BodyAccounted(DoPack(c, s, p), id) { AccountedPack(c, s, p, id); }
  }

  lemma KeepsVerdict(c: Setup, s: State, v: Verdict)
    requires Inv(c, s) && CanVerdict(c, s, v)
    ensures Inv(c, DoVerdict(c, s, v))
  {
    SlotsVerdict(c, s, v);
    OneFlightVerdict(c, s, v);
    KeepsWakeable(c, s, ByVerdict(v));
    ChargedVerdict(c, s, v);
    PackableVerdict(c, s, v);
    FifoVerdict(c, s, v);
    ClassesVerdict(c, s, v);
    UnobservedVerdict(c, s, v);
    hide Slots, OneFlight, Wakeable, Charged, Packable, Fifo, Classes, Unobserved, InOnePlace, BodyAccounted, DoVerdict, CanVerdict;
    forall id: nat ensures InOnePlace(DoVerdict(c, s, v), id) { KeepsInOnePlace(c, s, ByVerdict(v), id); }
    forall id: nat ensures BodyAccounted(DoVerdict(c, s, v), id) { SettlesBody(c, s, v, id); }
  }

  lemma KeepsInv(c: Setup, s: State, step: Step)
    requires Sane(c) && Inv(c, s) && Can(c, s, step)
    ensures Inv(c, Do(c, s, step))
  {
    hide Inv, CanOutside, CanPack, CanVerdict, DoOutside, DoPack, DoVerdict;
    match step
    case ByOthers(o) => KeepsOutside(c, s, o);
    case ByPack(p) => KeepsPack(c, s, p);
    case ByVerdict(v) => KeepsVerdict(c, s, v);
  }

  ghost predicate Runs(c: Setup, s: State, steps: seq<Step>)
    decreases steps
  {
    steps == [] || (Can(c, s, steps[0]) && Runs(c, Do(c, s, steps[0]), steps[1..]))
  }

  ghost function Final(c: Setup, s: State, steps: seq<Step>): State
    requires Runs(c, s, steps)
    decreases steps
  {
    if steps == [] then s else Final(c, Do(c, s, steps[0]), steps[1..])
  }

  lemma InitInv(c: Setup)
    ensures Inv(c, Init())
  {
    var s := Init();
    assert Slots(s) && OneFlight(s) && Wakeable(s) && Classes(s) && Unobserved(s);
    assert Charged(c, s) && Packable(c, s) && Fifo(s);
    forall id: nat ensures InOnePlace(s, id) && BodyAccounted(s, id) {}
    hide Slots, OneFlight, Wakeable, Classes, Unobserved, Charged, Packable, Fifo, InOnePlace, BodyAccounted, Init;
  }

  lemma {:induction false} RunInv(c: Setup, s: State, steps: seq<Step>)
    requires Sane(c) && Inv(c, s) && Runs(c, s, steps)
    ensures Inv(c, Final(c, s, steps))
    decreases steps
  {
    hide Inv, Can, Do;
    if steps != [] {
      KeepsInv(c, s, steps[0]);
      RunInv(c, Do(c, s, steps[0]), steps[1..]);
    }
  }

  // ---- What the runs guarantee -----------------------------------------------------------

  ghost predicate Reached(c: Setup, s: State) {
    exists steps: seq<Step> :: Runs(c, Init(), steps) && Final(c, Init(), steps) == s
  }

  lemma ReachedInv(c: Setup, s: State)
    requires Sane(c) && Reached(c, s)
    ensures Inv(c, s)
  {
    var steps :| Runs(c, Init(), steps) && Final(c, Init(), steps) == s;
    InitInv(c);
    RunInv(c, Init(), steps);
  }

  ghost function Waiting(s: State, id: nat): nat {
    Times(s.sending, id) + Times(s.queue.entries, id) + Times(s.deferred, id) + Times(s.phase.Loose(), id)
  }

  ghost function Answers(s: State, id: nat): nat { LogTimes(s.log.early, id) + LogTimes(s.log.late, id) }

  ghost function Dropped(s: State, id: nat): nat { Times(s.log.skipped, id) + UnitTimes(s.log.abandoned, id) }

  /** RESOLVED AT MOST ONCE: in every reachable state each minted unit is waiting, flying,
      answered or dropped, exactly one of them and once; and a dropped sender's receiver is
      gone. */
  lemma ResolvedOnce(c: Setup, s: State, id: nat)
    requires Sane(c) && Reached(c, s)
    ensures Waiting(s, id) + UnitTimes(s.flight, id) + Answers(s, id) + Dropped(s, id) == if id < s.next then 1 else 0
    ensures Dropped(s, id) > 0 ==> id in s.canceled
  {
    ReachedInv(c, s);
    assert InOnePlace(s, id) && BodyAccounted(s, id);
    if Times(s.log.skipped, id) > 0 { TimesFinds(s.log.skipped, id); }
    if UnitTimes(s.log.abandoned, id) > 0 { UnitTimesFinds(s.log.abandoned, id); }
  }

  lemma {:induction false} UnitTimesFinds(us: seq<Unit>, id: nat)
    requires UnitTimes(us, id) > 0
    ensures exists u :: u in us && u.id == id
  {
    if us[0].id == id {
      assert us[0] in us;
    } else {
      UnitTimesFinds(us[1..], id);
      var u :| u in us[1..] && u.id == id;
      assert u in us;
    }
  }

  lemma {:induction false} TimesFinds(es: seq<Entry>, id: nat)
    requires Times(es, id) > 0
    ensures exists e, u :: e in es && u in e.units && u.id == id
  {
    if UnitTimes(es[0].units, id) > 0 {
      UnitTimesFinds(es[0].units, id);
      assert es[0] in es;
    } else {
      TimesFinds(es[1..], id);
      var e, u :| e in es[1..] && u in e.units && u.id == id;
      assert e in es;
    }
  }

  /** GONE IS CLEAN: once the pump is gone nothing is queued, deferred or flying, the only
      budget in use is that of senders still to be refused, and every other unit has its one
      answer or no receiver. */
  lemma GoneIsClean(c: Setup, s: State, id: nat)
    requires Sane(c) && Reached(c, s) && s.phase.Gone?
    ensures s.queue.closed && s.queue.entries == [] && s.deferred == [] && s.flight == []
    ensures s.charge == Charge(Size(s.sending), Weight(s.sending))
    ensures id < s.next && Times(s.sending, id) == 0 ==> Answers(s, id) == 1 || id in s.canceled
  {
    ReachedInv(c, s);
    ResolvedOnce(c, s, id);
  }

  /** RETRY CLASSES: a reply outside any body is a refusal of a unit that was never packed; a
      reply to a packed unit names the body that carried it, is a refusal only if that body
      never entered the driver, and a result or a lost reply only if it committed. */
  lemma RetryClasses(c: Setup, s: State, r: Record)
    requires Sane(c) && Reached(c, s)
    ensures r in s.log.early ==> r.outcome.Refused? && Times(Carried(s.log.bodies), r.id) == 0
    ensures r in s.log.late ==>
      && r.body.Some? && r.body.value < |s.log.bodies|
      && var b := s.log.bodies[r.body.value];
      && Times(b.entries, r.id) > 0
      && (r.outcome.Refused? ==> !b.entered)
      && (r.outcome.Reply? || r.outcome.CommittedReplyLost? ==> b.committed)
  {
    ReachedInv(c, s);
    if r in s.log.early {
      assert InOnePlace(s, r.id);
      LogTimesCounts(s.log.early, r);
    }
    if r in s.log.late { assert Classed(s, r); }
  }

  /** EACH ANSWER REACHES ITS UNIT: when the flying body's reply encodes one result for each unit
      of the body as it was shipped, unit `i` of that body gets result `i`, and nobody else gets
      anything. */
  lemma AnswerReachesItsUnit(c: Setup, s: State, results: seq<Bytes>, i: nat)
    requires Sane(c) && Reached(c, s) && Encodable(results) && CanVerdict(c, s, Answer(Encode(results)))
    requires i < |results| == |Flat(s.log.bodies[Last(s)].entries)|
    ensures
      var t := DoVerdict(c, s, Answer(Encode(results)));
      && |t.log.late| == |s.log.late| + |results|
      && t.log.late[|s.log.late| + i]
         == Record(Flat(s.log.bodies[Last(s)].entries)[i].id, Some(Last(s)), Reply(results[i]))
      && t.log.early == s.log.early && t.flight == []
  {
    ReachedInv(c, s);
    hide Inv;
    DemuxIsPositional(s.flight, Some(Last(s)), results, i);
  }

  /** A BODY REFUSED OUTRIGHT by anything but a retired node or an unknown error is refused to
      every caller staged with it, in order: their retry is safe and they are told so. */
  lemma BounceRefuses(c: Setup, s: State, err: DriverError, i: nat)
    requires CanVerdict(c, s, Bounce(err)) && (err.DriverGone? || err.Busy? || err.RequestTooLarge?) && i < |s.flight|
    ensures
      var t := DoVerdict(c, s, Bounce(err));
      && |t.log.late| == |s.log.late| + |s.flight|
      && t.log.late[|s.log.late| + i] == Record(s.flight[i].id, Some(Last(s)), Refused(DriverRefused))
  {
    ResolveAllAt(s.flight, Some(Last(s)), SubmitFailure(err), i);
  }

  /** A BODY LOST IN FLIGHT, or turned away by a retired node, leaves its callers not knowing, and
      says which. */
  lemma FailureIsUnknown(c: Setup, s: State, v: Verdict, i: nat)
    requires CanVerdict(c, s, v) && i < |s.flight|
    requires v.Fail? || (v.Bounce? && (v.err.Retired? || v.err.Other?))
    ensures
      var t := DoVerdict(c, s, v);
      && |t.log.late| == |s.log.late| + |s.flight|
      && t.log.late[|s.log.late| + i] == Record(s.flight[i].id, Some(Last(s)),
           OutcomeUnknown(if v.err.ReplyDropped? then UnknownReason.ReplyDropped else UnknownReason.Driver))
  {
    ResolveAllAt(s.flight, Some(Last(s)), SubmitFailure(v.err), i);
  }

  /** A SEND lands behind everything queued before it while the queue is open; once closed, every
      unit of it is refused because the pump is gone, and its budget is returned. */
  lemma SendExactly(s: State, k: nat, i: nat)
    requires k < |s.sending|
    ensures
      var e, t := s.sending[k], DoSend(s, k);
      && (!s.queue.closed ==> t.queue.entries == s.queue.entries + [e] && t.log.early == s.log.early && t.charge == s.charge)
      && (s.queue.closed ==>
            && t.queue == s.queue && |t.log.early| == |s.log.early| + |e.units|
            && t.charge == Charge(s.charge.count - |e.units|, s.charge.bytes - UnitsLen(UnitBodies(e.units))))
      && (s.queue.closed && i < |e.units| ==>
            t.log.early[|s.log.early| + i] == Record(e.units[i].id, None, Refused(RefusedReason.PumpGone)))
  {
    var e := s.sending[k];
    One(e, 0);
    ResolveAllLen(e.units, None, Refused(RefusedReason.PumpGone));
    if i < |e.units| { ResolveAllAt(e.units, None, Refused(RefusedReason.PumpGone), i); }
  }

  lemma {:induction false} ResolveAllLen(us: seq<Unit>, body: Option<nat>, outcome: Outcome)
    ensures |ResolveAll(us, body, outcome)| == |us|
  {
    if us != [] { ResolveAllLen(us[1..], body, outcome); }
  }

  lemma {:induction false} LogTimesCounts(log: seq<Record>, r: Record)
    requires r in log
    ensures LogTimes(log, r.id) > 0
  {
    if log[0] != r { LogTimesCounts(log[1..], r); }
  }

  /** NO LOST WAKEUP: a parked pump with work, or with no handle left, has a wake under way. */
  lemma NoLostWakeup(c: Setup, s: State)
    requires Sane(c) && Reached(c, s) && s.phase.Parked?
    ensures s.queue.entries != [] || s.queue.handles == 0 ==> s.wakes > 0 || s.scheduled
  {
    ReachedInv(c, s);
  }

  /** ORDER: while the pump lives, the entries taken out are a prefix of the entries accepted;
      the bodies carry, in order, exactly those of them whose callers had not all left. */
  lemma ShippedInOrder(c: Setup, s: State)
    requires Sane(c) && Reached(c, s)
    ensures s.log.accepted == EntriesOf(s.log.history) + (s.deferred + s.queue.entries)
    ensures PackedOf(s.log.history) == Carried(s.log.bodies) + s.phase.Loose()
    ensures forall p :: p in s.log.history && !p.fate.Packed? ==>
      (s.phase.Gone? && p.fate.Drained?) || forall u :: u in p.entry.units ==> u.id in s.canceled
    ensures |s.deferred| <= 1
  {
    ReachedInv(c, s);
  }

  /** PACKING RESPECTS BOTH BUDGETS: every body is a non-empty batch within the submit limit,
      and its ceiling-priced reply fits a frame. */
  lemma BodiesFit(c: Setup, ceiling: nat, s: State, k: nat)
    requires Sane(c) && Reached(c, s) && k < |s.log.bodies|
    requires ceiling <= USIZE_MAX && c.limits.maxUnits == MaxUnitsPerBody(ceiling)
    ensures
      var us := UnitBodies(Flat(s.log.bodies[k].entries));
      && us != [] && Encodable(us)
      && |Encode(us)| <= c.limits.submitLimit
      && COUNT_OVERHEAD + |us| * (UNIT_OVERHEAD + ceiling) <= MAX_REPLY_BODY
  {
    ReachedInv(c, s);
    var es := s.log.bodies[k].entries;
    var us := UnitBodies(Flat(es));
    assert es != [] && BodyFits(c, es);
    FlatLoad(es, 0);
    FitsEncodable(us);
    EncodeUnitsLen(us);
    MaxUnitsExact(ceiling, |us|);
  }

  /** NOTHING AFTER THE END: from a stall, an abandonment or a dropped pump on, no run mints
      another body. */
  lemma {:induction false} NothingMintedAfterEnd(c: Setup, s: State, steps: seq<Step>)
    requires s.phase.Ended() && Runs(c, s, steps)
    ensures Final(c, s, steps).phase.Ended()
    ensures |Final(c, s, steps).log.bodies| == |s.log.bodies|
    decreases steps
  {
    if steps != [] {
      EndedStays(c, s, steps[0]);
      NothingMintedAfterEnd(c, Do(c, s, steps[0]), steps[1..]);
      hide Do, Can;
    }
  }

  /** THE LAST BODY: a stall, an abandonment and a dropped pump end the pump, a verdict or a
      refusal does not; so whatever follows the former, no other body is handed over. */
  lemma LastBody(c: Setup, s: State, v: Verdict, steps: seq<Step>)
    requires CanVerdict(c, s, v) && !v.CloseDrain? && !v.Enter?
    ensures v.Stall? || v.Abandon? || v.PumpDrop? <==> DoVerdict(c, s, v).phase.Ended()
    ensures !(v.Stall? || v.Abandon? || v.PumpDrop?) ==> DoVerdict(c, s, v).phase.Top?
    ensures (v.Stall? || v.Abandon? || v.PumpDrop?) && Runs(c, DoVerdict(c, s, v), steps) ==>
      |Final(c, DoVerdict(c, s, v), steps).log.bodies| == |s.log.bodies|
  {
    hide ResolveAll, Demux, Size, Weight;
    var t := DoVerdict(c, s, v);
    if (v.Stall? || v.Abandon? || v.PumpDrop?) && Runs(c, t, steps) { NothingMintedAfterEnd(c, t, steps); }
  }

  /** THE STALL: every caller of the stalled body is told the outcome is unknown, every other unit
      waiting is refused, both for the stall; after any other end the waiting ones are told the
      pump is gone. */
  lemma EndIsExplained(c: Setup, s: State, v: Verdict, i: nat)
    requires CanVerdict(c, s, v) && (v.Stall? || v.Abandon? || v.PumpDrop?)
    ensures DoVerdict(c, s, v).phase.Closing?
    ensures
      var t := DoVerdict(c, s, v);
      var u := DoVerdict(c, t, CloseDrain);
      var flight, rest := s.flight, Flat(s.deferred + s.queue.entries);
      && (!v.Abandon? && i < |flight| ==>
            |t.log.late| == |s.log.late| + |flight|
            && t.log.late[|s.log.late| + i] == Record(flight[i].id, Some(Last(s)),
                 OutcomeUnknown(if v.Stall? then UnknownReason.Stalled else UnknownReason.PumpGone)))
      && (i < |rest| ==>
            |u.log.early| == |s.log.early| + |rest|
            && u.log.early[|s.log.early| + i] == Record(rest[i].id, None,
                 Refused(if v.Stall? then RefusedReason.Stalled else RefusedReason.PumpGone)))
  {
    hide Flat, Size, Weight, ResolveAll, DrainAll;
    var rest := Flat(s.deferred + s.queue.entries);
    if i < |s.flight| {
      ResolveAllAt(s.flight, Some(Last(s)), OutcomeUnknown(UnknownReason.Stalled), i);
      ResolveAllAt(s.flight, Some(Last(s)), OutcomeUnknown(UnknownReason.PumpGone), i);
    }
    if i < |rest| {
      ResolveAllAt(rest, None, Refused(RefusedReason.Stalled), i);
      ResolveAllAt(rest, None, Refused(RefusedReason.PumpGone), i);
    }
  }

  lemma EndedStays(c: Setup, s: State, step: Step)
    requires s.phase.Ended() && Can(c, s, step)
    ensures Do(c, s, step).phase.Ended() && |Do(c, s, step).log.bodies| == |s.log.bodies|
  {
    hide Size, Weight, Flat, ResolveAll, DrainAll, Demux, Mint, Admits, Fits, FullyCanceled;
  }
}
