/** The edge-batching aggregator: one queue behind one lock, shared by submitting handles and a
    single pump that packs queued entries into one body at a time. */
module Aggregate {
  import opened Wrappers
  import opened Batch

  // ---- Limits ----------------------------------------------------------------------------

  const USIZE_MAX: nat := 0xFFFF_FFFF_FFFF_FFFF
  const MAX_FRAME_LEN: nat := 16 * 1024 * 1024
  const MAX_REQUEST_BODY: nat := MAX_FRAME_LEN - 121
  const MAX_REPLY_BODY: nat := MAX_FRAME_LEN - 53

  function SaturatingAdd(a: nat, b: nat): nat { if a + b <= USIZE_MAX then a + b else USIZE_MAX }
  function SaturatingSub(a: nat, b: nat): nat { if b <= a then a - b else 0 }

  function MaxUnitsPerBody(ceiling: nat): nat {
    SaturatingSub(MAX_REPLY_BODY, COUNT_OVERHEAD) / SaturatingAdd(ceiling, UNIT_OVERHEAD)
  }

  /** The unit cap is exactly "the ceiling-priced reply fits", for every ceiling a usize holds. */
  lemma MaxUnitsExact(ceiling: nat, n: nat)
    requires ceiling <= USIZE_MAX
    ensures n <= MaxUnitsPerBody(ceiling) <==>
            n == 0 || COUNT_OVERHEAD + n * (UNIT_OVERHEAD + ceiling) <= MAX_REPLY_BODY
  {
    var room, per := MAX_REPLY_BODY - COUNT_OVERHEAD, UNIT_OVERHEAD + ceiling;
    if per <= USIZE_MAX {
      DivideExact(room, per, n);
    } else {
      DivideExact(room, USIZE_MAX, n);
      if n > 0 { TimesAtLeast(n, per); }
    }
  }

  lemma DivideExact(room: nat, per: nat, n: nat)
    requires per > 0
    ensures n <= room / per <==> n * per <= room
  {
    var q := room / per;
    assert q * per <= room < q * per + per;
    MoreTimes(q, q, per);
    if n <= q { MoreTimes(n, q, per); } else { MoreTimes(q + 1, n, per); }
  }

  lemma MoreTimes(a: nat, b: nat, per: nat)
    requires a <= b
    ensures a * per <= b * per && (a + 1) * per == a * per + per
  {
    assert b * per == a * per + (b - a) * per;
  }

  lemma TimesAtLeast(n: nat, per: nat)
    requires n > 0
    ensures n * per >= per
  {}

  /** What one body may carry, snapshotted when the handle is split. */
  datatype Limits = Limits(submitLimit: nat, maxUnits: nat)

  /** The snapshot: the handle's byte limit and the reply-side unit cap. */
  function Snapshot(driverMaxBytes: nat, ceiling: nat): (l: Limits)
    ensures l.submitLimit <= MAX_REQUEST_BODY <= U32_MAX && l.submitLimit <= driverMaxBytes
    ensures l.submitLimit == MAX_REQUEST_BODY || l.submitLimit == driverMaxBytes
  {
    Limits(if MAX_REQUEST_BODY < driverMaxBytes then MAX_REQUEST_BODY else driverMaxBytes, MaxUnitsPerBody(ceiling))
  }

  function LensLen(lens: seq<nat>): nat {
    if lens == [] then 0 else LensLen(lens[..|lens| - 1]) + UNIT_OVERHEAD + lens[|lens| - 1]
  }

  /** The checked fold over unit lengths: `None` exactly on overflow. */
  method EncodedRequestLen(lens: seq<nat>) returns (r: Option<nat>)
    ensures r == if COUNT_OVERHEAD + LensLen(lens) <= USIZE_MAX then Some(COUNT_OVERHEAD + LensLen(lens)) else None
  {
    var acc := COUNT_OVERHEAD;
    for i := 0 to |lens|
      invariant acc == COUNT_OVERHEAD + LensLen(lens[..i]) <= USIZE_MAX
    {
      assert lens[..i + 1][..i] == lens[..i];
      if acc + UNIT_OVERHEAD > USIZE_MAX || acc + UNIT_OVERHEAD + lens[i] > USIZE_MAX {
        LensLenGrows(lens, i + 1);
        return None;
      }
      acc := acc + UNIT_OVERHEAD + lens[i];
    }
    assert lens[..|lens|] == lens;
    r := Some(acc);
  }

  lemma {:induction false} LensLenGrows(lens: seq<nat>, i: nat)
    requires i <= |lens|
    ensures LensLen(lens[..i]) <= LensLen(lens)
  {
    if i < |lens| {
      LensLenGrows(lens[..|lens| - 1], i);
      assert lens[..|lens| - 1][..i] == lens[..i];
    } else {
      assert lens[..i] == lens;
    }
  }

  // ---- Units, entries and their load -----------------------------------------------------

  /** One caller's unit; `id` names its reply sender. */
  datatype Unit = Unit(id: nat, body: Bytes)

  /** One queued submission: a single unit, or a whole atomic group. */
  datatype Entry = Entry(units: seq<Unit>)

  function UnitBodies(us: seq<Unit>): (bs: seq<Bytes>)
    ensures |bs| == |us| && forall i :: 0 <= i < |us| ==> bs[i] == us[i].body
  {
    if us == [] then [] else [us[0].body] + UnitBodies(us[1..])
  }

  /** How many of these units carry `id`. */
  function UnitTimes(us: seq<Unit>, id: nat): nat {
    if us == [] then 0 else (if us[0].id == id then 1 else 0) + UnitTimes(us[1..], id)
  }

  /** The entries' units in order: what one body carries. */
  function Flat(es: seq<Entry>): seq<Unit> {
    if es == [] then [] else es[0].units + Flat(es[1..])
  }

  function Times(es: seq<Entry>, id: nat): nat {
    if es == [] then 0 else UnitTimes(es[0].units, id) + Times(es[1..], id)
  }

  /** How many units the entries hold. */
  function Size(es: seq<Entry>): nat {
    if es == [] then 0 else |es[0].units| + Size(es[1..])
  }

  /** The encoded bytes of the entries' units, framing included. */
  function Weight(es: seq<Entry>): nat {
    if es == [] then 0 else UnitsLen(UnitBodies(es[0].units)) + Weight(es[1..])
  }

  function Lens(us: seq<Bytes>): (ns: seq<nat>)
    ensures |ns| == |us| && forall i :: 0 <= i < |us| ==> ns[i] == |us[i]|
  {
    seq(|us|, i requires 0 <= i < |us| => |us[i]|)
  }

  /** The fold over lengths prices exactly the encoded units. */
  lemma {:induction false} LensAgree(us: seq<Bytes>)
    ensures LensLen(Lens(us)) == UnitsLen(us)
  {
    if us != [] {
      var n := |us| - 1;
      LensAgree(us[..n]);
      assert Lens(us)[..n] == Lens(us[..n]);
      var last: seq<Bytes> := [us[n]];
      assert us == us[..n] + last && last[1..] == [];
      UnitsLenConcat(us[..n], last);
    }
  }

  /** The submit-time check: the reply-side unit cap, then the request bytes, overflow
      included. */
  method CheckAdmits(l: Limits, us: seq<Unit>) returns (ok: bool)
    requires us != [] && l.submitLimit <= USIZE_MAX
    ensures ok == Admits(l, Entry(us))
    ensures ok <==> |us| <= l.maxUnits && EncodedLen(UnitBodies(us)) <= l.submitLimit
  {
    var needed := EncodedRequestLen(Lens(UnitBodies(us)));
    LensAgree(UnitBodies(us));
    ok := |us| <= l.maxUnits && needed.Some? && needed.value <= l.submitLimit;
  }

  predicate Admits(l: Limits, e: Entry) {
    && e.units != []
    && |e.units| <= l.maxUnits
    && COUNT_OVERHEAD + UnitsLen(UnitBodies(e.units)) <= l.submitLimit
  }

  /** Whether `e` still fits a body already holding `open`. */
  predicate Fits(l: Limits, open: seq<Entry>, e: Entry) {
    && Size(open) + |e.units| <= l.maxUnits
    && COUNT_OVERHEAD + Weight(open) + UnitsLen(UnitBodies(e.units))
       <= if l.submitLimit <= U32_MAX then l.submitLimit else U32_MAX
  }

  predicate FullyCanceled(canceled: set<nat>, e: Entry) {
    forall u :: u in e.units ==> u.id in canceled
  }

  // ---- Outcomes --------------------------------------------------------------------------

  datatype RefusedReason = UnitTooLarge | GroupTooLarge | PumpGone | Stalled | DriverRefused
  datatype UnknownReason = ReplyDropped | Stalled | Driver | PumpGone
  datatype LostReason = MalformedReply | ReplyCountMismatch

  datatype Outcome =
    | Reply(bytes: Bytes)
    | Refused(refused: RefusedReason)
    | OutcomeUnknown(unknown: UnknownReason)
    | CommittedReplyLost(lost: LostReason)

  datatype DriverError = DriverGone | ReplyDropped | Busy | RequestTooLarge | Retired | Other

  function SubmitFailure(err: DriverError): Outcome {
    match err
    case DriverGone | Busy | RequestTooLarge => Refused(DriverRefused)
    case ReplyDropped => OutcomeUnknown(UnknownReason.ReplyDropped)
    case Retired | Other => OutcomeUnknown(Driver)
  }

  /** The errors `Handle::submit` returns before its command enters the driver's channel. */
  predicate BeforeEntry(err: DriverError) { err.DriverGone? || err.Busy? || err.RequestTooLarge? || err.Retired? || err.Other? }

  /** The errors it returns once the command is in: the reply sender was dropped. */
  predicate AfterEntry(err: DriverError) { err.ReplyDropped? || err.Retired? || err.Other? }

  /** A reply sent: to whom, from which body, and what. */
  datatype Record = Record(id: nat, body: Option<nat>, outcome: Outcome)

  function ResolveAll(us: seq<Unit>, body: Option<nat>, outcome: Outcome): seq<Record> {
    if us == [] then [] else [Record(us[0].id, body, outcome)] + ResolveAll(us[1..], body, outcome)
  }

  function ReplyEach(us: seq<Unit>, body: Option<nat>, replies: seq<Bytes>): (log: seq<Record>)
    requires |us| == |replies|
    ensures |log| == |us|
    ensures forall i :: 0 <= i < |us| ==> log[i] == Record(us[i].id, body, Reply(replies[i]))
  {
    if us == [] then [] else [Record(us[0].id, body, Reply(replies[0]))] + ReplyEach(us[1..], body, replies[1..])
  }

  /** Demultiplex a committed reply body, by position. */
  function Demux(us: seq<Unit>, body: Option<nat>, reply: Bytes): seq<Record> {
    match Parse(reply)
    case Err(_) => ResolveAll(us, body, CommittedReplyLost(MalformedReply))
    case Ok(replies) =>
      if |replies| != |us| then ResolveAll(us, body, CommittedReplyLost(ReplyCountMismatch))
      else ReplyEach(us, body, replies)
  }

  // ---- The queue behind the lock ---------------------------------------------------------

  datatype Queue = Queue(entries: seq<Entry>, closed: bool, waker: bool, handles: nat)
  {
    function Accept(e: Entry): Queue { this.(entries := entries + [e], waker := false) }
    function Clone(): Queue { this.(handles := handles + 1) }
    function Drop(): Queue
      requires handles > 0
    {
      this.(handles := handles - 1, waker := waker && handles > 1)
    }
    function Tail(): Queue
      requires entries != []
    {
      this.(entries := entries[1..])
    }
    function Park(): Queue { this.(waker := true) }
    function Close(): Queue { this.(entries := [], closed := true, waker := false) }
  }

  /** The shared queue as the handles and the pump mutate it, each method one lock scope. The
      boolean results say whether the caller must fire the taken waker after release. */
  class SharedQueue {
    var entries: seq<Entry>
    var closed: bool
    var waker: bool
    var handles: nat

    ghost function Value(): Queue
      reads this
    {
      Queue(entries, closed, waker, handles)
    }

    constructor ()
      ensures Value() == Queue([], false, false, 1)
    {
      entries, closed, waker, handles := [], false, false, 1;
    }

    method Send(e: Entry) returns (accepted: bool, wake: bool)
      modifies this
      ensures accepted == !old(closed)
      ensures wake == (accepted && old(waker))
      ensures Value() == if accepted then old(Value()).Accept(e) else old(Value())
    {
      if closed { return false, false; }
      entries := entries + [e];
      accepted, wake := true, waker;
      waker := false;
    }

    method Clone()
      modifies this
      ensures Value() == old(Value()).Clone()
    {
      handles := handles + 1;
    }

    method Drop() returns (wake: bool)
      requires handles > 0
      modifies this
      ensures Value() == old(Value()).Drop()
      ensures wake == (old(handles) == 1 && old(waker))
    {
      handles := handles - 1;
      wake := false;
      if handles == 0 {
        wake := waker;
        waker := false;
      }
    }

    /** The pump's idle poll: an entry, or the end, or a registered park. */
    method PollIdle() returns (popped: Option<Entry>, done: bool)
      modifies this
      ensures popped == if old(entries) != [] then Some(old(entries)[0]) else None
      ensures done == (old(entries) == [] && (closed || handles == 0))
      ensures Value() == if old(entries) != [] then old(Value()).Tail() else if done then old(Value()) else old(Value()).Park()
    {
      if entries != [] {
        popped, done := Some(entries[0]), false;
        entries := entries[1..];
        return;
      }
      popped, done := None, closed || handles == 0;
      if !done {
        waker := true;
      }
    }

    /** The pump's pop while packing. */
    method Pop() returns (popped: Option<Entry>)
      modifies this
      ensures popped == if old(entries) != [] then Some(old(entries)[0]) else None
      ensures Value() == if old(entries) != [] then old(Value()).Tail() else old(Value())
    {
      if entries == [] { return None; }
      popped := Some(entries[0]);
      entries := entries[1..];
    }

    method CloseAndTake() returns (drained: seq<Entry>)
      modifies this
      ensures drained == old(entries) && Value() == old(Value()).Close()
    {
      drained := entries;
      entries, closed, waker := [], true, false;
    }
  }

  // ---- The machine -----------------------------------------------------------------------

  datatype Phase =
    | Unstarted                    // built, not yet polled
    | Top                          // running, no body open
    | Parked                       // suspended on the queue
    | Packing(open: seq<Entry>)
    | Sealed(open: seq<Entry>)
    | Handed(open: seq<Entry>)     // submit created and callers staged, not yet polled
    | InFlight                     // suspended on the submit
    | Closing(reason: RefusedReason)
    | Gone
  {
    /** Entries whose queue-budget guards the pump holds. */
    function Held(): seq<Entry> { if Packing? || Sealed? || Handed? then open else [] }
    /** Entries packed into a body not yet handed over. */
    function Loose(): seq<Entry> { if Packing? || Sealed? then open else [] }
    predicate Flying() { Handed? || InFlight? }
    predicate Ended() { Closing? || Gone? }
  }

  datatype Fate = Packed | Skipped | Drained | Misfit
  datatype Popped = Popped(entry: Entry, fate: Fate)

  /** A body handed to `Handle::submit`, and how far it got. */
  datatype Body = Body(entries: seq<Entry>, entered: bool, committed: bool)

  datatype Setup = Setup(limits: Limits, maxCount: nat, maxBytes: nat, stall: bool)

  /** The run so far. */
  datatype Log = Log(
    accepted: seq<Entry>,      // everything ever enqueued, in order
    history: seq<Popped>,      // everything ever taken out, in order
    bodies: seq<Body>,
    early: seq<Record>,        // replies sent to units of no body
    late: seq<Record>,         // replies sent to units of a body
    skipped: seq<Entry>,       // senders dropped at pack time
    abandoned: seq<Unit>)      // senders dropped with an abandoned body

  /** The queue budget in use. */
  datatype Charge = Charge(count: int, bytes: int)

  datatype State = State(
    next: nat,                 // unit ids minted so far
    sending: seq<Entry>,       // budget reserved, lock not yet taken
    queue: Queue,
    wakes: nat,                // wakers taken, wake not yet fired
    scheduled: bool,           // woken since it parked, not yet polled
    phase: Phase,
    deferred: seq<Entry>,
    flight: seq<Unit>,         // the staged callers
    charge: Charge,
    canceled: set<nat>,        // units whose receiver is gone
    log: Log)

  function Init(): State {
    State(0, [], Queue([], false, false, 1), 0, false, Unstarted, [], [], Charge(0, 0), {}, Log([], [], [], [], [], [], []))
  }

  /** What callers, handles, wakers and the driver do, at any moment. */
  datatype Outside =
    | Reserve(units: seq<Bytes>)   // a caller passes admission and takes queue budget
    | Send(k: nat)
    | FireWake
    | Cancel(id: nat)
    | CloneHandle
    | DropHandle
    | Commit(k: nat)

  /** The pump's loop up to handing a body over. */
  datatype Pack =
    | Poll                         // first poll, a scheduled poll, or a spurious one
    | Look
    | Pop
    | Ship

  /** How the handed body ends, and the pump with it. */
  datatype Verdict =
    | Enter                        // first poll of the submit: the command is in
    | Bounce(err: DriverError)     // first poll of the submit: refused outright
    | Answer(reply: Bytes)
    | Fail(err: DriverError)
    | Stall
    | Abandon
    | PumpDrop
    | CloseDrain

  datatype Step = ByOthers(o: Outside) | ByPack(p: Pack) | ByVerdict(v: Verdict)

  function Mint(next: nat, us: seq<Bytes>): (minted: seq<Unit>)
    ensures |minted| == |us| && UnitBodies(minted) == us
    ensures forall id: nat :: UnitTimes(minted, id) == if next <= id < next + |us| then 1 else 0
    decreases us
  {
    if us == [] then [] else [Unit(next, us[0])] + Mint(next + 1, us[1..])
  }

  function Last(s: State): nat { if s.log.bodies == [] then 0 else |s.log.bodies| - 1 }

  predicate CanOutside(c: Setup, s: State, o: Outside) {
    match o
    case Reserve(us) =>
      && s.queue.handles > 0
      && Admits(c.limits, Entry(Mint(s.next, us)))
      && s.charge.count + |us| <= c.maxCount && s.charge.bytes + UnitsLen(us) <= c.maxBytes
    case Send(k) => k < |s.sending|
    case FireWake => s.wakes > 0
    case Cancel(id) => id < s.next
    case CloneHandle => s.queue.handles > 0
    case DropHandle => s.queue.handles > 1 || (s.queue.handles == 1 && s.sending == [])
    case Commit(k) => k < |s.log.bodies| && s.log.bodies[k].entered
  }

  predicate CanPack(s: State, p: Pack) {
    match p
    case Poll => s.phase.Unstarted? || s.phase.Parked?
    case Look => s.phase.Top?
    case Pop => s.phase.Packing?
    case Ship => s.phase.Sealed?
  }

  predicate CanVerdict(c: Setup, s: State, v: Verdict) {
    match v
    case Enter => s.phase.Handed?
    case Bounce(err) => s.phase.Handed? && BeforeEntry(err)
    case Answer(_) => s.phase.InFlight? && s.log.bodies != [] && s.log.bodies[Last(s)].committed
    case Fail(err) => s.phase.InFlight? && AfterEntry(err)
    case Stall => s.phase.InFlight? && c.stall
    case Abandon => s.phase.InFlight? && forall u :: u in s.flight ==> u.id in s.canceled
    case PumpDrop => s.phase.Unstarted? || s.phase.Parked? || s.phase.InFlight?
    case CloseDrain => s.phase.Closing?
  }

  predicate Can(c: Setup, s: State, step: Step) {
    match step
    case ByOthers(o) => CanOutside(c, s, o)
    case ByPack(p) => CanPack(s, p)
    case ByVerdict(v) => CanVerdict(c, s, v)
  }

  /** Returns the entries' reservations. */
  function Release(g: Charge, es: seq<Entry>): Charge { Charge(g.count - Size(es), g.bytes - Weight(es)) }

  function DoSend(s: State, k: nat): State
    requires k < |s.sending|
  {
    var e, s1 := s.sending[k], s.(sending := s.sending[..k] + s.sending[k + 1..]);
    if s.queue.closed then
      s1.(charge := Release(s.charge, [e]),
          log := s.log.(early := s.log.early + ResolveAll(e.units, None, Refused(RefusedReason.PumpGone))))
    else
      s1.(queue := s.queue.Accept(e), wakes := s.wakes + (if s.queue.waker then 1 else 0),
          log := s.log.(accepted := s.log.accepted + [e]))
  }

  function DoDropHandle(s: State): State
    requires s.queue.handles > 0
  {
    s.(queue := s.queue.Drop(), wakes := s.wakes + if s.queue.handles == 1 && s.queue.waker then 1 else 0)
  }

  function DoLook(s: State): State {
    if s.deferred != [] then s.(phase := Packing([]))
    else if s.queue.entries != [] then
      s.(deferred := [s.queue.entries[0]], queue := s.queue.Tail(), phase := Packing([]))
    else if s.queue.closed || s.queue.handles == 0 then s.(phase := Closing(RefusedReason.PumpGone))
    else s.(queue := s.queue.Park(), phase := Parked, scheduled := false)
  }

  /** Take the next entry: the deferred one first, then the queue's. */
  function TakeNext(s: State): (s1: State)
    requires s.deferred != [] || s.queue.entries != []
  {
    if s.deferred != [] then s.(deferred := s.deferred[1..]) else s.(queue := s.queue.Tail())
  }

  function NextEntry(s: State): Entry
    requires s.deferred != [] || s.queue.entries != []
  {
    if s.deferred != [] then s.deferred[0] else s.queue.entries[0]
  }

  /** The fate of an entry just taken with `open` already packed. */
  function Place(c: Setup, s: State, open: seq<Entry>, e: Entry): State {
    if FullyCanceled(s.canceled, e) then
      s.(charge := Release(s.charge, [e]),
         log := s.log.(history := s.log.history + [Popped(e, Skipped)], skipped := s.log.skipped + [e]))
    else if Fits(c.limits, open, e) then
      s.(phase := Packing(open + [e]), log := s.log.(history := s.log.history + [Popped(e, Packed)]))
    else if open == [] then
      s.(charge := Release(s.charge, [e]),
         log := s.log.(history := s.log.history + [Popped(e, Misfit)],
           early := s.log.early + ResolveAll(e.units, None, Refused(if |e.units| > 1 then GroupTooLarge else UnitTooLarge))))
    else s.(phase := Sealed(open), deferred := [e] + s.deferred)
  }

  function DoPop(c: Setup, s: State): State
    requires s.phase.Packing?
  {
    if s.deferred == [] && s.queue.entries == [] then s.(phase := Sealed(s.phase.open))
    else Place(c, TakeNext(s), s.phase.open, NextEntry(s))
  }

  function DoShip(s: State): State
    requires s.phase.Sealed?
  {
    var open := s.phase.open;
    if open == [] then s.(phase := Top)
    else
      s.(flight := Flat(open), phase := Handed(open), log := s.log.(bodies := s.log.bodies + [Body(open, false, false)]))
  }

  /** The verdict on the flying body: its callers get `replies`. */
  function Settle(s: State, replies: seq<Record>, phase: Phase): State {
    s.(flight := [], phase := phase, log := s.log.(late := s.log.late + replies))
  }

  function DoCloseDrain(s: State): State
    requires s.phase.Closing?
  {
    var rest := s.deferred + s.queue.entries;
    s.(charge := Release(s.charge, rest), deferred := [], queue := s.queue.Close(), phase := Gone,
       log := s.log.(early := s.log.early + ResolveAll(Flat(rest), None, Refused(s.phase.reason)),
                     history := s.log.history + DrainAll(rest)))
  }

  function DrainAll(es: seq<Entry>): seq<Popped> {
    if es == [] then [] else [Popped(es[0], Drained)] + DrainAll(es[1..])
  }

  function DoOutside(c: Setup, s: State, o: Outside): State
    requires CanOutside(c, s, o)
  {
    match o
    case Reserve(us) =>
      s.(next := s.next + |us|, sending := s.sending + [Entry(Mint(s.next, us))],
         charge := Charge(s.charge.count + |us|, s.charge.bytes + UnitsLen(us)))
    case Send(k) => DoSend(s, k)
    case FireWake => s.(wakes := s.wakes - 1, scheduled := true)
    case Cancel(id) => s.(canceled := s.canceled + {id})
    case CloneHandle => s.(queue := s.queue.Clone())
    case DropHandle => DoDropHandle(s)
    case Commit(k) => s.(log := s.log.(bodies := Mark(s.log.bodies, k, s.log.bodies[k].(committed := true))))
  }

  function Mark(bodies: seq<Body>, k: nat, b: Body): seq<Body>
    requires k < |bodies|
  {
    bodies[k := b]
  }

  function DoPack(c: Setup, s: State, p: Pack): State
    requires CanPack(s, p)
  {
    match p
    case Poll => s.(phase := Top, scheduled := false)
    case Look => DoLook(s)
    case Pop => DoPop(c, s)
    case Ship => DoShip(s)
  }

  function DoEnter(s: State): State
    requires s.phase.Handed?
  {
    s.(phase := InFlight, charge := Release(s.charge, s.phase.open), log := s.log.(bodies :=
      if s.log.bodies == [] then []
      else Mark(s.log.bodies, Last(s), s.log.bodies[Last(s)].(entered := true))))
  }

  function DoVerdict(c: Setup, s: State, v: Verdict): State
    requires CanVerdict(c, s, v)
  {
    var last := Some(Last(s));
    match v
    case Enter => DoEnter(s)
    case Bounce(err) =>
      Settle(s, ResolveAll(s.flight, last, SubmitFailure(err)), Top).(charge := Release(s.charge, s.phase.open))
    case Answer(reply) => Settle(s, Demux(s.flight, last, reply), Top)
    case Fail(err) => Settle(s, ResolveAll(s.flight, last, SubmitFailure(err)), Top)
    case Stall =>
      Settle(s, ResolveAll(s.flight, last, OutcomeUnknown(UnknownReason.Stalled)), Closing(RefusedReason.Stalled))
    case Abandon =>
      s.(flight := [], phase := Closing(RefusedReason.PumpGone), log := s.log.(abandoned := s.log.abandoned + s.flight))
    case PumpDrop =>
      Settle(s, ResolveAll(s.flight, last, OutcomeUnknown(UnknownReason.PumpGone)), Closing(RefusedReason.PumpGone))
    case CloseDrain => DoCloseDrain(s)
  }

  function Do(c: Setup, s: State, step: Step): State
    requires Can(c, s, step)
  {
    match step
    case ByOthers(o) => DoOutside(c, s, o)
    case ByPack(p) => DoPack(c, s, p)
    case ByVerdict(v) => DoVerdict(c, s, v)
  }
}
