/** The shared in-flight budget: two independent atomic counters, reserved by add, check, roll
    back, and released by the guard that owns the reservation. */
module Budget {

  /** One thread alone: what an uncontended reservation does. */
  class InflightBudget {
    var count: nat
    var bytes: nat
    const maxCount: nat
    const maxBytes: nat

    constructor (maxCount: nat, maxBytes: nat)
      ensures count == bytes == 0 && this.maxCount == maxCount && this.maxBytes == maxBytes
    {
      count, bytes := 0, 0;
      this.maxCount, this.maxBytes := maxCount, maxBytes;
    }

    /** Uncontended, a reservation succeeds exactly when both caps have room, and a failure
        leaves no trace. */
    method TryAcquireMany(n: nat, len: nat) returns (ok: bool)
      modifies this
      ensures ok == (old(count) + n <= maxCount && old(bytes) + len <= maxBytes)
      ensures if ok then count == old(count) + n && bytes == old(bytes) + len
              else count == old(count) && bytes == old(bytes)
    {
      count := count + n;
      var newCount := count;
      bytes := bytes + len;
      var newBytes := bytes;
      if newCount > maxCount || newBytes > maxBytes {
        count := count - n;
        bytes := bytes - len;
        return false;
      }
      ok := true;
    }

    method Release(n: nat, len: nat)
      requires n <= count && len <= bytes
      modifies this
      ensures count == old(count) - n && bytes == old(bytes) - len
    {
      count := count - n;
      bytes := bytes - len;
    }
  }

  // ---- Threads interleaved at single atomic operations -------------------------------------

  /** Where one reservation stands between its atomic operations. */
  datatype Pc =
    | Start
    | CountAdded(seenCount: int)                  // count added; the total it saw
    | BothAdded(seenCount: int, seenBytes: int)   // bytes added too; about to check
    | Held(seenCount: int, seenBytes: int)        // the guard is live
    | Returning                                   // count subtracted, bytes not yet
    | Done

  datatype Try = Try(n: nat, len: nat, pc: Pc)

  datatype Caps = Caps(count: nat, bytes: nat)

  datatype State = State(count: int, bytes: int, tries: seq<Try>)

  datatype Step =
    | Begin(n: nat, len: nat)
    | Next(k: nat)      // the thread's next atomic operation, up to holding the guard
    | Drop(k: nat)      // a live guard starts to drop

  predicate Admitted(caps: Caps, pc: Pc)
    requires pc.BothAdded?
  {
    pc.seenCount <= caps.count && pc.seenBytes <= caps.bytes
  }

  predicate Can(s: State, step: Step) {
    match step
    case Begin(_, _) => true
    case Next(k) => k < |s.tries| && !s.tries[k].pc.Held? && !s.tries[k].pc.Done?
    case Drop(k) => k < |s.tries| && s.tries[k].pc.Held?
  }

  function Do(caps: Caps, s: State, step: Step): State
    requires Can(s, step)
  {
    match step
    case Begin(n, len) => s.(tries := s.tries + [Try(n, len, Start)])
    case Drop(k) => State(s.count - s.tries[k].n, s.bytes, s.tries[k := s.tries[k].(pc := Returning)])
    case Next(k) =>
      var t := s.tries[k];
      match t.pc
      case Start => State(s.count + t.n, s.bytes, s.tries[k := t.(pc := CountAdded(s.count + t.n))])
      case CountAdded(c) => State(s.count, s.bytes + t.len, s.tries[k := t.(pc := BothAdded(c, s.bytes + t.len))])
      case BothAdded(c, b) =>
        if Admitted(caps, t.pc) then s.(tries := s.tries[k := t.(pc := Held(c, b))])
        else State(s.count - t.n, s.bytes, s.tries[k := t.(pc := Returning)])
      case Returning => State(s.count, s.bytes - t.len, s.tries[k := t.(pc := Done)])
      case _ => s
  }

  // What one try adds to each total.
  function Counted(t: Try): int { if t.pc.CountAdded? || t.pc.BothAdded? || t.pc.Held? then t.n else 0 }
  function Weighed(t: Try): int { if t.pc.BothAdded? || t.pc.Held? || t.pc.Returning? then t.len else 0 }
  function HeldCount(t: Try): int { if t.pc.Held? then t.n else 0 }
  function HeldBytes(t: Try): int { if t.pc.Held? then t.len else 0 }

  /** Those that saw a count within the cap when they added theirs. */
  function GoodCount(cap: nat, t: Try): int {
    if (t.pc.CountAdded? || t.pc.BothAdded? || t.pc.Held?) && t.pc.seenCount <= cap then t.n else 0
  }
  function GoodBytes(cap: nat, t: Try): int {
    if (t.pc.BothAdded? || t.pc.Held?) && t.pc.seenBytes <= cap then t.len else 0
  }

  ghost function Sum(ts: seq<Try>, f: Try -> int): int {
    if ts == [] then 0 else Sum(ts[..|ts| - 1], f) + f(ts[|ts| - 1])
  }

  lemma SumPush(ts: seq<Try>, t: Try, f: Try -> int)
    ensures Sum(ts + [t], f) == Sum(ts, f) + f(t)
  {
    assert (ts + [t])[..|ts|] == ts;
  }

  lemma {:induction false} SumSet(ts: seq<Try>, k: nat, t: Try, f: Try -> int)
    requires k < |ts|
    ensures Sum(ts[k := t], f) == Sum(ts, f) - f(ts[k]) + f(t)
  {
    var n := |ts| - 1;
    if k < n {
      SumSet(ts[..n], k, t, f);
      assert ts[k := t][..n] == ts[..n][k := t];
    } else {
      assert ts[k := t][..n] == ts[..n];
    }
  }

  lemma {:induction false} SumAtMost(ts: seq<Try>, f: Try -> int, g: Try -> int)
    requires forall t :: f(t) <= g(t)
    ensures Sum(ts, f) <= Sum(ts, g)
  {
    if ts != [] { SumAtMost(ts[..|ts| - 1], f, g); }
  }

  /** Each counter is exactly what is in it, and what was added within a cap stays within it. */
  ghost predicate Inv(caps: Caps, s: State) {
    && s.count == Sum(s.tries, Counted) && s.bytes == Sum(s.tries, Weighed)
    && Sum(s.tries, t => GoodCount(caps.count, t)) <= caps.count
    && Sum(s.tries, t => GoodBytes(caps.bytes, t)) <= caps.bytes
    && (forall k :: 0 <= k < |s.tries| && s.tries[k].pc.Held? ==>
          s.tries[k].pc.seenCount <= caps.count && s.tries[k].pc.seenBytes <= caps.bytes)
  }

  lemma KeepsInv(caps: Caps, s: State, step: Step)
    requires Inv(caps, s) && Can(s, step)
    ensures Inv(caps, Do(caps, s, step))
  {
    var gc, gb := (t: Try) => GoodCount(caps.count, t), (t: Try) => GoodBytes(caps.bytes, t);
    match step
    case Begin(n, len) =>
      var t := Try(n, len, Start);
      SumPush(s.tries, t, Counted);
      SumPush(s.tries, t, Weighed);
      SumPush(s.tries, t, gc);
      SumPush(s.tries, t, gb);
    case Next(k) => Moves(caps, s, k, Do(caps, s, step));
    case Drop(k) => Moves(caps, s, k, Do(caps, s, step));
  }

  /** One try moves from one place to the next, and the counters by what that changes. */
  lemma Moves(caps: Caps, s: State, k: nat, s1: State)
    requires Inv(caps, s) && k < |s.tries|
    requires (Can(s, Next(k)) && s1 == Do(caps, s, Next(k))) || (Can(s, Drop(k)) && s1 == Do(caps, s, Drop(k)))
    ensures Inv(caps, s1)
  {
    var gc, gb := (t: Try) => GoodCount(caps.count, t), (t: Try) => GoodBytes(caps.bytes, t);
    var t := s1.tries[k];
    assert s1.tries == s.tries[k := t];
    SumSet(s.tries, k, t, Counted);
    SumSet(s.tries, k, t, Weighed);
    SumSet(s.tries, k, t, gc);
    SumSet(s.tries, k, t, gb);
    SumAtMost(s1.tries, gc, Counted);
    SumAtMost(s1.tries, gb, Weighed);
  }

  ghost predicate Runs(caps: Caps, s: State, steps: seq<Step>)
    decreases steps
  {
    steps == [] || (Can(s, steps[0]) && Runs(caps, Do(caps, s, steps[0]), steps[1..]))
  }

  ghost function Final(caps: Caps, s: State, steps: seq<Step>): State
    requires Runs(caps, s, steps)
    decreases steps
  {
    if steps == [] then s else Final(caps, Do(caps, s, steps[0]), steps[1..])
  }

  lemma {:induction false} RunInv(caps: Caps, s: State, steps: seq<Step>)
    requires Inv(caps, s) && Runs(caps, s, steps)
    ensures Inv(caps, Final(caps, s, steps))
    decreases steps
  {
    if steps != [] {
      KeepsInv(caps, s, steps[0]);
      RunInv(caps, Do(caps, s, steps[0]), steps[1..]);
    }
  }

  /** THE BUDGET, under every interleaving of single atomic operations: what live guards hold
      never exceeds either cap, neither counter is ever negative, and every subtraction to come
      is covered by the counter it is taken from. */
  lemma NeverOverCommitted(caps: Caps, steps: seq<Step>)
    requires Runs(caps, State(0, 0, []), steps)
    ensures
      var s := Final(caps, State(0, 0, []), steps);
      && Sum(s.tries, HeldCount) <= caps.count && Sum(s.tries, HeldBytes) <= caps.bytes
      && Sum(s.tries, HeldCount) <= s.count && Sum(s.tries, HeldBytes) <= s.bytes
      && (forall k :: 0 <= k < |s.tries| && (s.tries[k].pc.Held? || s.tries[k].pc.BothAdded?) ==> s.tries[k].n <= s.count)
      && (forall k :: 0 <= k < |s.tries| && s.tries[k].pc.Returning? ==> s.tries[k].len <= s.bytes)
  {
    RunInv(caps, State(0, 0, []), steps);
    var s := Final(caps, State(0, 0, []), steps);
    HeldIsGood(caps, s.tries);
    SumAtMost(s.tries, HeldCount, Counted);
    SumAtMost(s.tries, HeldBytes, Weighed);
    forall k | 0 <= k < |s.tries| ensures Counted(s.tries[k]) <= s.count && Weighed(s.tries[k]) <= s.bytes {
      SumCovers(s.tries, k, Counted);
      SumCovers(s.tries, k, Weighed);
    }
  }

  lemma {:induction false} HeldIsGood(caps: Caps, ts: seq<Try>)
    requires forall k :: 0 <= k < |ts| && ts[k].pc.Held? ==>
      ts[k].pc.seenCount <= caps.count && ts[k].pc.seenBytes <= caps.bytes
    ensures Sum(ts, HeldCount) <= Sum(ts, t => GoodCount(caps.count, t))
    ensures Sum(ts, HeldBytes) <= Sum(ts, t => GoodBytes(caps.bytes, t))
  {
    if ts != [] {
      var n := |ts| - 1;
      forall k | 0 <= k < n && ts[..n][k].pc.Held? ensures ts[k].pc.seenCount <= caps.count && ts[k].pc.seenBytes <= caps.bytes {}
      HeldIsGood(caps, ts[..n]);
      var last := ts[n];
      assert last.pc.Held? ==> last.pc.seenCount <= caps.count;
    }
  }

  lemma {:induction false} SumCovers(ts: seq<Try>, k: nat, f: Try -> int)
    requires k < |ts| && forall t :: f(t) >= 0
    ensures f(ts[k]) <= Sum(ts, f)
  {
    var n := |ts| - 1;
    if k < n {
      SumCovers(ts[..n], k, f);
    } else {
      SumAtLeastZero(ts[..n], f);
    }
  }

  lemma {:induction false} SumAtLeastZero(ts: seq<Try>, f: Try -> int)
    requires forall t :: f(t) >= 0
    ensures 0 <= Sum(ts, f)
  {
    if ts != [] { SumAtLeastZero(ts[..|ts| - 1], f); }
  }

  /** How far a reservation has come. */
  function Rank(pc: Pc): nat {
    match pc
    case Start => 0
    case CountAdded(_) => 1
    case BothAdded(_, _) => 2
    case Held(_, _) => 3
    case Returning => 4
    case Done => 5
  }

  /** A reservation only moves forward, and while it does not move nothing about it changes. */
  lemma {:induction false} OnlyForward(caps: Caps, s: State, steps: seq<Step>, k: nat)
    requires Runs(caps, s, steps) && k < |s.tries|
    ensures
      var t := Final(caps, s, steps);
      && k < |t.tries| && t.tries[k].n == s.tries[k].n && t.tries[k].len == s.tries[k].len
      && Rank(t.tries[k].pc) >= Rank(s.tries[k].pc)
      && (Rank(t.tries[k].pc) == Rank(s.tries[k].pc) ==> t.tries[k] == s.tries[k])
    decreases steps
  {
    if steps != [] { OnlyForward(caps, Do(caps, s, steps[0]), steps[1..], k); }
  }

  /** A reservation's count operation, whatever follows, its byte operation, whatever follows. */
  ghost predicate Interleaved(caps: Caps, s: State, k: nat, between: seq<Step>, after: seq<Step>) {
    && Inv(caps, s) && k < |s.tries| && s.tries[k].pc.Start?
    && var s1 := Do(caps, s, Next(k));
    && Runs(caps, s1, between)
    && var s2 := Final(caps, s1, between);
    && k < |s2.tries| && s2.tries[k].pc.CountAdded?
    && var s3 := Do(caps, s2, Next(k));
    && Runs(caps, s3, after)
    && var s4 := Final(caps, s3, after);
    && k < |s4.tries| && s4.tries[k].pc.BothAdded?
  }

  /** WHEN A RESERVATION SUCCEEDS, whatever runs between its operations: it is admitted exactly
      when the count cap had room at its count operation and the byte cap at its byte operation,
      beside every share then in that counter, those being rolled back or released included. */
  lemma AdmittedExactly(caps: Caps, s: State, k: nat, between: seq<Step>, after: seq<Step>)
    requires Interleaved(caps, s, k, between, after)
    ensures
      var t, s1 := s.tries[k], Do(caps, s, Next(k));
      var s2 := Final(caps, s1, between);
      var s4 := Final(caps, Do(caps, s2, Next(k)), after);
      Do(caps, s4, Next(k)).tries[k].pc.Held?
      <==> Sum(s.tries, Counted) + t.n <= caps.count && Sum(s2.tries, Weighed) + t.len <= caps.bytes
  {
    var s1 := Do(caps, s, Next(k));
    KeepsInv(caps, s, Next(k));
    OnlyForward(caps, s1, between, k);
    var s2 := Final(caps, s1, between);
    RunInv(caps, s1, between);
    var s3 := Do(caps, s2, Next(k));
    OnlyForward(caps, s3, after, k);
  }

  /** Room for both at the start is not enough: another's bytes may come in between. */
  lemma RoomAtTheStartIsNotEnough()
    ensures
      var caps := Caps(2, 100);
      var s := State(0, 0, [Try(1, 60, Start), Try(1, 60, Start)]);
      && Sum(s.tries, Counted) + 1 <= caps.count && Sum(s.tries, Weighed) + 60 <= caps.bytes
      && Interleaved(caps, s, 0, [Next(1), Next(1), Next(1)], [])
      && var s2 := Final(caps, Do(caps, s, Next(0)), [Next(1), Next(1), Next(1)]);
         Do(caps, Do(caps, s2, Next(0)), Next(0)).tries[0].pc.Returning?
  {
    var caps := Caps(2, 100);
    var a, b := Try(1, 60, Start), Try(1, 60, Start);
    var s := State(0, 0, [a, b]);
    EmptySums(caps, a, b);
    var s1 := Do(caps, s, Next(0));
    assert s1 == State(1, 0, [a.(pc := CountAdded(1)), b]);
    var t1 := Do(caps, s1, Next(1));
    var t2 := Do(caps, t1, Next(1));
    var t3 := Do(caps, t2, Next(1));
    assert t3 == State(2, 60, [a.(pc := CountAdded(1)), b.(pc := Held(2, 60))]);
    Unroll(caps, t2, [Next(1)]);
    Unroll(caps, t1, [Next(1), Next(1)]);
    Unroll(caps, s1, [Next(1), Next(1), Next(1)]);
  }

  lemma EmptySums(caps: Caps, a: Try, b: Try)
    requires a.pc.Start? && b.pc.Start?
    ensures Inv(caps, State(0, 0, [a, b])) && Sum([a, b], Counted) == 0 && Sum([a, b], Weighed) == 0
  {
    SumTwo(a, b, Counted);
    SumTwo(a, b, Weighed);
    SumTwo(a, b, t => GoodCount(caps.count, t));
    SumTwo(a, b, t => GoodBytes(caps.bytes, t));
  }

  lemma SumTwo(a: Try, b: Try, f: Try -> int)
    ensures Sum([a, b], f) == f(a) + f(b)
  {
    assert [a] == [] + [a] && [a, b] == [a] + [b];
    SumPush([], a, f);
    SumPush([a], b, f);
  }

  /** So a cap need not be full: a reservation that can never fit, caught between its add and
      its rollback, makes one that would fit fail, with no guard live at any moment; and the raw
      counter is meanwhile over its cap. */
  lemma TransientRefusal()
    ensures
      var caps := Caps(1, 100);
      var steps := [Begin(2, 0), Begin(1, 0), Next(0), Next(1), Next(1), Next(1)];
      && Runs(caps, State(0, 0, []), steps)
      && Final(caps, State(0, 0, []), steps).tries[1].pc.Returning?
      && Runs(caps, State(0, 0, []), steps[..4]) && Final(caps, State(0, 0, []), steps[..4]).count > caps.count
  {
    var caps := Caps(1, 100);
    var s0 := State(0, 0, []);
    var a, b := Try(2, 0, Start), Try(1, 0, Start);
    var s1 := Do(caps, s0, Begin(2, 0));
    var s2 := Do(caps, s1, Begin(1, 0));
    assert s2 == State(0, 0, [a, b]);
    var s3 := Do(caps, s2, Next(0));
    var s4 := Do(caps, s3, Next(1));
    assert s4 == State(3, 0, [a.(pc := CountAdded(2)), b.(pc := CountAdded(3))]);
    var s5 := Do(caps, s4, Next(1));
    var s6 := Do(caps, s5, Next(1));
    var steps := [Begin(2, 0), Begin(1, 0), Next(0), Next(1), Next(1), Next(1)];
    assert steps[1..] == [Begin(1, 0), Next(0), Next(1), Next(1), Next(1)];
    Unroll(caps, s5, [Next(1)]);
    Unroll(caps, s4, [Next(1), Next(1)]);
    Unroll(caps, s3, [Next(1), Next(1), Next(1)]);
    Unroll(caps, s2, [Next(0), Next(1), Next(1), Next(1)]);
    Unroll(caps, s1, [Begin(1, 0), Next(0), Next(1), Next(1), Next(1)]);
    Unroll(caps, s0, steps);
    Unroll(caps, s3, [Next(1)]);
    Unroll(caps, s2, [Next(0), Next(1)]);
    Unroll(caps, s1, [Begin(1, 0), Next(0), Next(1)]);
    assert steps[..4] == [Begin(2, 0), Begin(1, 0), Next(0), Next(1)];
    Unroll(caps, s0, [Begin(2, 0), Begin(1, 0), Next(0), Next(1)]);
  }

  lemma Unroll(caps: Caps, s: State, steps: seq<Step>)
    requires steps != [] && Can(s, steps[0]) && Runs(caps, Do(caps, s, steps[0]), steps[1..])
    ensures Runs(caps, s, steps) && Final(caps, s, steps) == Final(caps, Do(caps, s, steps[0]), steps[1..])
  {}
}
