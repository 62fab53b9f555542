/** One packing pass: the loop over the shared queue and the batch builder, the greedy rule it
    implements, and its agreement with the machine's single pops. */
module AggregatePump {
  import opened Wrappers
  import opened Batch
  import opened Aggregate
  import opened AggregateProofs

  /** What happens between two pops: entries arrive, and callers leave. */
  datatype Tide = Tide(arrived: seq<Entry>, canceled: set<nat>)

  /** The pump's surroundings during one pass: a tide before each pop, and after them `canceled`. */
  datatype Sea = Sea(tides: seq<Tide>, canceled: set<nat>)
  {
    function Arrived(): seq<Entry> { if tides == [] then [] else tides[0].arrived }
    function Gone(): set<nat> { if tides == [] then canceled else tides[0].canceled }
    function Next(): Sea { if tides == [] then this else Sea(tides[1..], canceled) }
  }

  /** First come first packed, skipping entries every caller has left when they are popped, until
      one does not fit or nothing waits. Returns the body's entries and what stays waiting. */
  function Greedy(l: Limits, sea: Sea, open: seq<Entry>, waiting: seq<Entry>): (seq<Entry>, seq<Entry>)
    decreases |sea.tides|, |waiting|
  {
    var all := waiting + sea.Arrived();
    if all == [] then (open, [])
    else if FullyCanceled(sea.Gone(), all[0]) then Greedy(l, sea.Next(), open, all[1..])
    else if Fits(l, open, all[0]) then Greedy(l, sea.Next(), open + [all[0]], all[1..])
    else (open, all)
  }

  /** Of entries popped one after the other, those somebody still waited for. */
  function Live(sea: Sea, es: seq<Entry>): seq<Entry>
    decreases es
  {
    if es == [] then []
    else (if forall u :: u in es[0].units ==> u.id in sea.Gone() then [] else [es[0]]) + Live(sea.Next(), es[1..])
  }

  /** What has arrived by the time of pop `n`. */
  function Inflow(sea: Sea, n: nat): seq<Entry>
    decreases n
  {
    if n == 0 then [] else sea.Arrived() + Inflow(sea.Next(), n - 1)
  }

  function GoneAt(sea: Sea, n: nat): set<nat>
    decreases n
  {
    if n == 0 then sea.Gone() else GoneAt(sea.Next(), n - 1)
  }

  ghost predicate AllArrivalsAdmitted(c: Setup, sea: Sea) {
    forall t :: t in sea.tides ==> AllAdmitted(c, t.arrived)
  }

  lemma FitsMeans(c: Setup, open: seq<Entry>, e: Entry)
    requires Sane(c)
    ensures Fits(c.limits, open, e)
       <==> |Flat(open + [e])| <= c.limits.maxUnits && EncodedLen(UnitBodies(Flat(open + [e]))) <= c.limits.submitLimit
  {
    FlatLoad(open + [e], 0);
    Push(open, e, 0);
  }

  /** The greedy body is the live part of a prefix of the queue as it grew, the prefix is as long
      as the budgets allow, and from admitted entries an empty body means nobody is left
      waiting. */
  lemma {:induction false} GreedyIsMaximal(c: Setup, sea: Sea, open: seq<Entry>, waiting: seq<Entry>) returns (k: nat)
    requires Sane(c) && AllAdmitted(c, waiting) && AllArrivalsAdmitted(c, sea)
    ensures
      var all, (packed, rest) := waiting + Inflow(sea, k + 1), Greedy(c.limits, sea, open, waiting);
      && k <= |all| && packed == open + Live(sea, all[..k]) && rest == all[k..]
      && (rest != [] ==>
            && (exists u :: u in rest[0].units && u.id !in GoneAt(sea, k))
            && (|| |Flat(packed + [rest[0]])| > c.limits.maxUnits
                || EncodedLen(UnitBodies(Flat(packed + [rest[0]]))) > c.limits.submitLimit))
      && (packed == [] ==> rest == [])
    decreases |sea.tides|, |waiting|
  {
    hide Admits, Fits, FullyCanceled, Greedy, Live, Inflow, Flat, UnitBodies, UnitsLen;
    var now := waiting + sea.Arrived();
    NowFlows(sea, waiting);
    if now == [] {
      k := 0;
      GreedyPop(c.limits, sea, open, waiting, None, []);
      NoneLive(sea, open, now);
    } else {
      var e, tail := now[0], now[1..];
      GreedyPop(c.limits, sea, open, waiting, Some(e), tail);
      assert now == [e] + tail;
      AdmittedNow(c, sea, waiting);
      if FullyCanceled(sea.Gone(), e) || Fits(c.limits, open, e) {
        var next := if FullyCanceled(sea.Gone(), e) then open else open + [e];
        var j := GreedyIsMaximal(c, sea.Next(), next, tail);
        k := j + 1;
        FlowsOn(sea, waiting, j + 1);
        LivesOn(sea, open, e, tail + Inflow(sea.Next(), j + 1), j);
      } else {
        k := 0;
        NoneLive(sea, open, now);
        EmptyFits(c, open, e);
        FitsMeans(c, open, e);
        SomebodyWaits(sea.Gone(), e);
      }
    }
  }

  lemma SomebodyWaits(gone: set<nat>, e: Entry)
    requires !FullyCanceled(gone, e)
    ensures exists u :: u in e.units && u.id !in gone
  {}

  lemma AdmittedNow(c: Setup, sea: Sea, waiting: seq<Entry>)
    requires AllAdmitted(c, waiting) && AllArrivalsAdmitted(c, sea)
    ensures AllAdmitted(c, waiting + sea.Arrived()) && AllArrivalsAdmitted(c, sea.Next())
  {
    hide Admits;
    if sea.tides != [] { assert sea.tides[0] in sea.tides; }
  }

  lemma NowFlows(sea: Sea, waiting: seq<Entry>)
    ensures waiting + Inflow(sea, 1) == waiting + sea.Arrived()
  {
    assert Inflow(sea.Next(), 0) == [];
  }

  /** One pop later, the queue as it grew is the popped entry and the queue from there. */
  lemma FlowsOn(sea: Sea, waiting: seq<Entry>, n: nat)
    requires waiting + sea.Arrived() != []
    ensures
      var now := waiting + sea.Arrived();
      waiting + Inflow(sea, n + 1) == [now[0]] + (now[1..] + Inflow(sea.Next(), n))
  {
    var now, later := waiting + sea.Arrived(), Inflow(sea.Next(), n);
    assert Inflow(sea, n + 1) == sea.Arrived() + later;
    assert waiting + (sea.Arrived() + later) == now + later;
    assert now == [now[0]] + now[1..];
  }

  lemma NoneLive(sea: Sea, open: seq<Entry>, all: seq<Entry>)
    ensures open + Live(sea, all[..0]) == open && all[0..] == all
  {}

  lemma LivesOn(sea: Sea, open: seq<Entry>, e: Entry, later: seq<Entry>, j: nat)
    requires j <= |later|
    ensures ([e] + later)[j + 1..] == later[j..]
    ensures open + Live(sea, ([e] + later)[..j + 1])
         == (if FullyCanceled(sea.Gone(), e) then open else open + [e]) + Live(sea.Next(), later[..j])
  {
    hide FullyCanceled, Live;
    var taken := later[..j];
    assert ([e] + later)[..j + 1] == [e] + taken && ([e] + later)[j + 1..] == later[j..];
    LiveHead(sea, e, taken);
    assert open + ([e] + Live(sea.Next(), taken)) == open + [e] + Live(sea.Next(), taken);
    assert open + ([] + Live(sea.Next(), taken)) == open + Live(sea.Next(), taken);
  }

  lemma LiveHead(sea: Sea, e: Entry, es: seq<Entry>)
    ensures Live(sea, [e] + es) == (if FullyCanceled(sea.Gone(), e) then [] else [e]) + Live(sea.Next(), es)
  {
    assert ([e] + es)[1..] == es;
  }

  lemma EmptyFits(c: Setup, open: seq<Entry>, e: Entry)
    requires Sane(c) && Admits(c.limits, e) && !Fits(c.limits, open, e)
    ensures open != []
  {}

  /** Push one entry's units: the whole entry was admitted, so every push succeeds. */
  method PushEntry(builder: BatchBuilder, e: Entry)
    requires builder.Valid()
    requires EncodedLen(builder.pushed) + UnitsLen(UnitBodies(e.units)) <= builder.budget
    modifies builder
    ensures builder.Valid() && builder.pushed == old(builder.pushed) + UnitBodies(e.units)
  {
    hide BatchBuilder.Valid, UnitsLen;
    ghost var before, all := builder.pushed, UnitBodies(e.units);
    for i := 0 to |e.units|
      invariant builder.Valid() && builder.pushed == before + all[..i]
    {
      PrefixFits(before, all, i + 1);
      assert before + all[..i] + [all[i]] == before + all[..i + 1];
      var ok := builder.Push(e.units[i].body);
      assert ok;
    }
    assert all[..|e.units|] == all;
  }

  lemma PrefixFits(before: seq<Bytes>, all: seq<Bytes>, i: nat)
    requires i <= |all|
    ensures UnitsLen(before + all[..i]) <= UnitsLen(before) + UnitsLen(all)
  {
    UnitsLenConcat(before, all[..i]);
    UnitsLenConcat(all[..i], all[i..]);
    assert all[..i] + all[i..] == all;
  }

  /** One entry was taken from the front of `deferred + entries`, or there was none. */
  ghost predicate Took(deferred: seq<Entry>, entries: seq<Entry>, popped: Option<Entry>, later: seq<Entry>, rest: seq<Entry>) {
    match popped
    case None => deferred == entries == later == rest == []
    case Some(e) =>
      if deferred != [] then e == deferred[0] && later == deferred[1..] && rest == entries
      else entries != [] && e == entries[0] && later == [] && rest == entries[1..]
  }

  method PopNext(deferred: seq<Entry>, queue: SharedQueue) returns (popped: Option<Entry>, later: seq<Entry>)
    modifies queue
    ensures Took(deferred, old(queue.entries), popped, later, queue.entries)
    ensures queue.Value() == old(queue.Value()).(entries := queue.entries)
  {
    if deferred != [] { return Some(deferred[0]), deferred[1..]; }
    popped := queue.Pop();
    later := [];
  }

  /** What the packing loop keeps between pops. */
  ghost predicate Loop(c: Setup, whole: (seq<Entry>, seq<Entry>), sea: Sea, guards: seq<Entry>, later: seq<Entry>,
                       entries: seq<Entry>, sealed: bool) {
    && |later| <= 1 && AllAdmitted(c, later) && AllAdmitted(c, entries) && AllArrivalsAdmitted(c, sea)
    && BodyFits(c, guards)
    && whole == if sealed then (guards, later + entries) else Greedy(c.limits, sea, guards, later + entries)
  }

  lemma LoopStart(c: Setup, sea: Sea, deferred: seq<Entry>, entries: seq<Entry>)
    requires Sane(c) && |deferred| <= 1 && AllAdmitted(c, deferred) && AllAdmitted(c, entries) && AllArrivalsAdmitted(c, sea)
    ensures Loop(c, Greedy(c.limits, sea, [], deferred + entries), sea, [], deferred, entries, false)
    ensures UnitBodies(Flat([])) == []
  {
    hide Admits, Greedy;
  }

  lemma LoopEnd(c: Setup, whole: (seq<Entry>, seq<Entry>), sea: Sea, guards: seq<Entry>, later: seq<Entry>, entries: seq<Entry>)
    requires Loop(c, whole, sea, guards, later, entries, true)
    ensures whole == (guards, later + entries) && |later| <= 1 && BodyFits(c, guards)
  {}

  lemma LoopStep(c: Setup, whole: (seq<Entry>, seq<Entry>), sea: Sea, guards: seq<Entry>, deferred: seq<Entry>,
                 entries: seq<Entry>, popped: Option<Entry>, later: seq<Entry>, rest: seq<Entry>)
    requires Sane(c) && Loop(c, whole, sea, guards, deferred, entries, false)
    requires Took(deferred, entries + sea.Arrived(), popped, later, rest)
    ensures popped.None? ==> Loop(c, whole, sea.Next(), guards, later, rest, true)
    ensures popped.Some? ==>
      var e := popped.value;
      && |later| + |rest| + 1 == |deferred| + |entries| + |sea.Arrived()|
      && Admits(c.limits, e) && BodyFits(c, guards)
      && if FullyCanceled(sea.Gone(), e) then Loop(c, whole, sea.Next(), guards, later, rest, false)
         else if Fits(c.limits, guards, e) then Loop(c, whole, sea.Next(), guards + [e], later, rest, false)
         else Loop(c, whole, sea.Next(), guards, [e] + later, rest, true)
  {
    hide BodyFits, Greedy, Fits, FullyCanceled, Admits;
    AdmittedNow(c, sea, entries);
    var now := later + rest;
    GreedyPop(c.limits, sea, guards, deferred + entries, popped, now);
    if popped.Some? {
      var e := popped.value;
      assert deferred + (entries + sea.Arrived()) == deferred + entries + sea.Arrived();
      assert deferred + (entries + sea.Arrived()) == [e] + now == [e] + later + rest;
      assert Admits(c.limits, e);
      if Fits(c.limits, guards, e) { PackedLoad(c, guards, e); }
    } else {
      assert deferred + entries + sea.Arrived() == [] == now;
    }
  }

  /** The pump's packing loop: pop, skip, pack, or defer and stop, with entries arriving in the
      shared queue and callers leaving before every pop. */
  method PackBody(c: Setup, sea: Sea, deferred: seq<Entry>, queue: SharedQueue)
    returns (body: Option<Bytes>, guards: seq<Entry>, later: seq<Entry>)
    requires Sane(c) && |deferred| <= 1
    requires AllAdmitted(c, deferred) && AllAdmitted(c, queue.entries) && AllArrivalsAdmitted(c, sea)
    modifies queue
    ensures Greedy(c.limits, sea, [], deferred + old(queue.entries)) == (guards, later + queue.entries)
    ensures |later| <= 1
    ensures guards == [] <==> body.None?
    ensures body.Some? ==> Encodable(UnitBodies(Flat(guards))) && body.value == Encode(UnitBodies(Flat(guards)))
    ensures queue.Value() == old(queue.Value()).(entries := queue.entries)
  {
    hide Loop, BatchBuilder.Valid, BodyFits, Greedy, Flat, UnitBodies, Fits, FullyCanceled, Admits, UnitsLen, Took;
    var builder := new BatchBuilder(c.limits.submitLimit);
    guards, later := [], deferred;
    var sealed, around := false, sea;
    ghost var whole := Greedy(c.limits, sea, [], deferred + queue.entries);
    LoopStart(c, sea, deferred, queue.entries);
    while !sealed
      invariant fresh(builder) && builder.Valid() && builder.budget == c.limits.submitLimit
      invariant builder.pushed == UnitBodies(Flat(guards))
      invariant queue.Value() == old(queue.Value()).(entries := queue.entries)
      invariant Loop(c, whole, around, guards, later, queue.entries, sealed)
      decreases !sealed, |around.tides|, |later| + |queue.entries|
    {
      ghost var entries, before := queue.entries, later;
      queue.entries := queue.entries + around.Arrived();
      var gone := around.Gone();
      var popped, left := PopNext(later, queue);
      LoopStep(c, whole, around, guards, before, entries, popped, left, queue.entries);
      later, around := left, around.Next();
      if popped.None? {
        sealed := true;
      } else if !FullyCanceled(gone, popped.value) {
        var e := popped.value;
        if Fits(c.limits, guards, e) {
          PackedLoad(c, guards, e);
          PushEntry(builder, e);
          guards := guards + [e];
        } else {
          EmptyFits(c, guards, e);
          later, sealed := [e] + later, true;
        }
      }
    }
    LoopEnd(c, whole, around, guards, later, queue.entries);
    if guards == [] { return None, guards, later; }
    SealedLoad(c, guards);
    var bytes := builder.Finish();
    body := Some(bytes.value);
  }

  /** One unfolding of the greedy rule at the popped entry. */
  lemma GreedyPop(l: Limits, sea: Sea, open: seq<Entry>, waiting: seq<Entry>, popped: Option<Entry>, rest: seq<Entry>)
    ensures waiting + sea.Arrived() == [] ==> Greedy(l, sea, open, waiting) == (open, [])
    ensures popped.Some? && waiting + sea.Arrived() == [popped.value] + rest ==>
      var e := popped.value;
      Greedy(l, sea, open, waiting)
      == if FullyCanceled(sea.Gone(), e) then Greedy(l, sea.Next(), open, rest)
         else if Fits(l, open, e) then Greedy(l, sea.Next(), open + [e], rest)
         else (open, [e] + rest)
  {
    hide Fits, FullyCanceled;
    if popped.Some? { assert ([popped.value] + rest)[1..] == rest; }
  }

  lemma SealedLoad(c: Setup, guards: seq<Entry>)
    requires Sane(c) && BodyFits(c, guards) && guards != []
    ensures Encodable(UnitBodies(Flat(guards))) && UnitBodies(Flat(guards)) != []
  {
    FlatLoad(guards, 0);
    FitsEncodable(UnitBodies(Flat(guards)));
  }

  lemma PackedLoad(c: Setup, open: seq<Entry>, e: Entry)
    requires Sane(c) && BodyFits(c, open) && Admits(c.limits, e) && Fits(c.limits, open, e)
    ensures UnitBodies(Flat(open + [e])) == UnitBodies(Flat(open)) + UnitBodies(e.units)
    ensures EncodedLen(UnitBodies(Flat(open))) + UnitsLen(UnitBodies(e.units)) <= c.limits.submitLimit
    ensures BodyFits(c, open + [e])
  {
    FlatLoad(open, 0);
    Push(open, e, 0);
    FlatPush(open, e);
    BodiesConcat(Flat(open), e.units);
  }

  lemma {:induction false} FlatPush(es: seq<Entry>, e: Entry)
    ensures Flat(es + [e]) == Flat(es) + e.units
  {
    if es == [] {
      assert es + [e] == [e] && [e][1..] == [];
    } else {
      assert (es + [e])[0] == es[0] && (es + [e])[1..] == es[1..] + [e];
      FlatPush(es[1..], e);
    }
  }

  lemma BodiesConcat(a: seq<Unit>, b: seq<Unit>)
    ensures UnitBodies(a + b) == UnitBodies(a) + UnitBodies(b)
  {}

  /** The machine's pops with the same surroundings, until the body is sealed. */
  ghost function PopAll(c: Setup, s: State, sea: Sea): State
    requires s.phase.Packing?
    decreases |sea.tides|, |s.deferred| + |s.queue.entries|
  {
    var t := DoPop(c, Surge(s, sea));
    PopTakes(c, Surge(s, sea));
    if t.phase.Sealed? then t else PopAll(c, t, sea.Next())
  }

  /** The state after one tide: sends landed, callers gone. */
  function Surge(s: State, sea: Sea): State {
    s.(queue := s.queue.(entries := s.queue.entries + sea.Arrived()), canceled := sea.Gone())
  }

  lemma PopTakes(c: Setup, s: State)
    requires s.phase.Packing?
    ensures
      var t := DoPop(c, s);
      t.phase.Sealed? || (t.phase.Packing? && |t.deferred| + |t.queue.entries| < |s.deferred| + |s.queue.entries|)
  {}

  /** With entries arriving and callers leaving before every pop, the single pops add up to the
      greedy pass. */
  lemma {:induction false} PopsAreGreedy(c: Setup, s: State, sea: Sea)
    requires Sane(c) && Packable(c, s) && s.phase.Packing? && AllArrivalsAdmitted(c, sea)
    ensures
      var (packed, rest) := Greedy(c.limits, sea, s.phase.open, s.deferred + s.queue.entries);
      PopAll(c, s, sea).phase == Sealed(packed) && PopAll(c, s, sea).deferred + PopAll(c, s, sea).queue.entries == rest
    decreases |sea.tides|, |s.deferred| + |s.queue.entries|
  {
    hide DoPop, Greedy, Packable;
    SurgePackable(c, s, sea);
    var now := Surge(s, sea);
    var t := DoPop(c, now);
    PopTakes(c, now);
    PackablePop(c, now);
    PopIsGreedyStep(c, s, sea);
    if !t.phase.Sealed? { PopsAreGreedy(c, t, sea.Next()); }
  }

  lemma SurgePackable(c: Setup, s: State, sea: Sea)
    requires Packable(c, s) && AllArrivalsAdmitted(c, sea)
    ensures Packable(c, Surge(s, sea)) && AllArrivalsAdmitted(c, sea.Next())
  {
    hide Admits, BodyFits;
    AdmittedNow(c, sea, s.queue.entries);
  }

  lemma PopIsGreedyStep(c: Setup, s: State, sea: Sea)
    requires Sane(c) && Packable(c, Surge(s, sea)) && s.phase.Packing?
    ensures
      var t := DoPop(c, Surge(s, sea));
      && (t.phase.Sealed? || t.phase.Packing?)
      && Greedy(c.limits, sea, s.phase.open, s.deferred + s.queue.entries)
         == if t.phase.Sealed? then (t.phase.open, t.deferred + t.queue.entries)
            else Greedy(c.limits, sea.Next(), t.phase.open, t.deferred + t.queue.entries)
  {
    hide DoPop, Greedy, Packable, Fits, FullyCanceled;
    var now, waiting := Surge(s, sea), s.deferred + s.queue.entries;
    var all := waiting + sea.Arrived();
    assert now.deferred + now.queue.entries == all;
    PopIs(c, now);
    if all == [] {
      GreedyPop(c.limits, sea, s.phase.open, waiting, None, []);
    } else {
      assert all == [all[0]] + all[1..];
      GreedyPop(c.limits, sea, s.phase.open, waiting, Some(all[0]), all[1..]);
    }
  }

  /** ONE POP: the first entry waiting is skipped exactly when every caller of it has left, else
      packed exactly when the body including it keeps both limits, and deferred with the body
      sealed exactly when it does not. */
  lemma PopExactly(c: Setup, s: State)
    requires Sane(c) && Packable(c, s) && s.phase.Packing?
    ensures
      var all, open, t := s.deferred + s.queue.entries, s.phase.open, DoPop(c, s);
      var rest := t.deferred + t.queue.entries;
      if all == [] then t.phase == Sealed(open) && rest == []
      else if forall u :: u in all[0].units ==> u.id in s.canceled then t.phase == Packing(open) && rest == all[1..]
      else if |Flat(open + [all[0]])| <= c.limits.maxUnits && EncodedLen(UnitBodies(Flat(open + [all[0]]))) <= c.limits.submitLimit
      then t.phase == Packing(open + [all[0]]) && rest == all[1..]
      else t.phase == Sealed(open) && rest == all
  {
    hide DoPop, Packable, Fits, Flat, UnitBodies, UnitsLen;
    PopIs(c, s);
    var all := s.deferred + s.queue.entries;
    if all != [] { FitsMeans(c, s.phase.open, all[0]); }
  }

  /** The same in the pump's own terms. */
  lemma PopIs(c: Setup, s: State)
    requires Sane(c) && Packable(c, s) && s.phase.Packing?
    ensures
      var all, open, t := s.deferred + s.queue.entries, s.phase.open, DoPop(c, s);
      var rest := t.deferred + t.queue.entries;
      if all == [] then t.phase == Sealed(open) && rest == []
      else if FullyCanceled(s.canceled, all[0]) then t.phase == Packing(open) && rest == all[1..]
      else if Fits(c.limits, open, all[0]) then t.phase == Packing(open + [all[0]]) && rest == all[1..]
      else t.phase == Sealed(open) && rest == all
  {
    hide Fits, FullyCanceled, ResolveAll, Size, Weight, Admits, BodyFits;
    var all := s.deferred + s.queue.entries;
    if all != [] {
      var e, t := NextEntry(s), TakeNext(s);
      assert e == all[0] && t.deferred + t.queue.entries == all[1..];
      assert all == [e] + t.deferred + t.queue.entries;
      if !Fits(c.limits, s.phase.open, e) { EmptyFits(c, s.phase.open, e); }
    }
  }
}
