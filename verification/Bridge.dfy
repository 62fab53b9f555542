/** One connection's outbound byte budget: a counter the driver raises before it enqueues a chunk
    and the writer lowers as the socket takes bytes. */
module Bridge {
  /** What one socket write does: it takes some bytes, or none, or fails. */
  datatype WriteResult = Wrote(n: nat) | Failed

  /** The socket never takes more than it is offered. */
  predicate Fits(results: seq<WriteResult>, total: nat) {
    results != [] && results[0].Wrote? ==> results[0].n <= total && Fits(results[1..], total - results[0].n)
  }

  // ---- The writer's chunk loop ---------------------------------------------------------------

  /** Write one chunk against the socket's answers, lowering the counter by each partial write
      and, at a dead end, by what is left of the chunk. Whatever the socket does, a chunk that is
      over has lowered the counter by exactly its length; one that is not, by what was written. */
  method WriteChunk(total: nat, results: seq<WriteResult>, counter: nat)
    returns (after: nat, written: nat, over: bool, dead: bool)
    requires total <= counter && Fits(results, total)
    ensures over ==> after == counter - total
    ensures !over ==> after == counter - written
    ensures written <= total && (over && !dead ==> written == total) && (dead ==> over && written < total)
  {
    written, after, dead := 0, counter, false;
    var i := 0;
    assert results[0..] == results;
    while written < total && i < |results|
      invariant 0 <= i <= |results| && written <= total && after == counter - written
      invariant Fits(results[i..], total - written)
      decreases |results| - i
    {
      assert results[i..][0] == results[i] && results[i..][1..] == results[i + 1..];
      match results[i] {
        case Failed =>
          after := after - (total - written);
          return after, written, true, true;
        case Wrote(n) =>
          if n == 0 {
            after := after - (total - written);
            return after, written, true, true;
          }
          written, after := written + n, after - n;
      }
      i := i + 1;
    }
    over := written == total;
  }

  // ---- Driver and writer interleaved ----------------------------------------------------------

  /** The driver between its operations on one chunk. */
  datatype Driver =
    | Idle
    | Read(len: nat, queued: int)   // the counter was read
    | Added(len: nat)               // the counter was raised, the chunk not yet sent
    | Undo(len: nat)                // the send failed, the raise not yet undone

  /** The writer between its operations on one chunk. */
  datatype Writer =
    | Waiting
    | Writing(left: nat)            // bytes of the chunk the socket has not taken
    | Taken(left: nat, n: nat)      // the socket took `n` more, the counter not yet lowered
    | Dying(left: nat)              // a dead end, the rest of the chunk not yet given back
    | Exiting                       // reporting the dead end, its receiver still open
    | Gone

  datatype State = State(driver: Driver, writer: Writer, queue: seq<nat>, counter: int, closing: bool)

  function Init(): State { State(Idle, Waiting, [], 0, false) }

  datatype Step =
    | Poll(len: nat)            // the driver has a chunk and reads the counter
    | Check                     // refuse it over the cap, else raise the counter
    | Send                      // hand the chunk to the writer, if it is still there
    | Return                    // undo the raise
    | Take                      // the writer takes the next chunk
    | Write(n: nat)             // the socket takes bytes
    | Lower
    | Fail                      // the socket takes nothing, or fails
    | GiveBack
    | Exit

  predicate Can(s: State, step: Step) {
    match step
    case Poll(_) => s.driver.Idle?
    case Check => s.driver.Read?
    case Send => s.driver.Added?
    case Return => s.driver.Undo?
    case Take => s.writer.Waiting? && s.queue != []
    case Write(n) => s.writer.Writing? && 0 < n <= s.writer.left
    case Lower => s.writer.Taken?
    case Fail => s.writer.Writing? && s.writer.left > 0
    case GiveBack => s.writer.Dying?
    case Exit => s.writer.Exiting?
  }

  function Do(cap: nat, s: State, step: Step): State
    requires Can(s, step)
  {
    match step
    case Poll(len) => s.(driver := Read(len, s.counter))
    case Check =>
      if s.driver.queued > cap then s.(driver := Idle, closing := true)
      else s.(driver := Added(s.driver.len), counter := s.counter + s.driver.len)
    case Send =>
      if s.writer.Gone? then s.(driver := Undo(s.driver.len))
      else s.(driver := Idle, queue := s.queue + [s.driver.len])
    case Return => s.(driver := Idle, counter := s.counter - s.driver.len, closing := true)
    case Take => s.(writer := if s.queue[0] == 0 then Waiting else Writing(s.queue[0]), queue := s.queue[1..])
    case Write(n) => s.(writer := Taken(s.writer.left - n, n))
    case Lower => s.(counter := s.counter - s.writer.n, writer := if s.writer.left == 0 then Waiting else Writing(s.writer.left))
    case Fail => s.(writer := Dying(s.writer.left))
    case GiveBack => s.(counter := s.counter - s.writer.left, writer := Exiting)
    case Exit => s.(writer := Gone)
  }

  function Sum(xs: seq<nat>): nat { if xs == [] then 0 else xs[0] + Sum(xs[1..]) }

  lemma {:induction false} SumPush(xs: seq<nat>, x: nat)
    ensures Sum(xs + [x]) == Sum(xs) + x
  {
    if xs == [] {
      assert xs + [x] == [x] && [x][1..] == [];
    } else {
      assert (xs + [x])[0] == xs[0] && (xs + [x])[1..] == xs[1..] + [x];
      SumPush(xs[1..], x);
    }
  }

  /** Bytes enqueued the socket has not taken. */
  function Unwritten(s: State): nat {
    Sum(s.queue) + match s.writer
                   case Writing(left) => left
                   case Taken(left, _) => left
                   case Dying(left) => left
                   case _ => 0
  }

  /** What is in the counter without being in the queue, each for one operation only: a chunk
      raised but not sent, and bytes taken but not yet lowered. */
  function Between(s: State): nat {
    (match s.driver case Added(len) => len case Undo(len) => len case _ => 0)
    + (match s.writer case Taken(_, n) => n case _ => 0)
  }

  /** The counter is the unwritten bytes plus what is between two operations, and was within the
      cap when the latest chunk was let in. */
  ghost predicate Inv(cap: nat, chunk: nat, s: State) {
    && s.counter == Unwritten(s) + Between(s)
    && s.counter <= cap + chunk
    && (s.driver.Read? ==> s.counter <= s.driver.queued && s.driver.len <= chunk)
    && ((s.driver.Added? || s.driver.Undo?) ==> s.driver.len <= chunk)
  }

  lemma KeepsInv(cap: nat, chunk: nat, s: State, step: Step)
    requires Inv(cap, chunk, s) && Can(s, step) && (step.Poll? ==> step.len <= chunk)
    ensures Inv(cap, chunk, Do(cap, s, step))
  {
    if step.Send? { SumPush(s.queue, s.driver.len); }
  }

  ghost predicate Runs(cap: nat, chunk: nat, s: State, steps: seq<Step>)
    decreases steps
  {
    steps == [] || (
      Can(s, steps[0]) && (steps[0].Poll? ==> steps[0].len <= chunk) && Runs(cap, chunk, Do(cap, s, steps[0]), steps[1..]))
  }

  ghost function Final(cap: nat, chunk: nat, s: State, steps: seq<Step>): State
    requires Runs(cap, chunk, s, steps)
    decreases steps
  {
    if steps == [] then s else Final(cap, chunk, Do(cap, s, steps[0]), steps[1..])
  }

  lemma {:induction false} RunInv(cap: nat, chunk: nat, s: State, steps: seq<Step>)
    requires Inv(cap, chunk, s) && Runs(cap, chunk, s, steps)
    ensures Inv(cap, chunk, Final(cap, chunk, s, steps))
    decreases steps
  {
    if steps != [] {
      KeepsInv(cap, chunk, s, steps[0]);
      RunInv(cap, chunk, Do(cap, s, steps[0]), steps[1..]);
    }
  }

  /** THE BYTE BUDGET, in every interleaving of the driver's and the writer's single operations:
      the counter is exactly the bytes not yet written whenever neither side is between two of
      its operations, never goes negative, and never passes the backlog cap by more than one
      chunk. */
  lemma BudgetIsExact(cap: nat, chunk: nat, steps: seq<Step>)
    requires Runs(cap, chunk, Init(), steps)
    ensures
      var s := Final(cap, chunk, Init(), steps);
      && 0 <= s.counter <= cap + chunk
      && s.counter == Unwritten(s) + Between(s)
      && ((s.driver.Idle? || s.driver.Read?) && !s.writer.Taken? ==> s.counter == Unwritten(s))
  {
    RunInv(cap, chunk, Init(), steps);
  }

  /** ALWAYS ADMIT ONE: a chunk is refused exactly when the counter was already over the cap when
      read; its own length is never the reason, and a refusal leaves the counter as it was. */
  lemma RefusedExactly(cap: nat, s: State)
    requires Can(s, Check)
    ensures
      var t := Do(cap, s, Check);
      && (s.driver.queued <= cap ==> t.driver == Added(s.driver.len) && t.counter == s.counter + s.driver.len && t.closing == s.closing)
      && (s.driver.queued > cap ==> t.driver.Idle? && t.counter == s.counter && t.closing)
  {}

  /** Steps of the writer alone. */
  predicate ByWriter(step: Step) {
    step.Take? || step.Write? || step.Lower? || step.Fail? || step.GiveBack? || step.Exit?
  }

  ghost predicate WriterRuns(cap: nat, s: State, steps: seq<Step>)
    decreases steps
  {
    steps == [] || (ByWriter(steps[0]) && Can(s, steps[0]) && WriterRuns(cap, Do(cap, s, steps[0]), steps[1..]))
  }

  ghost function WriterFinal(cap: nat, s: State, steps: seq<Step>): (t: State)
    requires WriterRuns(cap, s, steps)
    ensures t.driver == s.driver
    decreases steps
  {
    if steps == [] then s else WriterFinal(cap, Do(cap, s, steps[0]), steps[1..])
  }

  /** So a chunk polled while the backlog is at or under the cap is handed to the writer, whatever
      its length and whatever the writer does meanwhile, unless the writer is gone. */
  lemma SmallBacklogIsServed(cap: nat, s: State, len: nat, between: seq<Step>, after: seq<Step>)
    requires s.driver.Idle? && s.counter <= cap
    requires WriterRuns(cap, Do(cap, s, Poll(len)), between)
    requires WriterRuns(cap, Do(cap, WriterFinal(cap, Do(cap, s, Poll(len)), between), Check), after)
    ensures
      var checked := Do(cap, WriterFinal(cap, Do(cap, s, Poll(len)), between), Check);
      var last := WriterFinal(cap, checked, after);
      && last.driver == Added(len)
      && (!last.writer.Gone? ==> Do(cap, last, Send).queue == last.queue + [len])
  {}
}
