/** The block-storage lane: jobs executed one at a time against one store, in an order the cursor
    checks, across endpoint rebuilds and crashes. */
module BlockLane {
  import opened Wrappers
  import opened BlockStore

  // ---- The cursor --------------------------------------------------------------------------

  /** The endpoint incarnation that issued a job, and its number within that incarnation. */
  datatype JobId = JobId(incarnation: nat, number: nat)
  {
    predicate After(other: JobId) {
      incarnation > other.incarnation || (incarnation == other.incarnation && number > other.number)
    }
  }

  predicate Admits(last: Option<JobId>, id: JobId) { last.None? || id.After(last.value) }

  /** The lane's execution-order witness. `false` is the fail-stop. */
  class BlockJobCursor {
    var last: Option<JobId>

    constructor ()
      ensures last == None
    {
      last := None;
    }

    method Admit(id: JobId) returns (ok: bool)
      modifies this
      ensures ok == Admits(old(last), id)
      ensures ok <==> old(last).None? || id.incarnation > old(last).value.incarnation
                      || (id.incarnation == old(last).value.incarnation && id.number > old(last).value.number)
      ensures last == if ok then Some(id) else old(last)
    {
      if last.Some? {
        var next := id;
        if next.incarnation < last.value.incarnation { return false; }
        if next.incarnation == last.value.incarnation && next.number <= last.value.number { return false; }
      }
      last, ok := Some(id), true;
    }
  }

  // ---- Jobs --------------------------------------------------------------------------------

  /** One DAG of a generation: its root and all its blocks. */
  datatype Image = Image(root: Address, blocks: set<Block>)

  /** The two block formats' edge resolvers. */
  datatype Formats = Formats(sm: Block -> seq<Address>, sessions: Block -> seq<Address>)

  datatype Job =
    | Materialize(sm: Image, sessions: Image)
    | Transfer(fetched: Option<Block>, sm: Image, sessions: Image)   // a walk of a fetched checkpoint
    | Flush(sm: Image, sessions: Image, of: nat)                     // the barrier owed to transfer walk `of`
    | Gc(smRoots: seq<Address>, sessionRoots: seq<Address>)
    | Other                                                          // a serve or a restore
  {
    /** It writes, or completes the writing of, a generation. */
    predicate Writes() { Materialize? || Transfer? }
  }

  datatype Issued = Issued(id: JobId, job: Job)

  ghost function StoreOf(bs: set<Block>): Blocks { map b | b in bs :: AddressOf(b) := b }

  /** The root's block is in the image, and every block of it is reachable from there through
      the image. */
  ghost predicate Whole(refs: Block -> seq<Address>, i: Image) {
    && i.root.content in i.blocks
    && forall b :: b in i.blocks ==> Reaches(StoreOf(i.blocks), BlockStore.Walk([i.root], refs), AddressOf(b))
  }

  function Walks(f: Formats, smRoots: seq<Address>, sessionRoots: seq<Address>): seq<BlockStore.Walk> {
    [BlockStore.Walk(smRoots, f.sm), BlockStore.Walk(sessionRoots, f.sessions)]
  }

  /** What executing a job leaves in the store. */
  ghost function Execute(f: Formats, blocks: Blocks, job: Job): Blocks {
    match job
    case Materialize(sm, sessions) => blocks + StoreOf(sm.blocks) + StoreOf(sessions.blocks)
    case Transfer(None, _, _) => blocks
    case Transfer(Some(b), _, _) => blocks[AddressOf(b) := b]
    case Flush(_, _, _) => blocks
    case Gc(smRoots, sessionRoots) => Swept(blocks, Walks(f, smRoots, sessionRoots))
    case Other => blocks
  }

  ghost predicate Sub(small: Blocks, big: Blocks) {
    forall a :: a in small ==> a in big && big[a] == small[a]
  }

  /** A generation is held in full. */
  ghost predicate Holds(blocks: Blocks, job: Job)
    requires job.Writes()
  {
    Sub(StoreOf(job.sm.blocks), blocks) && Sub(StoreOf(job.sessions.blocks), blocks)
  }

  // ---- The lane ----------------------------------------------------------------------------

  datatype Lane = Lane(
    issued: seq<Issued>,        // every job ever issued, in issue order
    floor: nat,                 // jobs below it died with a process
    cursor: Option<JobId>,
    order: seq<nat>,            // the jobs executed since the last crash, as issue positions
    stopped: bool,              // the cursor's fail-stop fired
    blocks: Blocks,
    durable: Blocks,            // what a crash leaves
    stored: set<nat>,           // generations written in full
    flushed: set<nat>)          // generations behind a clean barrier

  function Init(): Lane { Lane([], 0, None, [], false, map[], map[], {}, {}) }

  datatype Step =
    | Issue(id: JobId, job: Job)
    | Run(k: nat, flushes: bool)   // the lane takes job `k`, in whatever order
    | Crash

  /** The job executed last, or the one before the floor. */
  function Latest(s: Lane): int { if s.order == [] then s.floor - 1 else s.order[|s.order| - 1] }

  /** A collection names the roots of every generation issued before it and still wanted, a
      transfer's from its first walk on: the endpoint's obligation. `until(w)` is the first
      position from which generation `w` is no longer wanted. */
  ghost predicate Covers(s: Lane, until: nat -> nat, job: Job) {
    job.Gc? ==> forall w :: 0 <= w < |s.issued| && s.issued[w].job.Writes() && until(w) > |s.issued| ==>
      s.issued[w].job.sm.root in job.smRoots && s.issued[w].job.sessions.root in job.sessionRoots
  }

  /** A barrier is issued for a transfer whose walk found both DAGs complete, while it is wanted. */
  ghost predicate Owed(s: Lane, until: nat -> nat, job: Job) {
    job.Flush? ==>
      && job.of < |s.issued| && job.of in s.stored && until(job.of) > |s.issued|
      && s.issued[job.of].job.Transfer? && s.issued[job.of].job.sm == job.sm && s.issued[job.of].job.sessions == job.sessions
  }

  ghost predicate Can(f: Formats, until: nat -> nat, s: Lane, step: Step) {
    match step
    case Issue(id, job) =>
      && (forall k :: s.floor <= k < |s.issued| ==> id.After(s.issued[k].id))
      && (job.Writes() ==> Whole(f.sm, job.sm) && Whole(f.sessions, job.sessions))
      && Covers(s, until, job) && Owed(s, until, job)
    case Run(k, _) => !s.stopped && s.floor <= k < |s.issued|
    case Crash => true
  }

  ghost function DoRun(f: Formats, s: Lane, k: nat, flushes: bool): Lane
    requires k < |s.issued|
  {
    var j := s.issued[k];
    if !Admits(s.cursor, j.id) then s.(stopped := true)
    else
      var blocks := Execute(f, s.blocks, j.job);
      var stored := if j.job.Writes() && Holds(blocks, j.job) then s.stored + {k} else s.stored;
      var t := s.(cursor := Some(j.id), order := s.order + [k], blocks := blocks, stored := stored);
      if flushes && (j.job.Materialize? || j.job.Flush?) then t.(durable := blocks, flushed := stored)
      else t.(durable := map a | a in s.durable && a in blocks :: s.durable[a])
  }

  ghost function Do(f: Formats, s: Lane, step: Step): Lane
    requires step.Run? ==> step.k < |s.issued|
  {
    match step
    case Issue(id, job) => s.(issued := s.issued + [Issued(id, job)])
    case Run(k, flushes) => DoRun(f, s, k, flushes)
    case Crash =>
      s.(floor := |s.issued|, cursor := None, order := [], stopped := false, blocks := s.durable, stored := s.flushed)
  }

  // ---- Order -------------------------------------------------------------------------------

  /** Within one process life ids grow along issue order, what has executed is a strictly
      increasing subsequence of it, and the cursor is at its end. */
  ghost predicate Ordered(s: Lane) {
    && s.floor <= |s.issued|
    && (forall i, j :: s.floor <= i < j < |s.issued| ==> s.issued[j].id.After(s.issued[i].id))
    && (forall i :: 0 <= i < |s.order| ==> s.floor <= s.order[i] < |s.issued|)
    && (forall i, j :: 0 <= i < j < |s.order| ==> s.order[i] < s.order[j])
    && s.cursor == (if s.order == [] then None else Some(s.issued[s.order[|s.order| - 1]].id))
  }

  lemma KeepsOrdered(f: Formats, until: nat -> nat, s: Lane, step: Step)
    requires Ordered(s) && Can(f, until, s, step)
    ensures Ordered(Do(f, s, step))
    ensures step.Run? && Admits(s.cursor, s.issued[step.k].id) ==> step.k > Latest(s)
  {
    hide Execute, Whole, Covers, Owed, Holds;
    if step.Run? && s.order != [] {
      var last := s.order[|s.order| - 1];
      assert step.k < last ==> s.issued[last].id.After(s.issued[step.k].id);
    }
  }

  // ---- Retention ---------------------------------------------------------------------------

  lemma ReachesGrows(small: Blocks, big: Blocks, w: BlockStore.Walk, v: BlockStore.Walk, a: Address)
    requires Sub(small, big) && Reaches(small, w, a) && v.references == w.references
    requires forall r :: r in w.roots ==> r in v.roots
    ensures Reaches(big, v, a)
  {
    var p :| Path(small, w.references, p) && p[0] in w.roots && p[|p| - 1] == a;
    forall i | 0 <= i < |p| - 1 ensures Edge(big, v.references, p[i], p[i + 1]) {
      assert Edge(small, w.references, p[i], p[i + 1]);
    }
    assert Path(big, v.references, p);
  }

  /** A whole image under one of a collection's roots survives it. */
  lemma ImageSurvives(blocks: Blocks, walks: seq<BlockStore.Walk>, w: BlockStore.Walk, i: Image)
    requires w in walks && i.root in w.roots && Whole(w.references, i) && Sub(StoreOf(i.blocks), blocks)
    ensures Sub(StoreOf(i.blocks), Swept(blocks, walks))
  {
    forall a | a in StoreOf(i.blocks) ensures ReachedBy(blocks, walks, a) {
      ReachesGrows(StoreOf(i.blocks), blocks, BlockStore.Walk([i.root], w.references), w, a);
    }
  }

  /** Bytes under a key always hash to it: nothing here corrupts the store. */
  ghost predicate Faithful(blocks: Blocks) { forall a :: a in blocks ==> blocks[a] == a.content }

  lemma ExecuteFaithful(f: Formats, blocks: Blocks, job: Job)
    requires Faithful(blocks)
    ensures Faithful(Execute(f, blocks, job))
  {}

  lemma StoresFaithful(bs: set<Block>)
    ensures Faithful(StoreOf(bs))
  {}

  lemma AddKeeps(blocks: Blocks, more: Blocks, most: Blocks, small: Blocks)
    requires Faithful(small) && Faithful(more) && Faithful(most) && Sub(small, blocks)
    ensures Sub(small, blocks + more + most)
  {}

  lemma PutKeeps(blocks: Blocks, b: Block, small: Blocks)
    requires Faithful(small) && Sub(small, blocks)
    ensures Sub(small, blocks[AddressOf(b) := b])
  {}

  /** What executing a job keeps of a generation: everything, except that a collection must name
      its roots. */
  lemma ExecuteKeeps(f: Formats, blocks: Blocks, job: Job, gen: Job)
    requires Faithful(blocks) && gen.Writes() && Whole(f.sm, gen.sm) && Whole(f.sessions, gen.sessions)
    requires job.Gc? ==> gen.sm.root in job.smRoots && gen.sessions.root in job.sessionRoots
    requires Holds(blocks, gen)
    ensures Holds(Execute(f, blocks, job), gen)
  {
    hide Whole, Faithful, Sub, StoreOf;
    StoresFaithful(gen.sm.blocks);
    StoresFaithful(gen.sessions.blocks);
    if job.Materialize? {
      StoresFaithful(job.sm.blocks);
      StoresFaithful(job.sessions.blocks);
      AddKeeps(blocks, StoreOf(job.sm.blocks), StoreOf(job.sessions.blocks), StoreOf(gen.sm.blocks));
      AddKeeps(blocks, StoreOf(job.sm.blocks), StoreOf(job.sessions.blocks), StoreOf(gen.sessions.blocks));
    } else if job.Transfer? && job.fetched.Some? {
      PutKeeps(blocks, job.fetched.value, StoreOf(gen.sm.blocks));
      PutKeeps(blocks, job.fetched.value, StoreOf(gen.sessions.blocks));
    } else if job.Gc? {
      var walks := Walks(f, job.smRoots, job.sessionRoots);
      ImageSurvives(blocks, walks, walks[0], gen.sm);
      ImageSurvives(blocks, walks, walks[1], gen.sessions);
    }
  }

  lemma MaterializeHolds(f: Formats, blocks: Blocks, job: Job)
    requires Faithful(blocks) && job.Materialize?
    ensures Holds(Execute(f, blocks, job), job)
  {}

  /** A TRANSFER'S WALK: the fetched block ends in the store and nothing else changes; and the
      generation counts as written exactly when every block of both DAGs was there or is the one
      fetched. */
  lemma TransferStoresExactly(f: Formats, s: Lane, k: nat, flushes: bool)
    requires Faithful(s.blocks) && k < |s.issued| && s.issued[k].job.Transfer? && k !in s.stored
    requires Admits(s.cursor, s.issued[k].id)
    ensures
      var job, t := s.issued[k].job, DoRun(f, s, k, flushes);
      && (forall a :: a in t.blocks <==> a in s.blocks || (job.fetched.Some? && a == AddressOf(job.fetched.value)))
      && (forall a :: a in t.blocks ==> t.blocks[a] == a.content)
      && (k in t.stored <==>
            forall b :: b in job.sm.blocks || b in job.sessions.blocks ==> AddressOf(b) in s.blocks || job.fetched == Some(b))
  {
    var job, t := s.issued[k].job, DoRun(f, s, k, flushes);
    HeldExactly(t.blocks, job.sm.blocks);
    HeldExactly(t.blocks, job.sessions.blocks);
  }

  lemma HeldExactly(blocks: Blocks, bs: set<Block>)
    requires Faithful(blocks)
    ensures Sub(StoreOf(bs), blocks) <==> forall b :: b in bs ==> AddressOf(b) in blocks
  {
    forall b | b in bs ensures AddressOf(b) in StoreOf(bs) {}
  }

  // ---- Every schedule ----------------------------------------------------------------------

  /** A generation still wanted when the latest job ran. */
  ghost predicate Wanted(until: nat -> nat, s: Lane, w: nat) { until(w) > Latest(s) }

  /** Collections cover what was wanted when they were issued, generations are whole, and the
      wanted generations written are in the store, those flushed on the media too. */
  ghost predicate Safe(f: Formats, until: nat -> nat, s: Lane) {
    && Faithful(s.blocks) && Sub(s.durable, s.blocks) && s.flushed <= s.stored
    && (forall k :: 0 <= k < |s.issued| ==> Fit(f, until, s, k))
    && (forall w :: w in s.stored ==> w <= Latest(s) && w < |s.issued| && s.issued[w].job.Writes())
    && (forall w :: w in s.stored && Wanted(until, s, w) ==> Holds(s.blocks, s.issued[w].job))
    && (forall w :: w in s.flushed && Wanted(until, s, w) ==> Holds(s.durable, s.issued[w].job))
    && (forall k :: s.floor <= k < |s.issued| ==> Barrier(until, s, k))
  }

  /** A barrier still to run is for a transfer that is complete and wanted. */
  ghost predicate Barrier(until: nat -> nat, s: Lane, k: nat)
    requires k < |s.issued|
  {
    var job := s.issued[k].job;
    job.Flush? ==>
      && job.of < k && job.of in s.stored && until(job.of) > k
      && s.issued[job.of].job.Transfer? && s.issued[job.of].job.sm == job.sm && s.issued[job.of].job.sessions == job.sessions
  }

  ghost predicate Fit(f: Formats, until: nat -> nat, s: Lane, k: nat)
    requires k < |s.issued|
  {
    var job := s.issued[k].job;
    && (job.Writes() ==> Whole(f.sm, job.sm) && Whole(f.sessions, job.sessions))
    && (job.Gc? ==> forall w :: 0 <= w < k && s.issued[w].job.Writes() && until(w) > k ==>
          s.issued[w].job.sm.root in job.smRoots && s.issued[w].job.sessions.root in job.sessionRoots)
  }

  lemma IssueKeepsSafe(f: Formats, until: nat -> nat, s: Lane, id: JobId, job: Job)
    requires Safe(f, until, s) && Ordered(s) && Can(f, until, s, Issue(id, job))
    ensures Safe(f, until, Do(f, s, Issue(id, job)))
  {
    hide Whole, Holds, Sub, Faithful;
    var t := Do(f, s, Issue(id, job));
    forall k | 0 <= k < |t.issued| ensures Fit(f, until, t, k) {
      if k < |s.issued| { assert Fit(f, until, s, k); }
    }
    forall k | t.floor <= k < |t.issued| ensures Barrier(until, t, k) {
      if k < |s.issued| { assert Barrier(until, s, k); }
    }
  }

  lemma CrashKeepsSafe(f: Formats, until: nat -> nat, s: Lane)
    requires Safe(f, until, s) && Ordered(s)
    ensures Safe(f, until, Do(f, s, Crash))
  {
    hide Whole, Holds;
    var t := Do(f, s, Crash);
    assert Latest(t) == |s.issued| - 1 >= Latest(s);
    forall k | 0 <= k < |t.issued| ensures Fit(f, until, t, k) { assert Fit(f, until, s, k); }
  }

  /** Executing job `k` next, after everything before it. */
  lemma RunHolds(f: Formats, until: nat -> nat, s: Lane, k: nat, w: nat)
    requires Safe(f, until, s) && k < |s.issued| && k > Latest(s)
    requires w in s.stored && until(w) > k
    ensures Holds(Execute(f, s.blocks, s.issued[k].job), s.issued[w].job)
    ensures
      var blocks := Execute(f, s.blocks, s.issued[k].job);
      w in s.flushed ==> Holds(map a | a in s.durable && a in blocks :: s.durable[a], s.issued[w].job)
  {
    hide Whole, Execute;
    var job, gen := s.issued[k].job, s.issued[w].job;
    assert Wanted(until, s, w) && Holds(s.blocks, gen);
    assert Fit(f, until, s, k) && Fit(f, until, s, w);
    ExecuteKeeps(f, s.blocks, job, gen);
  }

  lemma RunKeepsSafe(f: Formats, until: nat -> nat, s: Lane, k: nat, flushes: bool)
    requires Safe(f, until, s) && k < |s.issued| && k > Latest(s) && Admits(s.cursor, s.issued[k].id)
    ensures Safe(f, until, DoRun(f, s, k, flushes))
  {
    hide Whole, Execute, Holds;
    var t, job := DoRun(f, s, k, flushes), s.issued[k].job;
    assert Latest(t) == k;
    ExecuteFaithful(f, s.blocks, job);
    DurableSub(f, s, k, flushes);
    forall i | 0 <= i < |t.issued| ensures Fit(f, until, t, i) { assert Fit(f, until, s, i); }
    forall i | t.floor <= i < |t.issued| ensures Barrier(until, t, i) { assert Barrier(until, s, i); }
    if job.Materialize? { MaterializeHolds(f, s.blocks, job); }
    forall w | w in t.stored && Wanted(until, t, w) ensures Holds(t.blocks, t.issued[w].job) {
      if w in s.stored { RunHolds(f, until, s, k, w); }
    }
    forall w | w in t.flushed && Wanted(until, t, w) ensures Holds(t.durable, t.issued[w].job) {
      if w in s.stored { RunHolds(f, until, s, k, w); }
    }
  }

  lemma DurableSub(f: Formats, s: Lane, k: nat, flushes: bool)
    requires k < |s.issued| && Faithful(s.blocks) && Sub(s.durable, s.blocks) && Admits(s.cursor, s.issued[k].id)
    ensures Sub(DoRun(f, s, k, flushes).durable, DoRun(f, s, k, flushes).blocks)
  {
    ExecuteFaithful(f, s.blocks, s.issued[k].job);
  }

  ghost predicate Inv(f: Formats, until: nat -> nat, s: Lane) { Ordered(s) && Safe(f, until, s) }

  lemma KeepsInv(f: Formats, until: nat -> nat, s: Lane, step: Step)
    requires Inv(f, until, s) && Can(f, until, s, step)
    ensures Inv(f, until, Do(f, s, step))
  {
    KeepsOrdered(f, until, s, step);
    match step
    case Issue(id, job) => IssueKeepsSafe(f, until, s, id, job);
    case Crash => CrashKeepsSafe(f, until, s);
    case Run(k, flushes) =>
      if Admits(s.cursor, s.issued[k].id) { RunKeepsSafe(f, until, s, k, flushes); } else { StopKeepsSafe(f, until, s); }
  }

  lemma StopKeepsSafe(f: Formats, until: nat -> nat, s: Lane)
    requires Safe(f, until, s)
    ensures Safe(f, until, s.(stopped := true))
  {
    hide Whole, Holds, Sub, Faithful;
    var t := s.(stopped := true);
    forall k | 0 <= k < |t.issued| ensures Fit(f, until, t, k) { assert Fit(f, until, s, k); }
    forall k | t.floor <= k < |t.issued| ensures Barrier(until, t, k) { assert Barrier(until, s, k); }
  }

  ghost predicate Runs(f: Formats, until: nat -> nat, s: Lane, steps: seq<Step>)
    decreases steps
  {
    steps == [] || (Can(f, until, s, steps[0]) && Runs(f, until, Do(f, s, steps[0]), steps[1..]))
  }

  ghost function Final(f: Formats, until: nat -> nat, s: Lane, steps: seq<Step>): Lane
    requires Runs(f, until, s, steps)
    decreases steps
  {
    if steps == [] then s else Final(f, until, Do(f, s, steps[0]), steps[1..])
  }

  lemma {:induction false} RunInv(f: Formats, until: nat -> nat, s: Lane, steps: seq<Step>)
    requires Inv(f, until, s) && Runs(f, until, s, steps)
    ensures Inv(f, until, Final(f, until, s, steps))
    decreases steps
  {
    hide Inv, Execute, DoRun, Covers, Whole;
    if steps != [] {
      KeepsInv(f, until, s, steps[0]);
      RunInv(f, until, Do(f, s, steps[0]), steps[1..]);
    }
  }

  /** NO WANTED BLOCK IS SWEPT: for every schedule, rebuild and crash, what executes is a strictly
      increasing subsequence of issue order; so if each collection names the generations wanted
      when it was issued, every generation written and still wanted is held whole, and every one
      behind a clean barrier is held whole by what a crash would leave. */
  lemma WantedIsNeverSwept(f: Formats, until: nat -> nat, steps: seq<Step>, w: nat)
    requires Runs(f, until, Init(), steps)
    ensures
      var s := Final(f, until, Init(), steps);
      && (forall i, j :: 0 <= i < j < |s.order| ==> s.order[i] < s.order[j])
      && (w in s.stored && until(w) > Latest(s) ==>
            w < |s.issued| && s.issued[w].job.Writes() && Holds(s.blocks, s.issued[w].job))
      && (w in s.flushed && until(w) > Latest(s) ==>
            w < |s.issued| && s.issued[w].job.Writes() && Holds(s.durable, s.issued[w].job))
  {
    assert Inv(f, until, Init());
    RunInv(f, until, Init(), steps);
    var s := Final(f, until, Init(), steps);
    assert until(w) > Latest(s) ==> Wanted(until, s, w);
  }

  /** THE BARRIER FINDS ITS ROOTS: whenever a transfer's barrier gets to run, both its DAGs are
      still held whole, roots included; and if the flush is clean they are held by what a crash
      leaves, and by the store after one. */
  lemma BarrierFindsItsRoots(f: Formats, until: nat -> nat, s: Lane, k: nat)
    requires Inv(f, until, s) && Can(f, until, s, Run(k, true)) && s.issued[k].job.Flush? && Admits(s.cursor, s.issued[k].id)
    ensures
      var job := s.issued[k].job;
      && job.of < |s.issued| && s.issued[job.of].job.Writes() && s.issued[job.of].job.sm == job.sm
      && s.issued[job.of].job.sessions == job.sessions
      && Holds(s.blocks, s.issued[job.of].job) && job.sm.root in s.blocks && job.sessions.root in s.blocks
    ensures
      var job, t := s.issued[k].job, DoRun(f, s, k, true);
      job.of in t.flushed && Holds(t.durable, s.issued[job.of].job) && Holds(Do(f, t, Crash).blocks, s.issued[job.of].job)
  {
    KeepsOrdered(f, until, s, Run(k, true));
    hide Execute, Ordered;
    var job := s.issued[k].job;
    assert Barrier(until, s, k) && Fit(f, until, s, job.of);
    assert Wanted(until, s, job.of);
    RootHeld(f.sm, job.sm, s.blocks);
    RootHeld(f.sessions, job.sessions, s.blocks);
    RunKeepsSafe(f, until, s, k, true);
    var t := DoRun(f, s, k, true);
    assert Latest(t) == k && job.of in t.flushed && Wanted(until, t, job.of);
  }

  lemma RootHeld(refs: Block -> seq<Address>, i: Image, blocks: Blocks)
    requires Whole(refs, i) && Sub(StoreOf(i.blocks), blocks)
    ensures i.root in blocks
  {
    assert AddressOf(i.root.content) in StoreOf(i.blocks);
  }

  /** WHY THE CURSOR: a collection issued before a generation names no root of it. Executed after
      it, it would sweep every block; the cursor stops the lane instead, with the blocks held. */
  lemma StaleCollectionIsStopped(f: Formats, b: Block)
    ensures
      var gen := Materialize(Image(AddressOf(b), {b}), Image(AddressOf(b), {b}));
      var s := Lane([Issued(JobId(0, 0), Gc([], [])), Issued(JobId(0, 1), gen)], 0, None, [], false, map[], map[], {}, {});
      var t := DoRun(f, s, 1, true);
      && t.blocks == map[AddressOf(b) := b]
      && Execute(f, t.blocks, Gc([], [])) == map[]
      && DoRun(f, t, 0, true) == t.(stopped := true)
  {
    var blocks: Blocks := map[AddressOf(b) := b];
    assert map[] + StoreOf({b}) + StoreOf({b}) == blocks;
    forall a ensures !ReachedBy(blocks, Walks(f, [], []), a) {
      forall w | w in Walks(f, [], []) ensures !Reaches(blocks, w, a) { assert w.roots == []; }
    }
  }
}
