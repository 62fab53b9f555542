/** The content-addressed block store: verified reads, and the mark-and-sweep collector that
    walks each DAG with its own edge resolver. */
module BlockStore {
  import opened Wrappers

  type Block = seq<int>

  /** A block's content address. The 128-bit digest is idealised as collision-free: an address is
      the content it was derived from. */
  datatype Address = AddressOf(content: Block)

  /** What is stored where; bytes under a key need not hash to it (bit rot, a misdirected
      write). */
  type Blocks = map<Address, Block>

  predicate Verified(blocks: Blocks, a: Address) {
    a in blocks && AddressOf(blocks[a]) == a
  }

  /** The one read every consumer trusts: a corrupt block reads as absent. */
  function ReadVerified(blocks: Blocks, a: Address): Option<Block> {
    if Verified(blocks, a) then Some(blocks[a]) else None
  }

  /** One typed DAG walk: roots, and the resolver for that DAG's block format. */
  datatype Walk = Walk(roots: seq<Address>, references: Block -> seq<Address>)

  // ---- Reachability ------------------------------------------------------------------------

  /** `p` steps along verified blocks' references. */
  ghost predicate Path(blocks: Blocks, refs: Block -> seq<Address>, p: seq<Address>) {
    p != [] && forall i :: 0 <= i < |p| - 1 ==> Edge(blocks, refs, p[i], p[i + 1])
  }

  ghost predicate Edge(blocks: Blocks, refs: Block -> seq<Address>, a: Address, b: Address) {
    Verified(blocks, a) && b in refs(blocks[a])
  }

  ghost predicate Reaches(blocks: Blocks, w: Walk, a: Address) {
    exists p :: Path(blocks, w.references, p) && p[0] in w.roots && p[|p| - 1] == a
  }

  lemma ReachesRoot(blocks: Blocks, w: Walk, a: Address)
    requires a in w.roots
    ensures Reaches(blocks, w, a)
  {
    assert Path(blocks, w.references, [a]);
    assert [a][0] in w.roots;
  }

  lemma ReachesChild(blocks: Blocks, w: Walk, a: Address, b: Address)
    requires Reaches(blocks, w, a) && Edge(blocks, w.references, a, b)
    ensures Reaches(blocks, w, b)
  {
    var p :| Path(blocks, w.references, p) && p[0] in w.roots && p[|p| - 1] == a;
    var q := p + [b];
    forall i | 0 <= i < |q| - 1 ensures Edge(blocks, w.references, q[i], q[i + 1]) {
      if i < |p| - 1 { assert Edge(blocks, w.references, p[i], p[i + 1]); }
    }
    assert Path(blocks, w.references, q) && q[0] in w.roots && q[|q| - 1] == b;
  }

  /** A set that holds the roots and every reference of its verified blocks holds everything
      reachable. */
  lemma ClosedCovers(blocks: Blocks, w: Walk, closed: set<Address>, a: Address)
    requires forall r :: r in w.roots ==> r in closed
    requires forall x, y :: x in closed && Edge(blocks, w.references, x, y) ==> y in closed
    requires Reaches(blocks, w, a)
    ensures a in closed
  {
    var p :| Path(blocks, w.references, p) && p[0] in w.roots && p[|p| - 1] == a;
    PathStaysIn(blocks, w, closed, p, |p| - 1);
  }

  lemma {:induction false} PathStaysIn(blocks: Blocks, w: Walk, closed: set<Address>, p: seq<Address>, i: nat)
    requires forall x, y :: x in closed && Edge(blocks, w.references, x, y) ==> y in closed
    requires Path(blocks, w.references, p) && p[0] in closed && i < |p|
    ensures p[i] in closed
  {
    if i > 0 {
      PathStaysIn(blocks, w, closed, p, i - 1);
      assert Edge(blocks, w.references, p[i - 1], p[i]);
    }
  }

  /** What a collection keeps: the held blocks some walk reaches. */
  ghost function Swept(blocks: Blocks, walks: seq<Walk>): Blocks {
    map a | a in blocks && ReachedBy(blocks, walks, a) :: blocks[a]
  }

  ghost predicate ReachedBy(blocks: Blocks, walks: seq<Walk>, a: Address) {
    exists w :: w in walks && Reaches(blocks, w, a)
  }

  // ---- The collector -----------------------------------------------------------------------

  class InMemoryStore {
    var blocks: Blocks

    constructor ()
      ensures blocks == map[]
    {
      blocks := map[];
    }

    method Put(b: Block) returns (a: Address)
      modifies this
      ensures a == AddressOf(b) && blocks == old(blocks)[a := b]
    {
      a := AddressOf(b);
      blocks := blocks[a := b];
    }

    /** One walk's traversal: a private visited set, a stack, and only its own resolver. */
    method Traverse(w: Walk) returns (visited: set<Address>)
      ensures forall a :: a in visited <==> Reaches(blocks, w, a)
    {
      hide Reaches, Edge;
      visited := {};
      var stack := w.roots;
      FrontierStart(blocks, w);
      while stack != []
        invariant Frontier(blocks, w, visited, stack)
        decreases |blocks.Keys - visited|, |stack|
      {
        var a := stack[|stack| - 1];
        FrontierVisit(blocks, w, visited, stack);
        stack := stack[..|stack| - 1];
        if a !in visited {
          VisitShrinks(blocks.Keys, visited, a);
          visited := visited + {a};
          if a in blocks && AddressOf(blocks[a]) == a {
            stack := Unvisited(w.references(blocks[a]), visited, stack);
          }
        }
      }
      forall a | Reaches(blocks, w, a) ensures a in visited { ClosedCovers(blocks, w, visited, a); }
    }

    /** Mark with every walk, then sweep: exactly the held blocks some walk reaches stay, each
        with its bytes. */
    method Gc(walks: seq<Walk>)
      modifies this
      ensures blocks == Swept(old(blocks), walks)
    {
      var reachable: set<Address> := {};
      for i := 0 to |walks|
        invariant blocks == old(blocks)
        invariant forall a :: a in reachable <==> ReachedBy(blocks, walks[..i], a)
      {
        var marked := Traverse(walks[i]);
        assert walks[..i + 1] == walks[..i] + [walks[i]];
        forall a ensures ReachedBy(blocks, walks[..i + 1], a) <==> a in reachable || a in marked {
          if a in marked { assert walks[i] in walks[..i + 1]; }
          if a in reachable {
            var w :| w in walks[..i] && Reaches(blocks, w, a);
            assert w in walks[..i + 1];
          }
          if ReachedBy(blocks, walks[..i + 1], a) {
            var w :| w in walks[..i + 1] && Reaches(blocks, w, a);
            if w in walks[..i] { assert ReachedBy(blocks, walks[..i], a); } else { assert w == walks[i]; }
          }
        }
        reachable := reachable + marked;
      }
      assert walks[..|walks|] == walks;
      blocks := map a | a in blocks && a in reachable :: blocks[a];
    }
  }

  /** What a traversal keeps: all it has visited or stacked is reachable, and what it still owes
      is on the stack. */
  ghost predicate Frontier(blocks: Blocks, w: Walk, visited: set<Address>, stack: seq<Address>) {
    && (forall a :: a in visited || a in stack ==> Reaches(blocks, w, a))
    && (forall r :: r in w.roots ==> r in visited || r in stack)
    && (forall x, y :: x in visited && Edge(blocks, w.references, x, y) ==> y in visited || y in stack)
  }

  lemma FrontierStart(blocks: Blocks, w: Walk)
    ensures Frontier(blocks, w, {}, w.roots)
  {
    forall a | a in w.roots ensures Reaches(blocks, w, a) { ReachesRoot(blocks, w, a); }
  }

  /** One pop of the stack. */
  lemma FrontierVisit(blocks: Blocks, w: Walk, visited: set<Address>, stack: seq<Address>)
    requires stack != [] && Frontier(blocks, w, visited, stack)
    ensures
      var a, rest := stack[|stack| - 1], stack[..|stack| - 1];
      var seen := visited + {a};
      if a in visited then Frontier(blocks, w, visited, rest)
      else if Verified(blocks, a) then
        Frontier(blocks, w, seen, Unvisited(w.references(blocks[a]), seen, rest))
      else Frontier(blocks, w, seen, rest)
  {
    hide Reaches;
    var a, rest := stack[|stack| - 1], stack[..|stack| - 1];
    var seen := visited + {a};
    assert stack == rest + [a];
    if a !in visited {
      if Verified(blocks, a) {
        var children := w.references(blocks[a]);
        UnvisitedIs(children, seen, rest);
        forall y | y in children ensures Reaches(blocks, w, y) { ReachesChild(blocks, w, a, y); }
      }
    }
  }

  lemma VisitShrinks(keys: set<Address>, visited: set<Address>, a: Address)
    requires a !in visited
    ensures if a in keys then |keys - (visited + {a})| < |keys - visited| else |keys - (visited + {a})| == |keys - visited|
  {
    if a in keys {
      assert keys - visited == (keys - (visited + {a})) + {a};
    } else {
      assert keys - visited == keys - (visited + {a});
    }
  }

  /** The unvisited children, pushed in order. */
  function Unvisited(children: seq<Address>, visited: set<Address>, stack: seq<Address>): seq<Address> {
    if children == [] then stack
    else Unvisited(children[1..], visited, if children[0] in visited then stack else stack + [children[0]])
  }

  lemma {:induction false} UnvisitedIs(children: seq<Address>, visited: set<Address>, stack: seq<Address>)
    ensures forall x :: x in Unvisited(children, visited, stack) <==> x in stack || (x in children && x !in visited)
    decreases children
  {
    if children != [] {
      var stack1 := if children[0] in visited then stack else stack + [children[0]];
      UnvisitedIs(children[1..], visited, stack1);
      assert children == [children[0]] + children[1..];
    }
  }

  // ---- Restore -----------------------------------------------------------------------------

  /** What a restore does next, from the blocks it has read so far: it is any deterministic
      procedure that only reads. */
  datatype Move<S> = Read(addr: Address) | Return(state: S)

  datatype Outcome<S> = Restored(state: S) | Faulted(addr: Address) | Unfinished

  /** At most `n` more moves, each read verified, the first fault ending it. */
  function Restore<S>(proc: seq<Block> -> Move<S>, blocks: Blocks, read: seq<Block>, n: nat): Outcome<S>
    decreases n
  {
    if n == 0 then Unfinished
    else
      match proc(read)
      case Return(s) => Restored(s)
      case Read(a) =>
        match ReadVerified(blocks, a)
        case None => Faulted(a)
        case Some(b) => Restore(proc, blocks, read + [b], n - 1)
  }

  /** WHAT A RESTORE READS: every block fed to the procedure is the one whose address it asked for,
      held under that address; it returns what the procedure returns on them, and faults only at
      an address asked for whose block is absent or does not hash to it. */
  lemma {:induction false} RestoreReplays<S>(proc: seq<Block> -> Move<S>, blocks: Blocks, read: seq<Block>, n: nat)
    returns (fed: seq<Block>)
    ensures forall i :: 0 <= i < |fed| ==> proc(read + fed[..i]) == Read(AddressOf(fed[i])) && AddressOf(fed[i]) in blocks
    ensures
      match Restore(proc, blocks, read, n)
      case Restored(s) => proc(read + fed) == Return(s)
      case Faulted(a) => proc(read + fed) == Read(a) && !(a in blocks && blocks[a] == a.content)
      case Unfinished => |fed| == n
    decreases n
  {
    fed := [];
    assert read + [] == read;
    if n > 0 && proc(read).Read? && Verified(blocks, proc(read).addr) {
      var b := blocks[proc(read).addr];
      var more := RestoreReplays(proc, blocks, read + [b], n - 1);
      fed := [b] + more;
      assert read + fed == read + [b] + more;
      forall i | 0 <= i < |fed| ensures proc(read + fed[..i]) == Read(AddressOf(fed[i])) && AddressOf(fed[i]) in blocks {
        if i > 0 {
          assert read + fed[..i] == read + [b] + more[..i - 1] && fed[i] == more[i - 1];
        } else {
          assert read + fed[..0] == read;
        }
      }
    }
  }

  /** CORRUPTION-PROOF: if the restore succeeds over an intact store, then over any store
      whatever, however corrupted or incomplete, it either gives the same state or stops at an
      address whose block is absent or corrupt there. */
  lemma {:induction false} RestoreIsCorruptionProof<S>(
    proc: seq<Block> -> Move<S>, intact: Blocks, damaged: Blocks, read: seq<Block>, n: nat)
    requires Restore(proc, intact, read, n).Restored?
    decreases n
    ensures
      match Restore(proc, damaged, read, n)
      case Restored(s) => s == Restore(proc, intact, read, n).state
      case Faulted(a) => !Verified(damaged, a) && Verified(intact, a)
      case Unfinished => false
  {
    match proc(read)
    case Return(_) =>
    case Read(a) =>
      if Verified(damaged, a) {
        assert damaged[a] == intact[a];
        RestoreIsCorruptionProof(proc, intact, damaged, read + [intact[a]], n - 1);
      }
  }

  /** The whole job: the session table first, then the state machine into a detached seed. A
      fault in either yields an address and nothing else. */
  function RestoreJob<T, S>(sessions: seq<Block> -> Move<T>, sessionsRoot: Address, machine: seq<Block> -> Move<S>,
                            blocks: Blocks, n: nat): Option<Result<(T, S), Address>> {
    match Restore(sessions, blocks, [], n)
    case Unfinished => None
    case Faulted(_) => Some(Err(sessionsRoot))
    case Restored(t) =>
      match Restore(machine, blocks, [], n)
      case Unfinished => None
      case Faulted(a) => Some(Err(a))
      case Restored(s) => Some(Ok((t, s)))
  }

  /** Sessions and state over a damaged store are the intact ones, or the job reports an
      address. */
  lemma RestoreJobIsAllOrNothing<T, S>(sessions: seq<Block> -> Move<T>, sessionsRoot: Address,
                                       machine: seq<Block> -> Move<S>, intact: Blocks, damaged: Blocks, n: nat)
    requires
      var whole := RestoreJob(sessions, sessionsRoot, machine, intact, n);
      whole.Some? && whole.value.Ok?
    ensures
      var whole := RestoreJob(sessions, sessionsRoot, machine, intact, n);
      var out := RestoreJob(sessions, sessionsRoot, machine, damaged, n);
      && out.Some?
      && (out.value.Ok? ==> out == whole)
      && (Restore(sessions, damaged, [], n).Faulted? ==> out == Some(Err(sessionsRoot)))
      && (out.value.Err? && Restore(sessions, damaged, [], n).Restored? ==> !Verified(damaged, out.value.error))
  {
    RestoreIsCorruptionProof(sessions, intact, damaged, [], n);
    RestoreIsCorruptionProof(machine, intact, damaged, [], n);
  }
}
