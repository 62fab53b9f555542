/** The stream driver's connection table: dials that are always replaced while their peer is
    wanted, accepts admitted under a cap by evicting unvalidated accepts, and a dial table
    rebuilt when the membership changes. */
module StreamConns {
  import opened Wrappers

  type ConnId = nat
  type Slot = nat
  type Addr = nat

  /** Who to dial again when this connection is lost, and after how long. */
  datatype Redial = Redial(peer: Slot, addr: Addr, backoff: nat)

  /** A dialed connection carries its redial; an accepted one carries none. */
  datatype Conn = Conn(redial: Option<Redial>, deadline: Option<nat>, validated: bool)

  datatype Table = Table(conns: map<ConnId, Conn>, peers: map<Slot, Addr>, next: ConnId)

  datatype Setup = Setup(maxConns: nat, authWindow: nat, base: nat, cap: nat)

  function Min(a: nat, b: nat): nat { if a < b then a else b }

  function Dial(t: Table, peer: Slot, addr: Addr, backoff: nat): Table {
    t.(conns := t.conns[t.next := Conn(Some(Redial(peer, addr, backoff)), None, false)], next := t.next + 1)
  }

  /** The peer is still wanted at that address. */
  predicate Wants(t: Table, r: Redial) { r.peer in t.peers && t.peers[r.peer] == r.addr }

  /** Tear down a connection; a dialed one is dialed again while its peer is still wanted there. */
  function Close(c: Setup, t: Table, id: ConnId): Table {
    if id !in t.conns then t
    else
      var gone := t.(conns := t.conns - {id});
      match t.conns[id].redial
      case Some(r) => if Wants(t, r) then Dial(gone, r.peer, r.addr, Min(2 * r.backoff, c.cap)) else gone
      case None => gone
  }

  /** What an accept flood may displace. */
  predicate Evictable(conn: Conn) { conn.deadline.Some? && conn.redial.None? && !conn.validated }

  /** An evictable connection no other is older than. */
  ghost predicate Oldest(t: Table, id: ConnId) {
    && id in t.conns && Evictable(t.conns[id])
    && forall o :: o in t.conns && Evictable(t.conns[o]) ==> t.conns[id].deadline.value <= t.conns[o].deadline.value
  }

  ghost predicate AnyEvictable(t: Table) { exists id :: id in t.conns && Evictable(t.conns[id]) }

  function Insert(c: Setup, t: Table, now: nat): Table {
    t.(conns := t.conns[t.next := Conn(None, Some(now + c.authWindow), false)], next := t.next + 1)
  }

  /** Admit a fresh socket, having evicted `pick` at the cap. */
  function Accept(c: Setup, t: Table, now: nat, pick: Option<ConnId>): Table {
    var t1 := if |t.conns| >= c.maxConns && pick.Some? then Close(c, t, pick.value) else t;
    if |t1.conns| < c.maxConns then Insert(c, t1, now) else t1
  }

  /** Validation clears the deadline and resets the backoff. */
  function Cleared(c: Setup, conn: Conn): Conn {
    Conn(match conn.redial case Some(r) => Some(r.(backoff := c.base)) case None => None, None, conn.validated)
  }

  /** Dial every listed slot whose assignment is new or changed. */
  function DialChanged(c: Setup, t: Table, slots: seq<Slot>, peers: map<Slot, Addr>): Table
    requires forall s :: s in slots ==> s in peers
    decreases slots
  {
    if slots == [] then t
    else
      var s := slots[0];
      DialChanged(c, if Changed(t, s, peers) then Dial(t, s, peers[s], c.base) else t, slots[1..], peers)
  }

  predicate Changed(t: Table, s: Slot, peers: map<Slot, Addr>)
    requires s in peers
  {
    s !in t.peers || t.peers[s] != peers[s]
  }

  function Rekey(c: Setup, t: Table, slots: seq<Slot>, peers: map<Slot, Addr>): Table
    requires forall s :: s in slots ==> s in peers
  {
    DialChanged(c, t, slots, peers).(peers := peers)
  }

  // ---- The driver's own table ---------------------------------------------------------------

  class ConnTable {
    const setup: Setup
    var conns: map<ConnId, Conn>
    var peers: map<Slot, Addr>
    var next: ConnId

    ghost function Value(): Table
      reads this
    {
      Table(conns, peers, next)
    }

    constructor (setup: Setup, peers: map<Slot, Addr>)
      ensures this.setup == setup && Value() == Table(map[], peers, 0)
    {
      this.setup, this.conns, this.peers, this.next := setup, map[], peers, 0;
    }

    method DialPeer(peer: Slot, addr: Addr, backoff: nat)
      modifies this
      ensures Value() == Dial(old(Value()), peer, addr, backoff)
    {
      conns := conns[next := Conn(Some(Redial(peer, addr, backoff)), None, false)];
      next := next + 1;
    }

    method CloseConn(id: ConnId)
      modifies this
      ensures Value() == Close(setup, old(Value()), id)
    {
      if id !in conns { return; }
      var removed := conns[id];
      conns := conns - {id};
      if removed.redial.Some? {
        var r := removed.redial.value;
        if r.peer in peers && peers[r.peer] == r.addr {
          DialPeer(r.peer, r.addr, Min(2 * r.backoff, setup.cap));
        }
      }
    }

    /** The oldest evictable connection, by a scan. */
    method PickEviction() returns (pick: Option<ConnId>)
      requires forall id :: id in conns ==> id < next
      ensures pick.Some? ==> Oldest(Value(), pick.value)
      ensures pick.None? ==> !AnyEvictable(Value())
    {
      pick := None;
      for i := 0 to next
        invariant pick.Some? ==> pick.value in conns && Evictable(conns[pick.value])
        invariant forall o :: o in conns && Evictable(conns[o]) && o < i ==>
          pick.Some? && conns[pick.value].deadline.value <= conns[o].deadline.value
      {
        if i in conns && Evictable(conns[i]) {
          if pick.None? || conns[i].deadline.value < conns[pick.value].deadline.value { pick := Some(i); }
        }
      }
    }

    /** Admission of one accepted socket. */
    method AcceptSocket(now: nat) returns (admitted: bool, ghost pick: Option<ConnId>)
      requires forall id :: id in conns ==> id < next
      modifies this
      ensures pick.Some? ==> Oldest(old(Value()), pick.value)
      ensures pick.None? && old(|conns|) >= setup.maxConns ==> !AnyEvictable(old(Value()))
      ensures Value() == Accept(setup, old(Value()), now, pick)
      ensures admitted == (next > old(next) && next - 1 in conns && conns[next - 1].redial.None?)
    {
      pick := None;
      if |conns| >= setup.maxConns {
        var evict := PickEviction();
        pick := evict;
        if evict.Some? { CloseConn(evict.value); }
      }
      if |conns| < setup.maxConns {
        conns := conns[next := Conn(None, Some(now + setup.authWindow), false)];
        next := next + 1;
        admitted := true;
      } else {
        admitted := false;
      }
    }

    /** Rebuild the dial table for a new membership, dialing what is new or changed. */
    method RekeyPeers(slots: seq<Slot>, book: map<Slot, Addr>)
      requires forall s :: s in slots ==> s in book
      modifies this
      ensures Value() == Rekey(setup, old(Value()), slots, book)
    {
      for i := 0 to |slots|
        invariant peers == old(peers)
        invariant DialChanged(setup, Value(), slots[i..], book) == DialChanged(setup, old(Value()), slots, book)
      {
        var s := slots[i];
        assert slots[i..][0] == s && slots[i..][1..] == slots[i + 1..];
        if s !in peers || peers[s] != book[s] { DialPeer(s, book[s], setup.base); }
      }
      peers := book;
    }
  }

  // ---- Every peer stays dialed --------------------------------------------------------------

  ghost predicate Known(t: Table) { forall id :: id in t.conns ==> id < t.next }

  /** Connection `id` is dialed to `s` at the address now wanted. */
  predicate Serves(t: Table, id: ConnId, s: Slot) {
    && id in t.conns && t.conns[id].redial.Some? && t.conns[id].redial.value.peer == s
    && s in t.peers && t.conns[id].redial.value.addr == t.peers[s]
  }

  ghost predicate Covered(t: Table) { forall s :: s in t.peers ==> exists id :: Serves(t, id, s) }

  ghost predicate Single(t: Table) { forall s, i, j :: Serves(t, i, s) && Serves(t, j, s) ==> i == j }

  ghost predicate NoStale(t: Table) {
    forall id :: id in t.conns && t.conns[id].redial.Some? ==> Serves(t, id, t.conns[id].redial.value.peer)
  }

  /** An accepted connection keeps its deadline until it validates. */
  ghost predicate Guarded(t: Table) {
    forall id :: id in t.conns && t.conns[id].redial.None? ==> t.conns[id].deadline.Some? || t.conns[id].validated
  }

  datatype Step =
    | Lose(id: ConnId)                       // eof, error, overflow, a missed deadline, a refused frame
    | Arrive(now: nat, pick: Option<ConnId>)
    | Connected(id: ConnId, now: nat)        // a dial succeeded: the handshake window opens
    | Validate(id: ConnId)                   // the coordinator's verdict
    | Clear(id: ConnId)                      // the driver notices it
    | Reassign(slots: seq<Slot>, peers: map<Slot, Addr>)

  ghost predicate Distinct(slots: seq<Slot>) { forall i, j :: 0 <= i < j < |slots| ==> slots[i] != slots[j] }

  ghost predicate Can(c: Setup, t: Table, step: Step) {
    match step
    case Lose(_) => true
    case Arrive(_, pick) => if pick.Some? then Oldest(t, pick.value) else !AnyEvictable(t) || |t.conns| < c.maxConns
    case Connected(id, _) => id in t.conns && t.conns[id].redial.Some?
    case Validate(id) => id in t.conns
    case Clear(id) => id in t.conns && t.conns[id].deadline.Some? && t.conns[id].validated
    case Reassign(slots, peers) => Distinct(slots) && forall s :: s in slots <==> s in peers
  }

  ghost function Do(c: Setup, t: Table, step: Step): Table
    requires Can(c, t, step)
  {
    match step
    case Lose(id) => Close(c, t, id)
    case Arrive(now, pick) => Accept(c, t, now, pick)
    case Connected(id, now) => t.(conns := t.conns[id := t.conns[id].(deadline := Some(now + c.authWindow))])
    case Validate(id) => t.(conns := t.conns[id := t.conns[id].(validated := true)])
    case Clear(id) => t.(conns := t.conns[id := Cleared(c, t.conns[id])])
    case Reassign(slots, peers) => Rekey(c, t, slots, peers)
  }

  lemma CloseServes(c: Setup, t: Table, id: ConnId, o: ConnId, s: Slot)
    requires Known(t)
    ensures Serves(Close(c, t, id), o, s) <==>
      (o != id && Serves(t, o, s)) || (o == t.next && Serves(t, id, s))
  {}

  /** Losing any connection leaves every peer dialed, still once if it was once. */
  lemma CloseKeeps(c: Setup, t: Table, id: ConnId)
    requires Known(t) && Covered(t)
    ensures
      var u := Close(c, t, id);
      && Known(u) && Covered(u) && u.peers == t.peers && |u.conns| <= |t.conns|
      && (Single(t) ==> Single(u)) && (NoStale(t) ==> NoStale(u)) && (Guarded(t) ==> Guarded(u))
  {
    var u := Close(c, t, id);
    forall s | s in u.peers ensures exists o :: Serves(u, o, s) {
      var o :| Serves(t, o, s);
      CloseServes(c, t, id, o, s);
      CloseServes(c, t, id, t.next, s);
      if o == id { assert Serves(u, t.next, s); } else { assert Serves(u, o, s); }
    }
    if Single(t) {
      forall s, i, j | Serves(u, i, s) && Serves(u, j, s) ensures i == j {
        CloseServes(c, t, id, i, s);
        CloseServes(c, t, id, j, s);
      }
    }
    CloseSize(c, t, id);
  }

  lemma CloseSize(c: Setup, t: Table, id: ConnId)
    requires Known(t)
    ensures |Close(c, t, id).conns| <= |t.conns|
    ensures id in t.conns && t.conns[id].redial.None? ==> |Close(c, t, id).conns| == |t.conns| - 1
  {
    if id in t.conns {
      var gone := t.conns - {id};
      assert t.conns.Keys == gone.Keys + {id};
      assert |gone| == |t.conns| - 1 by { assert |gone.Keys| == |t.conns.Keys| - 1; }
    }
  }

  /** ALWAYS DIALED: whatever is lost, accepted, evicted, validated or reassigned, every wanted
      slot has a dialed connection to its wanted address. */
  lemma KeepsCovered(c: Setup, t: Table, step: Step)
    requires Known(t) && Covered(t) && Can(c, t, step)
    ensures Known(Do(c, t, step)) && Covered(Do(c, t, step))
  {
    var u := Do(c, t, step);
    match step
    case Lose(id) => CloseKeeps(c, t, id);
    case Arrive(now, pick) => AcceptKeeps(c, t, now, pick);
    case Reassign(slots, peers) => RekeyCovers(c, t, slots, peers);
    case _ =>
      forall s | s in u.peers ensures exists o :: Serves(u, o, s) {
        var o :| Serves(t, o, s);
        assert Serves(u, o, s);
      }
  }

  lemma InsertServes(c: Setup, t: Table, now: nat, o: ConnId, s: Slot)
    requires Known(t)
    ensures Serves(Insert(c, t, now), o, s) <==> Serves(t, o, s)
  {}

  lemma InsertKeeps(c: Setup, t: Table, now: nat)
    requires Known(t) && Covered(t)
    ensures
      var u := Insert(c, t, now);
      && Known(u) && Covered(u) && u.peers == t.peers && |u.conns| == |t.conns| + 1
      && (Single(t) ==> Single(u)) && (NoStale(t) ==> NoStale(u)) && (Guarded(t) ==> Guarded(u))
  {
    var u := Insert(c, t, now);
    forall s | s in u.peers ensures exists o :: Serves(u, o, s) {
      var o :| Serves(t, o, s);
      InsertServes(c, t, now, o, s);
    }
    forall s, o ensures Serves(u, o, s) <==> Serves(t, o, s) { InsertServes(c, t, now, o, s); }
  }

  lemma AcceptKeeps(c: Setup, t: Table, now: nat, pick: Option<ConnId>)
    requires Known(t) && Covered(t)
    ensures
      var u := Accept(c, t, now, pick);
      && Known(u) && Covered(u) && u.peers == t.peers && (|t.conns| <= c.maxConns ==> |u.conns| <= c.maxConns)
      && (Single(t) ==> Single(u)) && (NoStale(t) ==> NoStale(u)) && (Guarded(t) ==> Guarded(u))
  {
    hide Close, Insert, Single, NoStale, Guarded, Covered;
    var t1 := if |t.conns| >= c.maxConns && pick.Some? then Close(c, t, pick.value) else t;
    if pick.Some? { CloseKeeps(c, t, pick.value); }
    InsertKeeps(c, t1, now);
  }

  /** A LOST CONNECTION IS REPLACED exactly when it was dialed and its peer is still wanted at that
      address: a fresh dial to the same place, and nothing else changes. */
  lemma ReplacedExactly(c: Setup, t: Table, id: ConnId, o: ConnId)
    requires Known(t)
    ensures
      var u := Close(c, t, id);
      && (u.next > t.next <==>
            id in t.conns && t.conns[id].redial.Some? && t.conns[id].redial.value.peer in t.peers
            && t.peers[t.conns[id].redial.value.peer] == t.conns[id].redial.value.addr)
      && (u.next > t.next ==>
            && t.next in u.conns && u.conns[t.next].redial.Some? && !u.conns[t.next].validated
            && u.conns[t.next].redial.value.peer == t.conns[id].redial.value.peer
            && u.conns[t.next].redial.value.addr == t.conns[id].redial.value.addr)
      && id !in u.conns
      && (o != id && o < t.next ==> (o in u.conns <==> o in t.conns) && (o in t.conns ==> u.conns[o] == t.conns[o]))
  {}

  /** NO STALE DIAL IS RENEWED: between reassignments, a dial to a place no longer wanted was
      there before the step, and the step can only end it. */
  lemma StaleOnlyDies(c: Setup, t: Table, step: Step, id: ConnId)
    requires Known(t) && Can(c, t, step) && !step.Reassign?
    ensures
      var u := Do(c, t, step);
      id in u.conns && u.conns[id].redial.Some? && !Serves(u, id, u.conns[id].redial.value.peer) ==>
        id in t.conns && t.conns[id].redial.Some? && !Serves(t, id, t.conns[id].redial.value.peer)
  {}

  // ---- The redial schedule -------------------------------------------------------------------

  function Power(k: nat): nat { if k == 0 then 1 else 2 * Power(k - 1) }

  /** The table after the newest connection is lost `k` times in a row. */
  function Losses(c: Setup, t: Table, k: nat): Table
    requires t.next > 0
    decreases k
  {
    if k == 0 then t
    else
      var u := Losses(c, t, k - 1);
      if u.next == 0 then u else Close(c, u, u.next - 1)
  }

  /** Consecutive losses of a wanted peer's dial space out as base, twice, four times, up to the
      cap, and never stop. */
  lemma {:induction false} BackoffSchedule(c: Setup, t: Table, peer: Slot, addr: Addr, k: nat)
    requires c.base <= c.cap && Known(t) && peer in t.peers && t.peers[peer] == addr
    ensures
      var u := Losses(c, Dial(t, peer, addr, c.base), k);
      && u.next == t.next + 1 + k && u.peers == t.peers && Known(u) && u.next - 1 in u.conns
      && u.conns[u.next - 1].redial == Some(Redial(peer, addr, Min(c.base * Power(k), c.cap)))
    decreases k
  {
    if k > 0 {
      BackoffSchedule(c, t, peer, addr, k - 1);
      DoubleCapped(c.base, Power(k - 1), c.cap);
    }
  }

  lemma DoubleCapped(base: nat, p: nat, cap: nat)
    ensures Min(2 * Min(base * p, cap), cap) == Min(base * (2 * p), cap)
  {
    assert base * (2 * p) == 2 * (base * p);
  }

  // ---- Reassignment -------------------------------------------------------------------------

  /** The dials a reassignment makes: one new connection for each changed slot, nothing else. */
  lemma {:induction false} DialChangedIs(c: Setup, t: Table, slots: seq<Slot>, peers: map<Slot, Addr>)
    requires Known(t) && Distinct(slots) && forall s :: s in slots ==> s in peers
    ensures
      var u := DialChanged(c, t, slots, peers);
      Adds(c, t, slots, peers, u) && AimsAll(t, slots, peers, u) && AimsOnce(t, u)
    decreases slots
  {
    hide Adds, AimsAll, AimsOnce, Changed;
    var u := DialChanged(c, t, slots, peers);
    if slots == [] {
      NothingDialed(c, t, peers);
    } else {
      var s, rest := slots[0], slots[1..];
      var t1 := if Changed(t, s, peers) then Dial(t, s, peers[s], c.base) else t;
      forall i, j | 0 <= i < j < |rest| ensures rest[i] != rest[j] { assert slots[i + 1] != slots[j + 1]; }
      forall i | 0 <= i < |rest| ensures rest[i] != s { assert slots[0] != slots[i + 1]; }
      assert slots == [s] + rest;
      DialChangedIs(c, t1, rest, peers);
      AddsFirst(c, t, s, rest, peers, t1, u);
      AimsFirst(c, t, s, rest, peers, t1, u);
    }
  }

  /** Old connections stay, new ones are dials of changed slots. */
  ghost predicate Adds(c: Setup, t: Table, slots: seq<Slot>, peers: map<Slot, Addr>, u: Table)
    requires forall s :: s in slots ==> s in peers
  {
    && Known(u) && u.peers == t.peers && t.next <= u.next
    && (forall id :: id in t.conns ==> id in u.conns && u.conns[id] == t.conns[id])
    && (forall id :: id in u.conns && id !in t.conns ==> t.next <= id && Fresh(c, t, slots, peers, u.conns[id]))
  }

  /** Every changed slot has a new dial. */
  ghost predicate AimsAll(t: Table, slots: seq<Slot>, peers: map<Slot, Addr>, u: Table)
    requires forall s :: s in slots ==> s in peers
  {
    forall s :: s in slots && Changed(t, s, peers) ==> exists id :: Aimed(u, id, s, peers[s]) && id !in t.conns
  }

  /** ... and only one. */
  ghost predicate AimsOnce(t: Table, u: Table) {
    forall s, i, j :: Targets(u, i, s) && Targets(u, j, s) && i !in t.conns && j !in t.conns ==> i == j
  }

  lemma NothingDialed(c: Setup, t: Table, peers: map<Slot, Addr>)
    requires Known(t)
    ensures Adds(c, t, [], peers, t) && AimsAll(t, [], peers, t) && AimsOnce(t, t)
  {}

  lemma AddsFirst(c: Setup, t: Table, s: Slot, rest: seq<Slot>, peers: map<Slot, Addr>, t1: Table, u: Table)
    requires Known(t) && s in peers && s !in rest && (forall x :: x in rest ==> x in peers)
    requires t1 == (if Changed(t, s, peers) then Dial(t, s, peers[s], c.base) else t) && Adds(c, t1, rest, peers, u)
    ensures Adds(c, t, [s] + rest, peers, u)
  {
    forall id | id in u.conns && id !in t.conns ensures t.next <= id && Fresh(c, t, [s] + rest, peers, u.conns[id]) {
      if id !in t1.conns { assert Fresh(c, t1, rest, peers, u.conns[id]); }
    }
  }

  lemma AimsFirst(c: Setup, t: Table, s: Slot, rest: seq<Slot>, peers: map<Slot, Addr>, t1: Table, u: Table)
    requires Known(t) && s in peers && s !in rest && (forall x :: x in rest ==> x in peers)
    requires t1 == (if Changed(t, s, peers) then Dial(t, s, peers[s], c.base) else t) && Adds(c, t1, rest, peers, u)
    requires AimsAll(t1, rest, peers, u) && AimsOnce(t1, u)
    ensures AimsAll(t, [s] + rest, peers, u) && AimsOnce(t, u)
  {
    forall x | x in [s] + rest && Changed(t, x, peers) ensures exists id :: Aimed(u, id, x, peers[x]) && id !in t.conns {
      if x == s {
        assert Aimed(u, t.next, s, peers[s]) && t.next !in t.conns;
      } else {
        assert x in rest && Changed(t1, x, peers);
        var id :| Aimed(u, id, x, peers[x]) && id !in t1.conns;
        assert Aimed(u, id, x, peers[x]) && id !in t.conns;
      }
    }
    forall x, i, j | Targets(u, i, x) && Targets(u, j, x) && i !in t.conns && j !in t.conns ensures i == j {
      if i !in t1.conns { assert Fresh(c, t1, rest, peers, u.conns[i]); }
      if j !in t1.conns { assert Fresh(c, t1, rest, peers, u.conns[j]); }
    }
  }

  predicate Targets(t: Table, id: ConnId, s: Slot) {
    id in t.conns && t.conns[id].redial.Some? && t.conns[id].redial.value.peer == s
  }

  predicate Aimed(t: Table, id: ConnId, s: Slot, addr: Addr) { Targets(t, id, s) && t.conns[id].redial.value.addr == addr }

  /** A connection a reassignment dialed. */
  predicate Fresh(c: Setup, t: Table, slots: seq<Slot>, peers: map<Slot, Addr>, conn: Conn)
    requires forall s :: s in slots ==> s in peers
  {
    && conn.redial.Some? && conn.redial.value.peer in slots && Changed(t, conn.redial.value.peer, peers)
    && conn.redial.value.addr == peers[conn.redial.value.peer]
  }

  lemma RekeyCovers(c: Setup, t: Table, slots: seq<Slot>, peers: map<Slot, Addr>)
    requires Known(t) && Covered(t) && Distinct(slots) && forall s :: s in slots <==> s in peers
    ensures Known(Rekey(c, t, slots, peers)) && Covered(Rekey(c, t, slots, peers))
  {
    hide DialChanged;
    DialChangedIs(c, t, slots, peers);
    var u := Rekey(c, t, slots, peers);
    forall s | s in u.peers ensures exists id :: Serves(u, id, s) {
      if Changed(t, s, peers) {
        var id :| Aimed(DialChanged(c, t, slots, peers), id, s, peers[s]) && id !in t.conns;
        assert Serves(u, id, s);
      } else {
        var id :| Serves(t, id, s);
        assert Serves(u, id, s);
      }
    }
  }

  /** WHEN A REASSIGNMENT KEEPS ONE DIAL PER PEER: exactly when no connection left over from
      earlier already aims at an assignment that is new now. */
  lemma RekeySingleExactly(c: Setup, t: Table, slots: seq<Slot>, peers: map<Slot, Addr>)
    requires Known(t) && Single(t) && Distinct(slots) && forall s :: s in slots <==> s in peers
    ensures Single(Rekey(c, t, slots, peers)) <==>
      forall s, id :: s in peers && Changed(t, s, peers) ==> !Aimed(t, id, s, peers[s])
  {
    hide DialChanged;
    DialChangedIs(c, t, slots, peers);
    var d, u := DialChanged(c, t, slots, peers), Rekey(c, t, slots, peers);
    if Single(u) {
      forall s, id | s in peers && Changed(t, s, peers) ensures !Aimed(t, id, s, peers[s]) {
        var made :| Aimed(d, made, s, peers[s]) && made !in t.conns;
        assert Serves(u, made, s);
        assert Aimed(t, id, s, peers[s]) ==> Serves(u, id, s);
      }
    }
    if forall s, id :: s in peers && Changed(t, s, peers) ==> !Aimed(t, id, s, peers[s]) {
      forall s, i, j | Serves(u, i, s) && Serves(u, j, s) ensures i == j {
        assert Aimed(u, i, s, peers[s]) && Aimed(u, j, s, peers[s]);
        if i in t.conns { assert Aimed(t, i, s, peers[s]); }
        if j in t.conns { assert Aimed(t, j, s, peers[s]); }
        if i !in t.conns { assert Fresh(c, t, slots, peers, u.conns[i]); }
        if j !in t.conns { assert Fresh(c, t, slots, peers, u.conns[j]); }
        if i in t.conns && j in t.conns { assert Serves(t, i, s) && Serves(t, j, s); }
      }
    }
  }

  /** It can fail: a slot that moves away and back before the first dial is torn down ends up
      dialed twice, and losing either connection dials it again. */
  lemma FlappingSlotIsDialedTwice(c: Setup)
    ensures
      var t := Dial(Table(map[], map[0 := 1], 0), 0, 1, c.base);
      var u := Rekey(c, Rekey(c, t, [0], map[0 := 2]), [0], map[0 := 1]);
      && Serves(u, 0, 0) && Serves(u, 2, 0)
      && Serves(Close(c, u, 0), 2, 0) && Serves(Close(c, u, 0), 3, 0)
  {
    var t := Dial(Table(map[], map[0 := 1], 0), 0, 1, c.base);
    var t1 := Dial(t, 0, 2, c.base).(peers := map[0 := 2]);
    assert [0][1..] == [];
    assert DialChanged(c, Dial(t, 0, 2, c.base), [], map[0 := 2]) == Dial(t, 0, 2, c.base);
    assert Rekey(c, t, [0], map[0 := 2]) == t1;
    assert DialChanged(c, Dial(t1, 0, 1, c.base), [], map[0 := 1]) == Dial(t1, 0, 1, c.base);
  }

  // ---- Fixed membership ---------------------------------------------------------------------

  /** The startup dials: one for every configured peer. */
  method DialAll(c: Setup, peers: map<Slot, Addr>) returns (t: Table)
    ensures t.peers == peers && Mesh(t) && |t.conns| == |peers|
  {
    t := Table(map[], peers, 0);
    var left := peers.Keys;
    while left != {}
      invariant left <= peers.Keys && t.peers == peers && |t.conns| + |left| == |peers.Keys|
      invariant Known(t) && Single(t) && NoStale(t) && Guarded(t)
      invariant forall s :: s in peers && s !in left ==> exists id :: Serves(t, id, s)
      invariant forall s, id :: s in left ==> !Serves(t, id, s)
      decreases left
    {
      var s :| s in left;
      ghost var before := t;
      t := Dial(t, s, peers[s], c.base);
      forall x, id ensures Serves(t, id, x) <==> Serves(before, id, x) || (x == s && id == before.next) {}
      left := left - {s};
      forall x | x in peers && x !in left ensures exists id :: Serves(t, id, x) {
        if x == s {
          assert Serves(t, before.next, s);
        } else {
          var id :| Serves(before, id, x);
          assert Serves(t, id, x);
        }
      }
    }
    assert |peers| == |peers.Keys|;
  }

  /** One dialed connection per peer, and no other dialed connection. */
  ghost predicate Mesh(t: Table) { Known(t) && Covered(t) && Single(t) && NoStale(t) && Guarded(t) }

  /** ONE DIAL PER PEER, UNDER THE CAP: while the membership is fixed, every step keeps exactly
      one dialed connection per peer and at most the cap in all. */
  lemma KeepsMesh(c: Setup, t: Table, step: Step)
    requires Mesh(t) && |t.conns| <= c.maxConns && Can(c, t, step) && !step.Reassign?
    ensures Mesh(Do(c, t, step)) && |Do(c, t, step).conns| <= c.maxConns && Do(c, t, step).peers == t.peers
  {
    var u := Do(c, t, step);
    match step
    case Lose(id) => CloseKeeps(c, t, id);
    case Arrive(now, pick) => AcceptKeeps(c, t, now, pick);
    case Connected(id, now) => UpdateKeeps(t, u, id);
    case Validate(id) => UpdateKeeps(t, u, id);
    case Clear(id) => UpdateKeeps(t, u, id);
  }

  lemma UpdateKeeps(t: Table, u: Table, id: ConnId)
    requires Mesh(t) && id in t.conns && u.peers == t.peers && u.next == t.next && id in u.conns && u.conns == t.conns[id := u.conns[id]]
    requires u.conns[id].redial.Some? <==> t.conns[id].redial.Some?
    requires u.conns[id].redial.Some? ==>
      u.conns[id].redial.value.peer == t.conns[id].redial.value.peer && u.conns[id].redial.value.addr == t.conns[id].redial.value.addr
    requires u.conns[id].redial.None? ==> u.conns[id].deadline.Some? || u.conns[id].validated
    ensures Mesh(u) && |u.conns| == |t.conns|
  {
    forall o, s ensures Serves(u, o, s) <==> Serves(t, o, s) {}
    forall s | s in u.peers ensures exists o :: Serves(u, o, s) { var o :| Serves(t, o, s); assert Serves(u, o, s); }
    assert u.conns.Keys == t.conns.Keys;
    assert |u.conns.Keys| == |u.conns| && |t.conns.Keys| == |t.conns|;
  }

  ghost predicate Runs(c: Setup, t: Table, steps: seq<Step>)
    decreases steps
  {
    steps == [] || (Can(c, t, steps[0]) && Runs(c, Do(c, t, steps[0]), steps[1..]))
  }

  ghost function Final(c: Setup, t: Table, steps: seq<Step>): Table
    requires Runs(c, t, steps)
    decreases steps
  {
    if steps == [] then t else Final(c, Do(c, t, steps[0]), steps[1..])
  }

  /** Over every run from the startup dials: dialed throughout; and, as long as no step
      reassigns slots, once each and under the cap. */
  lemma {:induction false} RunKeepsMesh(c: Setup, t: Table, steps: seq<Step>)
    requires Known(t) && Covered(t) && Runs(c, t, steps)
    ensures Known(Final(c, t, steps)) && Covered(Final(c, t, steps))
    ensures Mesh(t) && |t.conns| <= c.maxConns && (forall i :: 0 <= i < |steps| ==> !steps[i].Reassign?) ==>
      Mesh(Final(c, t, steps)) && |Final(c, t, steps).conns| <= c.maxConns && Final(c, t, steps).peers == t.peers
    decreases steps
  {
    hide Mesh, Covered, Known, Can, Do;
    if steps != [] {
      KeepsCovered(c, t, steps[0]);
      if Mesh(t) && |t.conns| <= c.maxConns && !steps[0].Reassign? { KeepsMesh(c, t, steps[0]); }
      RunKeepsMesh(c, Do(c, t, steps[0]), steps[1..]);
    }
  }

  ghost function Dialed(t: Table): set<ConnId> { set id | id in t.conns && t.conns[id].redial.Some? }
  ghost function Accepted(t: Table): set<ConnId> { set id | id in t.conns && t.conns[id].redial.None? }
  ghost function AcceptedValidated(t: Table): set<ConnId> { set id | id in Accepted(t) && t.conns[id].validated }

  ghost function DialedTo(t: Table, slots: set<Slot>): set<ConnId> { set id | id in Dialed(t) && t.conns[id].redial.value.peer in slots }

  lemma {:induction false} DialedToCount(t: Table, slots: set<Slot>)
    requires Mesh(t) && slots <= t.peers.Keys
    ensures |DialedTo(t, slots)| == |slots|
    decreases slots
  {
    if slots != {} {
      var s :| s in slots;
      DialedToCount(t, slots - {s});
      var id :| Serves(t, id, s);
      forall o ensures o in DialedTo(t, slots) <==> o in DialedTo(t, slots - {s}) || o == id {
        if o in DialedTo(t, slots) && t.conns[o].redial.value.peer == s { assert Serves(t, o, s); }
      }
      assert DialedTo(t, slots) == DialedTo(t, slots - {s}) + {id};
      assert id !in DialedTo(t, slots - {s});
    }
  }

  lemma MeshCount(t: Table)
    requires Mesh(t)
    ensures |Dialed(t)| == |t.peers| && |Accepted(t)| == |t.conns| - |t.peers|
  {
    DialedToCount(t, t.peers.Keys);
    assert DialedTo(t, t.peers.Keys) == Dialed(t) by {
      forall id | id in Dialed(t) ensures id in DialedTo(t, t.peers.Keys) {
        assert Serves(t, id, t.conns[id].redial.value.peer);
      }
    }
    assert t.conns.Keys == Dialed(t) + Accepted(t);
    assert |t.conns.Keys| == |t.conns| && |t.peers.Keys| == |t.peers|;
  }

  /** EVICTION takes only an accepted connection not yet validated, only at the cap, and one whose
      deadline no other such connection's precedes; it touches no other. */
  lemma EvictionIsSafe(c: Setup, t: Table, now: nat, pick: Option<ConnId>, id: ConnId)
    requires Known(t) && Can(c, t, Arrive(now, pick)) && id in t.conns
    ensures
      var u := Accept(c, t, now, pick);
      id !in u.conns ==>
        && |t.conns| >= c.maxConns && t.conns[id].redial.None? && !t.conns[id].validated && t.conns[id].deadline.Some?
        && forall o :: o in t.conns && t.conns[o].redial.None? && !t.conns[o].validated && t.conns[o].deadline.Some? ==>
             t.conns[id].deadline.value <= t.conns[o].deadline.value
    ensures
      var u := Accept(c, t, now, pick);
      id in u.conns ==> u.conns[id] == t.conns[id]
  {}

  /** A fresh socket is admitted exactly when there is room, or the table is just full and some
      accepted connection is still in its handshake; it then has the whole window to validate. */
  lemma AdmittedExactly(c: Setup, t: Table, now: nat, pick: Option<ConnId>)
    requires Known(t) && Can(c, t, Arrive(now, pick))
    ensures
      var u := Accept(c, t, now, pick);
      && (u.next > t.next <==>
            || |t.conns| < c.maxConns
            || (|t.conns| == c.maxConns
                && exists o :: o in t.conns && t.conns[o].redial.None? && t.conns[o].deadline.Some? && !t.conns[o].validated))
      && (u.next > t.next ==>
            t.next in u.conns && u.conns[t.next] == Conn(None, Some(now + c.authWindow), false) && u.next == t.next + 1)
  {
    if pick.Some? { CloseSize(c, t, pick.value); }
    if AnyEvictable(t) { var o :| o in t.conns && Evictable(t.conns[o]); }
  }

  // ---- First come, first evicted ------------------------------------------------------------

  /** No deadline is past a window from `now`, and accepted connections have theirs in the order
      they came. */
  ghost predicate InOrder(c: Setup, t: Table, now: nat) {
    && Known(t)
    && (forall i :: i in t.conns && t.conns[i].deadline.Some? ==> t.conns[i].deadline.value <= now + c.authWindow)
    && (forall i, j :: i in t.conns && j in t.conns && i < j && t.conns[i].redial.None? && t.conns[i].deadline.Some?
                       && t.conns[j].redial.None? && t.conns[j].deadline.Some? ==>
          t.conns[i].deadline.value <= t.conns[j].deadline.value)
  }

  /** When a step happens: its own time, if it has one. */
  function Clock(step: Step, now: nat): nat {
    match step
    case Arrive(at, _) => at
    case Connected(_, at) => at
    case _ => now
  }

  /** The times of the steps never go back. */
  ghost predicate Forward(steps: seq<Step>, now: nat)
    decreases steps
  {
    steps == [] || (Clock(steps[0], now) >= now && Forward(steps[1..], Clock(steps[0], now)))
  }

  lemma CloseInOrder(c: Setup, t: Table, id: ConnId, now: nat)
    requires InOrder(c, t, now)
    ensures InOrder(c, Close(c, t, id), now)
  {}

  lemma {:induction false} DialInOrder(c: Setup, t: Table, slots: seq<Slot>, peers: map<Slot, Addr>, now: nat)
    requires InOrder(c, t, now) && forall s :: s in slots ==> s in peers
    ensures InOrder(c, DialChanged(c, t, slots, peers), now)
    decreases slots
  {
    if slots != [] {
      var s := slots[0];
      DialInOrder(c, if Changed(t, s, peers) then Dial(t, s, peers[s], c.base) else t, slots[1..], peers, now);
    }
  }

  lemma KeepsInOrder(c: Setup, t: Table, step: Step, now: nat)
    requires InOrder(c, t, now) && Can(c, t, step) && Clock(step, now) >= now
    ensures InOrder(c, Do(c, t, step), Clock(step, now))
  {
    hide Close, Accept, DialChanged, InOrder;
    match step
    case Lose(id) => CloseInOrder(c, t, id, now);
    case Arrive(at, pick) => AcceptInOrder(c, t, at, pick, now);
    case Reassign(slots, peers) =>
      DialInOrder(c, t, slots, peers, now);
      SameInOrder(c, DialChanged(c, t, slots, peers), peers, now);
    case _ => UpdateInOrder(c, t, step, now);
  }

  lemma SameInOrder(c: Setup, t: Table, peers: map<Slot, Addr>, now: nat)
    requires InOrder(c, t, now)
    ensures InOrder(c, t.(peers := peers), now)
  {}

  lemma AcceptInOrder(c: Setup, t: Table, at: nat, pick: Option<ConnId>, now: nat)
    requires InOrder(c, t, now) && at >= now
    ensures InOrder(c, Accept(c, t, at, pick), at)
  {
    hide Close;
    if pick.Some? { CloseInOrder(c, t, pick.value, now); }
  }

  lemma UpdateInOrder(c: Setup, t: Table, step: Step, now: nat)
    requires InOrder(c, t, now) && Can(c, t, step) && Clock(step, now) >= now
    requires step.Connected? || step.Validate? || step.Clear?
    ensures InOrder(c, Do(c, t, step), Clock(step, now))
  {}

  /** FIRST COME, FIRST EVICTED: over every run with a clock that never goes back, whatever is
      lost, dialed, validated or reassigned, an accepted connection still in its handshake that
      came before the evicted one came at the same instant. */
  lemma {:induction false} EvictsInOrder(c: Setup, t: Table, steps: seq<Step>, now: nat, id: ConnId, o: ConnId)
    requires InOrder(c, t, now) && Runs(c, t, steps) && Forward(steps, now)
    ensures
      var u := Final(c, t, steps);
      Oldest(u, id) && o in u.conns && o < id && u.conns[o].redial.None? && u.conns[o].deadline.Some? && !u.conns[o].validated ==>
        u.conns[o].deadline == u.conns[id].deadline
    decreases steps
  {
    if steps == [] {
      hide Can;
    } else {
      KeepsInOrder(c, t, steps[0], now);
      EvictsInOrder(c, Do(c, t, steps[0]), steps[1..], Clock(steps[0], now), id, o);
    }
  }

  /** Validation starts the redial schedule over: the loss after it waits the base delay, and the
      replacement carries twice that, up to the cap. */
  lemma ValidationRestartsSchedule(c: Setup, t: Table, id: ConnId, r: Redial)
    requires Known(t) && Can(c, t, Clear(id)) && t.conns[id].redial == Some(r) && Wants(t, r)
    ensures
      var u := Do(c, t, Clear(id));
      && u.conns[id].redial == Some(r.(backoff := c.base)) && u.conns[id].deadline.None?
      && Close(c, u, id).conns[t.next].redial == Some(Redial(r.peer, r.addr, if 2 * c.base < c.cap then 2 * c.base else c.cap))
  {}

  /** Reassignment dials are never refused and may pass the cap; there an eviction makes no room:
      the oldest accept goes and the fresh one is dropped all the same. */
  lemma EvictionCanBeWasted(now: nat)
    ensures
      var c := Setup(1, 5, 1, 1);
      var t := Insert(c, Table(map[], map[], 0), now);
      var u := Rekey(c, t, [0], map[0 := 7]);
      && |t.conns| == c.maxConns && Oldest(u, 0) && |u.conns| == 2
      && 0 !in Accept(c, u, now, Some(0)).conns && Accept(c, u, now, Some(0)).next == u.next
  {
    var c := Setup(1, 5, 1, 1);
    var t := Insert(c, Table(map[], map[], 0), now);
    var u := Rekey(c, t, [0], map[0 := 7]);
    assert [0][1..] == [];
    assert DialChanged(c, Dial(t, 0, 7, 1), [], map[0 := 7]) == Dial(t, 0, 7, 1);
    assert u == Dial(t, 0, 7, 1).(peers := map[0 := 7]);
    assert u.conns.Keys == {0, 1} && |u.conns| == |u.conns.Keys|;
    assert (u.conns - {0}).Keys == {1} && |u.conns - {0}| == |(u.conns - {0}).Keys|;
  }

  /** THE MESH CAN FORM: with a cap of at least twice the peers, a fresh socket is admitted
      whenever fewer accepted connections are validated than there are peers. */
  lemma MeshCanForm(c: Setup, t: Table, now: nat, pick: Option<ConnId>)
    requires Mesh(t) && |t.conns| <= c.maxConns && Can(c, t, Arrive(now, pick))
    requires 2 * |t.peers| <= c.maxConns && |AcceptedValidated(t)| < |t.peers|
    ensures Accept(c, t, now, pick).next > t.next
  {
    AdmittedExactly(c, t, now, pick);
    if |t.conns| == c.maxConns {
      MeshCount(t);
      SubsetCount(AcceptedValidated(t), Accepted(t));
      var id :| id in Accepted(t) && id !in AcceptedValidated(t);
      assert Evictable(t.conns[id]);
    }
  }

  lemma SubsetCount(a: set<ConnId>, b: set<ConnId>)
    requires a <= b && |a| < |b|
    ensures exists x :: x in b && x !in a
  {
    assert b <= a ==> a == b;
  }
}
