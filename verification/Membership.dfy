/** The active configuration: an epoch-versioned slot list, voters before learners, with a
    `config_id` chained from its predecessor. Configurations change one member at a time,
    through the closed vocabulary of four deltas. */
module Membership {
  import opened Wrappers

  /** A member's stable, ordered identity. */
  type MemberId = nat

  const MAX_VOTERS := 64
  const MAX_NODES := 65535

  /** The lineage hash of a configuration. The 128-bit digest is idealised as collision-free:
      an id is the tuple that was hashed. */
  datatype ConfigId = Zero | Hash(epoch: nat, voters: seq<MemberId>, learners: seq<MemberId>, prev: ConfigId)

  /** The slot list is kept split at `replica_count`: `voters` fill slots
      `[0, replica_count)` and `learners` the rest. */
  datatype Membership = Membership(epoch: nat, voters: seq<MemberId>, learners: seq<MemberId>, configId: ConfigId)
  {
    predicate Valid() {
      ValidateStructure(voters, learners).Ok?
    }

    /** The configuration's two member sets; slot order is derived, never chosen. */
    function Sets(): (c: Config) {
      Config(SetOf(voters), SetOf(learners))
    }

    function Quorum(): nat { |voters| / 2 + 1 }
  }

  datatype Error =
    | ZeroReplicaCount
    | TooManyReplicas(count: nat)
    | TooManyNodes(count: nat)
    | DuplicateMember
    | AlreadyAMember
    | UnknownMember
    | NotALearner
    | NotAVoter
    | WouldRemoveLastVoter


  datatype Delta =
    | PromoteLearner(member: MemberId)
    | DemoteVoter(member: MemberId)
    | AddLearner(member: MemberId)
    | RemoveLearner(member: MemberId)

  /** A configuration reduced to who votes and who learns. */
  datatype Config = Config(voters: set<MemberId>, learners: set<MemberId>)
  {
    function Members(): set<MemberId> { voters + learners }
    predicate Disjoint() { voters !! learners }
  }

  function SetOf(s: seq<MemberId>): set<MemberId> {
    if s == [] then {} else {s[0]} + SetOf(s[1..])
  }

  /** No two slots hold one member (see `DistinctIsPairwise`). */
  predicate Distinct(s: seq<MemberId>) {
    |SetOf(s)| == |s|
  }

  /** `s` with every occurrence of `x` filtered out, order kept. */
  function Without(s: seq<MemberId>, x: MemberId): seq<MemberId> {
    if s == [] then []
    else if s[0] == x then Without(s[1..], x)
    else [s[0]] + Without(s[1..], x)
  }

  /** The structural checks every constructor runs, in the order they are reported. */
  function ValidateStructure(voters: seq<MemberId>, learners: seq<MemberId>): Result<(), Error> {
    if |voters| == 0 then Err(ZeroReplicaCount)
    else if |voters| > MAX_VOTERS then Err(TooManyReplicas(|voters|))
    else if |voters| + |learners| > MAX_NODES then Err(TooManyNodes(|voters| + |learners|))
    else if !Distinct(voters + learners) then Err(DuplicateMember)
    else Ok(())
  }

  function Reconfigure(m: Membership, voters: seq<MemberId>, learners: seq<MemberId>): Result<Membership, Error> {
    match ValidateStructure(voters, learners)
    case Err(e) => Err(e)
    case Ok(_) =>
      Ok(Membership(m.epoch + 1, voters, learners, Hash(m.epoch + 1, voters, learners, m.configId)))
  }

  /** The successor configuration of a single delta, on the slot list: a mover joins the end
      of its new range, everyone else keeps their order. */
  function ApplyDelta(m: Membership, d: Delta): Result<Membership, Error> {
    var x := d.member;
    match d
    case PromoteLearner(_) =>
      if x !in m.voters + m.learners then Err(UnknownMember)
      else if x in m.voters then Err(NotALearner)
      else Reconfigure(m, m.voters + [x], Without(m.learners, x))
    case DemoteVoter(_) =>
      if x !in m.voters + m.learners then Err(UnknownMember)
      else if x !in m.voters then Err(NotAVoter)
      else if |m.voters| == 1 then Err(WouldRemoveLastVoter)
      else Reconfigure(m, Without(m.voters, x), m.learners + [x])
    case AddLearner(_) =>
      if x in m.voters + m.learners then Err(AlreadyAMember)
      else Reconfigure(m, m.voters, m.learners + [x])
    case RemoveLearner(_) =>
      if x !in m.voters + m.learners then Err(UnknownMember)
      else if x in m.voters then Err(NotALearner)
      else Reconfigure(m, m.voters, Without(m.learners, x))
  }

  /** The set-level meaning of a delta that applies. */
  function After(c: Config, d: Delta): Config {
    match d
    case PromoteLearner(x) => Config(c.voters + {x}, c.learners - {x})
    case DemoteVoter(x) => Config(c.voters - {x}, c.learners + {x})
    case AddLearner(x) => Config(c.voters, c.learners + {x})
    case RemoveLearner(x) => Config(c.voters, c.learners - {x})
  }

  /** When a delta is well-typed for a configuration: who it may name. */
  predicate Names(c: Config, d: Delta) {
    match d
    case PromoteLearner(x) => x in c.learners
    case DemoteVoter(x) => x in c.voters
    case AddLearner(x) => x !in c.Members()
    case RemoveLearner(x) => x in c.learners
  }

  /** The error a delta draws from a configuration, or none: the whole rejection table. */
  function Rejection(c: Config, d: Delta): (e: Result<(), Error>) {
    if !Names(c, d) then
      Err(match d
          case PromoteLearner(x) => if x in c.voters then NotALearner else UnknownMember
          case DemoteVoter(x) => if x in c.learners then NotAVoter else UnknownMember
          case AddLearner(x) => AlreadyAMember
          case RemoveLearner(x) => if x in c.voters then NotALearner else UnknownMember)
    else if d.DemoteVoter? && |c.voters| == 1 then Err(WouldRemoveLastVoter)
    else if d.PromoteLearner? && |c.voters| == MAX_VOTERS then Err(TooManyReplicas(MAX_VOTERS + 1))
    else if d.AddLearner? && |c.voters| + |c.learners| == MAX_NODES then Err(TooManyNodes(MAX_NODES + 1))
    else Ok(())
  }

  lemma {:induction false} SetOfFacts(s: seq<MemberId>)
    ensures |SetOf(s)| <= |s|
    ensures forall x :: x in SetOf(s) <==> x in s
  {
    if s != [] { SetOfFacts(s[1..]); }
  }

  /** Counting distinct ids is the pairwise comparison of the constructors. */
  lemma {:induction false} DistinctIsPairwise(s: seq<MemberId>)
    ensures Distinct(s) <==> forall i, j :: 0 <= i < j < |s| ==> s[i] != s[j]
  {
    if s != [] {
      var t := s[1..];
      SetOfFacts(t);
      DistinctIsPairwise(t);
      if forall i, j :: 0 <= i < j < |s| ==> s[i] != s[j] {
        forall i, j | 0 <= i < j < |t| ensures t[i] != t[j] {
          assert s[i + 1] != s[j + 1];
        }
        assert s[0] !in t;
      } else {
        var i, j :| 0 <= i < j < |s| && s[i] == s[j];
        assert s[j] == t[j - 1];
        assert i > 0 ==> s[i] == t[i - 1];
      }
    }
  }

  lemma {:induction false} WithoutFacts(s: seq<MemberId>, x: MemberId)
    requires Distinct(s)
    ensures Distinct(Without(s, x)) && SetOf(Without(s, x)) == SetOf(s) - {x}
  {
    if s != [] {
      SetOfFacts(s[1..]);
      WithoutFacts(s[1..], x);
    }
  }

  lemma {:induction false} SetOfConcat(a: seq<MemberId>, b: seq<MemberId>)
    ensures SetOf(a + b) == SetOf(a) + SetOf(b)
  {
    if a == [] {
      assert a + b == b;
    } else {
      SetOfConcat(a[1..], b);
      assert (a + b)[1..] == a[1..] + b;
    }
  }

  /** A slot list is duplicate-free exactly when both ranges are and share no member. */
  lemma DistinctSplit(a: seq<MemberId>, b: seq<MemberId>)
    ensures Distinct(a + b) <==> Distinct(a) && Distinct(b) && SetOf(a) !! SetOf(b)
  {
    SetOfFacts(a);
    SetOfFacts(b);
    SetOfConcat(a, b);
    var common := SetOf(a) * SetOf(b);
    assert |SetOf(a) + SetOf(b)| + |common| == |SetOf(a)| + |SetOf(b)|;
    if |common| == 0 { assert common == {}; }
  }

  lemma SlotFacts(m: Membership)
    requires m.Valid()
    ensures Distinct(m.voters) && Distinct(m.learners) && m.Sets().Disjoint()
    ensures |m.Sets().voters| == |m.voters| && |m.Sets().learners| == |m.learners|
    ensures forall x :: x in m.Sets().voters <==> x in m.voters
    ensures forall x :: x in m.Sets().learners <==> x in m.learners
  {
    DistinctSplit(m.voters, m.learners);
    SetOfFacts(m.voters);
    SetOfFacts(m.learners);
  }

  /** What it means for the slot-list surgery to follow the set-level meaning of a delta. */
  ghost predicate Refines(m: Membership, d: Delta) {
    match ApplyDelta(m, d)
    case Err(e) => Rejection(m.Sets(), d) == Err(e)
    case Ok(n) =>
      && Rejection(m.Sets(), d).Ok?
      && n.Valid() && n.Sets() == After(m.Sets(), d)
      && n.epoch == m.epoch + 1 && n.configId.Hash? && n.configId.prev == m.configId
  }

  /** Appending a newcomer to one range. */
  lemma Appended(s: seq<MemberId>, x: MemberId)
    requires Distinct(s) && x !in SetOf(s)
    ensures Distinct(s + [x]) && SetOf(s + [x]) == SetOf(s) + {x}
  {
    SetOfConcat(s, [x]);
    assert SetOf([x]) == {x};
  }

  /** `ApplyDelta` refines the set-level meaning of a delta: it is rejected exactly as
      `Rejection` says, and otherwise yields a valid successor, one epoch on, with the sets
      of `After` and an id chained from the predecessor's. */
  lemma ApplyDeltaRefines(m: Membership, d: Delta)
    requires m.Valid()
    ensures Refines(m, d)
  {
    SlotFacts(m);
    if Names(m.Sets(), d) {
      match d
      case PromoteLearner(_) => PromoteRefines(m, d);
      case DemoteVoter(_) => DemoteRefines(m, d);
      case AddLearner(_) => AddRefines(m, d);
      case RemoveLearner(_) => RemoveRefines(m, d);
    }
  }

  lemma PromoteRefines(m: Membership, d: Delta)
    requires m.Valid() && d.PromoteLearner? && Names(m.Sets(), d)
    ensures Refines(m, d)
  {
    hide Distinct, SetOf, Without;
    SlotFacts(m);
    Appended(m.voters, d.member);
    WithoutFacts(m.learners, d.member);
    DistinctSplit(m.voters + [d.member], Without(m.learners, d.member));
  }

  lemma DemoteRefines(m: Membership, d: Delta)
    requires m.Valid() && d.DemoteVoter? && Names(m.Sets(), d)
    ensures Refines(m, d)
  {
    hide Distinct, SetOf, Without;
    SlotFacts(m);
    Appended(m.learners, d.member);
    WithoutFacts(m.voters, d.member);
    DistinctSplit(Without(m.voters, d.member), m.learners + [d.member]);
  }

  lemma AddRefines(m: Membership, d: Delta)
    requires m.Valid() && d.AddLearner? && Names(m.Sets(), d)
    ensures Refines(m, d)
  {
    hide Distinct, SetOf, Without;
    SlotFacts(m);
    Appended(m.learners, d.member);
    DistinctSplit(m.voters, m.learners + [d.member]);
  }

  lemma RemoveRefines(m: Membership, d: Delta)
    requires m.Valid() && d.RemoveLearner? && Names(m.Sets(), d)
    ensures Refines(m, d)
  {
    hide Distinct, SetOf, Without;
    SlotFacts(m);
    WithoutFacts(m.learners, d.member);
    DistinctSplit(m.voters, Without(m.learners, d.member));
  }

  // ---- Slot order ------------------------------------------------------------------------

  /** Filtering one member out closes up its slot and moves nobody past anybody. */
  lemma {:induction false} WithoutKeepsOrder(s: seq<MemberId>, x: MemberId, i: nat, j: nat)
    requires i < j < |s| && s[i] != x && s[j] != x
    ensures exists p, q :: 0 <= p < q < |Without(s, x)| && Without(s, x)[p] == s[i] && Without(s, x)[q] == s[j]
  {
    var t, rest := s[1..], Without(s[1..], x);
    var k := if s[0] == x then 0 else 1;
    assert forall p :: 0 <= p < |rest| ==> Without(s, x)[p + k] == rest[p];
    if i > 0 {
      WithoutKeepsOrder(t, x, i - 1, j - 1);
      var p, q :| 0 <= p < q < |rest| && rest[p] == t[i - 1] && rest[q] == t[j - 1];
      assert Without(s, x)[p + k] == s[i] && Without(s, x)[q + k] == s[j];
    } else {
      var q := WithoutFinds(t, x, j - 1);
      assert Without(s, x)[0] == s[i] && Without(s, x)[q + k] == s[j];
    }
  }

  lemma {:induction false} WithoutFinds(s: seq<MemberId>, x: MemberId, j: nat) returns (q: nat)
    requires j < |s| && s[j] != x
    ensures q < |Without(s, x)| && Without(s, x)[q] == s[j]
  {
    if j == 0 { return 0; }
    q := WithoutFinds(s[1..], x, j - 1);
    if s[0] != x { q := q + 1; }
  }

  /** `x` sits in a lower slot than `y`. */
  ghost predicate Ahead(s: seq<MemberId>, x: MemberId, y: MemberId) {
    exists i, j :: 0 <= i < j < |s| && s[i] == x && s[j] == y
  }

  /** SLOTS, the members' replica indices: a delta that applies puts the member it moves or adds
      in the last slot of its new range; a promotion leaves every voter's slot as it was, and an
      addition every slot; and any two others on one side before and after keep their order. */
  lemma DeltaKeepsSlots(m: Membership, d: Delta, x: MemberId, y: MemberId)
    requires ApplyDelta(m, d).Ok?
    ensures
      var n := ApplyDelta(m, d).value;
      && (d.PromoteLearner? ==>
            && n.voters != [] && n.voters[|n.voters| - 1] == d.member
            && |n.voters| == |m.voters| + 1 && forall i :: 0 <= i < |m.voters| ==> n.voters[i] == m.voters[i])
      && (d.DemoteVoter? || d.AddLearner? ==>
            && n.learners != [] && n.learners[|n.learners| - 1] == d.member
            && |n.learners| == |m.learners| + 1 && forall i :: 0 <= i < |m.learners| ==> n.learners[i] == m.learners[i])
      && (d.AddLearner? || d.RemoveLearner? ==> n.voters == m.voters)
      && (x != d.member && y != d.member ==>
            && (Ahead(m.voters, x, y) ==> Ahead(n.voters, x, y))
            && (Ahead(m.learners, x, y) ==> Ahead(n.learners, x, y)))
  {
    hide ValidateStructure;
    var n := ApplyDelta(m, d).value;
    if x != d.member && y != d.member {
      AheadStays(m.voters, n.voters, d.member, x, y);
      AheadStays(m.learners, n.learners, d.member, x, y);
    }
  }

  lemma AheadStays(s: seq<MemberId>, t: seq<MemberId>, moved: MemberId, x: MemberId, y: MemberId)
    requires x != moved && y != moved && (t == s || t == s + [moved] || t == Without(s, moved))
    ensures Ahead(s, x, y) ==> Ahead(t, x, y)
  {
    if Ahead(s, x, y) {
      var i, j :| 0 <= i < j < |s| && s[i] == x && s[j] == y;
      if t == Without(s, moved) {
        WithoutKeepsOrder(s, moved, i, j);
      } else {
        assert t[i] == x && t[j] == y;
      }
    }
  }
}
