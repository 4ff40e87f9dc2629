/**
 * The concurrent tree on its tables: every node has a slot while it is in use, its pointer resolves by the id and byte
 * of the edge that leads to it, and a slot that was given back may be handed out again.
 */
module OlcSlots {
  import opened Wrappers
  import opened Bytes
  import opened TinyPtrs
  import opened DerefTables
  import opened DeletionLists
  import opened OlcModel
  import opened OlcInvariant
  import opened OlcSteps
  import opened OlcWrites
  import opened OlcTheorems
  import opened OlcReclaim
  import Bodies = ArtNodes

  /** Any hash function, and any way for a pointer and two hashes to pick a slot. */
  datatype Tables = Tables(idHash: (nat, Byte) -> Hashes, locate: (TinyPtr, Hashes) -> Slot)

  /** A pointer with the hashes that resolve it, as a deletion list keeps it. */
  datatype Grip = Grip(ptr: TinyPtr, hashes: Hashes)

  /** A node's id, and the pointer and hashes under which it was allocated. */
  datatype Home = Home(id: nat, grip: Grip)

  /** Beside the tree: the slots in use, and what was put in deletion lists for each node. */
  datatype Slotted = Slotted(s: State, homes: seq<Home>, live: set<Slot>, marked: map<nat, Grip>)

  function SlotAt(tables: Tables, g: Grip): Slot {
    (tables.locate)(g.ptr, g.hashes)
  }

  function HomeOf(homes: seq<Home>, x: nat): Home {
    if x < |homes| then homes[x] else Home(0, Grip(Null, Hashes(0, 0)))
  }

  function SlotOf(tables: Tables, homes: seq<Home>, x: nat): Slot {
    SlotAt(tables, HomeOf(homes, x).grip)
  }

  /** Where an access through an edge goes: the child's pointer under the hashes of the node's id and the byte. */
  function Followed(tables: Tables, homes: seq<Home>, p: nat, b: Byte, x: nat): Slot {
    (tables.locate)(HomeOf(homes, x).grip.ptr, (tables.idHash)(HomeOf(homes, p).id, b))
  }

  // ----- allocation

  /**
   * What a call of the allocator gets, a pointer into the table its special bits name; and the id of the node made
   * there.
   */
  datatype Got = Got(id: nat, ptr: TinyPtr)

  /** The table the j-th new node of a change belongs into. */
  predicate TableOk(kind: Kind, j: nat, special: nat) {
    if kind == Plain || j == 1 || (kind == LeafSplit && j == 2) then special == Bodies.LEAF
    else if kind == Grow then special in {Bodies.N16_TAG, Bodies.N256_TAG}
    else if j == 0 then special == Bodies.N4_TAG
    else special in {Bodies.N4_TAG, Bodies.N16_TAG, Bodies.N256_TAG}
  }

  /** All slots a pointer with these special bits can mean under these hashes are in use. */
  ghost predicate Full(tables: Tables, used: set<Slot>, special: nat, h: Hashes) {
    forall p: TinyPtr :: p.Ptr? && p.special == special ==> (tables.locate)(p, h) in used
  }

  /** The hashes under which the j-th new node is allocated. */
  function NewHashes(tables: Tables, homes: seq<Home>, th: Local, got: seq<Got>, j: nat, b1: Byte, b2: Byte): Hashes {
    var first := if |got| > 0 then got[0].id else 0;
    if j == 0 then (tables.idHash)(HomeOf(homes, th.anchor).id, th.ab)
    else (tables.idHash)(first, if j == 2 then b2 else if th.kind == Grow then th.byte else b1)
  }

  function NewHome(tables: Tables, homes: seq<Home>, th: Local, got: seq<Got>, j: nat, b1: Byte, b2: Byte): Home
    requires j < |got|
  {
    Home(got[j].id, Grip(got[j].ptr, NewHashes(tables, homes, th, got, j, b1, b2)))
  }

  function NewHomes(tables: Tables, homes: seq<Home>, th: Local, got: seq<Got>, b1: Byte, b2: Byte): (r: seq<Home>)
    ensures |r| == |got|
  {
    seq(|got|, j requires 0 <= j < |got| => NewHome(tables, homes, th, got, j, b1, b2))
  }

  function SlotsIn(tables: Tables, homes: seq<Home>): set<Slot> {
    set h | h in homes :: SlotAt(tables, h.grip)
  }

  /** Each call got a slot that was not in use; a bigger copy, and a node that moves, keep the victim's id. */
  ghost predicate Obtained(tables: Tables, k: Slotted, th: Local, got: seq<Got>, b1: Byte, b2: Byte) {
    var homes := NewHomes(tables, k.homes, th, got, b1, b2);
    && |got| <= NewNodes(th.kind)
    && (forall j | 0 <= j < |got| ::
          got[j].ptr.Ptr? && TableOk(th.kind, j, got[j].ptr.special)
          && SlotAt(tables, homes[j].grip) !in k.live + SlotsIn(tables, homes[..j]))
    && (th.kind == Grow && |got| > 0 ==> got[0].id == HomeOf(k.homes, th.victim).id)
    && (th.kind == PrefixSplit && |got| > 2 ==> got[2].id == HomeOf(k.homes, th.victim).id)
  }

  // ----- steps

  datatype SlotMove = SlotMove(t: nat, c: Choice, b1: Byte, b2: Byte, got: seq<Got>)

  predicate Creates(s: State, t: nat) {
    && t < |s.threads| && s.threads[t].pc == Writing && s.threads[t].at < |Program(s.threads[t].kind)|
    && Program(s.threads[t].kind)[s.threads[t].at] == Create
  }

  predicate Marks(s: State, t: nat) {
    && t < |s.threads| && s.threads[t].pc == Writing && s.threads[t].at < |Program(s.threads[t].kind)|
    && Program(s.threads[t].kind)[s.threads[t].at] == Mark
  }

  /** New nodes need slots; an insert throws exactly where the next slot it needs is not to be had. */
  ghost predicate Provided(tables: Tables, k: Slotted, m: SlotMove) {
    && m.t < |k.s.threads| == |k.s.lists|
    && if Creates(k.s, m.t) && (m.c.Throw? || (m.c.New? && m.c.b1 != m.c.b2)) then
         var th := k.s.threads[m.t];
         var homes := NewHomes(tables, k.homes, th, m.got, m.b1, m.b2);
         && Obtained(tables, k, th, m.got, m.b1, m.b2)
         && (m.c.New? ==> m.c == New(m.b1, m.b2) && |m.got| == NewNodes(th.kind))
         && (m.c.Throw? ==>
               && |m.got| < NewNodes(th.kind)
               && exists special: nat :: TableOk(th.kind, |m.got|, special)
                    && Full(tables, k.live + SlotsIn(tables, homes), special,
                            NewHashes(tables, k.homes, th, m.got, |m.got|, m.b1, m.b2)))
       else m.got == []
  }

  predicate MakesSome(s: State, m: SlotMove) {
    Creates(s, m.t) && m.c.New? && m.c.b1 != m.c.b2
  }

  function MarkedGrip(marked: map<nat, Grip>, x: nat): Grip {
    if x in marked then marked[x] else Grip(Null, Hashes(0, 0))
  }

  /** The slots a step gives back: those of the entries, under the hashes kept with them. */
  function GivenSlots(tables: Tables, k: Slotted, m: SlotMove): seq<Slot> {
    var given := Given(k.s, m.t, m.c);
    seq(|given|, a requires 0 <= a < |given| => SlotAt(tables, MarkedGrip(k.marked, given[a])))
  }

  function NextSlots(tables: Tables, k: Slotted, m: SlotMove): Slotted
    requires m.t < |k.s.threads| == |k.s.lists|
  {
    var s', th := Step(k.s, m.t, m.c), k.s.threads[m.t];
    var homes := NewHomes(tables, k.homes, th, m.got, m.b1, m.b2);
    Slotted(s',
            if |s'.nodes| > |k.s.nodes| then k.homes + homes else k.homes,
            (set x | x in k.live && x !in GivenSlots(tables, k, m)) + SlotsIn(tables, homes),
            if Marks(k.s, m.t)
            then k.marked[th.victim := Grip(HomeOf(k.homes, th.victim).grip.ptr,
                                            (tables.idHash)(HomeOf(k.homes, th.anchor).id, th.ab))]
            else k.marked)
  }

  ghost predicate InitialSlots(tables: Tables, k: Slotted) {
    && Initial(k.s) && |k.homes| == 1 && k.homes[0].grip.hashes == Hashes(0, 0) && k.marked == map[]
    && k.live == {SlotOf(tables, k.homes, 0)}
  }

  ghost predicate SlotRun(tables: Tables, states: seq<Slotted>, moves: seq<SlotMove>) {
    && |states| == |moves| + 1 && InitialSlots(tables, states[0])
    && forall i | 0 <= i < |moves| ::
         Provided(tables, states[i], moves[i]) && states[i + 1] == NextSlots(tables, states[i], moves[i])
  }

  // ----- what every step keeps

  /** A child was allocated under the hashes of the edge that leads to it. */
  ghost predicate KidOk(tables: Tables, homes: seq<Home>, n: nat, p: nat, b: Byte, x: nat) {
    x < n && HomeOf(homes, x).grip.hashes == (tables.idHash)(HomeOf(homes, p).id, b)
  }

  ghost predicate KidsHome(tables: Tables, nodes: seq<Node>, homes: seq<Home>) {
    forall p: nat, b | p < |nodes| && b in nodes[p].kids ::
      KidOk(tables, homes, |nodes|, p, b, nodes[p].kids[b])
  }

  /** So were the node to be replaced and, before the pointer moves, the node that takes its place. */
  ghost predicate ThreadHome(tables: Tables, homes: seq<Home>, th: Local) {
    th.pc == Writing ==>
      var h := (tables.idHash)(HomeOf(homes, th.anchor).id, th.ab);
      && (th.kind != Plain ==> HomeOf(homes, th.victim).grip.hashes == h)
      && (Past(th, Create) && Pending(th, Change) ==> HomeOf(homes, th.made).grip.hashes == h)
  }

  /** What a deletion list keeps of a node still resolves it. */
  ghost predicate MarkedOk(s: State, homes: seq<Home>, marked: map<nat, Grip>) {
    |s.threads| == |s.lists| &&
    forall t, x: nat | 0 <= t < |s.lists| && Listed(s.lists[t], x) :: x in marked && marked[x] == HomeOf(homes, x).grip
  }

  ghost predicate InUse(nodes: seq<Node>, x: nat) {
    x < |nodes| && nodes[x].stage != Freed
  }

  /** Nodes in use have slots in use, each its own. */
  ghost predicate OwnSlots(tables: Tables, nodes: seq<Node>, homes: seq<Home>, live: set<Slot>) {
    && (forall x: nat | InUse(nodes, x) :: SlotOf(tables, homes, x) in live)
    && (forall x: nat, y: nat | InUse(nodes, x) && InUse(nodes, y) && x != y ::
          SlotOf(tables, homes, x) != SlotOf(tables, homes, y))
  }

  ghost predicate SlotsOk(tables: Tables, k: Slotted) {
    && Inv(k.s) && ListsOk(k.s) && |k.homes| == |k.s.nodes|
    && KidsHome(tables, k.s.nodes, k.homes)
    && (forall t | 0 <= t < |k.s.threads| :: ThreadHome(tables, k.homes, k.s.threads[t]))
    && MarkedOk(k.s, k.homes, k.marked)
    && OwnSlots(tables, k.s.nodes, k.homes, k.live)
  }

  // ----- slots

  lemma SlotInSet(tables: Tables, homes: seq<Home>, j: nat)
    requires j < |homes|
    ensures SlotAt(tables, homes[j].grip) in SlotsIn(tables, homes)
  {
  }

  lemma NewApart(tables: Tables, k: Slotted, th: Local, got: seq<Got>, b1: Byte, b2: Byte, i: nat, j: nat)
    requires Obtained(tables, k, th, got, b1, b2) && i < j < |got|
    ensures var homes := NewHomes(tables, k.homes, th, got, b1, b2);
            && SlotAt(tables, homes[i].grip) != SlotAt(tables, homes[j].grip)
            && SlotAt(tables, homes[i].grip) !in k.live && SlotAt(tables, homes[j].grip) !in k.live
  {
    var homes := NewHomes(tables, k.homes, th, got, b1, b2);
    SlotInSet(tables, homes[..j], i);
  }

  /** After nodes were made: the new slots were not in use, and are now. */
  lemma MoreSlots(tables: Tables, k: Slotted, th: Local, got: seq<Got>, b1: Byte, b2: Byte, nodes': seq<Node>)
    requires OwnSlots(tables, k.s.nodes, k.homes, k.live) && |k.homes| == |k.s.nodes|
    requires Obtained(tables, k, th, got, b1, b2) && |nodes'| == |k.s.nodes| + |got|
    requires forall x | 0 <= x < |k.s.nodes| :: InUse(nodes', x) ==> InUse(k.s.nodes, x)
    ensures var homes := NewHomes(tables, k.homes, th, got, b1, b2);
            OwnSlots(tables, nodes', k.homes + homes, k.live + SlotsIn(tables, homes))
  {
    hide Obtained;
    var homes := NewHomes(tables, k.homes, th, got, b1, b2);
    var all := k.homes + homes;
    forall x: nat | InUse(nodes', x) ensures SlotOf(tables, all, x) in k.live + SlotsIn(tables, homes) {
      if x >= |k.homes| {
        SlotInSet(tables, homes, x - |k.homes|);
      }
    }
    forall x: nat, y: nat | InUse(nodes', x) && InUse(nodes', y) && x < y
      ensures SlotOf(tables, all, x) != SlotOf(tables, all, y)
    {
      if x >= |k.homes| {
        NewApart(tables, k, th, got, b1, b2, x - |k.homes|, y - |k.homes|);
      } else if y >= |k.homes| {
        NewUnused(tables, k, th, got, b1, b2, y - |k.homes|);
      }
    }
  }

  lemma NewUnused(tables: Tables, k: Slotted, th: Local, got: seq<Got>, b1: Byte, b2: Byte, j: nat)
    requires Obtained(tables, k, th, got, b1, b2) && j < |got|
    ensures SlotAt(tables, NewHomes(tables, k.homes, th, got, b1, b2)[j].grip) !in k.live
  {
  }

  /** After slots were given back, and some perhaps lost to an insert that then threw. */
  lemma FewerSlots(tables: Tables, s: State, homes: seq<Home>, live: set<Slot>, gone: seq<nat>, nodes': seq<Node>,
                   live': set<Slot>)
    requires OwnSlots(tables, s.nodes, homes, live) && |nodes'| == |s.nodes|
    requires forall x: nat | InUse(nodes', x) :: InUse(s.nodes, x) && x !in gone
    requires forall y | y in gone :: InUse(s.nodes, y)
    requires forall r | r in live && (forall y | y in gone :: r != SlotOf(tables, homes, y)) :: r in live'
    ensures OwnSlots(tables, nodes', homes, live')
  {
    forall x: nat | InUse(nodes', x) ensures SlotOf(tables, homes, x) in live' {
      assert forall y | y in gone :: SlotOf(tables, homes, x) != SlotOf(tables, homes, y);
    }
  }

  lemma GivenInUse(tables: Tables, k: Slotted, m: SlotMove, a: nat)
    requires SlotsOk(tables, k) && m.t < |k.s.threads| == |k.s.lists| && a < |Given(k.s, m.t, m.c)|
    ensures var x := Given(k.s, m.t, m.c)[a];
            && InUse(k.s.nodes, x) && x in k.marked && k.marked[x] == HomeOf(k.homes, x).grip
            && GivenSlots(tables, k, m)[a] == SlotOf(tables, k.homes, x)
  {
    hide Inv, OwnSlots, KidsHome, ThreadHome, ThreadLists;
    var x := Given(k.s, m.t, m.c)[a];
    assert Listed(k.s.lists[m.t], x);
    assert ThreadLists(k.s.nodes, k.s.threads[m.t], k.s.lists[m.t]);
    ListedInUse(k.s.nodes, k.s.threads[m.t], k.s.lists[m.t], x);
  }

  lemma ListedInUse(nodes: seq<Node>, th: Local, list: seq<Label<nat>>, x: nat)
    requires ThreadLists(nodes, th, list) && Listed(list, x)
    ensures InUse(nodes, x)
  {
    hide Once;
  }

  // ----- children

  lemma KidsByWrite(s: State, t: nat, c: Choice, i: nat)
    requires t < |s.threads| == |s.lists| && s.threads[t].pc == Writing && i < |s.nodes|
    ensures i < |WriteStep(s, t, c).nodes|
    ensures var th := s.threads[t];
            WriteStep(s, t, c).nodes[i].kids == s.nodes[i].kids
            || (th.at < |Program(th.kind)| && Program(th.kind)[th.at] == Change && i == th.anchor
                && WriteStep(s, t, c).nodes[i].kids == s.nodes[i].kids[th.ab := th.made])
  {
    hide WithEntry, Program, Created, Forsaken, Relinked;
    RelinkedLength(s, t);
    RelinkedKids(s, t, i);
    ForsakenKids(s, s.threads[t], i);
  }

  lemma ForsakenKids(s: State, th: Local, i: nat)
    requires i < |s.nodes|
    ensures |Forsaken(s, th)| == |s.nodes| && Forsaken(s, th)[i].kids == s.nodes[i].kids
  {
  }

  lemma RelinkedKids(s: State, t: nat, i: nat)
    requires t < |s.threads| && i < |s.nodes|
    ensures Relinked(s, t)[i].kids
            == if i == s.threads[t].anchor then s.nodes[i].kids[s.threads[t].ab := s.threads[t].made]
               else s.nodes[i].kids
  {
  }

  lemma KidsByLock(s: State, t: nat, i: nat)
    requires t < |s.threads| == |s.lists| && i < |s.nodes|
    ensures |LockStep(s, t).nodes| == |s.nodes| && LockStep(s, t).nodes[i].kids == s.nodes[i].kids
  {
  }

  lemma KidsQuiet(s: State, t: nat, c: Choice, i: nat)
    requires t < |s.threads| == |s.lists| && i < |s.nodes|
    ensures WalkStep(s, t, c).nodes == s.nodes
    ensures |EpochStep(s, t, c).nodes| == |s.nodes| && EpochStep(s, t, c).nodes[i].kids == s.nodes[i].kids
  {
  }

  /** Children of a node change only where a pointer moves. */
  lemma KidsAfter(s: State, t: nat, c: Choice, i: nat)
    requires t < |s.threads| == |s.lists| && i < |s.nodes|
    ensures i < |EffectOf(s, t, c).nodes|
    ensures var th := s.threads[t];
            EffectOf(s, t, c).nodes[i].kids == s.nodes[i].kids
            || (Changes(s, t) && i == th.anchor && EffectOf(s, t, c).nodes[i].kids == s.nodes[i].kids[th.ab := th.made])
  {
    hide WalkStep, LockStep, WriteStep, EpochStep, Program;
    if s.threads[t].pc == Writing {
      KidsByWrite(s, t, c, i);
    } else {
      KidsQuiet(s, t, c, i);
      KidsByLock(s, t, i);
    }
  }

  predicate Changes(s: State, t: nat) {
    && t < |s.threads| && s.threads[t].pc == Writing && s.threads[t].at < |Program(s.threads[t].kind)|
    && Program(s.threads[t].kind)[s.threads[t].at] == Change
  }

  lemma MakesNodes(s: State, t: nat, c: Choice)
    requires t < |s.threads| == |s.lists|
    ensures var nodes' := EffectOf(s, t, c).nodes;
            if Creates(s, t) && c.New? && c.b1 != c.b2 then
              nodes' == s.nodes + Created(t, s.threads[t], Get(s.nodes, s.threads[t].victim), |s.nodes|, c.b1, c.b2)
            else |nodes'| == |s.nodes|
  {
    hide WalkStep, LockStep, EpochStep, Created, Program, Relinked;
    SameLengths(s, t, c);
    RelinkedLength(s, t);
  }

  lemma SameLengths(s: State, t: nat, c: Choice)
    requires t < |s.threads| == |s.lists|
    ensures |WalkStep(s, t, c).nodes| == |LockStep(s, t).nodes| == |EpochStep(s, t, c).nodes| == |s.nodes|
  {
  }

  /** The new node that has the victim's children. */
  function CopyAt(kind: Kind): nat {
    if kind == Grow then 0 else 2
  }

  lemma KidsMade(t: nat, th: Local, victim: Node, f: nat, b1: Byte, b2: Byte, j: nat, b: Byte)
    requires j < NewNodes(th.kind) && j < |Created(t, th, victim, f, b1, b2)|
    requires b in Created(t, th, victim, f, b1, b2)[j].kids
    ensures var x := Created(t, th, victim, f, b1, b2)[j].kids[b];
            && th.kind != Plain
            && (|| (j == CopyAt(th.kind) && b in victim.kids && x == victim.kids[b])
                || (j == 0 && b == (if th.kind == Grow then th.byte else b1) && x == f + 1)
                || (j == 0 && th.kind != Grow && b == b2 && x == f + 2))
  {
  }

  /** The children of new nodes: each other, under the hashes they were allocated with, or the victim's. */
  lemma NewKids(tables: Tables, k: Slotted, m: SlotMove, j: nat, b: Byte)
    requires SlotsOk(tables, k) && Provided(tables, k, m) && Creates(k.s, m.t) && m.c.New? && m.c.b1 != m.c.b2
    requires j < NewNodes(k.s.threads[m.t].kind)
    ensures var th, f := k.s.threads[m.t], |k.s.nodes|;
            var added := Created(m.t, th, Get(k.s.nodes, th.victim), f, m.b1, m.b2);
            var homes := k.homes + NewHomes(tables, k.homes, th, m.got, m.b1, m.b2);
            && j < |added| && (b in added[j].kids ==> KidOk(tables, homes, f + |added|, f + j, b, added[j].kids[b]))
  {
    hide SlotsOk, Obtained, Full, NewHome, HomeOf, KidOk, Created, NewHomes;
    var th, f := k.s.threads[m.t], |k.s.nodes|;
    var v := Get(k.s.nodes, th.victim);
    var added := Created(m.t, th, v, f, m.b1, m.b2);
    SameSize(tables, k);
    CreatedSize(m.t, th, v, f, m.b1, m.b2);
    if b in added[j].kids {
      KidsMade(m.t, th, v, f, m.b1, m.b2, j, b);
      var homes := k.homes + NewHomes(tables, k.homes, th, m.got, m.b1, m.b2);
      forall i | 0 <= i < |m.got| ensures HomeOf(homes, f + i) == NewHome(tables, k.homes, th, m.got, i, m.b1, m.b2) {
        NewHomeAt(tables, k.homes, th, m.got, m.b1, m.b2, i);
      }
      MadeKid(tables, k.homes, homes, th, m.got, m.b1, m.b2);
      if j == CopyAt(th.kind) && b in v.kids && added[j].kids[b] == v.kids[b] {
        KidOfCopy(tables, k, m, b);
      }
    }
  }

  lemma NewHomeAt(tables: Tables, homes: seq<Home>, th: Local, got: seq<Got>, b1: Byte, b2: Byte, i: nat)
    requires i < |got|
    ensures HomeOf(homes + NewHomes(tables, homes, th, got, b1, b2), |homes| + i)
            == NewHome(tables, homes, th, got, i, b1, b2)
  {
    hide NewHome;
    HomeAt(homes, NewHomes(tables, homes, th, got, b1, b2), |homes| + i);
  }

  lemma KidOfCopy(tables: Tables, k: Slotted, m: SlotMove, b: Byte)
    requires SlotsOk(tables, k) && Provided(tables, k, m) && MakesSome(k.s, m) && k.s.threads[m.t].kind != Plain
    requires b in Get(k.s.nodes, k.s.threads[m.t].victim).kids
    ensures var th, f := k.s.threads[m.t], |k.s.nodes|;
            KidOk(tables, k.homes + NewHomes(tables, k.homes, th, m.got, m.b1, m.b2), f + |m.got|,
                  f + CopyAt(th.kind), b, Get(k.s.nodes, th.victim).kids[b])
  {
    hide SlotsOk, Full, HomeOf, KidOk, NewHomes;
    var th, f := k.s.threads[m.t], |k.s.nodes|;
    var x := Get(k.s.nodes, th.victim).kids[b];
    SameSize(tables, k);
    VictimKids(tables, k, m.t, b);
    if th.kind == LeafSplit {
      NoKids(tables, k, m.t);
      assert false;
    }
    NewHomeAt(tables, k.homes, th, m.got, m.b1, m.b2, CopyAt(th.kind));
    KidIn(tables, k.homes, f, th.victim, b, x);
    HomeAt(k.homes, NewHomes(tables, k.homes, th, m.got, m.b1, m.b2), x);
    var homes := k.homes + NewHomes(tables, k.homes, th, m.got, m.b1, m.b2);
    CopiedKid(tables, k.homes, homes, th.victim, f + CopyAt(th.kind), f, f + |m.got|, b, x);
  }

  lemma KidIn(tables: Tables, homes: seq<Home>, n: nat, p: nat, b: Byte, x: nat)
    requires KidOk(tables, homes, n, p, b, x)
    ensures x < n
  {
  }

  lemma NoKids(tables: Tables, k: Slotted, t: nat)
    requires SlotsOk(tables, k) && t < |k.s.threads| && k.s.threads[t].pc == Writing && k.s.threads[t].kind == LeafSplit
    ensures Get(k.s.nodes, k.s.threads[t].victim).kids == map[]
  {
    hide Inv, ListsOk, MarkedOk, OwnSlots, KidsHome, ThreadHome;
    LeafVictim(k.s, t);
  }

  lemma HomeAt(homes: seq<Home>, more: seq<Home>, x: nat)
    ensures x < |homes| ==> HomeOf(homes + more, x) == HomeOf(homes, x)
    ensures |homes| <= x < |homes| + |more| ==> HomeOf(homes + more, x) == more[x - |homes|]
  {
  }

  lemma CopiedKid(tables: Tables, homes: seq<Home>, homes': seq<Home>, v: nat, p: nat, n: nat, n': nat, b: Byte, x: nat)
    requires KidOk(tables, homes, n, v, b, x) && n <= n'
    requires HomeOf(homes', x) == HomeOf(homes, x) && HomeOf(homes', p).id == HomeOf(homes, v).id
    ensures KidOk(tables, homes', n', p, b, x)
  {
  }

  /** The new node's own children. */
  lemma MadeKid(tables: Tables, homes: seq<Home>, homes': seq<Home>, th: Local, got: seq<Got>, b1: Byte, b2: Byte)
    requires |got| == NewNodes(th.kind) && th.kind != Plain
    requires forall i | 0 <= i < |got| :: HomeOf(homes', |homes| + i) == NewHome(tables, homes, th, got, i, b1, b2)
    ensures var f, n := |homes|, |homes| + |got|;
            && KidOk(tables, homes', n, f, if th.kind == Grow then th.byte else b1, f + 1)
            && (th.kind != Grow ==> KidOk(tables, homes', n, f, b2, f + 2))
  {
    hide HomeOf;
    assert HomeOf(homes', |homes| + 0) == NewHome(tables, homes, th, got, 0, b1, b2);
    assert HomeOf(homes', |homes| + 1) == NewHome(tables, homes, th, got, 1, b1, b2);
    if th.kind != Grow {
      assert HomeOf(homes', |homes| + 2) == NewHome(tables, homes, th, got, 2, b1, b2);
    }
  }

  lemma VictimKids(tables: Tables, k: Slotted, t: nat, b: Byte)
    requires SlotsOk(tables, k) && t < |k.s.threads|
    ensures var v := Get(k.s.nodes, k.s.threads[t].victim);
            b in v.kids ==> KidOk(tables, k.homes, |k.s.nodes|, k.s.threads[t].victim, b, v.kids[b])
  {
    hide Inv, ListsOk, MarkedOk, OwnSlots, ThreadHome;
  }

  lemma LeafVictim(s: State, t: nat)
    requires Inv(s) && t < |s.threads| && s.threads[t].pc == Writing && s.threads[t].kind == LeafSplit
    ensures Get(s.nodes, s.threads[t].victim).kids == map[]
  {
    hide Inv, HeldOk, MadeOk, Graph, Locks;
    WritesOf(s, t);
    VictimLeaf(s, t);
  }

  /** Homes after a step: old nodes keep theirs. */
  lemma HomesAfter(tables: Tables, k: Slotted, m: SlotMove)
    requires SlotsOk(tables, k) && Provided(tables, k, m)
    ensures var k' := NextSlots(tables, k, m);
            && k'.s == Step(k.s, m.t, m.c) && k'.s.nodes == EffectOf(k.s, m.t, m.c).nodes
            && |k.s.nodes| <= |k'.s.nodes| && |k'.homes| == |k'.s.nodes|
            && (forall x: nat | x < |k.homes| :: HomeOf(k'.homes, x) == HomeOf(k.homes, x))
            && if MakesSome(k.s, m) then
                 k'.homes == k.homes + NewHomes(tables, k.homes, k.s.threads[m.t], m.got, m.b1, m.b2)
               else k'.homes == k.homes && |k'.s.nodes| == |k.s.nodes|
  {
    hide Inv, ListsOk, MarkedOk, OwnSlots, ThreadHome, Full, Obtained, EffectOf, Created, KidsHome, NewHome, GivenSlots,
         Step, Program;
    var s, th := k.s, k.s.threads[m.t];
    StepNodes(s, m.t, m.c);
    MakesNodes(s, m.t, m.c);
    if MakesSome(s, m) {
      CreatedSize(m.t, th, Get(s.nodes, th.victim), |s.nodes|, m.c.b1, m.c.b2);
    }
  }

  lemma OldKids(tables: Tables, k: Slotted, homes': seq<Home>, n': nat, t: nat, c: Choice, p: nat, b: Byte)
    requires SlotsOk(tables, k) && t < |k.s.threads| == |k.s.lists| && p < |k.s.nodes| <= n'
    requires p < |EffectOf(k.s, t, c).nodes|
    requires forall x: nat | x < |k.homes| :: HomeOf(homes', x) == HomeOf(k.homes, x)
    requires b in EffectOf(k.s, t, c).nodes[p].kids
    ensures KidOk(tables, homes', n', p, b, EffectOf(k.s, t, c).nodes[p].kids[b])
  {
    hide Inv, ListsOk, MarkedOk, OwnSlots, EffectOf, HomeOf, ThreadHome, Changes;
    KidsAfter(k.s, t, c, p);
    var x := EffectOf(k.s, t, c).nodes[p].kids[b];
    if b in k.s.nodes[p].kids && x == k.s.nodes[p].kids[b] {
      assert KidOk(tables, k.homes, |k.s.nodes|, p, b, x);
    } else {
      MovedKid(tables, k, t);
    }
  }

  lemma MovedKid(tables: Tables, k: Slotted, t: nat)
    requires SlotsOk(tables, k) && Changes(k.s, t)
    ensures var th := k.s.threads[t]; KidOk(tables, k.homes, |k.s.nodes|, th.anchor, th.ab, th.made)
  {
    hide Inv, ListsOk, MarkedOk, OwnSlots, KidsHome, Program;
    var th := k.s.threads[t];
    ChangeNow(k.s, t);
    assert ThreadHome(tables, k.homes, th);
  }

  lemma ChangeNow(s: State, t: nat)
    requires Inv(s) && Changes(s, t)
    ensures Past(s.threads[t], Create) && Pending(s.threads[t], Change) && s.threads[t].made < |s.nodes|
  {
    hide Inv, Pending, Past;
    InvLists(s);
    ChangeReady(s, t);
    NewNodeFacts(s, t);
    hide Relinks;
    assert NewNodes(s.threads[t].kind) > 0;
    ActNow(s.threads[t]);
  }

  lemma InvLists(s: State)
    requires Inv(s)
    ensures |s.threads| == |s.lists|
  {
    hide Graph, NodeOk, ThreadOk, ListOk, PairOk;
  }

  lemma ActNow(th: Local)
    requires th.pc == Writing && th.at < |Program(th.kind)| && Program(th.kind)[th.at] == Change
    ensures Past(th, Create) && Pending(th, Change)
  {
  }

  lemma SameSize(tables: Tables, k: Slotted)
    requires SlotsOk(tables, k)
    ensures |k.homes| == |k.s.nodes| && |k.s.threads| == |k.s.lists|
  {
    hide Inv, ListsOk, MarkedOk, OwnSlots, KidsHome, ThreadHome;
    InvLists(k.s);
  }

  lemma NewKidsHere(tables: Tables, k: Slotted, m: SlotMove, p: nat, b: Byte)
    requires SlotsOk(tables, k) && Provided(tables, k, m)
    requires var k' := NextSlots(tables, k, m);
             |k.s.nodes| <= p < |k'.s.nodes| && b in k'.s.nodes[p].kids
    ensures var k' := NextSlots(tables, k, m);
            KidOk(tables, k'.homes, |k'.s.nodes|, p, b, k'.s.nodes[p].kids[b])
  {
    hide SlotsOk, Obtained, Full, EffectOf, Created, KidOk, NextSlots, NewHomes, HomeOf, Step, Creates;
    var s, th := k.s, k.s.threads[m.t];
    HomesAfter(tables, k, m);
    MakesNodes(s, m.t, m.c);
    CreatedSize(m.t, th, Get(s.nodes, th.victim), |s.nodes|, m.b1, m.b2);
    NewKids(tables, k, m, p - |s.nodes|, b);
    assert p == |s.nodes| + (p - |s.nodes|);
  }

  lemma KidsHomeKept(tables: Tables, k: Slotted, m: SlotMove)
    requires SlotsOk(tables, k) && Provided(tables, k, m)
    ensures var k' := NextSlots(tables, k, m); KidsHome(tables, k'.s.nodes, k'.homes)
  {
    hide SlotsOk, Full, Obtained, EffectOf, KidOk, NextSlots, HomeOf, Step;
    var k' := NextSlots(tables, k, m);
    HomesAfter(tables, k, m);
    SameSize(tables, k);
    forall p: nat, b | p < |k'.s.nodes| && b in k'.s.nodes[p].kids
      ensures KidOk(tables, k'.homes, |k'.s.nodes|, p, b, k'.s.nodes[p].kids[b])
    {
      if p < |k.s.nodes| {
        OldKids(tables, k, k'.homes, |k'.s.nodes|, m.t, m.c, p, b);
      } else {
        NewKidsHere(tables, k, m, p, b);
      }
    }
  }

  // ----- what the threads keep

  lemma OtherHome(tables: Tables, homes: seq<Home>, homes': seq<Home>, nodes: seq<Node>, t: nat, th: Local)
    requires ThreadHome(tables, homes, th) && WritingOk(nodes, t, th) && |homes| == |nodes|
    requires forall x: nat | x < |homes| :: HomeOf(homes', x) == HomeOf(homes, x)
    ensures ThreadHome(tables, homes', th)
  {
    hide HomeOf, Pending, Past;
    if th.pc == Writing && Past(th, Create) && Pending(th, Change) {
      MadeInRange(nodes, t, th);
    }
  }

  lemma MadeInRange(nodes: seq<Node>, t: nat, th: Local)
    requires WritingOk(nodes, t, th) && th.pc == Writing && Past(th, Create) && Pending(th, Change)
    ensures th.made < |nodes|
  {
    CreatedSize(t, th, Get(nodes, th.victim), th.made, th.nb1, th.nb2);
    hide Created;
  }

  /** The node to be replaced hangs under the anchor's edge as long as the pointer has not moved. */
  lemma VictimHome(tables: Tables, nodes: seq<Node>, homes: seq<Home>, t: nat, th: Local)
    requires KidsHome(tables, nodes, homes) && WritingOk(nodes, t, th) && th.pc == Writing && th.kind != Plain
    requires Pending(th, Change)
    ensures HomeOf(homes, th.victim).grip.hashes == (tables.idHash)(HomeOf(homes, th.anchor).id, th.ab)
  {
    hide HomeOf, MadeOk, Pending, Past;
    assert KidOk(tables, homes, |nodes|, th.anchor, th.ab, th.victim);
  }

  /** A thread that is writing and past its change, or past its creation, was writing before the step. */
  lemma WroteBefore(s: State, t: nat, c: Choice)
    requires t < |s.threads| == |s.lists| && EffectOf(s, t, c).local.pc == Writing
    ensures var th, th' := s.threads[t], EffectOf(s, t, c).local;
            (!Pending(th', Change) || Past(th', Create)) ==>
              && th.pc == Writing && th'.kind == th.kind && th'.victim == th.victim && th'.anchor == th.anchor
              && th'.ab == th.ab
  {
    hide EffectOf;
    if s.threads[t].pc == Writing {
      WritesOn(s, t, c);
    } else {
      StartsAtZero(s, t, c);
    }
  }

  lemma CreatedNow(s: State, t: nat, c: Choice)
    requires t < |s.threads| == |s.lists| && s.threads[t].pc == Writing && EffectOf(s, t, c).local.pc == Writing
    requires Past(EffectOf(s, t, c).local, Create) && Pending(EffectOf(s, t, c).local, Change)
    ensures var th, th' := s.threads[t], EffectOf(s, t, c).local;
            if Past(th, Create) then Pending(th, Change) && th'.made == th.made
            else Creates(s, t) && c.New? && c.b1 != c.b2 && th'.made == |s.nodes|
  {
    hide WithEntry, Program, Created, Relinked;
    var th := s.threads[t];
    PosIsPosition(th.kind, Create, th.at);
  }

  lemma OwnHome(tables: Tables, k: Slotted, m: SlotMove)
    requires SlotsOk(tables, k) && Provided(tables, k, m)
    ensures var k' := NextSlots(tables, k, m); m.t < |k'.s.threads| && ThreadHome(tables, k'.homes, k'.s.threads[m.t])
  {
    hide Full, Obtained, EffectOf, NextSlots, HomeOf, Step, Inv, Good, ListsOk, MarkedOk, OwnSlots, KidsHome, NewHomes,
         Pending, Past, Creates, WritingOk;
    var k' := NextSlots(tables, k, m);
    var th, th' := k.s.threads[m.t], EffectOf(k.s, m.t, m.c).local;
    HomesAfter(tables, k, m);
    KidsHomeKept(tables, k, m);
    StepKeeps(k.s, m.t, m.c);
    StepThread(k.s, m.t, m.c);
    if th'.pc == Writing {
      WritingAfter(k'.s, m.t);
      WroteBefore(k.s, m.t, m.c);
      if th'.kind != Plain && Pending(th', Change) {
        VictimHome(tables, k'.s.nodes, k'.homes, m.t, th');
      } else if th'.kind != Plain {
        RangeOf(k.s, m.t);
      }
      if Past(th', Create) && Pending(th', Change) {
        MadeHome(tables, k, m);
      }
    }
  }

  lemma RangeOf(s: State, t: nat)
    requires Inv(s) && t < |s.threads| && s.threads[t].pc == Writing
    ensures s.threads[t].anchor < |s.nodes| && (s.threads[t].kind != Plain ==> s.threads[t].victim < |s.nodes|)
  {
    hide Inv, MadeOk;
    WritingAfter(s, t);
  }

  lemma MadeHome(tables: Tables, k: Slotted, m: SlotMove)
    requires SlotsOk(tables, k) && Provided(tables, k, m)
    requires var th' := EffectOf(k.s, m.t, m.c).local;
             th'.pc == Writing && Past(th', Create) && Pending(th', Change)
    ensures var k', th' := NextSlots(tables, k, m), EffectOf(k.s, m.t, m.c).local;
            HomeOf(k'.homes, th'.made).grip.hashes == (tables.idHash)(HomeOf(k'.homes, th'.anchor).id, th'.ab)
  {
    hide Full, EffectOf, NextSlots, Step, Inv, ListsOk, MarkedOk, OwnSlots, KidsHome, Pending, Past, Creates, HomeOf;
    var th := k.s.threads[m.t];
    WroteBefore(k.s, m.t, m.c);
    HomesAfter(tables, k, m);
    CreatedNow(k.s, m.t, m.c);
    RangeOf(k.s, m.t);
    if Past(th, Create) {
      WritingAfter(k.s, m.t);
      MadeInRange(k.s.nodes, m.t, th);
    } else {
      HomeAt(k.homes, NewHomes(tables, k.homes, th, m.got, m.b1, m.b2), |k.homes|);
      SomeNew(th.kind);
    }
  }

  lemma SomeNew(kind: Kind)
    ensures NewNodes(kind) > 0
  {
  }

  lemma StepThread(s: State, t: nat, c: Choice)
    requires t < |s.threads| == |s.lists|
    ensures |Step(s, t, c).threads| == |s.threads| && Step(s, t, c).threads[t] == EffectOf(s, t, c).local
    ensures forall u | 0 <= u < |s.threads| && u != t :: Step(s, t, c).threads[u] == s.threads[u]
    ensures |Step(s, t, c).lists| == |s.lists| && Step(s, t, c).lists[t] == EffectOf(s, t, c).list
    ensures forall u | 0 <= u < |s.lists| && u != t :: Step(s, t, c).lists[u] == s.lists[u]
  {
    hide EffectOf;
  }

  lemma WritingAfter(s: State, t: nat)
    requires Inv(s) && t < |s.threads|
    ensures WritingOk(s.nodes, t, s.threads[t])
  {
    hide Inv, HeldOk, Graph, Locks, WalkOk, ProbeOk, LockingOk;
    ThreadOf(s, t);
  }

  // ----- what the deletion lists keep

  /** What is put in a list is what the node was allocated with. */
  lemma MarkedRight(tables: Tables, k: Slotted, t: nat)
    requires SlotsOk(tables, k) && Marks(k.s, t)
    ensures var th := k.s.threads[t];
            && th.victim < |k.homes|
            && Grip(HomeOf(k.homes, th.victim).grip.ptr, (tables.idHash)(HomeOf(k.homes, th.anchor).id, th.ab))
               == HomeOf(k.homes, th.victim).grip
  {
    hide Inv, ListsOk, MarkedOk, OwnSlots, KidsHome, HomeOf;
    MarkedNow(k.s, t);
    RangeOf(k.s, t);
    assert ThreadHome(tables, k.homes, k.s.threads[t]);
  }

  /** Who is in a list after a step was in it before, or is the node marked. */
  lemma ListedAfter(s: State, t: nat, c: Choice, x: nat)
    requires Inv(s) && ListsOk(s) && t < |s.threads| == |s.lists| && Listed(EffectOf(s, t, c).list, x)
    ensures Listed(s.lists[t], x) || (Marks(s, t) && x == s.threads[t].victim)
  {
    hide Inv, EffectOf, Listed, Program, WithEntry, Once;
    ListAfter(s, t, c);
    assert ThreadLists(s.nodes, s.threads[t], s.lists[t]);
    if Marks(s, t) {
      MarkedNow(s, t);
      OneMoreOnce(s.lists[t], s.threads[t].victim, s.threads[t].markEpoch);
    } else if Frees(s, t, c) {
      FewerOnce(s.lists[t], c.i);
    }
  }

  lemma ListedRange(tables: Tables, k: Slotted, u: nat, x: nat)
    requires SlotsOk(tables, k) && u < |k.s.lists| && Listed(k.s.lists[u], x)
    ensures u < |k.s.threads| && InUse(k.s.nodes, x) && x in k.marked && k.marked[x] == HomeOf(k.homes, x).grip
  {
    hide Inv, OwnSlots, KidsHome, ThreadHome, ThreadLists, Listed;
    assert ThreadLists(k.s.nodes, k.s.threads[u], k.s.lists[u]);
    ListedInUse(k.s.nodes, k.s.threads[u], k.s.lists[u], x);
  }

  lemma MarkedKept(tables: Tables, k: Slotted, m: SlotMove)
    requires SlotsOk(tables, k) && Provided(tables, k, m)
    ensures var k' := NextSlots(tables, k, m); MarkedOk(k'.s, k'.homes, k'.marked)
  {
    hide SlotsOk, Full, Obtained, EffectOf, HomeOf, Step, Marks, NewHomes, GivenSlots, Listed;
    var k' := NextSlots(tables, k, m);
    HomesAfter(tables, k, m);
    StepThread(k.s, m.t, m.c);
    SameSize(tables, k);
    if Marks(k.s, m.t) {
      MarkedRight(tables, k, m.t);
    }
    forall t, x: nat | 0 <= t < |k'.s.lists| && Listed(k'.s.lists[t], x)
      ensures x in k'.marked && k'.marked[x] == HomeOf(k'.homes, x).grip
    {
      if t == m.t {
        RunsOn(tables, k);
        ListedAfter(k.s, t, m.c, x);
      }
      if Listed(k.s.lists[t], x) {
        ListedRange(tables, k, t, x);
      }
    }
  }

  lemma RunsOn(tables: Tables, k: Slotted)
    requires SlotsOk(tables, k)
    ensures Inv(k.s) && ListsOk(k.s) && OwnSlots(tables, k.s.nodes, k.homes, k.live)
  {
    hide Inv, ListsOk, MarkedOk, OwnSlots, KidsHome, ThreadHome;
  }

  // ----- slots in use

  lemma NothingGiven(s: State, t: nat, c: Choice)
    requires Creates(s, t)
    ensures Given(s, t, c) == []
  {
    hide Program;
  }

  /** Nobody is in use after a step that was not before, but the nodes made; nor anybody given back. */
  lemma UseAfter(tables: Tables, k: Slotted, m: SlotMove, x: nat)
    requires SlotsOk(tables, k) && Provided(tables, k, m) && x < |k.s.nodes|
    requires InUse(NextSlots(tables, k, m).s.nodes, x)
    ensures InUse(k.s.nodes, x) && x !in Given(k.s, m.t, m.c)
  {
    hide SlotsOk, Full, Obtained, EffectOf, HomeOf, Step, Marks, NewHomes, GivenSlots, Given, Good, Inv;
    RunsOn(tables, k);
    HomesAfter(tables, k, m);
    NewlyFreed(k.s, m.t, m.c, x);
    StepKeeps(k.s, m.t, m.c);
    if k.s.nodes[x].stage == Freed {
      FreedForGood(k.s, m.t, EffectOf(k.s, m.t, m.c), x);
    }
  }

  lemma SlotsAfter(tables: Tables, k: Slotted, m: SlotMove)
    requires SlotsOk(tables, k) && Provided(tables, k, m)
    ensures var k' := NextSlots(tables, k, m); OwnSlots(tables, k'.s.nodes, k'.homes, k'.live)
  {
    hide SlotsOk, Full, EffectOf, HomeOf, Step, Marks, NewHomes, GivenSlots, Given, Obtained, SlotOf, OwnSlots, Creates;
    var k', gone := NextSlots(tables, k, m), Given(k.s, m.t, m.c);
    RunsOn(tables, k);
    SameSize(tables, k);
    HomesAfter(tables, k, m);
    forall x: nat | x < |k.s.nodes| && InUse(k'.s.nodes, x) ensures InUse(k.s.nodes, x) && x !in gone {
      UseAfter(tables, k, m, x);
    }
    if MakesSome(k.s, m) {
      NothingGiven(k.s, m.t, m.c);
      NoSlotsGiven(tables, k, m);
      MoreSlots(tables, k, k.s.threads[m.t], m.got, m.b1, m.b2, k'.s.nodes);
    } else {
      forall y | y in gone ensures InUse(k.s.nodes, y) {
        var a: nat :| a < |gone| && gone[a] == y;
        GivenInUse(tables, k, m, a);
      }
      forall r | r in k.live && (forall y | y in gone :: r != SlotOf(tables, k.homes, y)) ensures r in k'.live {
        StillLive(tables, k, m, r);
      }
      FewerSlots(tables, k.s, k.homes, k.live, gone, k'.s.nodes, k'.live);
    }
  }

  lemma NoSlotsGiven(tables: Tables, k: Slotted, m: SlotMove)
    requires m.t < |k.s.threads| == |k.s.lists| && Given(k.s, m.t, m.c) == []
    ensures GivenSlots(tables, k, m) == []
    ensures (set x | x in k.live && x !in GivenSlots(tables, k, m)) == k.live
  {
  }

  lemma StillLive(tables: Tables, k: Slotted, m: SlotMove, r: Slot)
    requires SlotsOk(tables, k) && Provided(tables, k, m) && r in k.live
    requires forall y | y in Given(k.s, m.t, m.c) :: r != SlotOf(tables, k.homes, y)
    ensures r in NextSlots(tables, k, m).live
  {
    hide SlotsOk, Full, HomeOf, Step, Marks, NewHomes, Given, Obtained, SlotOf, Creates;
    if r in GivenSlots(tables, k, m) {
      var a: nat :| a < |GivenSlots(tables, k, m)| && GivenSlots(tables, k, m)[a] == r;
      GivenInUse(tables, k, m, a);
    }
  }

  // ----- every run

  lemma OthersHome(tables: Tables, k: Slotted, m: SlotMove, u: nat)
    requires SlotsOk(tables, k) && Provided(tables, k, m) && u < |k.s.threads| && u != m.t
    ensures var k' := NextSlots(tables, k, m); u < |k'.s.threads| && ThreadHome(tables, k'.homes, k'.s.threads[u])
  {
    hide Inv, ListsOk, MarkedOk, OwnSlots, KidsHome, Full, Obtained, NextSlots, EffectOf, Step, HomeOf, WritingOk,
         ThreadHome;
    HomesAfter(tables, k, m);
    StepThread(k.s, m.t, m.c);
    WritingAfter(k.s, u);
    OtherHome(tables, k.homes, NextSlots(tables, k, m).homes, k.s.nodes, u, k.s.threads[u]);
  }

  /** Every step keeps pointers, hashes and slots together. */
  lemma SlotsKept(tables: Tables, k: Slotted, m: SlotMove)
    requires SlotsOk(tables, k) && Provided(tables, k, m)
    ensures SlotsOk(tables, NextSlots(tables, k, m))
  {
    hide Inv, ListsOk, MarkedOk, OwnSlots, KidsHome, ThreadHome, Full, Obtained, NextSlots, EffectOf, Step;
    var k' := NextSlots(tables, k, m);
    HomesAfter(tables, k, m);
    StepThread(k.s, m.t, m.c);
    ListsKept(k.s, m.t, m.c);
    KidsHomeKept(tables, k, m);
    MarkedKept(tables, k, m);
    SlotsAfter(tables, k, m);
    forall u | 0 <= u < |k'.s.threads| ensures ThreadHome(tables, k'.homes, k'.s.threads[u]) {
      if u == m.t {
        OwnHome(tables, k, m);
      } else {
        OthersHome(tables, k, m, u);
      }
    }
  }

  lemma InitialSlotsOk(tables: Tables, k: Slotted)
    requires InitialSlots(tables, k)
    ensures SlotsOk(tables, k)
  {
    InitialOk(k.s);
    InitialLists(k.s);
    hide Inv, ListsOk;
  }

  lemma {:induction false} SlotsReachable(tables: Tables, states: seq<Slotted>, moves: seq<SlotMove>, i: nat)
    requires SlotRun(tables, states, moves) && i < |states|
    ensures SlotsOk(tables, states[i])
  {
    hide SlotsOk, NextSlots, Provided, InitialSlots;
    if i == 0 {
      InitialSlotsOk(tables, states[0]);
    } else {
      SlotsReachable(tables, states, moves, i - 1);
      SlotsKept(tables, states[i - 1], moves[i - 1]);
    }
  }

  ghost function OnlyTree(states: seq<Slotted>): seq<State> {
    seq(|states|, i requires 0 <= i < |states| => states[i].s)
  }

  ghost function OnlyMoves(moves: seq<SlotMove>): seq<Move> {
    seq(|moves|, i requires 0 <= i < |moves| => Move(moves[i].t, moves[i].c))
  }

  /** Without the slots it is a run of the tree. */
  lemma SlotRunsAreRuns(tables: Tables, states: seq<Slotted>, moves: seq<SlotMove>)
    requires SlotRun(tables, states, moves)
    ensures Run(OnlyTree(states), OnlyMoves(moves))
  {
    hide SlotsOk, NextSlots, Provided, Step, InitialSlots;
    FirstIsInitial(tables, states[0]);
    forall i | 0 <= i < |moves|
      ensures moves[i].t < |states[i].s.threads| == |states[i].s.lists|
      ensures states[i + 1].s == Step(states[i].s, moves[i].t, moves[i].c)
    {
      SlotsReachable(tables, states, moves, i);
      HomesAfter(tables, states[i], moves[i]);
      ProvidedThread(tables, states[i], moves[i]);
    }
  }

  lemma FirstIsInitial(tables: Tables, k: Slotted)
    requires InitialSlots(tables, k)
    ensures Initial(k.s)
  {
  }

  lemma ProvidedThread(tables: Tables, k: Slotted, m: SlotMove)
    requires Provided(tables, k, m)
    ensures m.t < |k.s.threads| == |k.s.lists|
  {
    hide Obtained, Full;
  }

  // ----- what it means

  /** A slot is one node's: in use, and no other node in use has it. */
  ghost predicate Owns(tables: Tables, k: Slotted, x: nat) {
    && InUse(k.s.nodes, x) && x < |k.homes| && SlotOf(tables, k.homes, x) in k.live
    && forall y: nat | InUse(k.s.nodes, y) && y != x :: SlotOf(tables, k.homes, y) != SlotOf(tables, k.homes, x)
  }

  lemma OwnsSlot(tables: Tables, k: Slotted, x: nat)
    requires SlotsOk(tables, k) && InUse(k.s.nodes, x)
    ensures Owns(tables, k, x)
  {
    hide Inv, ListsOk, MarkedOk, KidsHome, ThreadHome;
  }

  /**
   * In every state of every run, whatever the hash functions, a child of the tree is found where it is: its pointer
   * under the hashes of its parent's id and byte means the slot it was allocated, and that slot is its own.
   */
  lemma EdgesResolve(tables: Tables, states: seq<Slotted>, moves: seq<SlotMove>, i: nat, p: nat, b: Byte, x: nat)
    requires SlotRun(tables, states, moves) && i < |states| && Edge(states[i].s.nodes, p, b) == Some(x)
    ensures Followed(tables, states[i].homes, p, b, x) == SlotOf(tables, states[i].homes, x)
    ensures Owns(tables, states[i], x)
  {
    hide SlotsOk, NextSlots, Provided, InitialSlots, Owns;
    SlotsReachable(tables, states, moves, i);
    KidResolves(tables, states[i], p, b);
    ChildLinked(tables, states[i], p, b);
    OwnsSlot(tables, states[i], x);
  }

  lemma ChildLinked(tables: Tables, k: Slotted, p: nat, b: Byte)
    requires SlotsOk(tables, k) && Edge(k.s.nodes, p, b).Some?
    ensures InUse(k.s.nodes, Edge(k.s.nodes, p, b).value)
  {
    hide ListsOk, MarkedOk, KidsHome, ThreadHome, OwnSlots, NodeOk, ThreadOk, ListOk, PairOk;
  }

  lemma KidResolves(tables: Tables, k: Slotted, p: nat, b: Byte)
    requires SlotsOk(tables, k) && p < |k.s.nodes| && b in k.s.nodes[p].kids
    ensures var x := k.s.nodes[p].kids[b]; Followed(tables, k.homes, p, b, x) == SlotOf(tables, k.homes, x)
  {
    hide Inv, ListsOk, MarkedOk, ThreadHome, OwnSlots;
    assert KidOk(tables, k.homes, |k.s.nodes|, p, b, k.s.nodes[p].kids[b]);
  }

  /**
   * What a cleanup passes to the tables' free: slots in use, each once, those of nodes that are cut off and that no
   * operation holds. Afterwards they are not in use.
   */
  lemma FreesOwnSlots(tables: Tables, states: seq<Slotted>, moves: seq<SlotMove>, n: nat, a: nat)
    requires SlotRun(tables, states, moves) && n < |moves| && a < |GivenSlots(tables, states[n], moves[n])|
    ensures var k, freed := states[n], GivenSlots(tables, states[n], moves[n]);
            && a < |Given(k.s, moves[n].t, moves[n].c)|
            && var x := Given(k.s, moves[n].t, moves[n].c)[a];
               && freed[a] == SlotOf(tables, k.homes, x) && Owns(tables, k, x)
               && k.s.nodes[x].stage == Unlinked
               && (forall u | 0 <= u < |k.s.threads| && InOp(k.s.threads[u].pc) :: x !in k.s.threads[u].held)
               && (forall b | 0 <= b < |freed| && freed[b] == freed[a] :: a == b)
               && freed[a] !in states[n + 1].live
  {
    hide SlotsOk, NextSlots, Provided, Step, InitialSlots, Owns, Given, Run;
    var k, m := states[n], moves[n];
    var given := Given(k.s, m.t, m.c);
    SlotsReachable(tables, states, moves, n);
    SlotRunsAreRuns(tables, states, moves);
    ProvidedThread(tables, k, m);
    GivenInUse(tables, k, m, a);
    OwnsSlot(tables, k, given[a]);
    FreesOnlyGarbage(OnlyTree(states), OnlyMoves(moves), n, a);
    forall b | 0 <= b < |GivenSlots(tables, k, m)| && GivenSlots(tables, k, m)[b] == GivenSlots(tables, k, m)[a]
      ensures a == b
    {
      GivenInUse(tables, k, m, b);
      SameOwner(tables, k, given[a], given[b]);
    }
    GoneAfter(tables, k, m, a);
  }

  lemma SameOwner(tables: Tables, k: Slotted, x: nat, y: nat)
    requires Owns(tables, k, x) && InUse(k.s.nodes, y) && SlotOf(tables, k.homes, x) == SlotOf(tables, k.homes, y)
    ensures x == y
  {
  }

  lemma GoneAfter(tables: Tables, k: Slotted, m: SlotMove, a: nat)
    requires Provided(tables, k, m) && a < |GivenSlots(tables, k, m)|
    ensures GivenSlots(tables, k, m)[a] !in NextSlots(tables, k, m).live
  {
    hide Obtained, Full, Step, NewHomes;
    if Creates(k.s, m.t) {
      NothingGiven(k.s, m.t, m.c);
    }
    assert SlotsIn(tables, NewHomes(tables, k.homes, k.s.threads[m.t], [], m.b1, m.b2)) == {};
  }

  /** Nodes keep their homes. */
  lemma {:induction false} HomesStay(tables: Tables, states: seq<Slotted>, moves: seq<SlotMove>, i: nat, j: nat, x: nat)
    requires SlotRun(tables, states, moves) && i <= j < |states| && x < |states[i].homes|
    ensures x < |states[j].homes| && HomeOf(states[j].homes, x) == HomeOf(states[i].homes, x)
    decreases j
  {
    hide SlotsOk, NextSlots, Provided, Step, InitialSlots, HomeOf;
    if i < j {
      HomesStay(tables, states, moves, i, j - 1, x);
      SlotsReachable(tables, states, moves, j - 1);
      SameSize(tables, states[j - 1]);
      HomesAfter(tables, states[j - 1], moves[j - 1]);
    }
  }

  /**
   * Epoch safety, of slots: the slot of a node that a thread obtained by a validated read is not passed to free before
   * the operation of that thread ends, and so belongs to no other node until then, whatever the others do.
   */
  lemma HeldSlotStays(tables: Tables, states: seq<Slotted>, moves: seq<SlotMove>, t: nat, x: nat, i: nat, j: nat)
    requires SlotRun(tables, states, moves) && OneOperation(OnlyTree(states), t, i, j)
    requires t < |states[i].s.threads| && x in states[i].s.threads[t].held
    ensures Owns(tables, states[j], x) && SlotOf(tables, states[j].homes, x) == SlotOf(tables, states[i].homes, x)
    ensures forall n | i <= n < j :: SlotOf(tables, states[i].homes, x) !in GivenSlots(tables, states[n], moves[n])
  {
    hide SlotsOk, NextSlots, Provided, Step, InitialSlots, Owns, Given, Run, HomeOf;
    SlotRunsAreRuns(tables, states, moves);
    StillOwned(tables, states, moves, t, x, i, j);
    forall n | i <= n < j ensures SlotOf(tables, states[i].homes, x) !in GivenSlots(tables, states[n], moves[n]) {
      StillOwned(tables, states, moves, t, x, i, n);
      StillOwned(tables, states, moves, t, x, i, n + 1);
      HomesStay(tables, states, moves, n, n + 1, x);
      NotPassed(tables, states, moves, n, x);
    }
  }

  lemma StillOwned(tables: Tables, states: seq<Slotted>, moves: seq<SlotMove>, t: nat, x: nat, i: nat, j: nat)
    requires SlotRun(tables, states, moves) && Run(OnlyTree(states), OnlyMoves(moves))
    requires OneOperation(OnlyTree(states), t, i, j)
    requires t < |states[i].s.threads| && x in states[i].s.threads[t].held
    ensures x < |states[j].homes| && Owns(tables, states[j], x)
    ensures SlotOf(tables, states[j].homes, x) == SlotOf(tables, states[i].homes, x)
  {
    hide SlotsOk, NextSlots, Provided, Step, InitialSlots, Owns, Run, HomeOf;
    var all := OnlyTree(states);
    NeverFreedWhileHeld(all, OnlyMoves(moves), t, x, i, i);
    NeverFreedWhileHeld(all, OnlyMoves(moves), t, x, i, j);
    SlotsReachable(tables, states, moves, i);
    SlotsReachable(tables, states, moves, j);
    SameSize(tables, states[i]);
    HomesStay(tables, states, moves, i, j, x);
    SameSize(tables, states[j]);
    OwnsSlot(tables, states[j], x);
  }

  /** A slot that is still its owner's after a step was not given back by it. */
  lemma NotPassed(tables: Tables, states: seq<Slotted>, moves: seq<SlotMove>, n: nat, x: nat)
    requires SlotRun(tables, states, moves) && n < |moves| && Owns(tables, states[n + 1], x)
    requires x < |states[n].homes| && HomeOf(states[n + 1].homes, x) == HomeOf(states[n].homes, x)
    ensures SlotOf(tables, states[n].homes, x) !in GivenSlots(tables, states[n], moves[n])
  {
    hide SlotsOk, NextSlots, Provided, Step, InitialSlots, Given, Run, HomeOf;
    if SlotOf(tables, states[n].homes, x) in GivenSlots(tables, states[n], moves[n]) {
      var freed := GivenSlots(tables, states[n], moves[n]);
      var a: nat :| a < |freed| && freed[a] == SlotOf(tables, states[n].homes, x);
      FreesOwnSlots(tables, states, moves, n, a);
    }
  }

  /** Whatever a thread reads or locks is where its slot says: no other node has taken the slot. */
  lemma TouchesOwnSlots(tables: Tables, states: seq<Slotted>, moves: seq<SlotMove>, i: nat, t: nat, x: nat)
    requires SlotRun(tables, states, moves) && i < |states| && t < |states[i].s.threads|
    requires var th := states[i].s.threads[t];
             || (AtNode(th.pc) && (x == th.node || th.parent == Some(x)))
             || (th.pc in {ProbeVersion, ProbeReady, ProbeCheck} && x == th.spot)
             || x in Locks(th)
    ensures Owns(tables, states[i], x)
  {
    hide SlotsOk, NextSlots, Provided, InitialSlots, Owns, Run, Locks;
    SlotRunsAreRuns(tables, states, moves);
    SlotsReachable(tables, states, moves, i);
    TouchesLiveNodes(OnlyTree(states), OnlyMoves(moves), i, t);
    OwnsSlot(tables, states[i], x);
  }

  // ----- reads

  /** What a step adds to what its thread holds is a child of the tree. */
  lemma NewlyHeld(s: State, t: nat, c: Choice, x: nat)
    requires Inv(s) && t < |s.threads| == |s.lists| && InOp(s.threads[t].pc)
    requires x in EffectOf(s, t, c).local.held && x !in s.threads[t].held
    ensures exists p: nat, b :: p in s.threads[t].held && Edge(s.nodes, p, b) == Some(x)
  {
    hide Inv, WalkFacts, LockStep, WriteStep, EpochStep;
    var th := s.threads[t];
    HoldsByWalk(s, t, c, x);
    Walking(s, t);
    if th.pc == CheckNode {
      CheckNodeWalks(s, t, EffectOf(s, t, c).local);
      CleanIsLinked(s, t, th.node, th.v);
      assert Edge(s.nodes, th.node, th.byte) == Some(x);
    } else {
      ProbeCheckKnows(s, t);
      CleanIsLinked(s, t, th.spot, th.sv);
      assert Edge(s.nodes, th.spot, th.sb) == Some(x);
    }
  }

  lemma HoldsByWalk(s: State, t: nat, c: Choice, x: nat)
    requires t < |s.threads| == |s.lists| && InOp(s.threads[t].pc)
    requires x in EffectOf(s, t, c).local.held && x !in s.threads[t].held
    ensures var th := s.threads[t];
            || (th.pc == CheckNode && th.next == Some(x) && Clean(Get(s.nodes, th.node), th.v)
                && EffectOf(s, t, c).local == Hold(th.At(Decided), th.next))
            || (th.pc == ProbeCheck && th.snext == Some(x) && Clean(Get(s.nodes, th.spot), th.sv))
  {
  }

  /**
   * Every read of a thread means what it should: what it newly obtains is a child of the tree whose pointer, under the
   * id and byte the thread went through, then and ever after means that child's slot.
   */
  lemma ReadsResolve(tables: Tables, states: seq<Slotted>, moves: seq<SlotMove>, n: nat, j: nat, x: nat)
    returns (p: nat, b: Byte)
    requires SlotRun(tables, states, moves) && n < |moves| && n <= j < |states|
    requires moves[n].t < |states[n].s.threads| && moves[n].t < |states[n + 1].s.threads|
    requires InOp(states[n].s.threads[moves[n].t].pc)
    requires x in states[n + 1].s.threads[moves[n].t].held && x !in states[n].s.threads[moves[n].t].held
    ensures p in states[n].s.threads[moves[n].t].held && Edge(states[n].s.nodes, p, b) == Some(x)
    ensures Owns(tables, states[n], x)
    ensures Followed(tables, states[j].homes, p, b, x) == SlotOf(tables, states[n].homes, x)
  {
    hide SlotsOk, NextSlots, Provided, Step, InitialSlots, Owns, Given, Run, HomeOf, EffectOf, Inv;
    var k, m := states[n], moves[n];
    SlotsReachable(tables, states, moves, n);
    RunsOn(tables, k);
    SameSize(tables, k);
    ProvidedThread(tables, k, m);
    HomesAfter(tables, k, m);
    StepThread(k.s, m.t, m.c);
    NewlyHeld(k.s, m.t, m.c, x);
    p, b :| p in k.s.threads[m.t].held && Edge(k.s.nodes, p, b) == Some(x);
    EdgesResolve(tables, states, moves, n, p, b, x);
    ChildLinked(tables, k, p, b);
    HomesStay(tables, states, moves, n, j, p);
    HomesStay(tables, states, moves, n, j, x);
  }

  // ----- throws

  /**
   * A lock is left behind only where an insert, holding it, found every slot in use that a node it needed could have
   * had.
   */
  lemma LeftLockedWhenFull(tables: Tables, states: seq<Slotted>, moves: seq<SlotMove>, i: nat, n: nat) returns (j: nat)
    requires SlotRun(tables, states, moves) && i < |states| && n < |states[i].s.nodes|
    requires states[i].s.nodes[n].lockedBy == Some(|states[i].s.threads|)
    ensures j < i && moves[j].t < |states[j].s.threads| && n in Locks(states[j].s.threads[moves[j].t])
    ensures var k, m, th := states[j], moves[j], states[j].s.threads[moves[j].t];
            && m.c.Throw? && |m.got| < NewNodes(th.kind) && Obtained(tables, k, th, m.got, m.b1, m.b2)
            && exists special: nat :: TableOk(th.kind, |m.got|, special)
                 && Full(tables, k.live + SlotsIn(tables, NewHomes(tables, k.homes, th, m.got, m.b1, m.b2)), special,
                         NewHashes(tables, k.homes, th, m.got, |m.got|, m.b1, m.b2))
  {
    hide SlotsOk, NextSlots, Obtained, Full, Step, InitialSlots, Run, Locks, Program;
    SlotRunsAreRuns(tables, states, moves);
    NoLockLeftBehind(OnlyTree(states), OnlyMoves(moves), i, n);
    j :| j < i && ThrewWith(OnlyTree(states), OnlyMoves(moves), j, n);
  }
}
