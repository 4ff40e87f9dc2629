/** Every step of every thread keeps the invariant. */
module OlcSteps {
  import opened Wrappers
  import opened Bytes
  import opened DeletionLists
  import opened OlcModel
  import opened OlcInvariant

  // ----- nodes

  lemma SameNode(t: nat, n: Node)
    ensures NodeStep(t, n, n)
  {
  }

  lemma PutSteps(t: nat, nodes: seq<Node>, i: nat, n': Node)
    requires i < |nodes| && NodeStep(t, nodes[i], n')
    ensures NodeSteps(t, nodes, nodes[i := n'])
  {
    hide NodeStep;
    forall j | 0 <= j < |nodes| ensures NodeStep(t, nodes[j], nodes[i := n'][j]) {
      SameNode(t, nodes[j]);
    }
  }

  /** Without a change of stages or children of old nodes the tree is the same. */
  lemma GraphKept(nodes: seq<Node>, nodes': seq<Node>)
    requires Graph(nodes) && |nodes| <= |nodes'| && !nodes'[0].obsolete && nodes'[0].leaf == nodes[0].leaf
    requires forall i | 0 <= i < |nodes| :: (nodes'[i].stage == Linked <==> nodes[i].stage == Linked)
                                            && (nodes[i].stage == Linked ==> nodes'[i].kids == nodes[i].kids)
    requires forall i | |nodes| <= i < |nodes'| :: nodes'[i].stage != Linked
    ensures Graph(nodes')
  {
    forall p: nat, b ensures Edge(nodes', p, b) == Edge(nodes, p, b) {
    }
  }

  /** A node that a thread did not touch, as far as it was tied to that thread. */
  lemma NodeKept(ths: seq<Local>, t: nat, th': Local, i: nat, n: Node)
    requires t < |ths| && NodeOk(ths, i, n)
    requires i in Locks(ths[t]) ==> i in Locks(th')
    requires Dooms(ths[t], i) ==> Dooms(th', i) || n.stage != Linked || !n.obsolete
    requires MadeBy(ths[t], i) ==> MadeBy(th', i) || !n.stage.Private?
    ensures NodeOk(ths[t := th'], i, n)
  {
    hide Locks, Dooms, MadeBy;
  }

  // ----- steps that only change local variables

  /** Not about to mark, and not cleaning up. */
  ghost predicate Calm(th: Local) {
    th.pc !in {Scan, FreeOld} && !(Past(th, LoadEpoch) && Pending(th, Mark))
  }

  lemma OwnPairsKept(s: State, t: nat, th': Local)
    requires Inv(s) && t < |s.threads| && HoldStep(s.nodes, s.threads[t], th') && Calm(th')
    ensures t < |s.lists| && OwnPairs(th', s.lists[t], s.threads[t := th'])
  {
    hide Graph, NodeOk, ThreadOk, HoldStep;
    var ths' := s.threads[t := th'];
    forall u | 0 <= u < |ths'| ensures PairOk(th', s.lists[t], u, ths'[u]) {
      assert PairOk(s.threads[t], s.lists[t], u, s.threads[u]);
      if u == t {
        ThreadOf(s, t);
        QuietSelf(s.nodes, s.epoch, t, s.lists[t], s.threads[t], th');
      }
    }
  }

  lemma QuietSelf(nodes: seq<Node>, epoch: nat, t: nat, list: seq<Label<nat>>, th: Local, th': Local)
    requires ListOk(nodes, epoch, t, list) && HoldStep(nodes, th, th') && Calm(th')
    requires InOp(th.pc) ==> forall i: nat, x: nat | i < |list| && x in list[i].entries && x in th.held ::
               th.localEpoch <= list[i].epoch
    ensures PairOk(th', list, t, th')
  {
    if InOp(th'.pc) {
      forall i: nat, x: nat | i < |list| && x in list[i].entries && x in th'.held
        ensures th'.localEpoch <= list[i].epoch
      {
        assert Retired(nodes, t, x);
      }
    }
  }

  lemma LocalGood(s: State, t: nat, th': Local)
    requires Inv(s) && t < |s.threads| && HoldStep(s.nodes, s.threads[t], th') && Calm(th')
    requires Locks(th') == Locks(s.threads[t])
    requires s.threads[t].pc == Writing ==> !Pending(s.threads[t], Change)
    requires t < |s.lists| && ThreadOk(s.nodes, s.epoch, s.lists[t], t, th')
    ensures Good(s, t, Stay(s, t, th'))
  {
    hide Graph, NodeOk, ThreadOk, ListOk, PairOk, OwnPairs, HoldStep;
    OwnPairsKept(s, t, th');
    ThreadOf(s, t);
    SameNodes(t, s.nodes);
    forall i | 0 <= i < |s.nodes| ensures NodeOk(s.threads[t := th'], i, s.nodes[i]) {
      NodeOf(s, i);
      NodeKept(s.threads, t, th', i, s.nodes[i]);
    }
  }

  lemma SameNodes(t: nat, nodes: seq<Node>)
    ensures NodeSteps(t, nodes, nodes)
  {
    forall i | 0 <= i < |nodes| ensures NodeStep(t, nodes[i], nodes[i]) {
      SameNode(t, nodes[i]);
    }
  }

  // ----- walking

  lemma FromRootOk(nodes: seq<Node>, epoch: nat, list: seq<Label<nat>>, t: nat, th: Local)
    requires ThreadOk(nodes, epoch, list, t, th) && InOp(th.pc) && Graph(nodes)
    ensures ThreadOk(nodes, epoch, list, t, FromRoot(th))
  {
    hide HeldOk, MadeOk, WritingOk, LockingOk, ProbeOk;
    NothingElse(nodes, t, FromRoot(th));
  }

  lemma NothingElse(nodes: seq<Node>, t: nat, th: Local)
    requires th.pc in {ReadVersion, Ready, CheckNode, Decided, Leave, Failed}
             || th.pc in {Outside, StoreEpoch, StoreMax, Scan, FreeOld}
    ensures ProbeOk(nodes, th) && LockingOk(nodes, th) && WritingOk(nodes, t, th)
  {
  }

  lemma RestartGood(s: State, t: nat)
    requires Inv(s) && t < |s.threads| && InOp(s.threads[t].pc) && Locks(s.threads[t]) == {}
    requires s.threads[t].pc != Writing
    ensures t < |s.lists| && Good(s, t, Stay(s, t, FromRoot(s.threads[t])))
  {
    hide Inv, ThreadOk, Good;
    ThreadOf(s, t);
    FromRootOk(s.nodes, s.epoch, s.lists[t], t, s.threads[t]);
    LocalGood(s, t, FromRoot(s.threads[t]));
  }

  /** A node that a thread holds and finds clean is part of the tree. */
  lemma CleanIsLinked(s: State, t: nat, i: nat, v: nat)
    requires Inv(s) && t < |s.threads| && InOp(s.threads[t].pc) && i in s.threads[t].held
    requires i < |s.nodes| && Clean(s.nodes[i], v)
    ensures s.nodes[i].stage == Linked
  {
    hide Inv, WalkOk, ProbeOk, LockingOk, WritingOk, Graph, ListOk;
    ThreadOf(s, t);
    NodeOf(s, i);
  }

  /** The child of a clean node is part of the tree, and nobody has made it obsolete. */
  lemma ValidatedChild(s: State, t: nat, p: nat, v: nat, b: Byte)
    requires Inv(s) && t < |s.threads| && InOp(s.threads[t].pc) && p in s.threads[t].held && p < |s.nodes|
    requires Clean(s.nodes[p], v)
    requires Kid(s.nodes[p], b).Some?
    ensures var x := Kid(s.nodes[p], b).value;
            x < |s.nodes| && s.nodes[x].stage == Linked && !s.nodes[x].obsolete
  {
    hide Inv;
    CleanIsLinked(s, t, p, v);
    ThreadOf(s, t);
    assert Edge(s.nodes, p, b) == Kid(s.nodes[p], b);
    var x := Kid(s.nodes[p], b).value;
    NodeOf(s, x);
    if s.nodes[x].obsolete {
      WriterEdge(s, s.nodes[x].doomed.value);
      var tw := s.threads[s.nodes[x].doomed.value];
      hide ThreadOk, NodeOk, ListOk;
      SameParent(s.nodes, p, b, tw.anchor, tw.ab);
      assert false;
    }
  }

  lemma HoldChild(nodes: seq<Node>, th: Local, th': Local, x: nat)
    requires th'.held == th.held + {x} && th'.localEpoch == th.localEpoch && x < |nodes| && !nodes[x].obsolete
    requires InOp(th.pc)
    ensures HoldStep(nodes, th, th')
  {
  }

  lemma HeldMore(nodes: seq<Node>, held: set<nat>, x: nat)
    requires HeldOk(nodes, held) && x < |nodes| && nodes[x].stage == Linked
    ensures HeldOk(nodes, held + {x})
  {
  }

  /** The walk goes on: what the thread knows about nodes is what has to be shown. */
  ghost predicate Walks(s: State, t: nat, th': Local) {
    && t < |s.threads| && s.threads[t].pc !in {Writing, UpgradeNode, ReleaseParent, ReadLeaf, UpgradeLeaf, Stuck}
    && InOp(s.threads[t].pc) && InOp(th'.pc)
    && th'.pc !in {Writing, UpgradeNode, ReleaseParent, ReadLeaf, UpgradeLeaf, Stuck}
    && th'.localEpoch == s.threads[t].localEpoch
    && WalkOk(s.nodes, th') && ProbeOk(s.nodes, th') && LockingOk(s.nodes, th')
  }

  lemma NoLocks(th: Local)
    requires InOp(th.pc) && th.pc !in {Writing, UpgradeNode, ReleaseParent, ReadLeaf, UpgradeLeaf, Stuck}
    ensures Locks(th) == {} && Calm(th)
  {
  }

  lemma NotWriting(nodes: seq<Node>, t: nat, th: Local)
    requires th.pc != Writing
    ensures WritingOk(nodes, t, th)
  {
  }

  /** A step of the walk that obtains no pointer. */
  lemma WalkGood(s: State, t: nat, th': Local)
    requires Inv(s) && Walks(s, t, th') && th'.held == s.threads[t].held
    ensures t < |s.lists| && Good(s, t, Stay(s, t, th'))
  {
    hide Inv, Good, HeldOk, WalkOk, ProbeOk, LockingOk, WritingOk, Locks, Graph, ListOk, Past, Pending;
    ThreadOf(s, t);
    NoLocks(s.threads[t]);
    NoLocks(th');
    NotWriting(s.nodes, t, th');
    NotMarking(th');
    LocalGood(s, t, th');
  }

  lemma NotMarking(th: Local)
    requires th.pc != Writing
    ensures forall a :: !Past(th, a) && !Pending(th, a)
  {
  }

  /** A step of the walk that obtains a pointer by a validated read. */
  lemma ObtainGood(s: State, t: nat, th': Local, p: nat, v: nat, b: Byte)
    requires Inv(s) && Walks(s, t, th') && p in s.threads[t].held && p < |s.nodes| && Clean(s.nodes[p], v)
    requires Kid(s.nodes[p], b).Some? && th'.held == s.threads[t].held + {Kid(s.nodes[p], b).value}
    ensures t < |s.lists| && Good(s, t, Stay(s, t, th'))
  {
    hide Inv, Good, HeldOk, WalkOk, ProbeOk, LockingOk, WritingOk, Locks, Graph, ListOk, Past, Pending, HoldStep;
    var x := Kid(s.nodes[p], b).value;
    ThreadOf(s, t);
    ValidatedChild(s, t, p, v, b);
    HeldMore(s.nodes, s.threads[t].held, x);
    HoldChild(s.nodes, s.threads[t], th', x);
    NoLocks(s.threads[t]);
    NoLocks(th');
    NotWriting(s.nodes, t, th');
    NotMarking(th');
    LocalGood(s, t, th');
  }

  /** What a walking thread knows. */
  ghost predicate WalkFacts(s: State, t: nat) {
    && t < |s.threads| && WalkOk(s.nodes, s.threads[t]) && ProbeOk(s.nodes, s.threads[t])
    && LockingOk(s.nodes, s.threads[t])
    && (InOp(s.threads[t].pc) ==> forall x | x in s.threads[t].held :: x < |s.nodes|)
  }

  lemma Walking(s: State, t: nat)
    requires Inv(s) && t < |s.threads|
    ensures WalkFacts(s, t)
  {
    hide Inv, WalkOk, ProbeOk, LockingOk, WritingOk, Locks, Graph, ListOk;
    ThreadOf(s, t);
  }

  lemma ReadVersionWalks(s: State, t: nat, th': Local)
    requires WalkFacts(s, t) && s.threads[t].pc == ReadVersion
    requires var th := s.threads[t]; var n := Get(s.nodes, th.node);
             th' == th.(pc := Ready, v := n.version, seen := n.kids)
    ensures Walks(s, t, th')
  {
  }

  lemma ReadVersionGood(s: State, t: nat, c: Choice)
    requires Inv(s) && t < |s.threads| == |s.lists| && s.threads[t].pc == ReadVersion
    ensures Good(s, t, WalkStep(s, t, c))
  {
    hide Inv, Good, WalkFacts, Walks;
    var th := s.threads[t];
    var n := Get(s.nodes, th.node);
    if n.lockedBy.Some? || n.obsolete {
      RestartGood(s, t);
    } else {
      var th' := th.(pc := Ready, v := n.version, seen := n.kids);
      Walking(s, t);
      ReadVersionWalks(s, t, th');
      WalkGood(s, t, th');
    }
  }

  lemma ReadyWalks(s: State, t: nat, th': Local)
    requires WalkFacts(s, t) && s.threads[t].pc == Ready
    requires var th := s.threads[t];
             || th' == th.(pc := ProbeVersion, spot := th.node)
             || (th.parent.Some? && th' == th.(pc := UpgradeParent, kind := PrefixSplit))
             || th' == th
    ensures Walks(s, t, th')
  {
  }

  lemma LookWalks(s: State, t: nat, b: Byte, garbage: Option<nat>, th': Local)
    requires WalkFacts(s, t) && s.threads[t].pc == Ready
    requires var th := s.threads[t];
             th' == th.(pc := CheckNode, byte := b, next := ReadKid(Get(s.nodes, th.node), th.v, b, garbage))
    ensures Walks(s, t, th')
  {
  }

  lemma LeaveGood(s: State, t: nat)
    requires Inv(s) && t < |s.threads| == |s.lists| && InOp(s.threads[t].pc) && Locks(s.threads[t]) == {}
    requires s.threads[t].pc == Writing ==> !Pending(s.threads[t], Change)
    ensures Good(s, t, Stay(s, t, s.threads[t].At(Leave)))
  {
    hide Inv, Good, HeldOk, MadeOk, WritingOk, LockingOk, ProbeOk, WalkOk, Graph, ListOk;
    var th' := s.threads[t].At(Leave);
    ThreadOf(s, t);
    NothingElse(s.nodes, t, th');
    NoWalk(s.nodes, th');
    LocalGood(s, t, th');
  }

  lemma NoWalk(nodes: seq<Node>, th: Local)
    requires !AtNode(th.pc)
    ensures WalkOk(nodes, th)
  {
  }

  lemma ReadyGood(s: State, t: nat, c: Choice)
    requires Inv(s) && t < |s.threads| == |s.lists| && s.threads[t].pc == Ready
    ensures Good(s, t, WalkStep(s, t, c))
  {
    hide Inv, Good, WalkFacts, Walks;
    var th := s.threads[t];
    Walking(s, t);
    match c {
      case Look(b, garbage) =>
        var th' := th.(pc := CheckNode, byte := b, next := ReadKid(Get(s.nodes, th.node), th.v, b, garbage));
        LookWalks(s, t, b, garbage, th');
        WalkGood(s, t, th');
      case Probe =>
        var th' := th.(pc := ProbeVersion, spot := th.node);
        ReadyWalks(s, t, th');
        WalkGood(s, t, th');
      case Split =>
        var th' := if th.parent.Some? then th.(pc := UpgradeParent, kind := PrefixSplit) else th;
        ReadyWalks(s, t, th');
        WalkGood(s, t, th');
      case GiveUp => LeaveGood(s, t);
      case _ => RestartGood(s, t);
    }
  }

  lemma CheckNodeWalks(s: State, t: nat, th': Local)
    requires WalkFacts(s, t) && s.threads[t].pc == CheckNode
    requires var th := s.threads[t]; Clean(Get(s.nodes, th.node), th.v) && th' == Hold(th.At(Decided), th.next)
    ensures Walks(s, t, th')
    ensures var th := s.threads[t];
            th.node in th.held && th.node < |s.nodes| && th.next == Kid(s.nodes[th.node], th.byte)
  {
  }

  lemma CheckNodeGood(s: State, t: nat, c: Choice)
    requires Inv(s) && t < |s.threads| == |s.lists| && s.threads[t].pc == CheckNode
    ensures Good(s, t, WalkStep(s, t, c))
  {
    hide Inv, Good, WalkFacts, Walks;
    var th := s.threads[t];
    if Clean(Get(s.nodes, th.node), th.v) {
      var th' := Hold(th.At(Decided), th.next);
      Walking(s, t);
      CheckNodeWalks(s, t, th');
      if th.next.Some? {
        ObtainGood(s, t, th', th.node, th.v, th.byte);
      } else {
        assert th'.held == th.held;
        WalkGood(s, t, th');
      }
    } else {
      RestartGood(s, t);
    }
  }

  lemma DecidedWalks(s: State, t: nat, th': Local)
    requires WalkFacts(s, t) && s.threads[t].pc == Decided
    requires var th := s.threads[t];
             var leaf := th.next.Some? && Get(s.nodes, th.next.value).leaf;
             || th' == th
             || (leaf && th' == th.(pc := UpgradeOnly, kind := LeafSplit))
             || (th.next.None? && th.parent.Some? && th' == th.(pc := UpgradeParent, kind := Grow))
             || (th.next.None? && th' == th.(pc := UpgradeOnly, kind := Plain))
             || (th.next.Some? && !leaf
                 && th' == th.(pc := ReadVersion, parent := Some(th.node), pv := th.v, pb := th.byte,
                               node := th.next.value))
    ensures Walks(s, t, th')
  {
  }

  lemma DecidedGood(s: State, t: nat, c: Choice)
    requires Inv(s) && t < |s.threads| == |s.lists| && s.threads[t].pc == Decided
    ensures Good(s, t, WalkStep(s, t, c))
  {
    hide Inv, Good, WalkFacts, Walks;
    match c {
      case Insert(grow) =>
        Walking(s, t);
        DecidedWalks(s, t, WalkStep(s, t, c).local);
        WalkGood(s, t, WalkStep(s, t, c).local);
      case Descend =>
        Walking(s, t);
        DecidedWalks(s, t, WalkStep(s, t, c).local);
        WalkGood(s, t, WalkStep(s, t, c).local);
      case GiveUp => LeaveGood(s, t);
      case _ => RestartGood(s, t);
    }
  }

  lemma ProbeWalks(s: State, t: nat, th': Local)
    requires WalkFacts(s, t) && s.threads[t].pc in {ProbeVersion, ProbeReady}
    requires var th := s.threads[t];
             || th' == th
             || (th.pc == ProbeVersion && th' == th.(pc := ProbeReady, sv := Get(s.nodes, th.spot).version))
             || (th.pc == ProbeReady && th'.pc == ProbeCheck
                 && th' == th.(pc := ProbeCheck, sb := th'.sb, snext := th'.snext)
                 && (Clean(Get(s.nodes, th.spot), th.sv) ==> th'.snext == Kid(Get(s.nodes, th.spot), th'.sb)))
    ensures Walks(s, t, th')
  {
  }

  lemma ProbeGood(s: State, t: nat, c: Choice)
    requires Inv(s) && t < |s.threads| == |s.lists| && s.threads[t].pc in {ProbeVersion, ProbeReady}
    ensures Good(s, t, WalkStep(s, t, c))
  {
    hide Inv, Good, WalkFacts, Walks;
    var th := s.threads[t];
    var m := Get(s.nodes, th.spot);
    if th.pc == ProbeVersion && (m.lockedBy.Some? || m.obsolete) {
      RestartGood(s, t);
    } else {
      Walking(s, t);
      ProbeWalks(s, t, WalkStep(s, t, c).local);
      WalkGood(s, t, WalkStep(s, t, c).local);
    }
  }

  lemma ProbeCheckWalks(s: State, t: nat, th': Local)
    requires WalkFacts(s, t) && s.threads[t].pc == ProbeCheck && Clean(Get(s.nodes, s.threads[t].spot), s.threads[t].sv)
    requires var th := s.threads[t];
             if th.snext.None? || Get(s.nodes, th.snext.value).leaf then th' == Hold(th.At(Ready), th.snext)
             else th' == Hold(th.(pc := ProbeVersion, spot := th.snext.value), th.snext)
    requires s.threads[t].snext.Some? ==> s.threads[t].snext.value < |s.nodes|
    ensures Walks(s, t, th')
  {
  }

  lemma ProbeCheckKnows(s: State, t: nat)
    requires WalkFacts(s, t) && s.threads[t].pc == ProbeCheck && Clean(Get(s.nodes, s.threads[t].spot), s.threads[t].sv)
    ensures var th := s.threads[t];
            && th.spot in th.held && th.spot < |s.nodes| && th.snext == Kid(s.nodes[th.spot], th.sb)
  {
  }

  lemma ProbeCheckGood(s: State, t: nat, c: Choice)
    requires Inv(s) && t < |s.threads| == |s.lists| && s.threads[t].pc == ProbeCheck
    ensures Good(s, t, WalkStep(s, t, c))
  {
    hide Inv, Good, WalkFacts, Walks;
    var th := s.threads[t];
    if Clean(Get(s.nodes, th.spot), th.sv) {
      var th' := WalkStep(s, t, c).local;
      Walking(s, t);
      ProbeCheckKnows(s, t);
      if th.snext.Some? {
        ValidatedChild(s, t, th.spot, th.sv, th.sb);
        ProbeCheckWalks(s, t, th');
        ObtainGood(s, t, th', th.spot, th.sv, th.sb);
      } else {
        assert Hold(th.At(Ready), th.snext) == th.At(Ready);
        ProbeCheckWalks(s, t, th');
        WalkGood(s, t, th');
      }
    } else {
      RestartGood(s, t);
    }
  }

  // ----- steps that write the version word of one node

  lemma PutGood(s: State, t: nat, i: nat, n': Node, th': Local)
    requires Inv(s) && t < |s.threads| && i < |s.nodes| && NodeStep(t, s.nodes[i], n')
    requires n'.kids == s.nodes[i].kids && n'.stage == s.nodes[i].stage && (i == 0 ==> !n'.obsolete)
    requires NodeOk(s.threads[t := th'], i, n') && Locks(s.threads[t]) - {i} <= Locks(th')
    requires forall j | j != i ::
               (Dooms(s.threads[t], j) ==> Dooms(th', j)) && (MadeBy(s.threads[t], j) ==> MadeBy(th', j))
    requires t < |s.lists| && ThreadOk(s.nodes[i := n'], s.epoch, s.lists[t], t, th')
    requires HoldStep(s.nodes, s.threads[t], th') && Calm(th')
    ensures Good(s, t, Effect(s.nodes[i := n'], th', s.lists[t], s.epoch))
  {
    hide Inv, NodeOk, ThreadOk, ListOk, PairOk, OwnPairs, HoldStep, NodeStep, NodeSteps, Graph, Locks, Dooms, MadeBy;
    ThreadOf(s, t);
    OwnPairsKept(s, t, th');
    PutSteps(t, s.nodes, i, n');
    LeafKept(t, s.nodes[i], n');
    PutGraph(s.nodes, i, n');
    var nodes' := s.nodes[i := n'];
    OtherList(t, s.nodes, nodes', s.epoch, s.epoch, t, s.lists[t]);
    forall j | 0 <= j < |nodes'| ensures NodeOk(s.threads[t := th'], j, nodes'[j]) {
      NodeOf(s, j);
      if j != i {
        NodeKept(s.threads, t, th', j, s.nodes[j]);
      }
    }
    PutKeepsHeld(s, t, i, n');
  }

  lemma LeafKept(t: nat, n: Node, n': Node)
    requires NodeStep(t, n, n')
    ensures n'.leaf == n.leaf
  {
  }

  lemma PutGraph(nodes: seq<Node>, i: nat, n': Node)
    requires Graph(nodes) && i < |nodes| && n'.kids == nodes[i].kids && n'.stage == nodes[i].stage
    requires n'.leaf == nodes[i].leaf
    requires i == 0 ==> !n'.obsolete
    ensures Graph(nodes[i := n'])
  {
    GraphKept(nodes, nodes[i := n']);
  }

  lemma PutKeepsHeld(s: State, t: nat, i: nat, n': Node)
    requires i < |s.nodes| && n'.stage == s.nodes[i].stage
    ensures KeepsHeld(s, t, s.nodes[i := n'])
  {
  }

  /** Locking a clean node of the tree. */
  lemma LockGood(s: State, t: nat, i: nat, n': Node, th': Local)
    requires Inv(s) && t < |s.threads| && i < |s.nodes| && s.threads[t].pc != Writing
    requires s.nodes[i].lockedBy == None && !s.nodes[i].obsolete && s.nodes[i].stage == Linked
    requires n' == s.nodes[i].(lockedBy := Some(t), doomed := n'.doomed)
    requires Locks(th') == Locks(s.threads[t]) + {i} && th'.held == s.threads[t].held
    requires th'.localEpoch == s.threads[t].localEpoch
    requires InOp(s.threads[t].pc) && InOp(th'.pc) && Calm(th')
    requires t < |s.lists| && ThreadOk(s.nodes[i := n'], s.epoch, s.lists[t], t, th')
    ensures Good(s, t, Effect(s.nodes[i := n'], th', s.lists[t], s.epoch))
  {
    hide Inv, ThreadOk, ListOk, PairOk, OwnPairs, Graph, Locks, Good, Calm;
    NodeOf(s, i);
    LockNode(s.threads, t, th', i, s.nodes[i], n');
    NotDooming(s.threads[t]);
    PutGood(s, t, i, n', th');
  }

  lemma LockNode(ths: seq<Local>, t: nat, th': Local, i: nat, n: Node, n': Node)
    requires t < |ths| && NodeOk(ths, i, n) && n.lockedBy == None && !n.obsolete && n.stage == Linked
    requires n' == n.(lockedBy := Some(t), doomed := n'.doomed) && i in Locks(th')
    ensures NodeOk(ths[t := th'], i, n') && NodeStep(t, n, n')
  {
  }

  lemma NotDooming(th: Local)
    requires th.pc != Writing
    ensures forall j :: !Dooms(th, j) && !MadeBy(th, j)
  {
  }

  /** Unlocking, with or without making the node obsolete. */
  lemma UnlockGood(s: State, t: nat, i: nat, th': Local)
    requires Inv(s) && t < |s.threads| && i < |s.nodes| && s.nodes[i].lockedBy == Some(t) && !s.nodes[i].obsolete
    requires s.nodes[i].stage == Linked && Locks(s.threads[t]) - {i} <= Locks(th')
    requires th'.held == s.threads[t].held && th'.localEpoch == s.threads[t].localEpoch
    requires forall j :: !Dooms(s.threads[t], j) && !MadeBy(s.threads[t], j)
    requires InOp(s.threads[t].pc) && InOp(th'.pc) && Calm(th')
    requires t < |s.lists| && ThreadOk(s.nodes[i := Unlock(s.nodes[i])], s.epoch, s.lists[t], t, th')
    ensures Good(s, t, Effect(s.nodes[i := Unlock(s.nodes[i])], th', s.lists[t], s.epoch))
  {
    hide Inv, ThreadOk, ListOk, PairOk, OwnPairs, Graph, Locks, Good, Calm, Dooms, MadeBy;
    NodeOf(s, i);
    UnlockNode(s.threads, t, th', i, s.nodes[i]);
    PutGood(s, t, i, Unlock(s.nodes[i]), th');
  }

  lemma UnlockNode(ths: seq<Local>, t: nat, th': Local, i: nat, n: Node)
    requires t < |ths| && NodeOk(ths, i, n) && n.lockedBy == Some(t) && !n.obsolete && n.stage == Linked
    ensures NodeOk(ths[t := th'], i, Unlock(n)) && NodeStep(t, n, Unlock(n))
  {
  }

  /** A thread that wrote one node: what it knows now is what has to be shown. */
  lemma MoveOk(nodes: seq<Node>, i: nat, n': Node, epoch: nat, list: seq<Label<nat>>, t: nat, th: Local, th': Local)
    requires ThreadOk(nodes, epoch, list, t, th) && InOp(th.pc) && InOp(th'.pc) && i < |nodes|
    requires n'.stage == nodes[i].stage
    requires th'.held == th.held && th'.localEpoch == th.localEpoch && Calm(th')
    requires forall j | j in Locks(th') :: j < |nodes| && if j == i then n'.lockedBy == Some(t) else j in Locks(th)
    requires WalkOk(nodes[i := n'], th') && ProbeOk(nodes[i := n'], th') && LockingOk(nodes[i := n'], th')
    requires WritingOk(nodes[i := n'], t, th')
    ensures ThreadOk(nodes[i := n'], epoch, list, t, th')
  {
    hide WalkOk, ProbeOk, LockingOk, WritingOk, Locks, Past, Pending;
  }

  lemma UpgradeParentMove(s: State, t: nat, p: nat, th': Local)
    requires WalkFacts(s, t) && s.threads[t].pc == UpgradeParent && s.threads[t].parent == Some(p)
    requires p < |s.nodes| && Clean(s.nodes[p], s.threads[t].pv) && s.nodes[p].stage == Linked
    requires th' == s.threads[t].At(UpgradeNode)
    ensures var nodes' := s.nodes[p := Lock(s.nodes[p], t)];
            WalkOk(nodes', th') && ProbeOk(nodes', th') && LockingOk(nodes', th')
    ensures p in s.threads[t].held && Locks(th') == {p} && Locks(s.threads[t]) == {} && Calm(th')
  {
  }

  lemma ParentInRange(s: State, t: nat)
    requires WalkFacts(s, t) && s.threads[t].pc in {UpgradeParent, UpgradeNode, ReleaseParent}
    ensures s.threads[t].parent.Some? && s.threads[t].parent.value < |s.nodes|
    ensures s.threads[t].parent.value in s.threads[t].held
  {
  }

  lemma UpgradeParentGood(s: State, t: nat)
    requires Inv(s) && t < |s.threads| == |s.lists| && s.threads[t].pc == UpgradeParent
    ensures Good(s, t, LockStep(s, t))
  {
    hide Inv, Good, WalkFacts, ThreadOk, WalkOk, ProbeOk, LockingOk, WritingOk, Locks, Calm, Graph, ListOk;
    var th := s.threads[t];
    Walking(s, t);
    ParentInRange(s, t);
    var p := th.parent.value;
    if Clean(s.nodes[p], th.pv) {
      var th' := th.At(UpgradeNode);
      CleanIsLinked(s, t, p, th.pv);
      UpgradeParentMove(s, t, p, th');
      ThreadOf(s, t);
      NotWriting(s.nodes[p := Lock(s.nodes[p], t)], t, th');
      MoveOk(s.nodes, p, Lock(s.nodes[p], t), s.epoch, s.lists[t], t, th, th');
      LockGood(s, t, p, Lock(s.nodes[p], t), th');
    } else {
      NoLocks(th);
      RestartGood(s, t);
    }
  }

  // ----- both locks

  /** Both upgrades succeeded: neither node has changed since it was read, and the one is still the other's child. */
  lemma UpgradeNodeMove(s: State, t: nat, p: nat, n': Node, th': Local)
    requires WalkFacts(s, t) && s.threads[t].pc == UpgradeNode && s.threads[t].parent == Some(p) && p < |s.nodes|
    requires s.threads[t].node < |s.nodes| && Clean(s.nodes[s.threads[t].node], s.threads[t].v)
    requires s.nodes[p].lockedBy == Some(t)
    requires s.nodes[s.threads[t].node].stage == Linked
    requires n' == Lock(s.nodes[s.threads[t].node], t).(doomed := Some(t))
    requires th' == StartWriting(s.threads[t], p, s.threads[t].pb, s.threads[t].node)
    ensures var nodes' := s.nodes[s.threads[t].node := n'];
            WalkOk(nodes', th') && ProbeOk(nodes', th') && LockingOk(nodes', th') && WritingOk(nodes', t, th')
    ensures Locks(th') == {p, s.threads[t].node} && Locks(s.threads[t]) == {p} && Calm(th')
    ensures s.threads[t].node in s.threads[t].held
    ensures p != s.threads[t].node
  {
    hide MadeOk;
  }

  lemma NodeInRange(s: State, t: nat)
    requires WalkFacts(s, t) && AtNode(s.threads[t].pc)
    ensures s.threads[t].node < |s.nodes| && s.threads[t].node in s.threads[t].held
  {
  }

  lemma UpgradeNodeGood(s: State, t: nat)
    requires Inv(s) && t < |s.threads| == |s.lists| && s.threads[t].pc == UpgradeNode
    ensures Good(s, t, LockStep(s, t))
  {
    hide Inv, Good, WalkFacts, ThreadOk, WalkOk, ProbeOk, LockingOk, WritingOk, Calm, Graph, ListOk;
    var th := s.threads[t];
    Walking(s, t);
    ParentInRange(s, t);
    NodeInRange(s, t);
    LocksHeld(s, t);
    var p := th.parent.value;
    if Clean(s.nodes[th.node], th.v) {
      var n', th' := Lock(s.nodes[th.node], t).(doomed := Some(t)), StartWriting(th, p, th.pb, th.node);
      CleanIsLinked(s, t, th.node, th.v);
      UpgradeNodeMove(s, t, p, n', th');
      hide Locks;
      ThreadOf(s, t);
      MoveOk(s.nodes, th.node, n', s.epoch, s.lists[t], t, th, th');
      LockGood(s, t, th.node, n', th');
    } else {
      ReleaseLater(s, t);
    }
  }

  lemma LocksHeld(s: State, t: nat)
    requires Inv(s) && t < |s.threads|
    ensures forall i | i in Locks(s.threads[t]) :: i < |s.nodes| && s.nodes[i].lockedBy == Some(t)
  {
    hide Inv, HeldOk, WalkOk, ProbeOk, LockingOk, WritingOk, Locks, Past, Pending, Graph, ListOk;
    ThreadOf(s, t);
  }

  lemma ReleaseLater(s: State, t: nat)
    requires Inv(s) && t < |s.threads| == |s.lists| && s.threads[t].pc == UpgradeNode
    ensures Good(s, t, Stay(s, t, s.threads[t].At(ReleaseParent)))
  {
    hide Inv, Good, HeldOk, MadeOk, WritingOk, ListOk, Graph;
    var th := s.threads[t];
    var th' := th.At(ReleaseParent);
    ThreadOf(s, t);
    NotWriting(s.nodes, t, th');
    LocalGood(s, t, th');
  }

  lemma RootIsHeld(s: State, t: nat)
    requires Inv(s) && t < |s.threads| && InOp(s.threads[t].pc)
    ensures 0 in s.threads[t].held && Graph(s.nodes) && |s.nodes| > 0 && !s.nodes[0].obsolete && !s.nodes[0].leaf
  {
    hide Inv, HeldOk, WalkOk, ProbeOk, LockingOk, WritingOk, Locks, Past, Pending, ListOk;
    ThreadOf(s, t);
  }

  lemma ReleaseMove(s: State, t: nat, p: nat, nodes': seq<Node>, th': Local)
    requires WalkFacts(s, t) && s.threads[t].pc == ReleaseParent && s.threads[t].parent == Some(p)
    requires Graph(nodes') && 0 in s.threads[t].held && th' == FromRoot(s.threads[t])
    ensures WalkOk(nodes', th') && ProbeOk(nodes', th') && LockingOk(nodes', th') && WritingOk(nodes', t, th')
    ensures Locks(th') == {} && Locks(s.threads[t]) == {p} && Calm(th')
    ensures Firm(s.nodes, p)
  {
  }

  lemma ReleaseGood(s: State, t: nat)
    requires Inv(s) && t < |s.threads| == |s.lists| && s.threads[t].pc == ReleaseParent
    ensures Good(s, t, LockStep(s, t))
  {
    hide Inv, Good, WalkFacts, ThreadOk, WalkOk, ProbeOk, LockingOk, WritingOk, Calm, Graph, ListOk;
    var th := s.threads[t];
    Walking(s, t);
    ParentInRange(s, t);
    LocksHeld(s, t);
    RootIsHeld(s, t);
    var p, th' := th.parent.value, FromRoot(th);
    var n' := Unlock(s.nodes[p]);
    PutGraph(s.nodes, p, n');
    ReleaseMove(s, t, p, s.nodes[p := n'], th');
    NotDooming(th);
    hide Locks, Dooms, MadeBy;
    ThreadOf(s, t);
    MoveOk(s.nodes, p, n', s.epoch, s.lists[t], t, th, th');
    UnlockGood(s, t, p, th');
  }

  // ----- one lock, and the leaf below it

  lemma UpgradeOnlyMove(s: State, t: nat, n': Node, th': Local)
    requires WalkFacts(s, t) && s.threads[t].pc == UpgradeOnly
    requires s.threads[t].node < |s.nodes| && Clean(s.nodes[s.threads[t].node], s.threads[t].v)
    requires s.nodes[s.threads[t].node].stage == Linked && n' == Lock(s.nodes[s.threads[t].node], t)
    requires th' == (var th := s.threads[t];
                     if th.kind == Plain then StartWriting(th, th.node, th.byte, 0) else th.At(ReadLeaf))
    ensures var nodes' := s.nodes[s.threads[t].node := n'];
            WalkOk(nodes', th') && ProbeOk(nodes', th') && LockingOk(nodes', th') && WritingOk(nodes', t, th')
    ensures Locks(th') == {s.threads[t].node} && Locks(s.threads[t]) == {} && Calm(th')
  {
    hide MadeOk;
  }

  lemma UpgradeOnlyGood(s: State, t: nat)
    requires Inv(s) && t < |s.threads| == |s.lists| && s.threads[t].pc == UpgradeOnly
    ensures Good(s, t, LockStep(s, t))
  {
    hide Inv, Good, WalkFacts, ThreadOk, WalkOk, ProbeOk, LockingOk, WritingOk, Calm, Graph, ListOk, Locks;
    var th := s.threads[t];
    Walking(s, t);
    NodeInRange(s, t);
    NoLocks(th);
    if Clean(s.nodes[th.node], th.v) {
      var n' := Lock(s.nodes[th.node], t);
      var th' := if th.kind == Plain then StartWriting(th, th.node, th.byte, 0) else th.At(ReadLeaf);
      CleanIsLinked(s, t, th.node, th.v);
      UpgradeOnlyMove(s, t, n', th');
      ThreadOf(s, t);
      MoveOk(s.nodes, th.node, n', s.epoch, s.lists[t], t, th, th');
      LockGood(s, t, th.node, n', th');
    } else {
      RestartGood(s, t);
    }
  }

  lemma ReadLeafLocal(nodes: seq<Node>, epoch: nat, list: seq<Label<nat>>, t: nat, th: Local, th': Local)
    requires ThreadOk(nodes, epoch, list, t, th) && th.pc == ReadLeaf && th.next.Some? && th.next.value < |nodes|
    requires th' == th.(pc := UpgradeLeaf, lv := nodes[th.next.value].version)
    ensures ThreadOk(nodes, epoch, list, t, th') && Locks(th') == Locks(th) && Calm(th')
  {
    hide HeldOk, MadeOk;
  }

  /** Under its parent's lock the leaf is never found locked or obsolete. */
  lemma ReadLeafGood(s: State, t: nat)
    requires Inv(s) && t < |s.threads| == |s.lists| && s.threads[t].pc == ReadLeaf
    ensures Good(s, t, LockStep(s, t)) && LockStep(s, t).local.pc == UpgradeLeaf
  {
    hide Inv, Good, ThreadOk, Graph, ListOk, Locks, Calm;
    LeafUnlocked(s, t);
    ThreadOf(s, t);
    var th := s.threads[t];
    var th' := th.(pc := UpgradeLeaf, lv := s.nodes[th.next.value].version);
    ReadLeafLocal(s.nodes, s.epoch, s.lists[t], t, th, th');
    LocalGood(s, t, th');
  }

  lemma UpgradeLeafMove(s: State, t: nat, x: nat, n': Node, th': Local)
    requires WalkFacts(s, t) && s.threads[t].pc == UpgradeLeaf && s.threads[t].next == Some(x) && x < |s.nodes|
    requires s.nodes[x].stage == Linked && !s.nodes[x].obsolete && x != s.threads[t].node
    requires n' == Lock(s.nodes[x], t).(doomed := Some(t))
    requires th' == StartWriting(s.threads[t], s.threads[t].node, s.threads[t].byte, x)
    ensures var nodes' := s.nodes[x := n'];
            WalkOk(nodes', th') && ProbeOk(nodes', th') && LockingOk(nodes', th') && WritingOk(nodes', t, th')
    ensures Locks(th') == {s.threads[t].node, x} && Locks(s.threads[t]) == {s.threads[t].node} && Calm(th')
    ensures s.nodes[x].version == s.threads[t].lv
  {
    hide MadeOk;
  }

  /** Nor has it changed since its version was read. */
  lemma UpgradeLeafGood(s: State, t: nat)
    requires Inv(s) && t < |s.threads| == |s.lists| && s.threads[t].pc == UpgradeLeaf
    ensures Good(s, t, LockStep(s, t)) && LockStep(s, t).local.pc == Writing
  {
    hide Inv, Good, WalkFacts, ThreadOk, WalkOk, ProbeOk, LockingOk, WritingOk, Calm, Graph, ListOk;
    LeafUnlocked(s, t);
    Walking(s, t);
    NodeInRange(s, t);
    var th := s.threads[t];
    var x := th.next.value;
    var n', th' := Lock(s.nodes[x], t).(doomed := Some(t)), StartWriting(th, th.node, th.byte, x);
    UpgradeLeafMove(s, t, x, n', th');
    LocksHeld(s, t);
    hide Locks;
    ThreadOf(s, t);
    MoveOk(s.nodes, x, n', s.epoch, s.lists[t], t, th, th');
    LockGood(s, t, x, n', th');
  }

  lemma NeverStuck(s: State, t: nat)
    requires Inv(s) && t < |s.threads|
    ensures s.threads[t].pc != Stuck
  {
    hide Inv, WritingOk, ProbeOk, WalkOk, HeldOk, ListOk, Graph, Locks;
    ThreadOf(s, t);
  }
}
