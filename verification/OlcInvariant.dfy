/**
 * What every step of every thread keeps: the shape of the tree, who holds which lock, and which epochs protect what.
 */
module OlcInvariant {
  import opened Wrappers
  import opened Bytes
  import opened DeletionLists
  import opened OlcModel

  // ----- acts of a change

  /** Where an act stands in its program; 6 if it is not part of it. */
  function Pos(kind: Kind, act: Act): nat {
    match act
    case Create => 0
    case Change => if kind == LeafSplit then 4 else 1
    case Obsolete => if kind == Plain then 6 else if kind == Grow then 2 else if kind == PrefixSplit then 3 else 1
    case LoadEpoch => if kind == Plain then 6 else if kind == Grow then 3 else if kind == PrefixSplit then 4 else 2
    case Mark => if kind == Plain then 6 else if kind == Grow then 4 else if kind == PrefixSplit then 5 else 3
    case UnlockAnchor => if kind in {Plain, PrefixSplit} then 2 else 5
  }

  lemma PosIsPosition(kind: Kind, act: Act, i: nat)
    ensures i < |Program(kind)| ==> (Program(kind)[i] == act <==> i == Pos(kind, act))
    ensures Pos(kind, act) == 6 || Pos(kind, act) < |Program(kind)|
  {
  }

  predicate Pending(th: Local, act: Act) {
    th.pc == Writing && Pos(th.kind, act) < 6 && th.at <= Pos(th.kind, act)
  }

  predicate Past(th: Local, act: Act) {
    th.pc == Writing && Pos(th.kind, act) < th.at
  }

  // ----- locks

  /** The nodes a thread has locked. */
  ghost function Locks(th: Local): set<nat> {
    match th.pc
    case UpgradeNode => if th.parent.Some? then {th.parent.value} else {}
    case ReleaseParent => if th.parent.Some? then {th.parent.value} else {}
    case ReadLeaf => {th.node}
    case UpgradeLeaf => {th.node}
    case Writing =>
      (if Pending(th, UnlockAnchor) then {th.anchor} else {}) + (if Pending(th, Obsolete) then {th.victim} else {})
    case _ => {}
  }

  /** The thread is between locking a leaf and cutting it off. */
  ghost predicate Dooms(th: Local, i: nat) {
    th.pc == Writing && th.kind == LeafSplit && th.victim == i && Pending(th, Change)
  }

  // ----- the tree

  /** The child of a node of the tree under a byte. */
  ghost function Edge(nodes: seq<Node>, p: nat, b: Byte): Option<nat> {
    if p < |nodes| && nodes[p].stage == Linked then Kid(nodes[p], b) else None
  }

  /** Children of nodes of the tree are nodes of the tree, and each has one parent. */
  ghost predicate Graph(nodes: seq<Node>) {
    && |nodes| > 0 && nodes[0].stage == Linked && !nodes[0].leaf && !nodes[0].obsolete
    && (forall p: nat, b | Edge(nodes, p, b).Some? ::
          var x := Edge(nodes, p, b).value;
          0 < x < |nodes| && nodes[x].stage == Linked)
    && (forall p: nat, b, q: nat, c | Edge(nodes, p, b).Some? && Edge(nodes, p, b) == Edge(nodes, q, c) ::
          p == q && b == c)
  }

  ghost predicate NodeOk(ths: seq<Local>, i: nat, n: Node) {
    && (n.leaf ==> n.kids == map[])
    && (n.stage == Unlinked ==> n.obsolete || n.lockedBy.Some?) && (n.stage == Freed ==> n.obsolete)
    && (n.lockedBy.Some? ==>
          if n.lockedBy == Some(|ths|) then n.stage == Linked && !n.obsolete
          else n.lockedBy.value < |ths| && i in Locks(ths[n.lockedBy.value]))
    && (n.stage == Linked && n.obsolete ==> n.doomed.Some? && n.doomed.value < |ths| && Dooms(ths[n.doomed.value], i))
    && (n.stage.Private? ==> n.stage.owner < |ths| && MadeBy(ths[n.stage.owner], i))
    && (n.obsolete ==> n.lockedBy.None?) && (n.stage.Private? ==> !n.obsolete && n.lockedBy.None?)
  }

  /** A leaf left locked hangs below a node left locked. */
  ghost predicate LeavesBelow(nodes: seq<Node>, nobody: nat) {
    forall x | 0 <= x < |nodes| && nodes[x].leaf && nodes[x].lockedBy == Some(nobody) :: HangsBelow(nodes, nobody, x)
  }

  ghost predicate HangsBelow(nodes: seq<Node>, nobody: nat, x: nat) {
    exists p: nat, b :: Edge(nodes, p, b) == Some(x) && nodes[p].lockedBy == Some(nobody)
  }

  ghost predicate MadeBy(th: Local, i: nat) {
    Past(th, Create) && Pending(th, Change) && th.made <= i < th.made + NewNodes(th.kind)
  }

  function NewNodes(kind: Kind): nat {
    match kind
    case Plain => 1
    case Grow => 2
    case _ => 3
  }

  // ----- threads

  predicate InOp(pc: Pc) {
    pc !in {Outside, StoreEpoch, StoreMax, Scan, FreeOld}
  }

  ghost predicate HeldOk(nodes: seq<Node>, held: set<nat>) {
    forall x | x in held :: x < |nodes| && nodes[x].stage in {Linked, Unlinked}
  }

  /** What a thread knows of a node whose version it read: as long as the version stands, the child under b is k. */
  ghost predicate Knows(nodes: seq<Node>, i: nat, v: nat, b: Byte, k: Option<nat>) {
    && i < |nodes| && v <= nodes[i].version
    && (Clean(nodes[i], v) ==> Kid(nodes[i], b) == k)
  }

  ghost predicate Inner(nodes: seq<Node>, held: set<nat>, i: nat) {
    i in held && i < |nodes| && !nodes[i].leaf
  }

  /** A node locked and of the tree. */
  ghost predicate Firm(nodes: seq<Node>, i: nat) {
    i < |nodes| && nodes[i].stage == Linked && !nodes[i].obsolete && !nodes[i].leaf
  }

  predicate AtNode(pc: Pc) {
    InOp(pc) && pc !in {Writing, Leave, Failed}
  }

  /** The version of the current node has been read, and the node is not locked by this thread. */
  predicate Reading(pc: Pc) {
    pc in {Ready, CheckNode, Decided, ProbeVersion, ProbeReady, ProbeCheck, UpgradeParent, UpgradeNode, ReleaseParent,
           UpgradeOnly}
  }

  predicate NextKnown(th: Local) {
    th.pc in {Decided, UpgradeOnly} || (th.pc in {UpgradeParent, UpgradeNode} && th.kind == Grow)
  }

  ghost predicate WalkOk(nodes: seq<Node>, th: Local) {
    && (AtNode(th.pc) ==> Inner(nodes, th.held, th.node))
    && (AtNode(th.pc) && th.parent.Some? ==> Inner(nodes, th.held, th.parent.value))
    && (AtNode(th.pc) && th.parent.Some? && th.pc !in {UpgradeNode, ReleaseParent} ==>
          Knows(nodes, th.parent.value, th.pv, th.pb, Some(th.node)))
    && (Reading(th.pc) ==>
          && th.node < |nodes| && th.v <= nodes[th.node].version
          && (Clean(nodes[th.node], th.v) ==> nodes[th.node].kids == th.seen))
    && (th.pc == CheckNode || NextKnown(th) ==> Knows(nodes, th.node, th.v, th.byte, th.next))
    && (NextKnown(th) && th.next.Some? ==> th.next.value in th.held)
  }

  ghost predicate ProbeOk(nodes: seq<Node>, th: Local) {
    && (th.pc in {ProbeVersion, ProbeReady, ProbeCheck} ==> Inner(nodes, th.held, th.spot))
    && (th.pc in {ProbeReady, ProbeCheck} ==> th.spot < |nodes| && th.sv <= nodes[th.spot].version)
    && (th.pc == ProbeCheck ==> Knows(nodes, th.spot, th.sv, th.sb, th.snext))
  }

  ghost predicate LockingOk(nodes: seq<Node>, th: Local) {
    && (th.pc in {UpgradeParent, UpgradeNode, ReleaseParent} ==> th.parent.Some?)
    && (th.pc in {UpgradeParent, UpgradeNode} ==> th.kind in {Grow, PrefixSplit} && (th.kind == Grow ==> th.next.None?))
    && (th.pc in {UpgradeNode, ReleaseParent} ==> Firm(nodes, th.parent.value))
    && (th.pc == UpgradeNode ==>
          && nodes[th.parent.value].version == th.pv
          && Kid(nodes[th.parent.value], th.pb) == Some(th.node))
    && (th.pc == UpgradeOnly ==> th.kind in {Plain, LeafSplit} && (th.kind == Plain <==> th.next.None?))
    && (th.pc == UpgradeOnly && th.next.Some? ==> th.next.value < |nodes| && nodes[th.next.value].leaf)
    && (th.pc in {ReadLeaf, UpgradeLeaf} ==>
          && th.kind == LeafSplit && Firm(nodes, th.node) && th.next.Some? && th.next.value in th.held
          && Kid(nodes[th.node], th.byte) == th.next && nodes[th.node].version == th.v && nodes[th.node].kids == th.seen
          && th.next.value < |nodes| && nodes[th.next.value].leaf)
    && (th.pc == UpgradeLeaf ==> nodes[th.next.value].version == th.lv)
    && th.pc != Stuck
  }

  /** The new nodes, as long as they are private, are as they were made. */
  ghost predicate MadeOk(nodes: seq<Node>, t: nat, th: Local) {
    var victim := Get(nodes, th.victim);
    var added := Created(t, th, victim, th.made, th.nb1, th.nb2);
    && th.nb1 != th.nb2 && th.made + |added| <= |nodes|
    && forall i | 0 <= i < |added| :: nodes[th.made + i] == added[i]
  }

  ghost predicate WritingOk(nodes: seq<Node>, t: nat, th: Local) {
    th.pc == Writing ==>
      && th.at <= |Program(th.kind)|
      && th.anchor < |nodes| && !nodes[th.anchor].leaf
      && (Pending(th, UnlockAnchor) ==> Firm(nodes, th.anchor))
      && (Pending(th, Change) ==> Kid(nodes[th.anchor], th.ab) == if th.kind == Plain then None else Some(th.victim))
      && (th.kind != Plain ==>
            && th.victim < |nodes| && nodes[th.victim].doomed == Some(t) && th.anchor != th.victim
            && (nodes[th.victim].leaf <==> th.kind == LeafSplit)
            && (th.kind == Grow ==> th.byte !in nodes[th.victim].kids)
            && (Pending(th, Obsolete) ==> !nodes[th.victim].obsolete)
            && (Past(th, Obsolete) ==> nodes[th.victim].obsolete)
            && nodes[th.victim].stage == (if Pending(th, Change) then Linked else Unlinked))
      && (Past(th, Create) && Pending(th, Change) ==> MadeOk(nodes, t, th))
  }

  ghost predicate ThreadOk(nodes: seq<Node>, epoch: nat, list: seq<Label<nat>>, t: nat, th: Local) {
    && (forall i | i in Locks(th) :: i < |nodes| && nodes[i].lockedBy == Some(t))
    && (if InOp(th.pc) then HeldOk(nodes, th.held) && 0 in th.held && th.localEpoch <= epoch else th.held == {})
    && (th.pc == StoreEpoch ==> th.loaded <= epoch)
    && WalkOk(nodes, th) && ProbeOk(nodes, th) && LockingOk(nodes, th) && WritingOk(nodes, t, th)
    && (Past(th, LoadEpoch) && Pending(th, Mark) ==>
          th.markEpoch <= epoch && (list != [] ==> list[0].epoch <= th.markEpoch))
  }

  // ----- lists and epochs

  ghost predicate ListOk(nodes: seq<Node>, epoch: nat, t: nat, list: seq<Label<nat>>) {
    && (forall i | 0 <= i < |list| :: list[i].epoch <= epoch)
    && forall i: nat, x: nat | i < |list| && x in list[i].entries :: Retired(nodes, t, x)
  }

  /** A node made obsolete by thread t. */
  ghost predicate Retired(nodes: seq<Node>, t: nat, x: nat) {
    x < |nodes| && nodes[x].obsolete && nodes[x].doomed == Some(t)
  }

  /**
   * What thread t holds, seen from the deletion list of thread u: entered in an epoch no younger than t's, entered
   * soon, or, once a cleanup of u has looked at t, safe from that cleanup.
   */
  ghost predicate PairOk(u: Local, list: seq<Label<nat>>, t: nat, th: Local) {
    InOp(th.pc) ==>
      && (forall i: nat, x: nat | i < |list| && x in list[i].entries && x in th.held :: th.localEpoch <= list[i].epoch)
      && (Past(u, LoadEpoch) && Pending(u, Mark) && u.victim in th.held ==> th.localEpoch <= u.markEpoch)
      && (u.pc in {Scan, FreeOld} && t < u.scanned ==>
            forall i: nat, x: nat | i < |list| && x in list[i].entries && x in th.held :: u.oldest <= list[i].epoch)
  }

  ghost predicate Inv(s: State) {
    && |s.threads| == |s.lists| && Graph(s.nodes) && LeavesBelow(s.nodes, |s.threads|)
    && (forall i | 0 <= i < |s.nodes| :: NodeOk(s.threads, i, s.nodes[i]))
    && (forall t | 0 <= t < |s.threads| :: ThreadOk(s.nodes, s.epoch, s.lists[t], t, s.threads[t]))
    && (forall t | 0 <= t < |s.threads| :: ListOk(s.nodes, s.epoch, t, s.lists[t]))
    && (forall u, t | 0 <= u < |s.threads| && 0 <= t < |s.threads| :: PairOk(s.threads[u], s.lists[u], t, s.threads[t]))
    && (forall t | 0 <= t < |s.threads| && s.threads[t].pc == FreeOld :: s.threads[t].scanned >= |s.threads|)
  }

  // ----- what a step of one thread leaves alone

  /** Thread t changes only nodes it has locked, made or doomed; versions only grow. */
  ghost predicate NodeStep(t: nat, n: Node, n': Node) {
    && n'.leaf == n.leaf && n.version <= n'.version && (n.obsolete ==> n'.obsolete) && (n.leaf ==> n'.kids == n.kids)
    && (n'.version == n.version && n'.lockedBy == None && !n'.obsolete ==>
          n.lockedBy == None && !n.obsolete && n'.kids == n.kids)
    && (n'.version != n.version || n'.kids != n.kids ==> n.lockedBy == Some(t))
    && (n.lockedBy.Some? && n.lockedBy != Some(t) ==> n' == n.(stage := n'.stage))
    && (n.lockedBy.Some? || n.obsolete ==> n'.doomed == n.doomed)
    && (n.stage.Private? && n.stage != Private(t) ==> n' == n)
    && (|| n'.stage == n.stage
        || (n.stage == Private(t) && n'.stage == Linked)
        || (n.stage == Linked && n'.stage == Unlinked && n.doomed == Some(t) && (n.lockedBy == Some(t) || n.obsolete))
        || (n.stage == Unlinked && n'.stage == Freed && n.doomed == Some(t)))
  }

  ghost predicate NodeSteps(t: nat, nodes: seq<Node>, nodes': seq<Node>) {
    |nodes| <= |nodes'| && forall i | 0 <= i < |nodes| :: NodeStep(t, nodes[i], nodes'[i])
  }

  lemma OtherKnows(t: nat, nodes: seq<Node>, nodes': seq<Node>, i: nat, v: nat, b: Byte, k: Option<nat>)
    requires NodeSteps(t, nodes, nodes') && Knows(nodes, i, v, b, k)
    ensures Knows(nodes', i, v, b, k)
  {
    assert NodeStep(t, nodes[i], nodes'[i]);
  }

  lemma OtherInner(t: nat, nodes: seq<Node>, nodes': seq<Node>, held: set<nat>, i: nat)
    requires NodeSteps(t, nodes, nodes') && Inner(nodes, held, i)
    ensures Inner(nodes', held, i)
  {
    assert NodeStep(t, nodes[i], nodes'[i]);
  }

  lemma OtherWalk(t: nat, nodes: seq<Node>, nodes': seq<Node>, th: Local)
    requires NodeSteps(t, nodes, nodes') && WalkOk(nodes, th)
    ensures WalkOk(nodes', th)
  {
    if AtNode(th.pc) {
      OtherInner(t, nodes, nodes', th.held, th.node);
      if th.parent.Some? {
        OtherInner(t, nodes, nodes', th.held, th.parent.value);
        if th.pc !in {UpgradeNode, ReleaseParent} {
          OtherKnows(t, nodes, nodes', th.parent.value, th.pv, th.pb, Some(th.node));
        }
      }
    }
    if Reading(th.pc) {
      assert NodeStep(t, nodes[th.node], nodes'[th.node]);
    }
    hide Knows, Inner, NodeSteps;
    if th.pc == CheckNode || NextKnown(th) {
      OtherKnows(t, nodes, nodes', th.node, th.v, th.byte, th.next);
    }
  }

  lemma OtherProbe(t: nat, nodes: seq<Node>, nodes': seq<Node>, th: Local)
    requires NodeSteps(t, nodes, nodes') && ProbeOk(nodes, th)
    ensures ProbeOk(nodes', th)
  {
    if th.pc in {ProbeVersion, ProbeReady, ProbeCheck} {
      OtherInner(t, nodes, nodes', th.held, th.spot);
      if th.pc != ProbeVersion {
        assert NodeStep(t, nodes[th.spot], nodes'[th.spot]);
      }
      if th.pc == ProbeCheck {
        OtherKnows(t, nodes, nodes', th.spot, th.sv, th.sb, th.snext);
      }
    }
  }

  /** A node another thread has locked stays as it is. */
  lemma OtherFirm(t: nat, u: nat, nodes: seq<Node>, nodes': seq<Node>, i: nat)
    requires NodeSteps(t, nodes, nodes') && Firm(nodes, i) && u != t && nodes[i].lockedBy == Some(u)
    ensures Firm(nodes', i) && nodes'[i].lockedBy == Some(u) && nodes'[i].version == nodes[i].version
    ensures nodes'[i].kids == nodes[i].kids
  {
    assert NodeStep(t, nodes[i], nodes'[i]);
  }

  lemma OtherLocking(t: nat, u: nat, nodes: seq<Node>, nodes': seq<Node>, th: Local)
    requires NodeSteps(t, nodes, nodes') && u != t && WalkOk(nodes, th) && LockingOk(nodes, th)
    requires forall i | i in Locks(th) :: i < |nodes| && nodes[i].lockedBy == Some(u)
    requires th.pc == UpgradeLeaf ==> th.next.value < |nodes| && nodes[th.next.value].lockedBy != Some(t)
    ensures LockingOk(nodes', th)
  {
    hide WalkOk;
    if th.pc in {UpgradeNode, ReleaseParent} {
      OtherFirm(t, u, nodes, nodes', th.parent.value);
    }
    if th.pc in {ReadLeaf, UpgradeLeaf} {
      OtherFirm(t, u, nodes, nodes', th.node);
    }
    if th.pc in {UpgradeOnly, ReadLeaf, UpgradeLeaf} && th.next.Some? {
      assert NodeStep(t, nodes[th.next.value], nodes'[th.next.value]);
    }
  }

  lemma OtherMade(t: nat, u: nat, nodes: seq<Node>, nodes': seq<Node>, th: Local)
    requires NodeSteps(t, nodes, nodes') && u != t && MadeOk(nodes, u, th)
    requires th.kind != Plain ==> th.victim < |nodes| && (nodes[th.victim].lockedBy == Some(u) || nodes[th.victim].leaf)
    requires th.kind != Plain && nodes[th.victim].leaf ==> nodes'[th.victim].kids == nodes[th.victim].kids
    ensures MadeOk(nodes', u, th)
  {
    if th.kind != Plain {
      assert NodeStep(t, nodes[th.victim], nodes'[th.victim]);
    }
    var added := Created(u, th, Get(nodes, th.victim), th.made, th.nb1, th.nb2);
    assert added == Created(u, th, Get(nodes', th.victim), th.made, th.nb1, th.nb2);
    forall i | 0 <= i < |added| ensures nodes'[th.made + i] == added[i] {
      assert NodeStep(t, nodes[th.made + i], nodes'[th.made + i]);
    }
  }

  lemma OtherWriting(t: nat, u: nat, nodes: seq<Node>, nodes': seq<Node>, th: Local)
    requires NodeSteps(t, nodes, nodes') && u != t && WritingOk(nodes, u, th)
    requires forall i | i in Locks(th) :: i < |nodes| && nodes[i].lockedBy == Some(u)
    requires forall i | 0 <= i < |nodes| :: nodes[i].leaf ==> nodes'[i].kids == nodes[i].kids
    requires forall i | 0 <= i < |nodes| :: nodes[i].obsolete ==> nodes[i].lockedBy.None?
    ensures WritingOk(nodes', u, th)
  {
    if th.pc == Writing {
      assert NodeStep(t, nodes[th.anchor], nodes'[th.anchor]);
      assert Pending(th, Change) ==> Pending(th, UnlockAnchor);
      if Pending(th, UnlockAnchor) {
        OtherFirm(t, u, nodes, nodes', th.anchor);
      }
      if th.kind != Plain {
        assert NodeStep(t, nodes[th.victim], nodes'[th.victim]);
        assert Pending(th, Obsolete) || Past(th, Obsolete);
        hide MadeOk, NodeStep, NodeSteps;
        VictimKept(t, u, nodes[th.victim], nodes'[th.victim]);
      }
      if Past(th, Create) && Pending(th, Change) {
        OtherMade(t, u, nodes, nodes', th);
      }
    }
  }

  lemma VictimKept(t: nat, u: nat, n: Node, n': Node)
    requires NodeStep(t, n, n') && u != t && n.doomed == Some(u) && (n.lockedBy == Some(u) || n.obsolete)
    requires !n.stage.Private?
    ensures n'.doomed == Some(u) && n'.stage == n.stage && n'.leaf == n.leaf && (n.obsolete ==> n'.obsolete)
    ensures n.lockedBy == Some(u) ==> n'.kids == n.kids && n'.obsolete == n.obsolete
    ensures n.obsolete && n.lockedBy.None? ==> n'.kids == n.kids
  {
  }

  // ----- a step that keeps the invariant

  /** Pointers a thread newly obtains are to nodes that nobody has made obsolete. */
  ghost predicate HoldStep(nodes: seq<Node>, th: Local, th': Local) {
    InOp(th'.pc) ==> forall x | x in th'.held ::
      (InOp(th.pc) && x in th.held && th'.localEpoch == th.localEpoch) || (x < |nodes| && !nodes[x].obsolete)
  }

  /** What other threads hold is not given back. */
  ghost predicate KeepsHeld(s: State, t: nat, nodes': seq<Node>) {
    forall u, x | 0 <= u < |s.threads| && u != t && InOp(s.threads[u].pc) && x in s.threads[u].held && x < |s.nodes| ::
      x < |nodes'| && (nodes'[x].stage == Freed ==> s.nodes[x].stage == Freed)
  }

  ghost predicate OwnPairs(th: Local, list: seq<Label<nat>>, ths: seq<Local>) {
    forall u | 0 <= u < |ths| :: PairOk(th, list, u, ths[u])
  }

  ghost predicate Good(s: State, t: nat, e: Effect) {
    && t < |s.threads| == |s.lists| && s.epoch <= e.epoch
    && NodeSteps(t, s.nodes, e.nodes) && Graph(e.nodes)
    && (forall i | 0 <= i < |e.nodes| :: NodeOk(s.threads[t := e.local], i, e.nodes[i]))
    && ThreadOk(e.nodes, e.epoch, e.list, t, e.local) && ListOk(e.nodes, e.epoch, t, e.list)
    && HoldStep(s.nodes, s.threads[t], e.local) && KeepsHeld(s, t, e.nodes)
    && OwnPairs(e.local, e.list, s.threads[t := e.local])
    && (e.local.pc == FreeOld ==> e.local.scanned >= |s.threads|)
  }

  lemma ThreadOf(s: State, t: nat)
    requires Inv(s) && t < |s.threads|
    ensures t < |s.lists| == |s.threads| && ThreadOk(s.nodes, s.epoch, s.lists[t], t, s.threads[t]) && Graph(s.nodes)
    ensures ListOk(s.nodes, s.epoch, t, s.lists[t])
  {
    hide Graph, NodeOk, ThreadOk, ListOk, PairOk;
  }

  lemma NodeOf(s: State, i: nat)
    requires Inv(s) && i < |s.nodes|
    ensures NodeOk(s.threads, i, s.nodes[i])
  {
    hide Graph, NodeOk, ThreadOk, ListOk, PairOk;
  }

  /** A thread between taking its locks and moving the pointer of the anchor: the pointer leads to the victim. */
  lemma WriterEdge(s: State, w: nat)
    requires Inv(s) && w < |s.threads| && Pending(s.threads[w], Change) && s.threads[w].kind != Plain
    ensures var tw := s.threads[w];
            && Edge(s.nodes, tw.anchor, tw.ab) == Some(tw.victim)
            && tw.anchor < |s.nodes| && s.nodes[tw.anchor].lockedBy == Some(w)
  {
    hide Inv, MadeOk, HeldOk, ProbeOk, WalkOk, LockingOk, Graph, ListOk;
    ThreadOf(s, w);
    assert s.threads[w].anchor in Locks(s.threads[w]);
  }

  /** A thread about to lock a leaf has locked the node above it. */
  lemma LockerEdge(s: State, u: nat)
    requires Inv(s) && u < |s.threads| && s.threads[u].pc in {ReadLeaf, UpgradeLeaf}
    ensures var th := s.threads[u];
            && th.next.Some? && Edge(s.nodes, th.node, th.byte) == th.next && th.next.value < |s.nodes|
            && s.nodes[th.next.value].leaf && s.nodes[th.next.value].stage == Linked
            && th.node < |s.nodes| && s.nodes[th.node].lockedBy == Some(u) && !s.nodes[th.node].leaf
  {
    hide Inv, MadeOk, HeldOk, ProbeOk, WritingOk, ListOk;
    var th := s.threads[u];
    ThreadOf(s, u);
    assert th.node in Locks(th);
    assert Edge(s.nodes, th.node, th.byte) == th.next;
  }

  lemma LeafNotDoomed(s: State, u: nat, w: nat)
    requires Inv(s) && u < |s.threads| && s.threads[u].pc in {ReadLeaf, UpgradeLeaf} && w < |s.threads|
    ensures s.threads[u].next.Some? && !Dooms(s.threads[w], s.threads[u].next.value)
  {
    LockerEdge(s, u);
    if Dooms(s.threads[w], s.threads[u].next.value) {
      WriterEdge(s, w);
      hide Inv, Pending;
      SameParent(s.nodes, s.threads[u].node, s.threads[u].byte, s.threads[w].anchor, s.threads[w].ab);
      assert false;
    }
  }

  lemma SameParent(nodes: seq<Node>, p: nat, b: Byte, q: nat, c: Byte)
    requires Graph(nodes) && Edge(nodes, p, b).Some? && Edge(nodes, p, b) == Edge(nodes, q, c)
    ensures p == q && b == c
  {
  }

  lemma OnlyInnerLocked(s: State, w: nat, x: nat)
    requires Inv(s) && w < |s.threads| && x in Locks(s.threads[w]) && x < |s.nodes|
    ensures s.nodes[x].leaf ==> s.threads[w].pc == Writing && s.threads[w].victim == x && s.threads[w].kind == LeafSplit
                                && Pending(s.threads[w], Obsolete)
  {
    hide Inv, MadeOk, HeldOk, ProbeOk, ListOk, Graph;
    ThreadOf(s, w);
  }

  lemma ParentForsaken(s: State, p: nat, b: Byte, x: nat)
    requires Inv(s) && Edge(s.nodes, p, b) == Some(x) && x < |s.nodes|
    requires s.nodes[x].leaf && s.nodes[x].lockedBy == Some(|s.threads|)
    ensures p < |s.nodes| && s.nodes[p].lockedBy == Some(|s.threads|)
  {
    hide NodeOk, ThreadOk, ListOk, PairOk, Graph;
    assert HangsBelow(s.nodes, |s.threads|, x);
    var q: nat, c :| Edge(s.nodes, q, c) == Some(x) && s.nodes[q].lockedBy == Some(|s.threads|);
    SameParent(s.nodes, p, b, q, c);
  }

  /** A leaf that is about to be locked under its parent's lock is unlocked, and still part of the tree. */
  lemma LeafUnlocked(s: State, u: nat)
    requires Inv(s) && u < |s.threads| && s.threads[u].pc in {ReadLeaf, UpgradeLeaf}
    ensures var th := s.threads[u];
            && th.next.Some? && th.next.value < |s.nodes| && s.nodes[th.next.value].lockedBy.None?
            && !s.nodes[th.next.value].obsolete && s.nodes[th.next.value].stage == Linked && th.next.value != th.node
  {
    hide Inv;
    LockerEdge(s, u);
    var x := s.threads[u].next.value;
    NodeOf(s, x);
    if s.nodes[x].lockedBy == Some(|s.threads|) {
      ParentForsaken(s, s.threads[u].node, s.threads[u].byte, x);
    } else if s.nodes[x].lockedBy.Some? {
      OnlyInnerLocked(s, s.nodes[x].lockedBy.value, x);
      LeafNotDoomed(s, u, s.nodes[x].lockedBy.value);
    }
    if s.nodes[x].obsolete {
      LeafNotDoomed(s, u, s.nodes[x].doomed.value);
    }
  }

  // ----- the invariant after a good step

  lemma OtherThread(s: State, t: nat, nodes': seq<Node>, epoch': nat, u: nat)
    requires Inv(s) && t < |s.threads| && u < |s.threads| && u != t && s.epoch <= epoch'
    requires NodeSteps(t, s.nodes, nodes') && KeepsHeld(s, t, nodes')
    ensures ThreadOk(nodes', epoch', s.lists[u], u, s.threads[u])
  {
    hide Inv, WalkOk, ProbeOk, LockingOk, WritingOk, HeldOk, NodeSteps, KeepsHeld, Locks;
    var th := s.threads[u];
    ThreadOf(s, u);
    OtherLocks(t, u, s.nodes, nodes', th);
    OtherHeld(s, t, nodes', u);
    OtherWalk(t, s.nodes, nodes', th);
    OtherProbe(t, s.nodes, nodes', th);
    OtherParts(s, t, nodes', u);
  }

  lemma OtherLocks(t: nat, u: nat, nodes: seq<Node>, nodes': seq<Node>, th: Local)
    requires NodeSteps(t, nodes, nodes') && u != t
    requires forall i | i in Locks(th) :: i < |nodes| && nodes[i].lockedBy == Some(u)
    ensures forall i | i in Locks(th) :: i < |nodes'| && nodes'[i].lockedBy == Some(u)
  {
    forall i | i in Locks(th) ensures i < |nodes'| && nodes'[i].lockedBy == Some(u) {
      assert NodeStep(t, nodes[i], nodes'[i]);
    }
  }

  lemma OtherHeld(s: State, t: nat, nodes': seq<Node>, u: nat)
    requires NodeSteps(t, s.nodes, nodes') && KeepsHeld(s, t, nodes') && u < |s.threads| && u != t
    requires InOp(s.threads[u].pc) ==> HeldOk(s.nodes, s.threads[u].held)
    ensures InOp(s.threads[u].pc) ==> HeldOk(nodes', s.threads[u].held)
  {
    if InOp(s.threads[u].pc) {
      forall x | x in s.threads[u].held ensures x < |nodes'| && nodes'[x].stage in {Linked, Unlinked} {
        assert NodeStep(t, s.nodes[x], nodes'[x]);
      }
    }
  }

  lemma OtherParts(s: State, t: nat, nodes': seq<Node>, u: nat)
    requires Inv(s) && t < |s.threads| && u < |s.threads| && u != t && NodeSteps(t, s.nodes, nodes')
    ensures LockingOk(nodes', s.threads[u]) && WritingOk(nodes', u, s.threads[u])
  {
    hide Inv, NodeSteps, WritingOk, LockingOk, WalkOk, ProbeOk, HeldOk, Locks, Dooms, MadeBy;
    var th := s.threads[u];
    ThreadOf(s, u);
    if th.pc == UpgradeLeaf {
      LeafUnlocked(s, u);
    }
    LeavesKept(t, s.nodes, nodes');
    forall i | 0 <= i < |s.nodes| ensures s.nodes[i].obsolete ==> s.nodes[i].lockedBy.None? {
      NodeOf(s, i);
    }
    OtherLocking(t, u, s.nodes, nodes', th);
    OtherWriting(t, u, s.nodes, nodes', th);
  }

  lemma LeavesKept(t: nat, nodes: seq<Node>, nodes': seq<Node>)
    requires NodeSteps(t, nodes, nodes')
    ensures forall i | 0 <= i < |nodes| :: nodes[i].leaf ==> nodes'[i].kids == nodes[i].kids
  {
    forall i | 0 <= i < |nodes| ensures nodes[i].leaf ==> nodes'[i].kids == nodes[i].kids {
      assert NodeStep(t, nodes[i], nodes'[i]);
    }
  }

  lemma OtherList(t: nat, nodes: seq<Node>, nodes': seq<Node>, epoch: nat, epoch': nat, u: nat, list: seq<Label<nat>>)
    requires NodeSteps(t, nodes, nodes') && ListOk(nodes, epoch, u, list) && epoch <= epoch'
    ensures ListOk(nodes', epoch', u, list)
  {
    forall i: nat, x: nat | i < |list| && x in list[i].entries ensures Retired(nodes', u, x) {
      assert Retired(nodes, u, x);
      assert NodeStep(t, nodes[x], nodes'[x]);
    }
  }

  /** What thread t newly holds is in no list, and no victim on its way there. */
  lemma PairKept(nodes: seq<Node>, owner: nat, u: Local, list: seq<Label<nat>>, t: nat, th: Local, th': Local)
    requires PairOk(u, list, t, th) && HoldStep(nodes, th, th')
    requires forall i: nat, x: nat | i < |list| && x in list[i].entries :: Retired(nodes, owner, x)
    requires Past(u, LoadEpoch) && Pending(u, Mark) ==> u.victim < |nodes| && nodes[u.victim].obsolete
    ensures PairOk(u, list, t, th')
  {
    hide Past, Pending;
    if InOp(th'.pc) {
      forall i: nat, x: nat | i < |list| && x in list[i].entries && x in th'.held
        ensures InOp(th.pc) && x in th.held && th'.localEpoch == th.localEpoch
      {
        assert Retired(nodes, owner, x);
      }
    }
  }

  lemma OtherPair(s: State, t: nat, e: Effect, u: nat)
    requires Inv(s) && t < |s.threads| && u < |s.threads| && u != t && HoldStep(s.nodes, s.threads[t], e.local)
    ensures PairOk(s.threads[u], s.lists[u], t, e.local)
  {
    hide HoldStep, Graph, NodeOk, ThreadOk, PairOk;
    assert PairOk(s.threads[u], s.lists[u], t, s.threads[t]) && ListOk(s.nodes, s.epoch, u, s.lists[u]);
    VictimObsolete(s, u);
    PairKept(s.nodes, u, s.threads[u], s.lists[u], t, s.threads[t], e.local);
  }

  lemma VictimObsolete(s: State, u: nat)
    requires Inv(s) && u < |s.threads|
    ensures var th := s.threads[u];
            Past(th, LoadEpoch) && Pending(th, Mark) ==> th.victim < |s.nodes| && s.nodes[th.victim].obsolete
  {
    hide Inv, MadeOk, HeldOk, ProbeOk, WalkOk, LockingOk, Graph, ListOk;
    ThreadOf(s, u);
  }

  lemma Assemble(s: State)
    requires |s.threads| == |s.lists| && Graph(s.nodes) && LeavesBelow(s.nodes, |s.threads|)
    requires forall i | 0 <= i < |s.nodes| :: NodeOk(s.threads, i, s.nodes[i])
    requires forall t | 0 <= t < |s.threads| :: ThreadOk(s.nodes, s.epoch, s.lists[t], t, s.threads[t])
    requires forall t | 0 <= t < |s.threads| :: ListOk(s.nodes, s.epoch, t, s.lists[t])
    requires forall u, t | 0 <= u < |s.threads| && 0 <= t < |s.threads| ::
               PairOk(s.threads[u], s.lists[u], t, s.threads[t])
    requires forall t | 0 <= t < |s.threads| && s.threads[t].pc == FreeOld :: s.threads[t].scanned >= |s.threads|
    ensures Inv(s)
  {
    hide Graph, NodeOk, ThreadOk, ListOk, PairOk;
  }

  lemma KeepsThread(s: State, t: nat, e: Effect, u: nat)
    requires Inv(s) && Good(s, t, e) && u < |s.threads|
    ensures var s' := Apply(s, t, e);
            && ThreadOk(s'.nodes, s'.epoch, s'.lists[u], u, s'.threads[u]) && ListOk(s'.nodes, s'.epoch, u, s'.lists[u])
  {
    hide Graph, NodeOk, ThreadOk, ListOk, PairOk, NodeSteps, HoldStep, KeepsHeld, OwnPairs;
    if u != t {
      OtherThread(s, t, e.nodes, e.epoch, u);
      OtherList(t, s.nodes, e.nodes, s.epoch, e.epoch, u, s.lists[u]);
    }
  }

  lemma KeepsPair(s: State, t: nat, e: Effect, u: nat, w: nat)
    requires Inv(s) && Good(s, t, e) && u < |s.threads| && w < |s.threads|
    ensures var s' := Apply(s, t, e); PairOk(s'.threads[u], s'.lists[u], w, s'.threads[w])
  {
    hide Graph, NodeOk, ThreadOk, ListOk, PairOk, NodeSteps, HoldStep, KeepsHeld;
    if u != t && w == t {
      OtherPair(s, t, e, u);
    } else if u != t {
      assert PairOk(s.threads[u], s.lists[u], w, s.threads[w]);
    }
  }

  lemma GoodKeeps(s: State, t: nat, e: Effect)
    requires Inv(s) && Good(s, t, e) && LeavesBelow(e.nodes, |s.threads|)
    ensures Inv(Apply(s, t, e))
  {
    hide Graph, NodeOk, ThreadOk, ListOk, PairOk, NodeSteps, HoldStep, KeepsHeld, OwnPairs;
    var s' := Apply(s, t, e);
    forall u | 0 <= u < |s'.threads|
      ensures ThreadOk(s'.nodes, s'.epoch, s'.lists[u], u, s'.threads[u]) && ListOk(s'.nodes, s'.epoch, u, s'.lists[u])
    {
      KeepsThread(s, t, e, u);
    }
    forall u, w | 0 <= u < |s'.threads| && 0 <= w < |s'.threads|
      ensures PairOk(s'.threads[u], s'.lists[u], w, s'.threads[w])
    {
      KeepsPair(s, t, e, u, w);
    }
    Assemble(s');
  }
}
