/** The steps of a change made under lock, and those between operations. */
module OlcWrites {
  import opened Wrappers
  import opened Bytes
  import opened DeletionLists
  import opened OlcModel
  import opened OlcInvariant
  import opened OlcSteps

  /** One act further. */
  lemma Advance(th: Local, th': Local, a: Act)
    requires th.pc == Writing && th.at < |Program(th.kind)| && Program(th.kind)[th.at] == a
    requires th'.pc == Writing && th'.kind == th.kind && th'.at == th.at + 1
    ensures Pending(th, a) && th'.at <= |Program(th.kind)|
    ensures forall b :: Pending(th', b) <==> Pending(th, b) && b != a
    ensures forall b :: Past(th', b) <==> Past(th, b) || b == a
  {
    forall b ensures (Pending(th', b) <==> Pending(th, b) && b != a) && (Past(th', b) <==> Past(th, b) || b == a) {
      PosIsPosition(th.kind, a, th.at);
      PosIsPosition(th.kind, b, th.at);
    }
  }

  /** In which order the acts come. */
  lemma Order(th: Local)
    requires th.pc == Writing
    ensures Pending(th, Create) ==> Pending(th, Change)
    ensures Pending(th, Change) ==> Pending(th, UnlockAnchor)
    ensures th.kind in {Grow, PrefixSplit} && Pending(th, Change) ==> Pending(th, Obsolete)
    ensures th.kind != Plain && Pending(th, Obsolete) ==> Pending(th, LoadEpoch)
    ensures th.kind != Plain && Pending(th, LoadEpoch) ==> Pending(th, Mark)
    ensures th.kind == LeafSplit && Pending(th, Mark) ==> Pending(th, Change)
    ensures th.kind == Plain ==> !Pending(th, Obsolete) && !Pending(th, LoadEpoch) && !Pending(th, Mark)
    ensures th.kind == Plain ==> !Past(th, LoadEpoch) || th.at > 6
    ensures th.kind != Plain ==> Pending(th, Obsolete) || Past(th, Obsolete)
    ensures th.kind != Plain ==> Pending(th, LoadEpoch) || Past(th, LoadEpoch)
    ensures forall a :: !(Pending(th, a) && Past(th, a))
  {
  }

  /** What a writing thread knows. */
  ghost predicate Writes(s: State, t: nat) {
    && t < |s.threads| == |s.lists| && s.threads[t].pc == Writing && WritingOk(s.nodes, t, s.threads[t])
    && (forall i | i in Locks(s.threads[t]) :: i < |s.nodes| && s.nodes[i].lockedBy == Some(t))
    && HeldOk(s.nodes, s.threads[t].held)
  }

  lemma WritesOf(s: State, t: nat)
    requires Inv(s) && t < |s.threads| && s.threads[t].pc == Writing
    ensures Writes(s, t) && Graph(s.nodes)
  {
    hide Inv, HeldOk, WalkOk, ProbeOk, LockingOk, WritingOk, Locks, Past, Pending, Graph, ListOk;
    ThreadOf(s, t);
  }

  /** A writing thread goes on writing. */
  lemma StillWriting(nodes: seq<Node>, nodes': seq<Node>, epoch: nat, list: seq<Label<nat>>, list': seq<Label<nat>>,
                     t: nat, th: Local, th': Local)
    requires ThreadOk(nodes, epoch, list, t, th) && th.pc == Writing && th'.pc == Writing
    requires th'.held == th.held && th'.localEpoch == th.localEpoch && HeldOk(nodes', th'.held)
    requires forall i | i in Locks(th') :: i < |nodes'| && nodes'[i].lockedBy == Some(t)
    requires WritingOk(nodes', t, th')
    requires Past(th', LoadEpoch) && Pending(th', Mark) ==>
               th'.markEpoch <= epoch && (list' != [] ==> list'[0].epoch <= th'.markEpoch)
    ensures ThreadOk(nodes', epoch, list', t, th')
  {
    hide HeldOk, WritingOk, Locks, Past, Pending;
    NoWalk(nodes', th');
    OnlyWriting(nodes', th');
  }

  lemma OnlyWriting(nodes: seq<Node>, th: Local)
    requires th.pc == Writing
    ensures ProbeOk(nodes, th) && LockingOk(nodes, th)
  {
  }

  lemma HeldKept(t: nat, nodes: seq<Node>, nodes': seq<Node>, held: set<nat>)
    requires HeldOk(nodes, held) && NodeSteps(t, nodes, nodes')
    requires forall i | 0 <= i < |nodes| :: nodes'[i].stage == Freed ==> nodes[i].stage == Freed
    ensures HeldOk(nodes', held)
  {
    forall x | x in held ensures x < |nodes'| && nodes'[x].stage in {Linked, Unlinked} {
      assert NodeStep(t, nodes[x], nodes'[x]);
    }
  }

  // ----- the victim becomes obsolete

  lemma ObsoleteMove(s: State, t: nat, n': Node, th': Local)
    requires Writes(s, t) && Graph(s.nodes)
    requires s.threads[t].at < |Program(s.threads[t].kind)| && Program(s.threads[t].kind)[s.threads[t].at] == Obsolete
    requires th' == s.threads[t].(at := s.threads[t].at + 1) && s.threads[t].victim < |s.nodes|
    requires n' == Unlock(s.nodes[s.threads[t].victim]).(obsolete := true)
    ensures var nodes' := s.nodes[s.threads[t].victim := n'];
            WritingOk(nodes', t, th') && Locks(s.threads[t]) - {s.threads[t].victim} == Locks(th') && Calm(th')
    ensures s.threads[t].victim != 0 && s.nodes[s.threads[t].victim].lockedBy == Some(t)
    ensures forall j :: (Dooms(s.threads[t], j) ==> Dooms(th', j)) && (MadeBy(s.threads[t], j) ==> MadeBy(th', j))
    ensures s.nodes[s.threads[t].victim].stage == Linked ==> Dooms(th', s.threads[t].victim)
    ensures s.nodes[s.threads[t].victim].doomed == Some(t)
  {
    var th := s.threads[t];
    Advance(th, th', Obsolete);
    Order(th);
    Order(th');
    hide Pending, Past;
    assert th.victim in Locks(th) && th.kind != Plain;
  }

  lemma ObsoleteNode(ths: seq<Local>, t: nat, th': Local, i: nat, n: Node, n': Node)
    requires t < |ths| && NodeOk(ths, i, n) && n.lockedBy == Some(t) && n.doomed == Some(t)
    requires n' == Unlock(n).(obsolete := true) && (n.stage == Linked ==> Dooms(th', i))
    ensures NodeOk(ths[t := th'], i, n') && NodeStep(t, n, n')
  {
  }

  lemma ObsoleteGood(s: State, t: nat, c: Choice)
    requires Inv(s) && t < |s.threads| == |s.lists| && s.threads[t].pc == Writing
    requires s.threads[t].at < |Program(s.threads[t].kind)| && Program(s.threads[t].kind)[s.threads[t].at] == Obsolete
    ensures Good(s, t, WriteStep(s, t, c))
  {
    hide Inv, Good, ThreadOk, HeldOk, WritingOk, Calm, Graph, ListOk, NodeOk, NodeStep, NodeSteps, Dooms, MadeBy,
         Pending, Past;
    var th := s.threads[t];
    WritesOf(s, t);
    VictimInRange(s, t);
    var x, th' := th.victim, th.(at := th.at + 1);
    var n' := Unlock(s.nodes[x]).(obsolete := true);
    ObsoleteMove(s, t, n', th');
    hide Locks;
    NodeOf(s, x);
    ObsoleteNode(s.threads, t, th', x, s.nodes[x], n');
    PutSteps(t, s.nodes, x, n');
    HeldKept(t, s.nodes, s.nodes[x := n'], th.held);
    ThreadOf(s, t);
    CalmMeans(th');
    StillWriting(s.nodes, s.nodes[x := n'], s.epoch, s.lists[t], s.lists[t], t, th, th');
    PutGood(s, t, x, n', th');
  }

  lemma CalmMeans(th: Local)
    ensures Calm(th) ==> !(Past(th, LoadEpoch) && Pending(th, Mark))
  {
  }

  lemma VictimInRange(s: State, t: nat)
    requires Writes(s, t)
    ensures s.threads[t].kind != Plain ==> s.threads[t].victim < |s.nodes|
    ensures s.threads[t].anchor < |s.nodes|
  {
  }

  // ----- the anchor is unlocked

  lemma UnlockMove(s: State, t: nat, n': Node, th': Local)
    requires Writes(s, t) && Graph(s.nodes) && s.threads[t].anchor < |s.nodes|
    requires s.threads[t].at < |Program(s.threads[t].kind)|
    requires Program(s.threads[t].kind)[s.threads[t].at] == UnlockAnchor
    requires th' == s.threads[t].(at := s.threads[t].at + 1) && n' == Unlock(s.nodes[s.threads[t].anchor])
    ensures var nodes' := s.nodes[s.threads[t].anchor := n'];
            WritingOk(nodes', t, th') && Locks(s.threads[t]) - {s.threads[t].anchor} == Locks(th') && Calm(th')
    ensures Firm(s.nodes, s.threads[t].anchor) && s.nodes[s.threads[t].anchor].lockedBy == Some(t)
    ensures forall j :: !Dooms(s.threads[t], j) && !MadeBy(s.threads[t], j)
  {
    var th := s.threads[t];
    Advance(th, th', UnlockAnchor);
    Order(th);
    Order(th');
    hide Pending, Past, MadeOk;
    assert th.anchor in Locks(th);
  }

  lemma UnlockAnchorGood(s: State, t: nat, c: Choice)
    requires Inv(s) && t < |s.threads| == |s.lists| && s.threads[t].pc == Writing
    requires s.threads[t].at < |Program(s.threads[t].kind)|
    requires Program(s.threads[t].kind)[s.threads[t].at] == UnlockAnchor
    ensures Good(s, t, WriteStep(s, t, c))
  {
    hide Inv, Good, ThreadOk, HeldOk, WritingOk, Calm, Graph, ListOk, NodeOk, NodeStep, NodeSteps, Dooms, MadeBy,
         Pending, Past;
    var th := s.threads[t];
    WritesOf(s, t);
    VictimInRange(s, t);
    var x, th' := th.anchor, th.(at := th.at + 1);
    var n' := Unlock(s.nodes[x]);
    UnlockMove(s, t, n', th');
    hide Locks;
    NodeOf(s, x);
    UnlockNode(s.threads, t, th', x, s.nodes[x]);
    PutSteps(t, s.nodes, x, n');
    HeldKept(t, s.nodes, s.nodes[x := n'], th.held);
    ThreadOf(s, t);
    CalmMeans(th');
    StillWriting(s.nodes, s.nodes[x := n'], s.epoch, s.lists[t], s.lists[t], t, th, th');
    UnlockGood(s, t, x, th');
  }

  // ----- the epoch is read, and the victim entered in the list

  /** A step that changes nothing but the thread and its list. */
  lemma ListGood(s: State, t: nat, list': seq<Label<nat>>, th': Local)
    requires Inv(s) && t < |s.threads| == |s.lists| && InOp(s.threads[t].pc) && InOp(th'.pc)
    requires th'.held == s.threads[t].held && th'.localEpoch == s.threads[t].localEpoch
    requires Locks(th') == Locks(s.threads[t])
    requires forall j :: (Dooms(s.threads[t], j) ==> Dooms(th', j)) && (MadeBy(s.threads[t], j) ==> MadeBy(th', j))
    requires ThreadOk(s.nodes, s.epoch, list', t, th') && ListOk(s.nodes, s.epoch, t, list')
    requires forall u | 0 <= u < |s.threads| :: PairOk(th', list', u, s.threads[u])
    ensures Good(s, t, Effect(s.nodes, th', list', s.epoch))
  {
    hide Inv, ThreadOk, ListOk, PairOk, NodeOk, NodeStep, NodeSteps, Graph, Locks, Dooms, MadeBy;
    ThreadOf(s, t);
    SameNodes(t, s.nodes);
    forall i | 0 <= i < |s.nodes| ensures NodeOk(s.threads[t := th'], i, s.nodes[i]) {
      NodeOf(s, i);
      NodeKept(s.threads, t, th', i, s.nodes[i]);
    }
    SameHolds(s, t, th', list');
  }

  lemma SameHolds(s: State, t: nat, th': Local, list': seq<Label<nat>>)
    requires t < |s.threads| && InOp(s.threads[t].pc) && InOp(th'.pc)
    requires th'.held == s.threads[t].held && th'.localEpoch == s.threads[t].localEpoch
    requires forall u | 0 <= u < |s.threads| :: PairOk(th', list', u, s.threads[u])
    ensures OwnPairs(th', list', s.threads[t := th'])
  {
    var ths' := s.threads[t := th'];
    forall u | 0 <= u < |ths'| ensures PairOk(th', list', u, ths'[u]) {
      assert PairOk(th', list', u, s.threads[u]);
    }
  }

  lemma LoadEpochMove(s: State, t: nat, th': Local)
    requires Writes(s, t)
    requires s.threads[t].at < |Program(s.threads[t].kind)| && Program(s.threads[t].kind)[s.threads[t].at] == LoadEpoch
    requires th' == s.threads[t].(at := s.threads[t].at + 1, markEpoch := th'.markEpoch)
    ensures WritingOk(s.nodes, t, th') && Locks(s.threads[t]) == Locks(th')
    ensures forall j :: (Dooms(s.threads[t], j) ==> Dooms(th', j)) && (MadeBy(s.threads[t], j) ==> MadeBy(th', j))
  {
    var th := s.threads[t];
    Advance(th, th', LoadEpoch);
    Order(th);
    hide Pending, Past;
  }

  /** No thread in an operation is ahead of the epoch. */
  lemma EpochAhead(s: State, t: nat, u: nat, th': Local)
    requires Inv(s) && t < |s.threads| == |s.lists| && u < |s.threads| && th'.pc == Writing && th'.markEpoch == s.epoch
    ensures PairOk(th', s.lists[t], u, s.threads[u])
  {
    hide Graph, NodeOk, WalkOk, ProbeOk, LockingOk, WritingOk, HeldOk, Locks, Past, Pending, ListOk;
    ThreadOf(s, u);
    assert PairOk(s.threads[t], s.lists[t], u, s.threads[u]);
  }

  lemma LoadEpochGood(s: State, t: nat, c: Choice)
    requires Inv(s) && t < |s.threads| == |s.lists| && s.threads[t].pc == Writing
    requires s.threads[t].at < |Program(s.threads[t].kind)| && Program(s.threads[t].kind)[s.threads[t].at] == LoadEpoch
    ensures Good(s, t, WriteStep(s, t, c))
  {
    hide Inv, Good, ThreadOk, HeldOk, WritingOk, Graph, NodeOk, NodeStep, NodeSteps, Dooms, MadeBy, Pending, Past,
         PairOk;
    var th := s.threads[t];
    WritesOf(s, t);
    var th' := th.(at := th.at + 1, markEpoch := s.epoch);
    LoadEpochMove(s, t, th');
    hide Locks;
    ThreadOf(s, t);
    StillWriting(s.nodes, s.nodes, s.epoch, s.lists[t], s.lists[t], t, th, th');
    forall u | 0 <= u < |s.threads| ensures PairOk(th', s.lists[t], u, s.threads[u]) {
      EpochAhead(s, t, u, th');
    }
    ListGood(s, t, s.lists[t], th');
  }

  lemma MarkMove(s: State, t: nat, th': Local)
    requires Writes(s, t)
    requires s.threads[t].at < |Program(s.threads[t].kind)| && Program(s.threads[t].kind)[s.threads[t].at] == Mark
    requires th' == s.threads[t].(at := s.threads[t].at + 1)
    ensures WritingOk(s.nodes, t, th') && Locks(s.threads[t]) == Locks(th') && !Pending(th', Mark)
    ensures forall j :: (Dooms(s.threads[t], j) ==> Dooms(th', j)) && (MadeBy(s.threads[t], j) ==> MadeBy(th', j))
    ensures Past(s.threads[t], LoadEpoch) && Pending(s.threads[t], Mark) && Retired(s.nodes, t, s.threads[t].victim)
  {
    var th := s.threads[t];
    Advance(th, th', Mark);
    Order(th);
    hide Pending, Past;
  }

  /** Where the entries of a list with one more entry come from. */
  lemma EntryOf(list: seq<Label<nat>>, x: nat, e: nat, i: nat, y: nat)
    requires var list' := WithEntry(list, x, e); i < |list'| && y in list'[i].entries
    ensures var list' := WithEntry(list, x, e);
            || (y == x && list'[i].epoch == e)
            || (exists j :: 0 <= j < |list| && y in list[j].entries
                            && (list'[i].epoch == list[j].epoch || (j == 0 && list'[i].epoch == e)))
  {
    var list' := WithEntry(list, x, e);
    if list != [] && |list[0].entries| < LABEL_SIZE {
      if i > 0 {
        assert list'[i] == list[i];
      } else {
        assert y == x || y in list[0].entries;
      }
    } else if i > 0 {
      assert list'[i] == list[i - 1];
    }
  }

  lemma MarkedList(nodes: seq<Node>, epoch: nat, t: nat, list: seq<Label<nat>>, x: nat, e: nat)
    requires ListOk(nodes, epoch, t, list) && Retired(nodes, t, x) && e <= epoch
    ensures ListOk(nodes, epoch, t, WithEntry(list, x, e))
  {
    var list' := WithEntry(list, x, e);
    forall i: nat, y: nat | i < |list'| && y in list'[i].entries ensures Retired(nodes, t, y) {
      EntryOf(list, x, e, i, y);
    }
  }

  lemma MarkedPair(list: seq<Label<nat>>, x: nat, e: nat, th: Local, th': Local, u: nat, tu: Local)
    requires PairOk(th, list, u, tu) && th'.pc == Writing && !Pending(th', Mark)
    requires Past(th, LoadEpoch) && Pending(th, Mark) && th.victim == x && th.markEpoch == e
    requires list != [] ==> list[0].epoch <= e
    ensures PairOk(th', WithEntry(list, x, e), u, tu)
  {
    hide Past, Pending;
    var list' := WithEntry(list, x, e);
    if InOp(tu.pc) {
      forall i: nat, y: nat | i < |list'| && y in list'[i].entries && y in tu.held
        ensures tu.localEpoch <= list'[i].epoch
      {
        EntryOf(list, x, e, i, y);
      }
    }
  }

  lemma MarkGood(s: State, t: nat, c: Choice)
    requires Inv(s) && t < |s.threads| == |s.lists| && s.threads[t].pc == Writing
    requires s.threads[t].at < |Program(s.threads[t].kind)| && Program(s.threads[t].kind)[s.threads[t].at] == Mark
    ensures Good(s, t, WriteStep(s, t, c))
  {
    hide Good, HeldOk, WritingOk, Graph, NodeOk, NodeStep, NodeSteps, Dooms, MadeBy, Pending, Past, PairOk, WalkOk,
         ProbeOk, LockingOk, Retired, ListOk;
    var th := s.threads[t];
    WritesOf(s, t);
    var th' := th.(at := th.at + 1);
    MarkMove(s, t, th');
    hide Locks;
    ThreadOf(s, t);
    var list' := WithEntry(s.lists[t], th.victim, th.markEpoch);
    MarkedList(s.nodes, s.epoch, t, s.lists[t], th.victim, th.markEpoch);
    StillWriting(s.nodes, s.nodes, s.epoch, s.lists[t], list', t, th, th');
    forall u | 0 <= u < |s.threads| ensures PairOk(th', list', u, s.threads[u]) {
      assert PairOk(th, s.lists[t], u, s.threads[u]);
      MarkedPair(s.lists[t], th.victim, th.markEpoch, th, th', u, s.threads[u]);
    }
    ListGood(s, t, list', th');
  }

  // ----- the new nodes are made

  lemma CreatedSize(t: nat, th: Local, victim: Node, f: nat, b1: Byte, b2: Byte)
    ensures |Created(t, th, victim, f, b1, b2)| == NewNodes(th.kind)
    ensures forall i | 0 <= i < NewNodes(th.kind) ::
              var n := Created(t, th, victim, f, b1, b2)[i];
              n.stage == Private(t) && !n.obsolete && n.lockedBy == None
              && (n.leaf && (victim.leaf ==> victim.kids == map[]) ==> n.kids == map[])
  {
  }

  lemma CreateMove(s: State, t: nat, added: seq<Node>, th': Local)
    requires Writes(s, t)
    requires s.threads[t].at < |Program(s.threads[t].kind)| && Program(s.threads[t].kind)[s.threads[t].at] == Create
    requires var th := s.threads[t];
             && th' == th.(at := th.at + 1, made := |s.nodes|, nb1 := th'.nb1, nb2 := th'.nb2) && th'.nb1 != th'.nb2
             && added == Created(t, th, Get(s.nodes, th.victim), |s.nodes|, th'.nb1, th'.nb2)
    ensures WritingOk(s.nodes + added, t, th') && Locks(s.threads[t]) == Locks(th') && Calm(th')
    ensures forall j :: (Dooms(s.threads[t], j) ==> Dooms(th', j)) && !MadeBy(s.threads[t], j)
    ensures forall j | |s.nodes| <= j < |s.nodes| + |added| :: MadeBy(th', j)
  {
    var th := s.threads[t];
    Advance(th, th', Create);
    Order(th);
    Order(th');
    hide Pending, Past;
    CreatedSize(t, th, Get(s.nodes, th.victim), |s.nodes|, th'.nb1, th'.nb2);
    assert added == Created(t, th', Get(s.nodes + added, th'.victim), |s.nodes|, th'.nb1, th'.nb2) by {
      if th.kind != Plain {
        assert (s.nodes + added)[th.victim] == s.nodes[th.victim];
      }
    }
    hide Created;
  }

  lemma AppendSteps(t: nat, nodes: seq<Node>, added: seq<Node>)
    ensures NodeSteps(t, nodes, nodes + added)
  {
    forall i | 0 <= i < |nodes| ensures NodeStep(t, nodes[i], (nodes + added)[i]) {
      SameNode(t, nodes[i]);
    }
  }

  lemma AppendGraph(nodes: seq<Node>, added: seq<Node>)
    requires Graph(nodes) && forall i | 0 <= i < |added| :: added[i].stage.Private?
    ensures Graph(nodes + added)
  {
    GraphKept(nodes, nodes + added);
  }

  lemma NewNodeOk(ths: seq<Local>, t: nat, i: nat, n: Node)
    requires t < |ths| && n.stage == Private(t) && !n.obsolete && n.lockedBy == None && (n.leaf ==> n.kids == map[])
    requires MadeBy(ths[t], i)
    ensures NodeOk(ths, i, n)
  {
  }

  lemma AppendNodes(s: State, t: nat, added: seq<Node>, th': Local)
    requires Inv(s) && t < |s.threads| && Locks(s.threads[t]) <= Locks(th')
    requires forall j :: (Dooms(s.threads[t], j) ==> Dooms(th', j)) && !MadeBy(s.threads[t], j)
    requires forall j | |s.nodes| <= j < |s.nodes| + |added| :: MadeBy(th', j)
    requires forall i | 0 <= i < |added| ::
               added[i].stage == Private(t) && !added[i].obsolete && added[i].lockedBy == None
                                           && (added[i].leaf ==> added[i].kids == map[])
    ensures forall i | 0 <= i < |s.nodes + added| :: NodeOk(s.threads[t := th'], i, (s.nodes + added)[i])
  {
    hide Inv, NodeOk, Locks, Dooms, MadeBy;
    var nodes' := s.nodes + added;
    forall i | 0 <= i < |nodes'| ensures NodeOk(s.threads[t := th'], i, nodes'[i]) {
      if i < |s.nodes| {
        NodeOf(s, i);
        NodeKept(s.threads, t, th', i, s.nodes[i]);
      } else {
        assert nodes'[i] == added[i - |s.nodes|] && i == |s.nodes| + (i - |s.nodes|);
        NewNodeOk(s.threads[t := th'], t, i, nodes'[i]);
      }
    }
  }

  lemma VictimLeaf(s: State, t: nat)
    requires Inv(s) && t < |s.threads|
    ensures var x := Get(s.nodes, s.threads[t].victim); x.leaf ==> x.kids == map[]
  {
    hide Inv;
    if s.threads[t].victim < |s.nodes| {
      NodeOf(s, s.threads[t].victim);
    }
  }

  lemma CreateGood(s: State, t: nat, c: Choice)
    requires Inv(s) && t < |s.threads| == |s.lists| && s.threads[t].pc == Writing && c.New? && c.b1 != c.b2
    requires s.threads[t].at < |Program(s.threads[t].kind)| && Program(s.threads[t].kind)[s.threads[t].at] == Create
    ensures Good(s, t, WriteStep(s, t, c))
  {
    hide Inv, ThreadOk, HeldOk, WritingOk, Graph, ListOk, NodeOk, NodeStep, NodeSteps, Dooms, MadeBy, Pending, Past,
         PairOk, Created, OwnPairs;
    var th := s.threads[t];
    WritesOf(s, t);
    var added := Created(t, th, Get(s.nodes, th.victim), |s.nodes|, c.b1, c.b2);
    var th' := th.(at := th.at + 1, made := |s.nodes|, nb1 := c.b1, nb2 := c.b2);
    CreateMove(s, t, added, th');
    hide Locks;
    VictimLeaf(s, t);
    CreatedSize(t, th, Get(s.nodes, th.victim), |s.nodes|, c.b1, c.b2);
    AppendSteps(t, s.nodes, added);
    AppendGraph(s.nodes, added);
    AppendNodes(s, t, added, th');
    HeldKept(t, s.nodes, s.nodes + added, th.held);
    ThreadOf(s, t);
    StillWriting(s.nodes, s.nodes + added, s.epoch, s.lists[t], s.lists[t], t, th, th');
    OwnPairsKept(s, t, th');
    OtherList(t, s.nodes, s.nodes + added, s.epoch, s.epoch, t, s.lists[t]);
  }

  // ----- the pointer of the anchor moves

  /** The edge that leads to a new node. */
  ghost function NewParent(th: Local, x: nat): (nat, Byte) {
    if x == th.made then (th.anchor, th.ab)
    else if x == th.made + 1 then (th.made, if th.kind == Grow then th.byte else th.nb1)
    else (th.made, th.nb2)
  }

  /** The new node that has the victim's children. */
  ghost function Copy(th: Local): nat {
    if th.kind == Grow then th.made else th.made + 2
  }

  ghost predicate Relinks(s: State, t: nat) {
    && Writes(s, t) && Graph(s.nodes) && Pending(s.threads[t], Change) && Past(s.threads[t], Create)
  }

  lemma NewNodeFacts(s: State, t: nat)
    requires Relinks(s, t)
    ensures var th := s.threads[t];
            && th.made + NewNodes(th.kind) <= |s.nodes| && th.made > 0
            && (forall x | th.made <= x < th.made + NewNodes(th.kind) ::
                  s.nodes[x].stage == Private(t) && !s.nodes[x].obsolete && s.nodes[x].lockedBy == None)
  {
    var th := s.threads[t];
    CreatedSize(t, th, Get(s.nodes, th.victim), th.made, th.nb1, th.nb2);
    hide Created;
    var added := Created(t, th, Get(s.nodes, th.victim), th.made, th.nb1, th.nb2);
    forall x | th.made <= x < th.made + NewNodes(th.kind)
      ensures s.nodes[x].stage == Private(t) && !s.nodes[x].obsolete && s.nodes[x].lockedBy == None
    {
      assert s.nodes[th.made + (x - th.made)] == added[x - th.made];
    }
  }

  lemma NewNodeKids(s: State, t: nat, p: nat, b: Byte)
    requires Relinks(s, t) && s.threads[t].made <= p < s.threads[t].made + NewNodes(s.threads[t].kind) && p < |s.nodes|
    requires s.threads[t].kind != Plain ==> s.threads[t].victim < |s.nodes|
    ensures var th := s.threads[t];
            Kid(s.nodes[p], b).Some? ==>
              var x := Kid(s.nodes[p], b).value;
              || (th.made < x < th.made + NewNodes(th.kind) && NewParent(th, x) == (p, b))
              || (th.kind != Plain && p == Copy(th) && Kid(s.nodes[th.victim], b) == Some(x))
  {
    hide Pending, Past, Graph, HeldOk, Locks;
    var th := s.threads[t];
    var added := Created(t, th, Get(s.nodes, th.victim), th.made, th.nb1, th.nb2);
    CreatedSize(t, th, Get(s.nodes, th.victim), th.made, th.nb1, th.nb2);
    assert s.nodes[th.made + (p - th.made)] == added[p - th.made];
  }

  /** Every edge after the change is a new one, or an old one, perhaps moved from the victim to its copy. */
  lemma EdgeAfter(s: State, t: nat, p: nat, b: Byte)
    requires Relinks(s, t) && Edge(Relinked(s, t), p, b).Some?
    requires forall i | 0 <= i < |s.nodes| && s.nodes[i].stage == Private(t) ::
               s.threads[t].made <= i < s.threads[t].made + NewNodes(s.threads[t].kind)
    ensures var th := s.threads[t];
            var x := Edge(Relinked(s, t), p, b).value;
            if th.made <= x < th.made + NewNodes(th.kind) then (p, b) == NewParent(th, x)
            else
              && Edge(s.nodes, if th.kind != Plain && p == Copy(th) then th.victim else p, b) == Some(x)
              && x < |s.nodes| && (th.kind != Plain ==> x != th.victim && p != th.victim)
  {
    var th := s.threads[t];
    NewNodeFacts(s, t);
    VictimInRange(s, t);
    AnchorEdge(s, t);
    hide MadeOk, HeldOk, Locks, Pending, Past, Created;
    if p == th.anchor {
      OldEdge(s, t, p, b);
    } else if th.made <= p < th.made + NewNodes(th.kind) {
      NewNodeKids(s, t, p, b);
      if th.kind != Plain && p == Copy(th) {
        OldEdge(s, t, th.victim, b);
      }
    } else {
      OldEdge(s, t, p, b);
    }
  }

  lemma AnchorEdge(s: State, t: nat)
    requires Relinks(s, t)
    ensures var th := s.threads[t];
            && th.anchor < |s.nodes| && s.nodes[th.anchor].stage == Linked && !s.nodes[th.anchor].leaf
            && s.nodes[th.anchor].lockedBy == Some(t)
            && (th.kind == Plain ==> Edge(s.nodes, th.anchor, th.ab) == None)
            && (th.kind != Plain ==>
                  && th.anchor != th.victim && Edge(s.nodes, th.anchor, th.ab) == Some(th.victim)
                  && th.victim < |s.nodes| && s.nodes[th.victim].stage == Linked && 0 < th.victim)
  {
    var th := s.threads[t];
    Order(th);
    hide MadeOk, HeldOk, Pending, Past;
    assert th.anchor in Locks(th);
    assert th.kind != Plain ==> Edge(s.nodes, th.anchor, th.ab) == Some(th.victim);
  }

  /** No old edge but the anchor's leads to the victim, and none leads to a new node. */
  lemma OldEdge(s: State, t: nat, p: nat, b: Byte)
    requires Relinks(s, t)
    ensures var th := s.threads[t];
            Edge(s.nodes, p, b).Some? ==>
              var x := Edge(s.nodes, p, b).value;
              && 0 < x < |s.nodes| && s.nodes[x].stage == Linked
              && !(th.made <= x < th.made + NewNodes(th.kind))
              && (th.kind != Plain && x == th.victim ==> p == th.anchor && b == th.ab)
  {
    var th := s.threads[t];
    NewNodeFacts(s, t);
    AnchorEdge(s, t);
    hide WritingOk, HeldOk, Locks, Pending, Past;
  }

  lemma RelinkedGraph(s: State, t: nat)
    requires Relinks(s, t)
    requires forall i | 0 <= i < |s.nodes| && s.nodes[i].stage == Private(t) ::
               s.threads[t].made <= i < s.threads[t].made + NewNodes(s.threads[t].kind)
    ensures Graph(Relinked(s, t))
  {
    var th, nodes' := s.threads[t], Relinked(s, t);
    NewNodeFacts(s, t);
    AnchorEdge(s, t);
    RootStays(s, t);
    hide Relinks, Relinked, Edge, NewParent, Copy;
    forall p: nat, b: Byte | Edge(nodes', p, b).Some?
      ensures var x := Edge(nodes', p, b).value; 0 < x < |nodes'| && nodes'[x].stage == Linked
    {
      TargetLinked(s, t, p, b);
    }
    forall p: nat, b: Byte, q: nat, c: Byte | Edge(nodes', p, b).Some? && Edge(nodes', p, b) == Edge(nodes', q, c)
      ensures p == q && b == c
    {
      OneParentAfter(s, t, p, b, q, c);
    }
  }

  lemma RootStays(s: State, t: nat)
    requires Relinks(s, t)
    ensures var nodes' := Relinked(s, t);
            |nodes'| > 0 && nodes'[0].stage == Linked && !nodes'[0].leaf && !nodes'[0].obsolete
  {
    AnchorEdge(s, t);
    hide WritingOk, HeldOk, Locks, Pending, Past;
  }

  lemma TargetLinked(s: State, t: nat, p: nat, b: Byte)
    requires Relinks(s, t) && Edge(Relinked(s, t), p, b).Some?
    requires forall i | 0 <= i < |s.nodes| && s.nodes[i].stage == Private(t) ::
               s.threads[t].made <= i < s.threads[t].made + NewNodes(s.threads[t].kind)
    ensures var nodes' := Relinked(s, t);
            var x := Edge(nodes', p, b).value;
            0 < x < |nodes'| && nodes'[x].stage == Linked
  {
    var th, nodes' := s.threads[t], Relinked(s, t);
    var x := Edge(nodes', p, b).value;
    EdgeAfter(s, t, p, b);
    NewNodeFacts(s, t);
    AnchorEdge(s, t);
    if !(th.made <= x < th.made + NewNodes(th.kind)) {
      OldEdge(s, t, if th.kind != Plain && p == Copy(th) then th.victim else p, b);
    }
    hide Relinks, Edge, Graph;
  }

  lemma OneParentAfter(s: State, t: nat, p: nat, b: Byte, q: nat, c: Byte)
    requires Relinks(s, t)
    requires forall i | 0 <= i < |s.nodes| && s.nodes[i].stage == Private(t) ::
               s.threads[t].made <= i < s.threads[t].made + NewNodes(s.threads[t].kind)
    requires Edge(Relinked(s, t), p, b).Some? && Edge(Relinked(s, t), p, b) == Edge(Relinked(s, t), q, c)
    ensures p == q && b == c
  {
    var th := s.threads[t];
    EdgeAfter(s, t, p, b);
    EdgeAfter(s, t, q, c);
    var p0 := if th.kind != Plain && p == Copy(th) then th.victim else p;
    var q0 := if th.kind != Plain && q == Copy(th) then th.victim else q;
    assert Graph(s.nodes);
    if Edge(s.nodes, p0, b).Some? && Edge(s.nodes, p0, b) == Edge(s.nodes, q0, c) {
      SameParent(s.nodes, p0, b, q0, c);
    }
    hide Relinks, Relinked, Edge, Graph, NewParent;
  }

  lemma ChangeMove(s: State, t: nat, th': Local)
    requires Relinks(s, t) && th' == s.threads[t].(at := s.threads[t].at + 1)
    requires s.threads[t].at < |Program(s.threads[t].kind)| && Program(s.threads[t].kind)[s.threads[t].at] == Change
    ensures WritingOk(Relinked(s, t), t, th') && Locks(s.threads[t]) == Locks(th') && Calm(th')
    ensures forall j :: !Dooms(th', j) && !MadeBy(th', j)
  {
    var th := s.threads[t];
    Advance(th, th', Change);
    Order(th);
    Order(th');
    AnchorEdge(s, t);
    hide Pending, Past, Graph, HeldOk, MadeOk;
  }

  lemma RelinkedStep(s: State, t: nat, i: nat)
    requires Relinks(s, t) && i < |s.nodes|
    ensures NodeStep(t, s.nodes[i], Relinked(s, t)[i])
  {
    AnchorEdge(s, t);
    Order(s.threads[t]);
    if s.threads[t].kind != Plain {
      VictimTied(s, t);
    }
    hide Pending, Past, Graph, HeldOk, MadeOk, WritingOk, Locks;
  }

  lemma VictimTied(s: State, t: nat)
    requires Relinks(s, t) && s.threads[t].kind != Plain
    ensures var th := s.threads[t];
            th.victim < |s.nodes| && s.nodes[th.victim].doomed == Some(t)
            && (s.nodes[th.victim].lockedBy == Some(t) || s.nodes[th.victim].obsolete)
  {
    var th := s.threads[t];
    Order(th);
    hide MadeOk, HeldOk, Pending, Past;
    assert Pending(th, Obsolete) ==> th.victim in Locks(th);
  }

  lemma RelinkedNode(s: State, t: nat, th': Local, i: nat)
    requires Relinks(s, t) && i < |s.nodes| && NodeOk(s.threads, i, s.nodes[i]) && Locks(th') == Locks(s.threads[t])
    ensures NodeOk(s.threads[t := th'], i, Relinked(s, t)[i])
  {
    AnchorEdge(s, t);
    NewNodeFacts(s, t);
    if s.threads[t].kind != Plain {
      VictimTied(s, t);
    }
    hide Relinks;
    RelinkedNodeOk(s.threads, t, th', i, s.nodes[i], Relinked(s, t)[i]);
  }

  /** The node after the change: the same word and, unless it was private or the victim, the same stage. */
  lemma RelinkedNodeOk(ths: seq<Local>, t: nat, th': Local, i: nat, n: Node, n': Node)
    requires t < |ths| && NodeOk(ths, i, n) && Locks(th') == Locks(ths[t])
    requires n' == n.(kids := n'.kids, stage := n'.stage) && (n.leaf ==> n'.kids == n.kids)
    requires n'.stage == n.stage || (n'.stage == Linked && n.stage == Private(t) && !n.obsolete)
             || (n'.stage == Unlinked && (n.obsolete || n.lockedBy == Some(t)))
    requires n'.stage == n.stage ==> n.stage != Private(t) && !(n.stage == Linked && n.obsolete && n.doomed == Some(t))
    ensures NodeOk(ths[t := th'], i, n')
  {
    hide Locks, Dooms, MadeBy;
  }

  lemma PrivateIsNew(s: State, t: nat, i: nat)
    requires Inv(s) && t < |s.threads| && i < |s.nodes| && s.nodes[i].stage == Private(t)
    ensures s.threads[t].made <= i < s.threads[t].made + NewNodes(s.threads[t].kind)
  {
    hide Inv;
    NodeOf(s, i);
  }

  lemma ChangeReady(s: State, t: nat)
    requires Inv(s) && t < |s.threads| == |s.lists| && s.threads[t].pc == Writing
    requires s.threads[t].at < |Program(s.threads[t].kind)| && Program(s.threads[t].kind)[s.threads[t].at] == Change
    ensures Relinks(s, t)
  {
    hide Inv, WritingOk, HeldOk, Graph, Locks;
    WritesOf(s, t);
    PosIsPosition(s.threads[t].kind, Change, s.threads[t].at);
  }

  lemma ChangeGood(s: State, t: nat, c: Choice)
    requires Inv(s) && t < |s.threads| == |s.lists| && s.threads[t].pc == Writing
    requires s.threads[t].at < |Program(s.threads[t].kind)| && Program(s.threads[t].kind)[s.threads[t].at] == Change
    ensures Good(s, t, WriteStep(s, t, c))
  {
    hide Inv, ThreadOk, HeldOk, WritingOk, Graph, ListOk, NodeOk, NodeStep, Dooms, MadeBy, Pending, Past, PairOk,
         OwnPairs, Relinked, Relinks;
    var th, nodes' := s.threads[t], Relinked(s, t);
    var th' := th.(at := th.at + 1);
    ChangeReady(s, t);
    WritesOf(s, t);
    ChangeMove(s, t, th');
    hide Locks;
    RelinkedLength(s, t);
    forall i | 0 <= i < |s.nodes|
      ensures NodeStep(t, s.nodes[i], nodes'[i]) && NodeOk(s.threads[t := th'], i, nodes'[i])
      ensures nodes'[i].lockedBy == s.nodes[i].lockedBy && (nodes'[i].stage == Freed ==> s.nodes[i].stage == Freed)
      ensures s.nodes[i].stage == Private(t) ==>
                s.threads[t].made <= i < s.threads[t].made + NewNodes(s.threads[t].kind)
    {
      NodeOf(s, i);
      RelinkedStep(s, t, i);
      RelinkedNode(s, t, th', i);
      RelinkedWord(s, t, i);
      if s.nodes[i].stage == Private(t) {
        PrivateIsNew(s, t, i);
      }
    }
    RelinkedGraph(s, t);
    HeldKept(t, s.nodes, nodes', th.held);
    ThreadOf(s, t);
    StillWriting(s.nodes, nodes', s.epoch, s.lists[t], s.lists[t], t, th, th');
    OwnPairsKept(s, t, th');
    OtherList(t, s.nodes, nodes', s.epoch, s.epoch, t, s.lists[t]);
  }

  lemma RelinkedLength(s: State, t: nat)
    requires t < |s.threads|
    ensures |Relinked(s, t)| == |s.nodes|
  {
  }

  lemma RelinkedWord(s: State, t: nat, i: nat)
    requires t < |s.threads| && i < |s.nodes|
    ensures Relinked(s, t)[i].lockedBy == s.nodes[i].lockedBy
    ensures Relinked(s, t)[i].stage == Freed ==> s.nodes[i].stage == Freed
  {
  }

  // ----- every step under lock

  lemma NothingPending(th: Local)
    requires th.pc == Writing && th.at >= |Program(th.kind)|
    ensures Locks(th) == {} && !Pending(th, Change)
  {
    PosIsPosition(th.kind, UnlockAnchor, 0);
    PosIsPosition(th.kind, Obsolete, 0);
    PosIsPosition(th.kind, Change, 0);
  }

  lemma WriteGood(s: State, t: nat, c: Choice)
    requires Inv(s) && t < |s.threads| == |s.lists| && s.threads[t].pc == Writing
    ensures Good(s, t, WriteStep(s, t, c))
  {
    hide Inv, Good;
    var th := s.threads[t];
    if th.at >= |Program(th.kind)| {
      NothingPending(th);
      LeaveGood(s, t);
    } else {
      match Program(th.kind)[th.at] {
        case Create =>
          if c.New? && c.b1 != c.b2 {
            CreateGood(s, t, c);
          } else if c.Throw? {
            PosIsPosition(th.kind, Create, th.at);
            ThrowGood(s, t);
          } else {
            WaitGood(s, t);
          }
        case Change => ChangeGood(s, t, c);
        case Obsolete => ObsoleteGood(s, t, c);
        case LoadEpoch => LoadEpochGood(s, t, c);
        case Mark => MarkGood(s, t, c);
        case UnlockAnchor => UnlockAnchorGood(s, t, c);
      }
    }
  }

  /** No space for a new node: the operation ends, and its locks stay. */
  lemma ThrowGood(s: State, t: nat)
    requires Inv(s) && t < |s.threads| == |s.lists| && s.threads[t].pc == Writing && s.threads[t].at == 0
    ensures Good(s, t, Stay(s, t, s.threads[t].At(Failed)).(nodes := Forsaken(s, s.threads[t])))
  {
    hide Graph, NodeOk, ThreadOk, ListOk, PairOk, OwnPairs, Calm, Inv, NodeStep, Forsaken, HoldStep, Locks;
    var th, nodes' := s.threads[t], Forsaken(s, s.threads[t]);
    var th' := th.At(Failed);
    ThreadOf(s, t);
    ThrowLocks(s, t);
    forall i | 0 <= i < |s.nodes|
      ensures NodeStep(t, s.nodes[i], nodes'[i]) && NodeOk(s.threads[t := th'], i, nodes'[i])
      ensures nodes'[i] == s.nodes[i].(lockedBy := nodes'[i].lockedBy)
    {
      NodeOf(s, i);
      ForsakenNode(s, t, th', i);
    }
    LocksOnly(s.nodes, nodes');
    FailedOk(s, t, nodes', th');
    OwnPairsKept(s, t, th');
    OtherList(t, s.nodes, nodes', s.epoch, s.epoch, t, s.lists[t]);
  }

  lemma LocksOnly(nodes: seq<Node>, nodes': seq<Node>)
    requires Graph(nodes) && |nodes'| == |nodes|
    requires forall i | 0 <= i < |nodes| :: nodes'[i] == nodes[i].(lockedBy := nodes'[i].lockedBy)
    ensures Graph(nodes')
  {
    GraphKept(nodes, nodes');
  }

  lemma ThrowLocks(s: State, t: nat)
    requires Inv(s) && t < |s.threads| == |s.lists| && s.threads[t].pc == Writing && s.threads[t].at == 0
    ensures var th := s.threads[t];
            && th.anchor < |s.nodes| && Locks(th) == {th.anchor} + (if th.kind == Plain then {} else {th.victim})
            && (forall i | i in Locks(th) :: i < |s.nodes| && s.nodes[i].lockedBy == Some(t))
            && s.nodes[th.anchor].stage == Linked && !s.nodes[th.anchor].obsolete
            && (th.kind != Plain ==>
                  && s.nodes[th.victim].stage == Linked && !s.nodes[th.victim].obsolete
                  && Kid(s.nodes[th.anchor], th.ab) == Some(th.victim) && th.victim != th.anchor)
            && |Forsaken(s, th)| == |s.nodes|
  {
    hide Inv, HeldOk, MadeOk, Graph;
    WritesOf(s, t);
  }

  lemma ForsakenNode(s: State, t: nat, th': Local, i: nat)
    requires Inv(s) && t < |s.threads| == |s.lists| && s.threads[t].pc == Writing && s.threads[t].at == 0
    requires i < |s.nodes| && NodeOk(s.threads, i, s.nodes[i]) && th' == s.threads[t].At(Failed)
    ensures |Forsaken(s, s.threads[t])| == |s.nodes|
    ensures var n, n' := s.nodes[i], Forsaken(s, s.threads[t])[i];
            && n' == (if i in Locks(s.threads[t]) then Forsake(s, n) else n)
            && NodeStep(t, n, n') && NodeOk(s.threads[t := th'], i, n')
  {
    hide Inv, Locks;
    ThrowLocks(s, t);
    assert Locks(th') == {} by {
      FailedLocks(th');
    }
  }

  lemma FailedLocks(th: Local)
    requires th.pc == Failed
    ensures Locks(th) == {} && Calm(th) && forall j :: !Dooms(th, j) && !MadeBy(th, j)
  {
  }

  lemma FailedOk(s: State, t: nat, nodes': seq<Node>, th': Local)
    requires t < |s.threads| == |s.lists| && ThreadOk(s.nodes, s.epoch, s.lists[t], t, s.threads[t])
    requires s.threads[t].pc == Writing && th' == s.threads[t].At(Failed) && |nodes'| == |s.nodes|
    requires forall i | 0 <= i < |s.nodes| :: nodes'[i].stage == s.nodes[i].stage
    ensures ThreadOk(nodes', s.epoch, s.lists[t], t, th') && Calm(th') && HoldStep(s.nodes, s.threads[t], th')
  {
    hide WritingOk, WalkOk, ProbeOk, LockingOk;
    FailedLocks(th');
    NothingElse(nodes', t, th');
    NoWalk(nodes', th');
    NotMarking(th');
  }

  /** A step that changes nothing. */
  lemma WaitGood(s: State, t: nat)
    requires Inv(s) && t < |s.threads| == |s.lists|
    ensures Good(s, t, Stay(s, t, s.threads[t]))
  {
    hide ThreadOk, ListOk, NodeOk, NodeStep, NodeSteps, Graph, PairOk, Locks, Dooms, MadeBy;
    assert s.threads[t := s.threads[t]] == s.threads;
    SameNodes(t, s.nodes);
    WaitHolds(s, t);
  }

  lemma WaitHolds(s: State, t: nat)
    requires Inv(s) && t < |s.threads| == |s.lists|
    ensures HoldStep(s.nodes, s.threads[t], s.threads[t]) && OwnPairs(s.threads[t], s.lists[t], s.threads)
  {
    hide ThreadOk, ListOk, NodeOk, Graph, PairOk;
  }

  // ----- between operations

  lemma OutsideOk(nodes: seq<Node>, epoch: nat, epoch': nat, list: seq<Label<nat>>, t: nat, th: Local, th': Local)
    requires ThreadOk(nodes, epoch, list, t, th) && epoch <= epoch'
    requires th'.pc in {Outside, StoreEpoch, StoreMax, Scan, FreeOld} && th'.held == {}
    requires th'.pc == StoreEpoch ==> th'.loaded <= epoch'
    ensures ThreadOk(nodes, epoch', list, t, th') && Locks(th') == {}
  {
    hide HeldOk;
    NothingElse(nodes, t, th');
    NoWalk(nodes, th');
  }

  /** A step between operations that does not clean up. */
  lemma OutsideGood(s: State, t: nat, th': Local, epoch': nat)
    requires Inv(s) && t < |s.threads| == |s.lists| && s.epoch <= epoch' && Locks(s.threads[t]) == {}
    requires s.threads[t].pc != Writing
    requires th'.pc in {Outside, StoreEpoch, StoreMax} && th'.held == {}
    requires th'.pc == StoreEpoch ==> th'.loaded <= epoch'
    ensures Good(s, t, Stay(s, t, th').(epoch := epoch'))
  {
    hide Inv, ThreadOk, ListOk, NodeOk, NodeStep, NodeSteps, Graph, PairOk, OwnPairs, Locks;
    ThreadOf(s, t);
    OutsideOk(s.nodes, s.epoch, epoch', s.lists[t], t, s.threads[t], th');
    SameNodes(t, s.nodes);
    OwnPairsKept(s, t, th');
    OtherList(t, s.nodes, s.nodes, s.epoch, epoch', t, s.lists[t]);
    NotDooming(s.threads[t]);
    forall i | 0 <= i < |s.nodes| ensures NodeOk(s.threads[t := th'], i, s.nodes[i]) {
      NodeOf(s, i);
      NodeKept(s.threads, t, th', i, s.nodes[i]);
    }
  }

  lemma Idle(th: Local)
    requires th.pc in {Outside, StoreEpoch, StoreMax, Scan, FreeOld, Leave, Failed}
    ensures Locks(th) == {}
  {
  }

  lemma HoldsNothing(s: State, t: nat)
    requires Inv(s) && t < |s.threads| && !InOp(s.threads[t].pc)
    ensures s.threads[t].held == {} && (s.threads[t].pc == StoreEpoch ==> s.threads[t].loaded <= s.epoch)
  {
    hide Inv, WalkOk, ProbeOk, LockingOk, WritingOk, ListOk, Graph, Locks;
    ThreadOf(s, t);
  }

  /** An operation starts: the epoch is published before any node is read. */
  lemma EnterGood(s: State, t: nat)
    requires Inv(s) && t < |s.threads| == |s.lists| && s.threads[t].pc == StoreEpoch
    ensures Good(s, t, Stay(s, t, FromRoot(s.threads[t]).(localEpoch := s.threads[t].loaded, held := {0})))
  {
    hide Inv, Good, ListOk;
    var th := s.threads[t];
    var th' := FromRoot(th).(localEpoch := th.loaded, held := {0});
    HoldsNothing(s, t);
    ThreadOf(s, t);
    NothingElse(s.nodes, t, th');
    EnteredOk(s.nodes, s.epoch, s.lists[t], t, th');
    Idle(th);
    hide ThreadOk, Graph;
    LocalGood(s, t, th');
  }

  lemma EnteredOk(nodes: seq<Node>, epoch: nat, list: seq<Label<nat>>, t: nat, th: Local)
    requires Graph(nodes) && th.pc == ReadVersion && th.node == 0 && th.parent == None && th.held == {0}
    requires th.localEpoch <= epoch
    ensures ThreadOk(nodes, epoch, list, t, th)
  {
  }

  /** A cleanup looks at one more thread. */
  lemma ScanPair(s: State, t: nat, u: nat, th': Local)
    requires Inv(s) && t < |s.threads| == |s.lists| && u < |s.threads| && s.threads[t].pc == Scan
    requires var th := s.threads[t];
             || (th.scanned < |s.threads| && th' == th.(scanned := th.scanned + 1, oldest := th'.oldest)
                 && th'.oldest <= th.oldest && th'.oldest <= s.threads[th.scanned].localEpoch)
             || (th.scanned >= |s.threads| && th' == th.At(FreeOld))
    ensures PairOk(th', s.lists[t], u, s.threads[u])
  {
    hide Graph, NodeOk, ThreadOk, ListOk;
    assert PairOk(s.threads[t], s.lists[t], u, s.threads[u]);
  }

  lemma CleaningGood(s: State, t: nat, th': Local)
    requires Inv(s) && t < |s.threads| == |s.lists| && s.threads[t].pc in {StoreMax, Scan} && th'.pc in {Scan, FreeOld}
    requires th'.held == {} && (th'.pc == FreeOld ==> th'.scanned >= |s.threads|)
    requires forall u | 0 <= u < |s.threads| && u != t :: PairOk(th', s.lists[t], u, s.threads[u])
    ensures Good(s, t, Stay(s, t, th'))
  {
    hide Inv, ThreadOk, ListOk, NodeOk, NodeStep, NodeSteps, Graph, Locks;
    Idle(s.threads[t]);
    ThreadOf(s, t);
    OutsideOk(s.nodes, s.epoch, s.epoch, s.lists[t], t, s.threads[t], th');
    SameNodes(t, s.nodes);
    NotDooming(s.threads[t]);
    forall i | 0 <= i < |s.nodes| ensures NodeOk(s.threads[t := th'], i, s.nodes[i]) {
      NodeOf(s, i);
      NodeKept(s.threads, t, th', i, s.nodes[i]);
    }
    CleaningPairs(s, t, th', s.lists[t]);
  }

  lemma CleaningPairs(s: State, t: nat, th': Local, list: seq<Label<nat>>)
    requires t < |s.threads| && !InOp(th'.pc)
    requires forall u | 0 <= u < |s.threads| && u != t :: PairOk(th', list, u, s.threads[u])
    ensures OwnPairs(th', list, s.threads[t := th'])
  {
    var ths' := s.threads[t := th'];
    forall u | 0 <= u < |ths'| ensures PairOk(th', list, u, ths'[u]) {
      if u != t {
        assert PairOk(th', list, u, s.threads[u]);
      }
    }
  }

  lemma StartScan(s: State, t: nat, u: nat, th': Local)
    requires Inv(s) && t < |s.threads| == |s.lists| && u < |s.threads| && th'.pc == Scan && th'.scanned == 0
    ensures PairOk(th', s.lists[t], u, s.threads[u])
  {
    hide Graph, NodeOk, ThreadOk, ListOk;
    assert PairOk(s.threads[t], s.lists[t], u, s.threads[u]);
  }

  // ----- giving slots back

  /** What a label old enough holds, nobody holds. */
  lemma NobodyHolds(s: State, t: nat, i: nat, u: nat, x: nat)
    requires Inv(s) && t < |s.threads| == |s.lists| && u < |s.threads| && s.threads[t].pc == FreeOld
    requires i < |s.lists[t]| && s.lists[t][i].epoch < s.threads[t].oldest && x in s.lists[t][i].entries
    ensures InOp(s.threads[u].pc) ==> x !in s.threads[u].held
  {
    hide Graph, NodeOk, ThreadOk, ListOk;
    assert PairOk(s.threads[t], s.lists[t], u, s.threads[u]);
  }

  lemma EntriesRetired(s: State, t: nat, i: nat, x: nat)
    requires Inv(s) && t < |s.threads| == |s.lists| && i < |s.lists[t]| && x in s.lists[t][i].entries
    ensures Retired(s.nodes, t, x)
  {
    hide Graph, NodeOk, ThreadOk, PairOk;
    assert ListOk(s.nodes, s.epoch, t, s.lists[t]);
  }

  /** An obsolete node of a thread that is not writing has been cut off. */
  lemma RetiredIsCutOff(s: State, t: nat, x: nat)
    requires Inv(s) && t < |s.threads| && s.threads[t].pc == FreeOld && Retired(s.nodes, t, x)
    ensures s.nodes[x].stage in {Unlinked, Freed}
  {
    hide Inv;
    NodeOf(s, x);
  }

  lemma FreedSteps(s: State, t: nat, gone: seq<nat>)
    requires forall x | x in gone :: Retired(s.nodes, t, x) && s.nodes[x].stage in {Unlinked, Freed}
    ensures NodeSteps(t, s.nodes, FreedNodes(s.nodes, gone))
  {
    var nodes' := FreedNodes(s.nodes, gone);
    forall i | 0 <= i < |s.nodes| ensures NodeStep(t, s.nodes[i], nodes'[i]) {
      SameNode(t, s.nodes[i]);
    }
  }

  lemma FreedNode(ths: seq<Local>, t: nat, i: nat, n: Node)
    requires t < |ths| && NodeOk(ths, i, n) && n.stage in {Unlinked, Freed} && n.obsolete
    ensures NodeOk(ths, i, n.(stage := Freed))
  {
  }

  lemma FreedGraph(s: State, gone: seq<nat>)
    requires Graph(s.nodes) && forall x | x in gone :: x < |s.nodes| && s.nodes[x].stage in {Unlinked, Freed}
    ensures Graph(FreedNodes(s.nodes, gone))
  {
    GraphKept(s.nodes, FreedNodes(s.nodes, gone));
  }

  lemma FewerLabels(nodes: seq<Node>, epoch: nat, t: nat, list: seq<Label<nat>>, i: nat, th: Local, u: nat, tu: Local)
    requires i < |list| && ListOk(nodes, epoch, t, list) && PairOk(th, list, u, tu)
    ensures ListOk(nodes, epoch, t, list[..i] + list[i + 1..]) && PairOk(th, list[..i] + list[i + 1..], u, tu)
  {
    var list' := list[..i] + list[i + 1..];
    assert forall j | 0 <= j < |list'| :: list'[j] == if j < i then list[j] else list[j + 1];
  }

  lemma FreedKeepsHeld(s: State, t: nat, i: nat)
    requires Inv(s) && t < |s.threads| == |s.lists| && s.threads[t].pc == FreeOld
    requires i < |s.lists[t]| && s.lists[t][i].epoch < s.threads[t].oldest
    ensures KeepsHeld(s, t, FreedNodes(s.nodes, s.lists[t][i].entries))
  {
    hide Inv;
    var gone := s.lists[t][i].entries;
    forall u, x | 0 <= u < |s.threads| && u != t && InOp(s.threads[u].pc) && x in s.threads[u].held && x < |s.nodes|
      ensures x !in gone
    {
      if x in gone {
        NobodyHolds(s, t, i, u, x);
        assert false;
      }
    }
  }

  lemma FreeGood(s: State, t: nat, i: nat)
    requires Inv(s) && t < |s.threads| == |s.lists| && s.threads[t].pc == FreeOld
    requires i < |s.lists[t]| && s.lists[t][i].epoch < s.threads[t].oldest
    ensures Good(s, t, Effect(FreedNodes(s.nodes, s.lists[t][i].entries), s.threads[t],
                              s.lists[t][..i] + s.lists[t][i + 1..], s.epoch))
  {
    hide Inv, ThreadOk, ListOk, NodeOk, NodeStep, NodeSteps, Graph, Locks, PairOk, KeepsHeld, Retired;
    var th, list, gone := s.threads[t], s.lists[t], s.lists[t][i].entries;
    var nodes', list' := FreedNodes(s.nodes, gone), list[..i] + list[i + 1..];
    assert s.threads[t := th] == s.threads;
    forall x | x in gone
      ensures Retired(s.nodes, t, x) && x < |s.nodes| && s.nodes[x].obsolete && s.nodes[x].stage in {Unlinked, Freed}
    {
      EntriesRetired(s, t, i, x);
      RetiredInRange(s.nodes, t, x);
      RetiredIsCutOff(s, t, x);
    }
    FreedSteps(s, t, gone);
    ThreadOf(s, t);
    FreedGraph(s, gone);
    forall j | 0 <= j < |nodes'| ensures NodeOk(s.threads, j, nodes'[j]) {
      NodeOf(s, j);
      if j in gone {
        FreedNode(s.threads, t, j, s.nodes[j]);
      }
    }
    FreedKeepsHeld(s, t, i);
    FreeLists(s, t, i, nodes');
    HoldsNothing(s, t);
    ScannedAll(s, t);
    FreedThread(s, t, nodes', list');
  }

  lemma ScannedAll(s: State, t: nat)
    requires Inv(s) && t < |s.threads| && s.threads[t].pc == FreeOld
    ensures s.threads[t].scanned >= |s.threads|
  {
    hide Graph, NodeOk, ThreadOk, ListOk, PairOk;
  }

  lemma RetiredInRange(nodes: seq<Node>, t: nat, x: nat)
    requires Retired(nodes, t, x)
    ensures x < |nodes| && nodes[x].obsolete
  {
  }

  lemma FreedThread(s: State, t: nat, nodes': seq<Node>, list': seq<Label<nat>>)
    requires t < |s.threads| && s.threads[t].pc == FreeOld && s.threads[t].held == {}
    ensures ThreadOk(nodes', s.epoch, list', t, s.threads[t])
  {
  }

  lemma FreeLists(s: State, t: nat, i: nat, nodes': seq<Node>)
    requires Inv(s) && t < |s.threads| == |s.lists| && i < |s.lists[t]| && NodeSteps(t, s.nodes, nodes')
    ensures var list' := s.lists[t][..i] + s.lists[t][i + 1..];
            ListOk(nodes', s.epoch, t, list') && OwnPairs(s.threads[t], list', s.threads)
  {
    hide Graph, NodeOk, ThreadOk, ListOk, PairOk, NodeSteps;
    var list' := s.lists[t][..i] + s.lists[t][i + 1..];
    forall u | 0 <= u < |s.threads|
      ensures PairOk(s.threads[t], list', u, s.threads[u]) && ListOk(s.nodes, s.epoch, t, list')
    {
      FewerLabels(s.nodes, s.epoch, t, s.lists[t], i, s.threads[t], u, s.threads[u]);
    }
    FewerLabels(s.nodes, s.epoch, t, s.lists[t], i, s.threads[t], t, s.threads[t]);
    OtherList(t, s.nodes, nodes', s.epoch, s.epoch, t, list');
  }

  lemma FreeOldGood(s: State, t: nat, c: Choice)
    requires Inv(s) && t < |s.threads| == |s.lists| && s.threads[t].pc == FreeOld
    ensures Good(s, t, EpochStep(s, t, c))
  {
    hide Inv, Good, PairOk, Locks, FreedNodes;
    var th := s.threads[t];
    Idle(th);
    HoldsNothing(s, t);
    match c {
      case FreeLabel(i) =>
        if i < |s.lists[t]| && s.lists[t][i].epoch < th.oldest {
          FreeGood(s, t, i);
        } else {
          WaitGood(s, t);
        }
      case _ => OutsideGood(s, t, th.At(Outside), s.epoch);
    }
  }

  lemma EpochGood(s: State, t: nat, c: Choice)
    requires Inv(s) && t < |s.threads| == |s.lists|
    requires s.threads[t].pc in {Outside, StoreEpoch, StoreMax, Scan, FreeOld, Leave, Failed}
    ensures Good(s, t, EpochStep(s, t, c))
  {
    hide Inv, Good, PairOk, Locks, FreedNodes;
    var th := s.threads[t];
    Idle(th);
    if th.pc !in {Leave, Failed} {
      HoldsNothing(s, t);
    }
    match th.pc {
      case Outside => OutsideGood(s, t, th.(pc := StoreEpoch, loaded := s.epoch), s.epoch);
      case StoreEpoch => EnterGood(s, t);
      case Leave | Failed =>
        match c {
          case Finish(bump, cleanup) =>
            OutsideGood(s, t, th.(pc := if cleanup then StoreMax else Outside, held := {}),
                        if bump then s.epoch + 1 else s.epoch);
          case _ => WaitGood(s, t);
        }
      case StoreMax =>
        var th' := th.(pc := Scan, localEpoch := MAX_EPOCH, oldest := MAX_EPOCH, scanned := 0);
        forall u | 0 <= u < |s.threads| && u != t ensures PairOk(th', s.lists[t], u, s.threads[u]) {
          StartScan(s, t, u, th');
        }
        CleaningGood(s, t, th');
      case Scan =>
        var th' := EpochStep(s, t, c).local;
        forall u | 0 <= u < |s.threads| && u != t ensures PairOk(th', s.lists[t], u, s.threads[u]) {
          ScanPair(s, t, u, th');
        }
        CleaningGood(s, t, th');
      case FreeOld => FreeOldGood(s, t, c);
    }
  }

  // ----- every step

  lemma WalkStepGood(s: State, t: nat, c: Choice)
    requires Inv(s) && t < |s.threads| == |s.lists|
    requires s.threads[t].pc in {ReadVersion, Ready, CheckNode, Decided, ProbeVersion, ProbeReady, ProbeCheck}
    ensures Good(s, t, WalkStep(s, t, c))
  {
    hide Inv, Good, WalkStep;
    match s.threads[t].pc
    case ReadVersion => ReadVersionGood(s, t, c);
    case Ready => ReadyGood(s, t, c);
    case CheckNode => CheckNodeGood(s, t, c);
    case Decided => DecidedGood(s, t, c);
    case ProbeVersion => ProbeGood(s, t, c);
    case ProbeReady => ProbeGood(s, t, c);
    case ProbeCheck => ProbeCheckGood(s, t, c);
  }

  lemma LockStepGood(s: State, t: nat)
    requires Inv(s) && t < |s.threads| == |s.lists|
    requires s.threads[t].pc in {UpgradeParent, UpgradeNode, ReleaseParent, UpgradeOnly, ReadLeaf, UpgradeLeaf, Stuck}
    ensures Good(s, t, LockStep(s, t))
  {
    hide Inv, Good, LockStep;
    NeverStuck(s, t);
    match s.threads[t].pc
    case UpgradeParent => UpgradeParentGood(s, t);
    case UpgradeNode => UpgradeNodeGood(s, t);
    case ReleaseParent => ReleaseGood(s, t);
    case UpgradeOnly => UpgradeOnlyGood(s, t);
    case ReadLeaf => ReadLeafGood(s, t);
    case UpgradeLeaf => UpgradeLeafGood(s, t);
  }

  lemma StepKeeps(s: State, t: nat, c: Choice)
    requires Inv(s) && t < |s.threads| == |s.lists|
    ensures Good(s, t, EffectOf(s, t, c)) && Inv(Step(s, t, c))
  {
    hide Inv, Good, WalkStep, LockStep, WriteStep, EpochStep;
    var pc := s.threads[t].pc;
    if pc in {ReadVersion, Ready, CheckNode, Decided, ProbeVersion, ProbeReady, ProbeCheck} {
      WalkStepGood(s, t, c);
    } else if pc in {UpgradeParent, UpgradeNode, ReleaseParent, UpgradeOnly, ReadLeaf, UpgradeLeaf, Stuck} {
      LockStepGood(s, t);
    } else if pc == Writing {
      WriteGood(s, t, c);
    } else {
      EpochGood(s, t, c);
    }
    LeavesStayBelow(s, t, c);
    GoodKeeps(s, t, EffectOf(s, t, c));
  }

  // ----- locks left behind

  /** A step leaves no lock behind but by a throw. */
  lemma NewlyForsaken(s: State, t: nat, c: Choice, i: nat)
    requires t < |s.threads| == |s.lists| && i < |EffectOf(s, t, c).nodes|
    requires EffectOf(s, t, c).nodes[i].lockedBy == Some(|s.threads|)
    ensures (i < |s.nodes| && s.nodes[i].lockedBy == Some(|s.threads|)) || Throws(s, t, c)
  {
    hide WalkStep, LockStep, WriteStep, EpochStep;
    var pc := s.threads[t].pc;
    if pc in {UpgradeParent, UpgradeNode, ReleaseParent, UpgradeOnly, ReadLeaf, UpgradeLeaf, Stuck} {
      ForsakenByLock(s, t, i);
    } else if pc == Writing {
      ForsakenByWrite(s, t, c, i);
    } else {
      ForsakenQuietly(s, t, c, i);
    }
  }

  lemma ForsakenQuietly(s: State, t: nat, c: Choice, i: nat)
    requires t < |s.threads| == |s.lists|
    ensures WalkStep(s, t, c).nodes == s.nodes
    ensures |EpochStep(s, t, c).nodes| == |s.nodes|
    ensures i < |s.nodes| ==> EpochStep(s, t, c).nodes[i].lockedBy == s.nodes[i].lockedBy
  {
  }

  lemma ForsakenByLock(s: State, t: nat, i: nat)
    requires t < |s.threads| == |s.lists| && i < |LockStep(s, t).nodes|
    requires LockStep(s, t).nodes[i].lockedBy == Some(|s.threads|)
    ensures i < |s.nodes| && s.nodes[i].lockedBy == Some(|s.threads|)
  {
  }

  lemma ForsakenByWrite(s: State, t: nat, c: Choice, i: nat)
    requires t < |s.threads| == |s.lists| && s.threads[t].pc == Writing && i < |WriteStep(s, t, c).nodes|
    requires WriteStep(s, t, c).nodes[i].lockedBy == Some(|s.threads|)
    ensures (i < |s.nodes| && s.nodes[i].lockedBy == Some(|s.threads|)) || Throws(s, t, c)
  {
    hide WithEntry, Program, Forsaken;
    if c.New? {
      CreatedSize(t, s.threads[t], Get(s.nodes, s.threads[t].victim), |s.nodes|, c.b1, c.b2);
    }
    RelinkedLength(s, t);
    if i < |s.nodes| {
      RelinkedWord(s, t, i);
    }
    hide Created, Relinked;
  }

  ghost predicate Throws(s: State, t: nat, c: Choice) {
    && t < |s.threads| && c.Throw? && s.threads[t].pc == Writing && s.threads[t].at < |Program(s.threads[t].kind)|
    && Program(s.threads[t].kind)[s.threads[t].at] == Create
  }

  /** What is left locked stays as it is for good. */
  lemma ForsakenKept(s: State, t: nat, e: Effect, i: nat)
    requires Inv(s) && Good(s, t, e) && i < |s.nodes| && s.nodes[i].lockedBy == Some(|s.threads|)
    ensures i < |e.nodes| && e.nodes[i] == s.nodes[i]
  {
    hide Graph, ThreadOk, ListOk, PairOk;
    NodeOf(s, i);
    assert NodeStep(t, s.nodes[i], e.nodes[i]);
  }

  lemma LeavesStayBelow(s: State, t: nat, c: Choice)
    requires Inv(s) && t < |s.threads| == |s.lists| && Good(s, t, EffectOf(s, t, c))
    ensures LeavesBelow(EffectOf(s, t, c).nodes, |s.threads|)
  {
    hide Good, Inv, EffectOf, HangsBelow;
    var nodes' := EffectOf(s, t, c).nodes;
    forall x | 0 <= x < |nodes'| && nodes'[x].leaf && nodes'[x].lockedBy == Some(|s.threads|)
      ensures HangsBelow(nodes', |s.threads|, x)
    {
      NewlyForsaken(s, t, c, x);
      if x < |s.nodes| && s.nodes[x].lockedBy == Some(|s.threads|) {
        StillBelow(s, t, EffectOf(s, t, c), x);
      } else {
        ThrownBelow(s, t, c, x);
      }
    }
  }

  lemma StillBelow(s: State, t: nat, e: Effect, x: nat)
    requires Inv(s) && Good(s, t, e) && x < |s.nodes| && x < |e.nodes| && e.nodes[x].leaf
    requires s.nodes[x].lockedBy == Some(|s.threads|)
    ensures HangsBelow(e.nodes, |s.threads|, x)
  {
    hide Good, NodeOk, ThreadOk, ListOk, PairOk, Graph;
    ForsakenKept(s, t, e, x);
    assert HangsBelow(s.nodes, |s.threads|, x);
    var p: nat, b :| Edge(s.nodes, p, b) == Some(x) && s.nodes[p].lockedBy == Some(|s.threads|);
    ForsakenKept(s, t, e, p);
    assert Edge(e.nodes, p, b) == Some(x);
  }

  lemma ThrownBelow(s: State, t: nat, c: Choice, x: nat)
    requires Inv(s) && Throws(s, t, c) && x < |EffectOf(s, t, c).nodes| && |s.threads| == |s.lists|
    requires EffectOf(s, t, c).nodes[x].leaf && EffectOf(s, t, c).nodes[x].lockedBy == Some(|s.threads|)
    requires x < |s.nodes| ==> s.nodes[x].lockedBy != Some(|s.threads|)
    ensures HangsBelow(EffectOf(s, t, c).nodes, |s.threads|, x)
  {
    hide Inv, Locks, Program;
    var th := s.threads[t];
    PosIsPosition(th.kind, Create, th.at);
    ThrowLocks(s, t);
    OnlyInner(s, t);
    assert EffectOf(s, t, c).nodes == Forsaken(s, th);
    assert Edge(Forsaken(s, th), th.anchor, th.ab) == Some(x);
  }

  lemma OnlyInner(s: State, t: nat)
    requires Inv(s) && t < |s.threads| && s.threads[t].pc == Writing && s.threads[t].anchor < |s.nodes|
    ensures !s.nodes[s.threads[t].anchor].leaf
  {
    hide Inv, HeldOk, MadeOk, Graph, Locks;
    WritesOf(s, t);
  }

  lemma InitialOk(s: State)
    requires Initial(s)
    ensures Inv(s)
  {
  }

  /** Every state of every run is right. */
  lemma {:induction false} EveryReachableState(states: seq<State>, moves: seq<Move>, i: nat)
    requires Run(states, moves) && i < |states|
    ensures Inv(states[i])
  {
    hide Inv, Step;
    if i == 0 {
      InitialOk(states[0]);
    } else {
      EveryReachableState(states, moves, i - 1);
      StepKeeps(states[i - 1], moves[i - 1].t, moves[i - 1].c);
    }
  }
}
