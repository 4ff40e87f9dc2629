/** Every step of every thread keeps the tree and its keys together. */
module OlcKeyedSteps {
  import opened Wrappers
  import opened Bytes
  import opened DeletionLists
  import opened OlcModel
  import opened OlcInvariant
  import opened OlcSteps
  import opened OlcWrites
  import opened OlcKeys
  import opened OlcView
  import opened OlcKeyed
  import Shape = ArtShape

  // ----- what a thread knows after its step

  ghost predicate OwnOk(ks: Keyed, t: nat, c: Choice, op: Op)
    requires t < |ks.s.threads| == |ks.s.lists| && t < |ks.calls|
  {
    var ks' := NextKeyed(ks, t, c, op);
    CallOk(ks'.tags, ks'.stored, ks.universe, ks'.s.threads[t], ks'.calls[t])
  }

  lemma KeyFields(ks: Keyed, t: nat, c: Choice, op: Op)
    requires t < |ks.s.threads| == |ks.s.lists| && t < |ks.calls|
    ensures var ks', e := NextKeyed(ks, t, c, op), EffectOf(ks.s, t, c);
            var th, call := ks.s.threads[t], ks.calls[t];
            var v, a, r := TagOf(ks.tags, th.victim), TagOf(ks.tags, th.anchor), TagOf(ks.tags, th.made);
            && ks'.s.nodes == e.nodes && t < |ks'.s.threads| && t < |ks'.calls| && ks'.universe == ks.universe
            && ks'.s.threads[t] == e.local && ks'.calls[t] == NextCall(ks, t, c, op, e.local)
            && ks'.tags == (if |e.nodes| > |ks.s.nodes| && call.op.Put?
                            then ks.tags + NewTags(th, call, v, a, call.op.key, call.op.tid) else ks.tags)
            && ks'.stored == (if Stores(ks, t) then ks.stored[call.op.key := call.op.tid] else ks.stored)
            && ks'.view == (if Stores(ks, t) then NextView(ks.view, th, a.path, v, r.path, call.op.key) else ks.view)
  {
    hide EffectOf, NextCall, NextView, NewTags, Stores, TagOf;
  }

  lemma SameNodeCount(s: State, t: nat, c: Choice)
    requires t < |s.threads| == |s.lists| && s.threads[t].pc != Writing
    ensures |EffectOf(s, t, c).nodes| == |s.nodes|
  {
  }

  /** Outside the writing section nothing is added and nothing stored. */
  lemma QuietKeys(ks: Keyed, t: nat, c: Choice, op: Op)
    requires t < |ks.s.threads| == |ks.s.lists| && t < |ks.calls| && ks.s.threads[t].pc != Writing
    ensures var ks' := NextKeyed(ks, t, c, op);
            ks'.tags == ks.tags && ks'.stored == ks.stored && ks'.view == ks.view
  {
    hide NewTags, NextView, NextCall, NextKeyed, EffectOf;
    KeyFields(ks, t, c, op);
    SameNodeCount(ks.s, t, c);
  }

  lemma OwnQuiet(ks: Keyed, t: nat, c: Choice, op: Op)
    requires KeysOk(ks) && Allowed(ks, t, c, op) && ks.s.threads[t].pc != Writing
    ensures OwnOk(ks, t, c, op)
  {
    hide KeysOk, NextKeyed, NextCall, CallOk, WalkStep, LockStep, EpochStep, Allowed;
    AllowedThread(ks, t, c, op);
    QuietKeys(ks, t, c, op);
    KeyFields(ks, t, c, op);
    var pc := ks.s.threads[t].pc;
    if pc == ReadVersion {
      ReadVersionCall(ks, t, c, op);
    } else if pc == Ready {
      ReadyCall(ks, t, c, op);
    } else if pc == CheckNode {
      CheckNodeCall(ks, t, c, op);
    } else if pc == Decided {
      DecidedCall(ks, t, c, op);
    } else if pc in {ProbeVersion, ProbeReady} {
      ProbingCall(ks, t, c, op);
    } else if pc == ProbeCheck {
      ProbeCheckCall(ks, t, c, op);
    } else if pc == StoreEpoch {
      EnterCall(ks, t, c, op);
    } else if pc == Leave {
      LeaveCall(ks, t, c, op);
    } else if pc in {Outside, StoreMax, Scan, FreeOld, Failed} {
      OutsideCall(ks, t, c, op);
    } else {
      LockCall(ks, t, c, op);
    }
  }

  lemma AllowedThread(ks: Keyed, t: nat, c: Choice, op: Op)
    requires Allowed(ks, t, c, op)
    ensures t < |ks.s.threads| == |ks.s.lists| && t < |ks.calls|
  {
  }

  // ----- the writing section

  /** What an act does to the thread, and whether it adds nodes. */
  lemma ActEffect(s: State, t: nat, c: Choice)
    requires t < |s.threads| == |s.lists| && s.threads[t].pc == Writing
    ensures var th, e := s.threads[t], EffectOf(s, t, c);
            if th.at >= |Program(th.kind)| then e.local == th.At(Leave) && |e.nodes| == |s.nodes|
            else if Program(th.kind)[th.at] == Create then
              if c.New? && c.b1 != c.b2 then
                e.local == th.(at := th.at + 1, made := |s.nodes|, nb1 := c.b1, nb2 := c.b2) && |e.nodes| > |s.nodes|
              else
                && |e.nodes| == |s.nodes|
                && e.local == (if c.Throw? then th.At(Failed) else th)
            else
              && e.local == th.(at := th.at + 1, markEpoch := e.local.markEpoch) && |e.nodes| == |s.nodes|
              && (Program(th.kind)[th.at] == Change ==> e.local == th.(at := th.at + 1))
  {
    hide WithEntry, Program;
    if c.New? {
      CreatedSize(t, s.threads[t], Get(s.nodes, s.threads[t].victim), |s.nodes|, c.b1, c.b2);
    }
    hide Created;
  }

  lemma WritingCall(ks: Keyed, t: nat, c: Choice, op: Op, th': Local)
    requires t < |ks.s.threads| && t < |ks.calls| && ks.s.threads[t].pc == Writing && th'.pc in {Writing, Leave}
    ensures NextCall(ks, t, c, op, th') == ks.calls[t]
  {
  }

  lemma OwnWriting(ks: Keyed, t: nat, c: Choice, op: Op)
    requires KeysOk(ks) && Allowed(ks, t, c, op) && ks.s.threads[t].pc == Writing
    ensures OwnOk(ks, t, c, op)
  {
    hide KeysOk, NextKeyed, EffectOf, CallOk, NewTags, WriteOk, BaseOk, SplitBytes, Inv, ViewOk, StoredOk, Program,
         NextCall, NextView;
    var th, call := ks.s.threads[t], ks.calls[t];
    CallOf(ks, t);
    WritingFacts(ks, t);
    KeyFields(ks, t, c, op);
    ActEffect(ks.s, t, c);
    var th' := EffectOf(ks.s, t, c).local;
    if th'.pc != Failed {
      WritingCall(ks, t, c, op, th');
    }
    if th.at >= |Program(th.kind)| {
      WrittenCall(ks, t, th');
    } else {
      PosIsPosition(th.kind, Create, th.at);
      PosIsPosition(th.kind, Change, th.at);
      if Program(th.kind)[th.at] == Create {
        if c.Throw? {
          ThrowCall(ks, t, c, op);
        } else {
          SplitIsNew(ks, t, call.op.key, c);
          if c.b1 != c.b2 {
            CreateCall(ks, t, c, th', NextKeyed(ks, t, c, op).tags);
          }
        }
      } else if Program(th.kind)[th.at] == Change {
        ChangeCall(ks, t, th');
      } else {
        ActCall(ks, t, th');
      }
    }
  }

  lemma ThrowCall(ks: Keyed, t: nat, c: Choice, op: Op)
    requires t < |ks.s.threads| && t < |ks.calls| && ks.s.threads[t].pc == Writing
    ensures var th' := ks.s.threads[t].At(Failed);
            CallOk(ks.tags, ks.stored, ks.universe, th', NextCall(ks, t, c, op, th'))
  {
  }

  lemma SplitIsNew(ks: Keyed, t: nat, k: Key, c: Choice)
    requires t < |ks.s.threads| && t < |ks.calls| && SplitBytes(ks, t, k, c)
    ensures c.New?
  {
  }

  // ----- the tree after a step that moves no pointer

  lemma PutTree(nodes: seq<Node>, i: nat, n: Node)
    requires i < |nodes| ==> n.leaf == nodes[i].leaf && n.stage == nodes[i].stage && n.kids == nodes[i].kids
    ensures SameTree(nodes, OlcModel.Put(nodes, i, n))
  {
  }

  lemma WalkTree(s: State, t: nat, c: Choice)
    requires t < |s.threads| == |s.lists|
    ensures SameTree(s.nodes, WalkStep(s, t, c).nodes) && |WalkStep(s, t, c).nodes| == |s.nodes|
  {
  }

  /** Locking and unlocking change the version word only. */
  lemma LockTree(s: State, t: nat)
    requires t < |s.threads| == |s.lists|
    ensures SameTree(s.nodes, LockStep(s, t).nodes)
  {
    hide SameTree;
    forall i: nat, n: Node | n.leaf == Get(s.nodes, i).leaf && n.stage == Get(s.nodes, i).stage
                             && n.kids == Get(s.nodes, i).kids
      ensures SameTree(s.nodes, OlcModel.Put(s.nodes, i, n))
    {
      PutTree(s.nodes, i, n);
    }
    Unchanged(s.nodes);
  }

  lemma Unchanged(nodes: seq<Node>)
    ensures SameTree(nodes, nodes)
  {
  }

  /** What a cleanup gives back is not in the tree. */
  lemma EpochTree(s: State, t: nat, c: Choice)
    requires Inv(s) && t < |s.threads| == |s.lists|
    ensures SameTree(s.nodes, EpochStep(s, t, c).nodes)
  {
    hide Inv;
    if s.threads[t].pc == FreeOld && c.FreeLabel? && c.i < |s.lists[t]| {
      forall x: nat | x in s.lists[t][c.i].entries ensures !InTree(s.nodes, x) {
        EntriesRetired(s, t, c.i, x);
        RetiredIsCutOff(s, t, x);
      }
    }
  }

  lemma AppendTree(nodes: seq<Node>, added: seq<Node>)
    requires forall i | 0 <= i < |added| :: added[i].stage.Private?
    ensures SameTree(nodes, nodes + added)
  {
  }

  lemma MadePrivate(t: nat, th: Local, victim: Node, f: nat, b1: Byte, b2: Byte)
    ensures forall i | 0 <= i < |Created(t, th, victim, f, b1, b2)| ::
              Created(t, th, victim, f, b1, b2)[i].stage.Private?
  {
  }

  lemma ThrowTree(s: State, th: Local)
    ensures SameTree(s.nodes, Forsaken(s, th)) && |Forsaken(s, th)| == |s.nodes|
  {
  }

  lemma WriteTree(s: State, t: nat, c: Choice)
    requires t < |s.threads| == |s.lists|
    requires var th := s.threads[t]; th.at < |Program(th.kind)| ==> Program(th.kind)[th.at] != Change
    ensures SameTree(s.nodes, WriteStep(s, t, c).nodes)
  {
    hide SameTree, WithEntry, Program, Created, Forsaken;
    var th := s.threads[t];
    Unchanged(s.nodes);
    if th.at < |Program(th.kind)| {
      if c.New? {
        MadePrivate(t, th, Get(s.nodes, th.victim), |s.nodes|, c.b1, c.b2);
        AppendTree(s.nodes, Created(t, th, Get(s.nodes, th.victim), |s.nodes|, c.b1, c.b2));
      }
      PutTree(s.nodes, th.victim, Unlock(Get(s.nodes, th.victim)).(obsolete := true));
      PutTree(s.nodes, th.anchor, Unlock(Get(s.nodes, th.anchor)));
      ThrowTree(s, th);
    }
  }

  /** A step that moves no pointer leaves the tree as it is. */
  lemma QuietTree(ks: Keyed, t: nat, c: Choice)
    requires KeysOk(ks) && t < |ks.s.threads| == |ks.s.lists| && t < |ks.calls| && !Stores(ks, t)
    ensures SameTree(ks.s.nodes, EffectOf(ks.s, t, c).nodes)
  {
    hide KeysOk, SameTree, WalkStep, LockStep, WriteStep, EpochStep, Inv, ViewOk, CallOk, StoredOk, Program, WriteOk,
         BaseOk;
    CallOf(ks, t);
    var pc := ks.s.threads[t].pc;
    if pc in {ReadVersion, Ready, CheckNode, Decided, ProbeVersion, ProbeReady, ProbeCheck} {
      WalkTree(ks.s, t, c);
    } else if pc in {UpgradeParent, UpgradeNode, ReleaseParent, UpgradeOnly, ReadLeaf, UpgradeLeaf, Stuck} {
      LockTree(ks.s, t);
    } else if pc == Writing {
      WritingFacts(ks, t);
      WriteTree(ks.s, t, c);
    } else {
      EpochTree(ks.s, t, c);
    }
  }

  lemma TagsOf(nodes: seq<Node>, tags: seq<Tag>, stored: map<Key, Tid>, w: View)
    requires ViewOk(nodes, tags, stored, w)
    ensures TagsOk(nodes, tags)
  {
  }

  lemma CreatedNodes(s: State, t: nat, c: Choice)
    requires t < |s.threads| == |s.lists| && s.threads[t].pc == Writing && c.New? && c.b1 != c.b2
    requires var th := s.threads[t]; th.at < |Program(th.kind)| && Program(th.kind)[th.at] == Create
    ensures EffectOf(s, t, c).nodes
              == s.nodes + Created(t, s.threads[t], Get(s.nodes, s.threads[t].victim), |s.nodes|, c.b1, c.b2)
  {
    hide Created, Program;
  }

  /** The tags of the nodes made. */
  lemma TagsMade(ks: Keyed, t: nat, c: Choice, op: Op)
    requires KeysOk(ks) && Allowed(ks, t, c, op) && ks.s.threads[t].pc == Writing && c.New? && c.b1 != c.b2
    requires var th := ks.s.threads[t]; th.at < |Program(th.kind)| && Program(th.kind)[th.at] == Create
    ensures t < |ks.s.lists|
    ensures var th, call := ks.s.threads[t], ks.calls[t];
            && call.op.Put?
            && TagsOk(EffectOf(ks.s, t, c).nodes,
                      ks.tags + NewTags(th, call, TagOf(ks.tags, th.victim), TagOf(ks.tags, th.anchor), call.op.key,
                                        call.op.tid))
  {
    hide KeysOk, EffectOf, NewTags, Inv, ViewOk, CallOk, StoredOk, SplitBytes, Created, Program, BaseOk, WriteOk;
    var th := ks.s.threads[t];
    CallOf(ks, t);
    WritingFacts(ks, t);
    TagsOf(ks.s.nodes, ks.tags, ks.stored, ks.view);
    PosIsPosition(th.kind, Create, th.at);
    CreatePending(th);
    NewTagsFit(ks, t, c);
    CreatedNodes(ks.s, t, c);
  }

  lemma CreatePending(th: Local)
    requires th.pc == Writing && th.at == 0
    ensures Pending(th, Change)
  {
  }

  /** The tags fit the nodes after every step. */
  lemma TagsFit(ks: Keyed, t: nat, c: Choice, op: Op)
    requires KeysOk(ks) && Allowed(ks, t, c, op) && !Stores(ks, t)
    ensures var ks' := NextKeyed(ks, t, c, op); TagsOk(ks'.s.nodes, ks'.tags) && ks.tags <= ks'.tags
  {
    hide KeysOk, NextKeyed, EffectOf, NextCall, NextView, NewTags, Inv, ViewOk, CallOk, StoredOk, Stores, Allowed,
         TagsOk, Program, WriteOk, BaseOk;
    AllowedThread(ks, t, c, op);
    CallOf(ks, t);
    KeyFields(ks, t, c, op);
    QuietTree(ks, t, c);
    TagsOf(ks.s.nodes, ks.tags, ks.stored, ks.view);
    if ks.s.threads[t].pc != Writing {
      SameNodeCount(ks.s, t, c);
    } else {
      ActEffect(ks.s, t, c);
    }
    if |EffectOf(ks.s, t, c).nodes| == |ks.s.nodes| {
      SameTags(ks.s.nodes, EffectOf(ks.s, t, c).nodes, ks.tags);
    } else {
      WritingFacts(ks, t);
      TagsMade(ks, t, c, op);
    }
  }

  lemma SameTags(nodes: seq<Node>, nodes': seq<Node>, tags: seq<Tag>)
    requires TagsOk(nodes, tags) && SameTree(nodes, nodes') && |nodes'| == |nodes|
    ensures TagsOk(nodes', tags)
  {
  }

  lemma QuietView(ks: Keyed, t: nat, c: Choice, op: Op)
    requires KeysOk(ks) && Allowed(ks, t, c, op) && !Stores(ks, t)
    ensures var ks' := NextKeyed(ks, t, c, op); ViewOk(ks'.s.nodes, ks'.tags, ks'.stored, ks'.view)
  {
    hide KeysOk, NextKeyed, EffectOf, NextCall, NextView, NewTags, Inv, ViewOk, CallOk, StoredOk, Stores, Allowed,
         TagsOk;
    AllowedThread(ks, t, c, op);
    CallOf(ks, t);
    KeyFields(ks, t, c, op);
    QuietTree(ks, t, c);
    TagsFit(ks, t, c, op);
    var ks' := NextKeyed(ks, t, c, op);
    TreeKept(ks.s.nodes, ks'.s.nodes, ks.tags, ks'.tags, ks.stored, ks.view);
  }

  // ----- the pointer of the anchor moves

  ghost function Victim(th: Local): Option<nat> {
    if th.kind == Plain then None else Some(th.victim)
  }

  /** What the protocol says about the moment a pointer moves. */
  lemma Moving(s: State, t: nat, i: nat)
    requires Inv(s) && t < |s.threads| == |s.lists| && Relinks(s, t) && i < |s.nodes|
    ensures var th, n, n' := s.threads[t], s.nodes[i], Relinked(s, t)[i];
            && n'.leaf == n.leaf && n'.kids == (if i == th.anchor then n.kids[th.ab := th.made] else n.kids)
            && (n'.stage == Linked <==>
                  (n.stage == Linked && Some(i) != Victim(th)) || th.made <= i < th.made + NewNodes(th.kind))
            && (th.made <= i < th.made + NewNodes(th.kind) ==> n.stage != Linked)
  {
    hide Inv, Relinks;
    NewNodeFacts(s, t);
    AnchorEdge(s, t);
    if s.nodes[i].stage == Private(t) {
      PrivateIsNew(s, t, i);
    }
  }

  lemma RelinkMoves(s: State, t: nat)
    requires Inv(s) && t < |s.threads| == |s.lists| && Relinks(s, t)
    ensures var th := s.threads[t];
            Moves(s.nodes, Relinked(s, t), th.anchor, th.ab, Victim(th), th.made, NewNodes(th.kind))
  {
    hide Inv, Relinks, Relinked;
    var th := s.threads[t];
    NewNodeFacts(s, t);
    AnchorEdge(s, t);
    RelinkedLength(s, t);
    forall i | 0 <= i < |s.nodes|
      ensures var n, n' := s.nodes[i], Relinked(s, t)[i];
              && n'.leaf == n.leaf && n'.kids == (if i == th.anchor then n.kids[th.ab := th.made] else n.kids)
              && (InTree(Relinked(s, t), i) <==>
                    (InTree(s.nodes, i) && Some(i) != Victim(th)) || th.made <= i < th.made + NewNodes(th.kind))
              && (th.made <= i < th.made + NewNodes(th.kind) ==> !InTree(s.nodes, i))
    {
      Moving(s, t, i);
    }
  }

  /** What the thread knows, and what it has made, when it moves the pointer. */
  ghost predicate AboutToStore(ks: Keyed, t: nat)
    requires t < |ks.s.threads| && t < |ks.calls|
  {
    var th, call := ks.s.threads[t], ks.calls[t];
    && call.op.Put? && call.op.key !in ks.stored && th.anchor < |ks.tags| && th.victim < |ks.tags| == |ks.s.nodes|
    && Placing(ks.tags[th.anchor], ks.tags[th.victim], th, call, call.op.key) && Made(ks.tags, th, call, call.op.key)
    && !ks.tags[th.anchor].leaf && NewNodes(th.kind) > 0
    && MadeOk(ks.s.nodes, t, th)
    && (th.kind == Grow ==> th.byte !in ks.s.nodes[th.victim].kids)
    && Moves(ks.s.nodes, Relinked(ks.s, t), th.anchor, th.ab, Victim(th), th.made, NewNodes(th.kind))
  }

  lemma WritingNodes(s: State, t: nat)
    requires Relinks(s, t)
    ensures var th := s.threads[t];
            && MadeOk(s.nodes, t, th) && th.anchor < |s.nodes| && !s.nodes[th.anchor].leaf
            && (th.kind == Grow ==> th.victim < |s.nodes| && th.byte !in s.nodes[th.victim].kids)
  {
    hide MadeOk, Graph, HeldOk, Locks;
  }

  lemma AboutTo(ks: Keyed, t: nat)
    requires KeysOk(ks) && Stores(ks, t)
    ensures t < |ks.s.threads| == |ks.s.lists| && AboutToStore(ks, t)
    ensures EffectOf(ks.s, t, Go).nodes == Relinked(ks.s, t)
  {
    hide KeysOk, Inv, ViewOk, StoredOk, CallOk, Placing, Made, MadeOk, Relinks, Program, Moves, Relinked;
    var th := ks.s.threads[t];
    CallOf(ks, t);
    WritingFacts(ks, t);
    ChangeReady(ks.s, t);
    WritingNodes(ks.s, t);
    RelinkMoves(ks.s, t);
    LeafTag(ks, th.anchor);
    PosIsPosition(th.kind, Change, th.at);
  }

  lemma StorePlain(ks: Keyed, t: nat)
    requires KeysOk(ks) && Stores(ks, t) && AboutToStore(ks, t) && ks.s.threads[t].kind == Plain
    ensures var th, call := ks.s.threads[t], ks.calls[t];
            var v, a, r := TagOf(ks.tags, th.victim), TagOf(ks.tags, th.anchor), TagOf(ks.tags, th.made);
            ViewOk(Relinked(ks.s, t), ks.tags, ks.stored[call.op.key := call.op.tid],
                   NextView(ks.view, th, a.path, v, r.path, call.op.key))
  {
    hide KeysOk, Inv, ViewOk, StoredOk, CallOk, MadeOk, Moves, Relinked;
    var th, call := ks.s.threads[t], ks.calls[t];
    CallOf(ks, t);
    assert ks.tags[th.made] == ks.tags[th.made..th.made + 1][0];
    PlainView(ks.s.nodes, Relinked(ks.s, t), ks.tags, ks.stored, ks.view, th.anchor, th.made, call.op.key, call.op.tid);
  }

  lemma StoreGrow(ks: Keyed, t: nat)
    requires KeysOk(ks) && Stores(ks, t) && AboutToStore(ks, t) && ks.s.threads[t].kind == Grow
    ensures var th, call := ks.s.threads[t], ks.calls[t];
            var v, a, r := TagOf(ks.tags, th.victim), TagOf(ks.tags, th.anchor), TagOf(ks.tags, th.made);
            ViewOk(Relinked(ks.s, t), ks.tags, ks.stored[call.op.key := call.op.tid],
                   NextView(ks.view, th, a.path, v, r.path, call.op.key))
  {
    hide KeysOk, Inv, ViewOk, StoredOk, CallOk, Moves, Relinked;
    var th, call := ks.s.threads[t], ks.calls[t];
    CallOf(ks, t);
    var two := ks.tags[th.made..th.made + 2];
    assert ks.tags[th.made] == two[0] && ks.tags[th.made + 1] == two[1];
    var added := Created(t, th, Get(ks.s.nodes, th.victim), th.made, th.nb1, th.nb2);
    assert ks.s.nodes[th.made + 0] == added[0];
    GrowView(ks.s.nodes, Relinked(ks.s, t), ks.tags, ks.stored, ks.view, th.anchor, th.ab, th.victim, th.made,
             call.op.key, call.op.tid);
  }

  /** Where the key leaves what hangs below the anchor's edge. */
  ghost predicate PartsAt(ks: Keyed, t: nat, r: Key)
    requires t < |ks.s.threads| && t < |ks.calls| && AboutToStore(ks, t)
  {
    var th, k := ks.s.threads[t], ks.calls[t].op.key;
    var a, v := ks.tags[th.anchor], ks.tags[th.victim];
    Shape.Under(a.path, th.ab, r) && Shape.Diverge(r, k, v.path) && th.nb1 == k[|r|] && th.nb2 == v.path[|r|]
  }

  lemma HangLevel(n: Tag, call: Call, k: Key)
    requires AtHang(n, call, k)
    ensures call.level == n.hang
  {
  }

  lemma FrontOf(p: Key, k: Key, j: nat)
    requires j <= |p| && Prefix(p[..j], k)
    ensures j <= |k| && k[..j] == p[..j] && Prefix(p[..j], p)
  {
  }

  lemma PrefixParts(ks: Keyed, t: nat)
    requires KeysOk(ks) && Stores(ks, t) && AboutToStore(ks, t) && ks.s.threads[t].kind == PrefixSplit
    ensures var v, call := ks.tags[ks.s.threads[t].victim], ks.calls[t];
            call.at < |v.path| && PartsAt(ks, t, v.path[..call.at])
  {
    hide KeysOk, Relinked, MadeOk, Moves, Parts, NewTags, AtHang;
    VictimBelow(ks, t);
    var v, call := ks.tags[ks.s.threads[t].victim], ks.calls[t];
    HangLevel(v, call, call.op.key);
    FrontOf(v.path, call.op.key, call.at);
  }

  lemma LeafParts(ks: Keyed, t: nat)
    requires KeysOk(ks) && Stores(ks, t) && AboutToStore(ks, t) && ks.s.threads[t].kind == LeafSplit
    ensures var v, call := ks.tags[ks.s.threads[t].victim], ks.calls[t];
            var m := Parts(v.path, call.op.key, call.level + 1);
            m < |call.op.key| && PartsAt(ks, t, call.op.key[..m])
  {
    hide KeysOk, Relinked, MadeOk, Moves, Parts, NewTags;
    var th, call := ks.s.threads[t], ks.calls[t];
    var a, v, k := ks.tags[th.anchor], ks.tags[th.victim], call.op.key;
    AgreeBelow(a.path, th.ab, k, v.path);
    PartsMeans(v.path, k, call.level + 1);
  }

  lemma PartsHere(ks: Keyed, t: nat)
    requires KeysOk(ks) && Stores(ks, t) && AboutToStore(ks, t) && ks.s.threads[t].kind in {PrefixSplit, LeafSplit}
    ensures var th, call := ks.s.threads[t], ks.calls[t];
            && th.made + 3 <= |ks.tags|
            && var a, v, k, r := ks.tags[th.anchor], ks.tags[th.victim], call.op.key, ks.tags[th.made].path;
               && PartsAt(ks, t, r)
               && ks.tags[th.made] == Tag(false, r, |a.path| + 1, 0)
               && ks.tags[th.made + 1] == Tag(true, k, |r| + 1, call.op.tid)
               && ks.tags[th.made + 2] == Tag(v.leaf, v.path, |r| + 1, if v.leaf then v.tid else 0)
  {
    hide KeysOk, Relinked, Parts, MadeOk, Moves, PartsAt;
    var th := ks.s.threads[t];
    var three := ks.tags[th.made..th.made + 3];
    assert ks.tags[th.made] == three[0] && ks.tags[th.made + 1] == three[1] && ks.tags[th.made + 2] == three[2];
    if th.kind == PrefixSplit {
      PrefixParts(ks, t);
      VictimBelow(ks, t);
    } else {
      LeafParts(ks, t);
    }
  }

  /** And what is made there. */
  lemma SplitsHere(ks: Keyed, t: nat)
    requires KeysOk(ks) && Stores(ks, t) && AboutToStore(ks, t) && ks.s.threads[t].kind in {PrefixSplit, LeafSplit}
    ensures var th, call := ks.s.threads[t], ks.calls[t];
            && th.made < |ks.tags|
            && Splits(ks.s.nodes, ks.tags, th.anchor, th.ab, th.victim, th.made, call.op.key, call.op.tid,
                      ks.tags[th.made].path)
  {
    hide KeysOk, Inv, ViewOk, StoredOk, CallOk, Relinked, Made, Moves, Placing;
    var th := ks.s.threads[t];
    PartsHere(ks, t);
    var added := Created(t, th, Get(ks.s.nodes, th.victim), th.made, th.nb1, th.nb2);
    assert ks.s.nodes[th.made + 0] == added[0] && ks.s.nodes[th.made + 2] == added[2];
  }

  lemma VictimBelow(ks: Keyed, t: nat)
    requires KeysOk(ks) && Stores(ks, t) && AboutToStore(ks, t) && ks.s.threads[t].kind != Plain
    ensures var th := ks.s.threads[t];
            var a, v := ks.tags[th.anchor], ks.tags[th.victim];
            Shape.Under(a.path, th.ab, v.path) && (!v.leaf ==> v.hang == |a.path| + 1)
  {
    hide KeysOk, Inv, ViewOk, StoredOk, CallOk, Relinked, Made, MadeOk, Placing;
    var th := ks.s.threads[t];
    CallOf(ks, t);
    BelowAnchor(ks, th.anchor, th.ab, th.victim);
  }

  lemma BelowAnchor(ks: Keyed, a: nat, b: Byte, x: nat)
    requires ViewOk(ks.s.nodes, ks.tags, ks.stored, ks.view) && InTree(ks.s.nodes, a) && a < |ks.tags|
    requires !ks.tags[a].leaf
    requires Kid(ks.s.nodes[a], b) == Some(x)
    ensures x < |ks.tags| && Shape.Under(ks.tags[a].path, b, ks.tags[x].path)
    ensures !ks.tags[x].leaf ==> ks.tags[x].hang == |ks.tags[a].path| + 1
  {
    hide Shape.ShapeOk, HangsOk, PlacesOk, KidsOk, TagsOk;
    AnchorInView(ks.s.nodes, ks.tags, ks.stored, ks.view, a, b);
    EdgeBehind(ks.s.nodes, ks.tags, ks.stored, ks.view, ks.tags[a].path, b, x);
    InnerChild(ks, ks.tags[a].path, b, x);
  }

  lemma StoreSplit(ks: Keyed, t: nat)
    requires KeysOk(ks) && Stores(ks, t) && AboutToStore(ks, t) && ks.s.threads[t].kind in {PrefixSplit, LeafSplit}
    ensures var th, call := ks.s.threads[t], ks.calls[t];
            var v, a, r := TagOf(ks.tags, th.victim), TagOf(ks.tags, th.anchor), TagOf(ks.tags, th.made);
            ViewOk(Relinked(ks.s, t), ks.tags, ks.stored[call.op.key := call.op.tid],
                   NextView(ks.view, th, a.path, v, r.path, call.op.key))
  {
    hide KeysOk, Inv, ViewOk, StoredOk, CallOk, Relinked, Made, MadeOk, Placing, Moves;
    var th, call := ks.s.threads[t], ks.calls[t];
    CallOf(ks, t);
    SplitsHere(ks, t);
    SplitOk(ks.s.nodes, Relinked(ks.s, t), ks.tags, ks.stored, ks.view, th.anchor, th.ab, th.victim, th.made,
            call.op.key, call.op.tid, ks.tags[th.made].path);
  }

  lemma StoringView(ks: Keyed, t: nat, c: Choice, op: Op)
    requires KeysOk(ks) && Allowed(ks, t, c, op) && Stores(ks, t)
    ensures var ks' := NextKeyed(ks, t, c, op); ViewOk(ks'.s.nodes, ks'.tags, ks'.stored, ks'.view)
  {
    hide KeysOk, NextKeyed, NextCall, NextView, NewTags, ViewOk, AboutToStore, Allowed;
    AllowedThread(ks, t, c, op);
    KeyFields(ks, t, c, op);
    AboutTo(ks, t);
    RelinkedLength(ks.s, t);
    SameChange(ks, t, c);
    hide EffectOf, Relinked, Stores;
    match ks.s.threads[t].kind {
      case Plain => StorePlain(ks, t);
      case Grow => StoreGrow(ks, t);
      case _ => StoreSplit(ks, t);
    }
  }

  lemma SameChange(ks: Keyed, t: nat, c: Choice)
    requires Stores(ks, t) && |ks.s.threads| == |ks.s.lists|
    ensures EffectOf(ks.s, t, c).nodes == EffectOf(ks.s, t, Go).nodes
  {
    hide Relinked;
  }

  // ----- every step keeps the tree and its keys together

  lemma StoredGrows(ks: Keyed, t: nat, c: Choice, op: Op)
    requires KeysOk(ks) && Allowed(ks, t, c, op)
    ensures var ks' := NextKeyed(ks, t, c, op);
            Grown(ks.stored, ks'.stored) && ks.tags <= ks'.tags && StoredOk(ks'.stored, ks'.universe)
  {
    hide KeysOk, NextKeyed, NextCall, NextView, NewTags, ViewOk, Inv, EffectOf, Allowed, PcOk;
    AllowedThread(ks, t, c, op);
    CallOf(ks, t);
    KeyFields(ks, t, c, op);
    if Stores(ks, t) {
      WritingFacts(ks, t);
      KeyStored(ks, t);
    }
  }

  lemma KeyStored(ks: Keyed, t: nat)
    requires KeysOk(ks) && Stores(ks, t)
    ensures ks.calls[t].op.Put? && ks.calls[t].op.key !in ks.stored && ks.calls[t].op.key in ks.universe
    ensures ks.calls[t].op.tid != 0
  {
    hide KeysOk, ViewOk, Inv, WriteOk;
    var th := ks.s.threads[t];
    CallOf(ks, t);
    WritingFacts(ks, t);
    PosIsPosition(th.kind, Change, th.at);
  }

  lemma OtherKept(ks: Keyed, t: nat, c: Choice, op: Op, u: nat)
    requires KeysOk(ks) && Allowed(ks, t, c, op) && u < |ks.calls| && u != t
    ensures var ks' := NextKeyed(ks, t, c, op);
            && u < |ks'.s.threads| && u < |ks'.calls|
            && CallOk(ks'.tags, ks'.stored, ks'.universe, ks'.s.threads[u], ks'.calls[u])
  {
    hide KeysOk, NextCall, NextView, NewTags, ViewOk, Inv, EffectOf, Allowed, PcOk, CallOk, StoredOk, Stores;
    AllowedThread(ks, t, c, op);
    CallOf(ks, u);
    StoredGrows(ks, t, c, op);
    var ks' := NextKeyed(ks, t, c, op);
    if Stores(ks, t) && ks.calls[u].op.Put? {
      KeyStored(ks, t);
      DistinctKeys(ks, t, u);
    }
    OtherCall(ks.tags, ks'.tags, ks.stored, ks'.stored, ks.universe, ks.s.threads[u], ks.calls[u]);
  }

  lemma DistinctKeys(ks: Keyed, t: nat, u: nat)
    requires KeysOk(ks) && t < |ks.calls| && u < |ks.calls| && t != u && ks.calls[t].op.Put? && ks.calls[u].op.Put?
    ensures ks.calls[t].op.key != ks.calls[u].op.key
  {
    hide ViewOk, Inv, CallOk, StoredOk;
  }

  lemma StillDistinct(ks: Keyed, t: nat, c: Choice, op: Op)
    requires KeysOk(ks) && Allowed(ks, t, c, op)
    ensures Distinct(NextKeyed(ks, t, c, op).calls)
  {
    hide KeysOk, ViewOk, Inv, CallOk, StoredOk, EffectOf, NextView, NewTags, NextKeyed, NextCall;
    AllowedThread(ks, t, c, op);
    SameOp(ks, t, c, op, EffectOf(ks.s, t, c).local);
    CallsAfter(ks, t, c, op);
    var calls' := NextKeyed(ks, t, c, op).calls;
    forall u, w | 0 <= u < |calls'| && 0 <= w < |calls'| && u != w && calls'[u].op.Put? && calls'[w].op.Put?
      ensures calls'[u].op.key != calls'[w].op.key
    {
      if ks.s.threads[t].pc != Outside || (u != t && w != t) {
        DistinctKeys(ks, u, w);
      }
    }
  }

  lemma CallsAfter(ks: Keyed, t: nat, c: Choice, op: Op)
    requires t < |ks.s.threads| == |ks.s.lists| && t < |ks.calls|
    ensures NextKeyed(ks, t, c, op).calls == ks.calls[t := NextCall(ks, t, c, op, EffectOf(ks.s, t, c).local)]
  {
    hide EffectOf, NextCall, NextView, NewTags, Stores, TagOf;
  }

  /** A step changes a thread's operation only where it begins or ends. */
  lemma SameOp(ks: Keyed, t: nat, c: Choice, op: Op, th': Local)
    requires t < |ks.s.threads| && t < |ks.calls|
    ensures var call' := NextCall(ks, t, c, op, th');
            if ks.s.threads[t].pc == Outside then call'.op == op
            else call'.op in {NoOp, ks.calls[t].op} && call'.before == ks.calls[t].before
  {
    hide Answer, TagOf, Differs, PrefixByte;
  }

  lemma AssembleKeys(ks: Keyed)
    requires Inv(ks.s) && |ks.calls| == |ks.s.threads| && ViewOk(ks.s.nodes, ks.tags, ks.stored, ks.view)
    requires StoredOk(ks.stored, ks.universe) && Distinct(ks.calls)
    requires forall t | 0 <= t < |ks.calls| :: CallOk(ks.tags, ks.stored, ks.universe, ks.s.threads[t], ks.calls[t])
    ensures KeysOk(ks)
  {
    hide Inv, ViewOk, StoredOk, Distinct, CallOk;
  }

  /** Every step keeps the tree, its keys and what every operation knows. */
  lemma KeysKept(ks: Keyed, t: nat, c: Choice, op: Op)
    requires KeysOk(ks) && Allowed(ks, t, c, op)
    ensures KeysOk(NextKeyed(ks, t, c, op))
  {
    hide KeysOk, ViewOk, Inv, CallOk, StoredOk, Distinct, Allowed, NextKeyed, NextCall, Stores, EffectOf, Step;
    AllowedThread(ks, t, c, op);
    var ks' := NextKeyed(ks, t, c, op);
    CallOf(ks, t);
    StepKeeps(ks.s, t, c);
    StepAfter(ks, t, c, op);
    if Stores(ks, t) {
      StoringView(ks, t, c, op);
    } else {
      QuietView(ks, t, c, op);
    }
    StoredGrows(ks, t, c, op);
    StillDistinct(ks, t, c, op);
    forall u | 0 <= u < |ks'.calls| ensures CallOk(ks'.tags, ks'.stored, ks'.universe, ks'.s.threads[u], ks'.calls[u]) {
      if u != t {
        OtherKept(ks, t, c, op, u);
      } else if ks.s.threads[t].pc == Writing {
        OwnWriting(ks, t, c, op);
      } else {
        OwnQuiet(ks, t, c, op);
      }
    }
    AssembleKeys(ks');
  }

  lemma StepAfter(ks: Keyed, t: nat, c: Choice, op: Op)
    requires KeysOk(ks) && Allowed(ks, t, c, op)
    ensures t < |ks.s.threads| == |ks.s.lists| && t < |ks.calls| == |ks.s.threads|
    ensures var ks' := NextKeyed(ks, t, c, op);
            ks'.s == Step(ks.s, t, c) && |ks'.calls| == |ks'.s.threads| == |ks.calls| && ks'.universe == ks.universe
  {
    hide ViewOk, Inv, CallOk, StoredOk, Distinct, NextCall, Stores, EffectOf, NextView, NewTags;
    AllowedThread(ks, t, c, op);
  }
}
