/**
 * What an operation does that is left alone: it ends within a bounded number of steps, wherever it stands and however
 * much of what it has read is out of date; and a lookup or an insert that begins then does what its map would.
 */
module OlcAlone {
  import opened Wrappers
  import opened Bytes
  import opened OlcModel
  import opened OlcInvariant
  import opened OlcSteps
  import opened OlcWrites
  import opened OlcKeys
  import opened OlcView
  import opened OlcKeyed
  import opened OlcKeyedSteps
  import opened OlcLinear
  import Shape = ArtShape

  // ----- being alone

  /** No other thread holds a lock, and no lock was left behind. */
  ghost predicate Undisturbed(nodes: seq<Node>, t: nat) {
    forall i | 0 <= i < |nodes| :: nodes[i].lockedBy == None || nodes[i].lockedBy == Some(t)
  }

  predicate Readable(n: Node) {
    n.lockedBy == None && !n.obsolete
  }

  /** The version of the current node has been read, that of the parent is still relied on. */
  predicate Relies(pc: Pc) {
    pc in {Ready, CheckNode, Decided, ProbeVersion, ProbeReady, ProbeCheck, UpgradeParent, UpgradeOnly}
  }

  /** All that a thread relies on is as it was read. */
  ghost predicate Current(nodes: seq<Node>, th: Local) {
    && (Relies(th.pc) || th.pc == UpgradeNode ==> Clean(Get(nodes, th.node), th.v))
    && (th.pc == ReadVersion ==> Readable(Get(nodes, th.node)))
    && ((Relies(th.pc) || th.pc == ReadVersion) && th.parent.Some? ==> Clean(Get(nodes, th.parent.value), th.pv))
    && (th.pc == ProbeVersion ==> Readable(Get(nodes, th.spot)))
    && (th.pc in {ProbeReady, ProbeCheck} ==> Clean(Get(nodes, th.spot), th.sv))
    && th.pc != ReleaseParent
  }

  /** A thread without a parent is at the root, and leaves are looked for only below other nodes. */
  ghost predicate Located(tags: seq<Tag>, th: Local) {
    && (AtNode(th.pc) && th.parent.None? ==> th.node == 0)
    && (th.pc in {ProbeVersion, ProbeReady, ProbeCheck} ==> TagOf(tags, th.node).path != [])
  }

  // ----- how far it is to the end

  /** How many levels are left; n bounds the lengths of all keys. */
  function Depth(call: Call): nat {
    if call.op != NoOp && call.level <= |call.op.key| then |call.op.key| + 1 - call.level else 0
  }

  function PerLevel(n: nat): nat {
    3 * n + 20
  }

  function Up(n: nat, tags: seq<Tag>, i: nat): nat {
    var p := |TagOf(tags, i).path|;
    if p <= n then n - p else 0
  }

  /** How many steps are left on this level, looking for a leaf below included. */
  function Rank(n: nat, tags: seq<Tag>, th: Local, call: Call): nat {
    match th.pc
    case ReadVersion => 3 * n + 19
    case Ready => if call.kt.Some? then 14 else 3 * n + 18
    case ProbeVersion => 3 * Up(n, tags, th.spot) + 17
    case ProbeReady => 3 * Up(n, tags, th.spot) + 16
    case ProbeCheck => if th.snext.Some? then 3 * Up(n, tags, th.spot) + 15 else 3 * n + 19
    case CheckNode => 13
    case Decided => 12
    case UpgradeParent => 11
    case UpgradeOnly => 11
    case ReadLeaf => 10
    case UpgradeLeaf => 9
    case UpgradeNode => 9
    case ReleaseParent => 8
    case Writing => if th.at <= 7 then 8 - th.at else 0
    case _ => 0
  }

  function Budget(n: nat, tags: seq<Tag>, th: Local, call: Call): nat {
    Depth(call) * PerLevel(n) + Rank(n, tags, th, call)
  }

  /** As much again if something is out of date, because the operation may have to go back to the root, once. */
  ghost function StepsLeft(n: nat, tags: seq<Tag>, nodes: seq<Node>, th: Local, call: Call): nat {
    Budget(n, tags, th, call) + if Current(nodes, th) then 0 else (n + 2) * PerLevel(n)
  }

  lemma {:induction false} Lower(d: nat, e: nat, k: nat)
    requires d <= e
    ensures d * k <= e * k && (d < e ==> d * k + k <= e * k)
  {
    if d < e {
      Lower(d, e - 1, k);
      assert e * k == (e - 1) * k + k;
    }
  }

  lemma WithinBudget(n: nat, tags: seq<Tag>, th: Local, call: Call)
    requires call.op != NoOp ==> |call.op.key| <= n
    ensures Budget(n, tags, th, call) < (n + 2) * PerLevel(n)
  {
    Lower(Depth(call), n + 1, PerLevel(n));
    Lower(n + 1, n + 2, PerLevel(n));
  }

  /** The thread has left, or is nearer to the end. */
  ghost predicate Nearer(ks: Keyed, t: nat, n: nat, nodes': seq<Node>, th': Local, call': Call)
    requires t < |ks.s.threads| && t < |ks.calls|
  {
    Busy(th'.pc)
    && (th'.pc == Leave
        || StepsLeft(n, ks.tags, nodes', th', call')
             < StepsLeft(n, ks.tags, ks.s.nodes, ks.s.threads[t], ks.calls[t]))
  }

  /** An operation is under way in thread t, alone. */
  ghost predicate Solo(ks: Keyed, t: nat, n: nat) {
    && KeysOk(ks) && t < |ks.calls| && t < |ks.s.threads| && Busy(ks.s.threads[t].pc)
    && Undisturbed(ks.s.nodes, t) && Located(ks.tags, ks.s.threads[t])
    && ks.calls[t].op != NoOp && |ks.calls[t].op.key| <= n
    && (ks.s.threads[t].pc !in {Writing, Leave} ==> forall q | q in ks.stored :: |q| <= n)
  }

  /** A step on; what was up to date stays so. */
  lemma OneOn(ks: Keyed, t: nat, n: nat, nodes': seq<Node>, th': Local, call': Call)
    requires t < |ks.s.threads| && t < |ks.calls| && Busy(th'.pc)
    requires Depth(call') <= Depth(ks.calls[t])
    requires Rank(n, ks.tags, th', call') < Rank(n, ks.tags, ks.s.threads[t], ks.calls[t])
    requires Current(ks.s.nodes, ks.s.threads[t]) ==> Current(nodes', th')
    ensures Nearer(ks, t, n, nodes', th', call')
  {
    hide Rank, Depth, Current;
    Lower(Depth(call'), Depth(ks.calls[t]), PerLevel(n));
  }

  /** Back to the root, where nothing is out of date. */
  lemma OnceMore(ks: Keyed, t: nat, n: nat, nodes': seq<Node>, th': Local, call': Call)
    requires t < |ks.s.threads| && t < |ks.calls| && th' == FromRoot(ks.s.threads[t])
    requires !Current(ks.s.nodes, ks.s.threads[t]) && Readable(Get(nodes', 0))
    requires call'.op != NoOp ==> |call'.op.key| <= n
    ensures Nearer(ks, t, n, nodes', th', call')
  {
    WithinBudget(n, ks.tags, th', call');
    assert Current(nodes', th');
    hide Budget, Current;
  }

  lemma StaleReads(nodes: seq<Node>, th: Local)
    requires !Current(nodes, th)
    ensures th.pc in {ReadVersion, UpgradeNode, ReleaseParent} || Relies(th.pc)
  {
  }

  // ----- what is readable

  lemma OwnLockOnly(s: State, t: nat, x: nat)
    requires Inv(s) && Undisturbed(s.nodes, t) && t < |s.threads| && x < |s.nodes| && x !in Locks(s.threads[t])
    ensures s.nodes[x].lockedBy == None
  {
    hide Inv;
    NodeOf(s, x);
  }

  lemma RootReadable(s: State, t: nat)
    requires Inv(s) && Undisturbed(s.nodes, t) && t < |s.threads| && InOp(s.threads[t].pc) && Locks(s.threads[t]) == {}
    ensures Readable(Get(s.nodes, 0))
  {
    hide Inv, Locks;
    RootIsHeld(s, t);
    OwnLockOnly(s, t, 0);
  }

  /** The child of a clean node can be read at once. */
  lemma ChildReadable(s: State, t: nat, p: nat, v: nat, b: Byte)
    requires Inv(s) && Undisturbed(s.nodes, t) && t < |s.threads| && InOp(s.threads[t].pc) && Locks(s.threads[t]) == {}
    requires p in s.threads[t].held && p < |s.nodes| && Clean(s.nodes[p], v) && Kid(s.nodes[p], b).Some?
    ensures Readable(Get(s.nodes, Kid(s.nodes[p], b).value))
  {
    hide Inv, Locks;
    ValidatedChild(s, t, p, v, b);
    OwnLockOnly(s, t, Kid(s.nodes[p], b).value);
  }

  // ----- walking

  /** A choice the operation has, other than to start again or to throw, that brings it nearer to its end. */
  ghost predicate Advances(ks: Keyed, t: nat, n: nat, c: Choice) {
    && t < |ks.s.threads| == |ks.s.lists| && t < |ks.calls| && Allowed(ks, t, c, NoOp) && c != Restart && !c.Throw?
    && var e := EffectOf(ks.s, t, c);
       Nearer(ks, t, n, e.nodes, e.local, NextCall(ks, t, c, NoOp, e.local))
  }

  /** What is needed of the thread. */
  lemma SoloFacts(ks: Keyed, t: nat, n: nat)
    requires Solo(ks, t, n)
    ensures KeysOk(ks) && Inv(ks.s) && t < |ks.calls| && t < |ks.s.threads| == |ks.s.lists|
    ensures Undisturbed(ks.s.nodes, t) && Busy(ks.s.threads[t].pc) && Located(ks.tags, ks.s.threads[t])
    ensures ks.calls[t].op != NoOp && |ks.calls[t].op.key| <= n
  {
    hide KeysOk, Undisturbed, Busy, Located;
    InvOf(ks);
    InvLists(ks.s);
  }

  lemma ReadVersionStep(s: State, t: nat)
    requires t < |s.threads| == |s.lists| && s.threads[t].pc == ReadVersion
    ensures var th, x := s.threads[t], Get(s.nodes, s.threads[t].node);
            EffectOf(s, t, Go) == Stay(s, t, if Readable(x) then th.(pc := Ready, v := x.version, seen := x.kids)
                                             else FromRoot(th))
  {
  }

  lemma BackAtRoot(ks: Keyed, t: nat, c: Choice)
    requires t < |ks.s.threads| && t < |ks.calls| && ks.s.threads[t].pc !in {Outside, Leave, Writing}
    ensures NextCall(ks, t, c, NoOp, FromRoot(ks.s.threads[t])) == ks.calls[t].(level := 0, exact := true, kt := None)
  {
  }

  lemma SameCall(ks: Keyed, t: nat, c: Choice, th': Local)
    requires t < |ks.s.threads| && t < |ks.calls| && th'.pc != ReadVersion
    requires ks.s.threads[t].pc !in {Outside, Leave, Writing, Ready, Decided, ProbeCheck}
    ensures NextCall(ks, t, c, NoOp, th') == ks.calls[t]
  {
  }

  /** A thread that found something out of date, and holds no lock, goes back to the root. */
  lemma FromRootOn(ks: Keyed, t: nat, n: nat)
    requires Solo(ks, t, n) && Locks(ks.s.threads[t]) == {} && !Current(ks.s.nodes, ks.s.threads[t])
    requires ks.s.threads[t].pc !in {Ready, Decided, Leave, Writing}
    requires EffectOf(ks.s, t, Go) == Stay(ks.s, t, FromRoot(ks.s.threads[t]))
    ensures Advances(ks, t, n, Go)
  {
    hide Solo, KeysOk, Inv, Current, Locks, Nearer, EffectOf, NextCall;
    SoloFacts(ks, t, n);
    RootReadable(ks.s, t);
    BackAtRoot(ks, t, Go);
    OnceMore(ks, t, n, ks.s.nodes, FromRoot(ks.s.threads[t]), ks.calls[t].(level := 0, exact := true, kt := None));
  }

  lemma ReadVersionOn(ks: Keyed, t: nat, n: nat)
    requires Solo(ks, t, n) && ks.s.threads[t].pc == ReadVersion
    ensures Advances(ks, t, n, Go)
  {
    hide Solo, KeysOk, Inv, Locks, Nearer, EffectOf, NextCall;
    SoloFacts(ks, t, n);
    ReadVersionStep(ks.s, t);
    var th := ks.s.threads[t];
    NoLocks(th);
    if Readable(Get(ks.s.nodes, th.node)) {
      var th' := EffectOf(ks.s, t, Go).local;
      SameCall(ks, t, Go, th');
      OneOn(ks, t, n, ks.s.nodes, th', ks.calls[t]);
    } else {
      FromRootOn(ks, t, n);
    }
  }

  /** What a child found in the tree tells: its path is longer, and that of an inner node leads to a stored key. */
  lemma StrictlyBelow(ks: Keyed, i: nat, b: Byte, x: nat)
    requires KeysOk(ks) && InTree(ks.s.nodes, i) && i < |ks.tags| && !ks.tags[i].leaf
    requires Kid(ks.s.nodes[i], b) == Some(x)
    ensures x < |ks.tags| && |ks.tags[i].path| < |ks.tags[x].path|
    ensures !ks.tags[x].leaf ==> OnAWay(ks.stored, ks.tags[x].path)
  {
    hide KeysOk, ViewOk, Inv, StoredOk, OnAWay, InTree;
    var p := ks.tags[i].path;
    var k := p + [b];
    var call := Call(Lookup(k), |p|, true, None, 0, 0, None, map[]);
    InvOf(ks);
    InnerInView(ks, i);
    InnerOnAWay(ks, p);
    TagHang(ks, i);
    assert k[..|p|] == p;
    ReadTells(ks, i, b, call, k);
  }

  /** An inner node of the tree other than the root has a child. */
  lemma SomeChild(ks: Keyed, i: nat) returns (b: Byte)
    requires KeysOk(ks) && InTree(ks.s.nodes, i) && i < |ks.tags| && !ks.tags[i].leaf && ks.tags[i].path != []
    ensures Kid(ks.s.nodes[i], b).Some?
  {
    hide KeysOk, ViewOk, Inv, StoredOk, InTree;
    InvOf(ks);
    InnerInView(ks, i);
    InnerHere(ks, i);
    var x := LooksLike(ks, ks.tags[i].path);
    b := EdgeBelow(ks, ks.tags[i].path);
  }

  lemma EdgeBelow(ks: Keyed, p: Key) returns (b: Byte)
    requires KeysOk(ks) && p in ks.view.inner && p != []
    ensures EdgeTo(ks.view, p, b).Some?
  {
    hide KeysOk, TagsOk, KidsOk, HangsOk, PlacesOk, Shape.ShapeOk;
    InvOf(ks);
    var c;
    b, c := Shape.TwoChildren(ks.stored.Keys, ks.view.inner.Keys, ks.view.edges, p);
  }

  lemma ShortWay(stored: map<Key, Tid>, p: Key, n: nat)
    requires OnAWay(stored, p) && forall q | q in stored :: |q| <= n
    ensures |p| <= n
  {
  }

  // ----- at a node

  lemma ReadyStep(s: State, t: nat, c: Choice)
    requires t < |s.threads| == |s.lists| && s.threads[t].pc == Ready && c != Restart
    requires c.Look? || c.Probe? || (c.Split? && s.threads[t].parent.Some?) || c.GiveUp?
    ensures var th := s.threads[t];
            EffectOf(s, t, c) == Stay(s, t,
              match c
              case Look(b, garbage) =>
                th.(pc := CheckNode, byte := b, next := ReadKid(Get(s.nodes, th.node), th.v, b, garbage))
              case Probe => th.(pc := ProbeVersion, spot := th.node)
              case Split => th.(pc := UpgradeParent, kind := PrefixSplit)
              case _ => th.At(Leave))
  {
  }

  lemma ReadyCall(ks: Keyed, t: nat, c: Choice, th': Local)
    requires t < |ks.s.threads| && t < |ks.calls| && ks.s.threads[t].pc == Ready && th'.pc != ReadVersion
    ensures var call, call' := ks.calls[t], NextCall(ks, t, c, NoOp, th');
            call'.op == call.op && call'.kt == call.kt && call'.level >= call.level
  {
    hide Differs, PrefixByte, TagOf;
  }

  lemma SplitHasParent(ks: Keyed, t: nat, n: nat)
    requires Solo(ks, t, n) && ks.s.threads[t].pc == Ready && ks.calls[t].op.Put?
    requires PutChoice(TagOf(ks.tags, ks.s.threads[t].node), ks.calls[t].kt, ks.calls[t].op.key, ks.calls[t].level,
                       Choice.Split)
    ensures ks.s.threads[t].parent.Some?
  {
    hide KeysOk, ViewOk, Inv, Differs, Undisturbed;
    InvOf(ks);
    RootTag(ks);
  }

  lemma ReadyOn(ks: Keyed, t: nat, n: nat) returns (c: Choice)
    requires Solo(ks, t, n) && ks.s.threads[t].pc == Ready
    ensures Advances(ks, t, n, c) && !c.Insert?
  {
    hide Solo, KeysOk, Inv, Nearer, EffectOf, NextCall, PutChoice, LookupChoice, Here, AtHang, ViewOk, StoredOk;
    SoloFacts(ks, t, n);
    HangFacts(ks, t);
    InvOf(ks);
    InCall(ks, t);
    var th, call := ks.s.threads[t], ks.calls[t];
    if call.op.Put? {
      c := PutGoesOn(ks, ks.tags[th.node], call, call.op.key);
      if c.Split? {
        SplitHasParent(ks, t, n);
      }
      PutKinds(ks.tags[th.node], call, c);
    } else {
      c := LookupGoesOn(ks.tags[th.node], call.op.key, call.level);
      LookupKinds(ks.tags[th.node], call, c);
    }
    ReadyStep(ks.s, t, c);
    var th' := EffectOf(ks.s, t, c).local;
    ReadyCall(ks, t, c, th');
    ReadyRank(n, ks.tags, th, th', call, NextCall(ks, t, c, NoOp, th'), c);
    hide Rank, Current;
    if th'.pc != Leave {
      OneOn(ks, t, n, ks.s.nodes, th', NextCall(ks, t, c, NoOp, th'));
    } else {
      HasLeft(ks, t, n, ks.s.nodes, th', NextCall(ks, t, c, NoOp, th'));
    }
  }

  lemma HasLeft(ks: Keyed, t: nat, n: nat, nodes': seq<Node>, th': Local, call': Call)
    requires t < |ks.s.threads| && t < |ks.calls| && th'.pc == Leave
    ensures Nearer(ks, t, n, nodes', th', call')
  {
  }

  lemma PutKinds(x: Tag, call: Call, c: Choice)
    requires call.op.Put? && PutChoice(x, call.kt, call.op.key, call.level, c)
    ensures c.Look? || c.Probe? || c.Split?
    ensures c.Probe? ==> call.kt.None?
  {
    hide Differs;
  }

  lemma LookupKinds(x: Tag, call: Call, c: Choice)
    requires call.op.Lookup? && LookupChoice(x, call.op.key, call.level, c)
    ensures c.Look? || c.GiveUp?
  {
    hide Fails;
  }

  lemma ReadyRank(n: nat, tags: seq<Tag>, th: Local, th': Local, call: Call, call': Call, c: Choice)
    requires th.pc == Ready && (c.Probe? ==> call.kt.None?)
    requires match c
             case Look(b, _) => th' == th.(pc := CheckNode, byte := b, next := th'.next)
             case Probe => th' == th.(pc := ProbeVersion, spot := th.node)
             case Split => th' == th.(pc := UpgradeParent, kind := PrefixSplit)
             case _ => th' == th.At(Leave)
    requires call'.op == call.op && call'.level >= call.level
    ensures Depth(call') <= Depth(call) && Rank(n, tags, th', call') < Rank(n, tags, th, call)
    ensures forall nodes :: Current(nodes, th) ==> Current(nodes, th')
  {
  }

  lemma CheckNodeStep(s: State, t: nat)
    requires t < |s.threads| == |s.lists| && s.threads[t].pc == CheckNode
    ensures var th := s.threads[t];
            EffectOf(s, t, Go) == Stay(s, t, if Clean(Get(s.nodes, th.node), th.v) then Hold(th.At(Decided), th.next)
                                             else FromRoot(th))
  {
  }

  lemma CheckNodeOn(ks: Keyed, t: nat, n: nat)
    requires Solo(ks, t, n) && ks.s.threads[t].pc == CheckNode
    ensures Advances(ks, t, n, Go)
  {
    hide Solo, KeysOk, Inv, Locks, Nearer, EffectOf, NextCall;
    SoloFacts(ks, t, n);
    CheckNodeStep(ks.s, t);
    var th := ks.s.threads[t];
    NoLocks(th);
    if Clean(Get(ks.s.nodes, th.node), th.v) {
      var th' := EffectOf(ks.s, t, Go).local;
      SameCall(ks, t, Go, th');
      OneOn(ks, t, n, ks.s.nodes, th', ks.calls[t]);
    } else {
      FromRootOn(ks, t, n);
    }
  }

  // ----- the child is known

  lemma DecidedStep(s: State, t: nat, c: Choice)
    requires t < |s.threads| == |s.lists| && s.threads[t].pc == Decided
    requires var th := s.threads[t];
             if th.next.Some? && !Get(s.nodes, th.next.value).leaf then c == Descend
             else c == GiveUp || (c.Insert? && (c.grow ==> th.parent.Some?))
    ensures var th := s.threads[t];
            EffectOf(s, t, c) == Stay(s, t,
              match c
              case Descend =>
                th.(pc := ReadVersion, parent := Some(th.node), pv := th.v, pb := th.byte, node := th.next.value)
              case Insert(grow) =>
                if th.next.Some? then th.(pc := UpgradeOnly, kind := LeafSplit)
                else if grow then th.(pc := UpgradeParent, kind := Grow)
                else th.(pc := UpgradeOnly, kind := Plain)
              case _ => th.At(Leave))
  {
  }

  lemma DecidedAfter(ks: Keyed, t: nat, c: Choice, th': Local)
    requires t < |ks.s.threads| && t < |ks.calls| && ks.s.threads[t].pc == Decided
    requires th'.pc != ReadVersion || th'.parent.Some?
    ensures var call, call' := ks.calls[t], NextCall(ks, t, c, NoOp, th');
            && call'.op == call.op
            && (if c.Descend? then call'.level == call.level + 1 && call'.kt == None
                else call'.kt == call.kt && call'.level == call.level)
  {
    hide TagOf;
  }

  /** What is known of the child a thread has decided on. */
  lemma DecidedFacts(ks: Keyed, t: nat, n: nat)
    requires Solo(ks, t, n) && ks.s.threads[t].pc == Decided
    ensures var th, call := ks.s.threads[t], ks.calls[t];
            && (th.next.Some? ==>
                  && th.next.value < |ks.tags|
                  && TagOf(ks.tags, th.next.value).leaf == Get(ks.s.nodes, th.next.value).leaf)
            && call.level < |call.op.key|
            && (Current(ks.s.nodes, th) && th.next.Some? ==> Readable(Get(ks.s.nodes, th.next.value)))
  {
    hide Solo, KeysOk, Inv, ViewOk, Here, ChildOk, Current, Undisturbed, LockingOk, ProbeOk;
    SoloFacts(ks, t, n);
    InvOf(ks);
    PathFacts(ks, t);
    Found(ks, t);
    var th := ks.s.threads[t];
    if th.next.Some? {
      LeafTag(ks, th.next.value);
      if Current(ks.s.nodes, th) {
        CurrentNode(ks.s.nodes, th);
        Walking(ks.s, t);
        NoLocks(th);
        ChildReadable(ks.s, t, th.node, th.v, th.byte);
      }
    }
  }

  lemma CurrentNode(nodes: seq<Node>, th: Local)
    requires Current(nodes, th) && Relies(th.pc)
    ensures Clean(Get(nodes, th.node), th.v)
  {
  }

  /** One level further down. */
  lemma Down(ks: Keyed, t: nat, n: nat, th': Local, call': Call)
    requires t < |ks.s.threads| && t < |ks.calls| && ks.s.threads[t].pc == Decided && th'.pc == ReadVersion
    requires call'.op == ks.calls[t].op != NoOp && call'.level == ks.calls[t].level + 1 <= |call'.op.key|
    requires Current(ks.s.nodes, ks.s.threads[t]) ==> Current(ks.s.nodes, th')
    ensures Nearer(ks, t, n, ks.s.nodes, th', call')
  {
    hide Current;
    Lower(Depth(call'), Depth(ks.calls[t]), PerLevel(n));
  }

  lemma DecidedOn(ks: Keyed, t: nat, n: nat, full: nat -> bool) returns (c: Choice)
    requires Solo(ks, t, n) && ks.s.threads[t].pc == Decided
    ensures Advances(ks, t, n, c)
    ensures c.Insert? ==> c.grow == (full(ks.s.threads[t].node) && ks.s.threads[t].parent.Some?)
  {
    hide Solo, KeysOk, Inv, Nearer, EffectOf, NextCall, TagOf;
    SoloFacts(ks, t, n);
    DecidedFacts(ks, t, n);
    var th, call := ks.s.threads[t], ks.calls[t];
    c := if th.next.Some? && !Get(ks.s.nodes, th.next.value).leaf then Descend
         else if call.op.Lookup? then GiveUp else Insert(full(th.node) && th.parent.Some?);
    DecidedStep(ks.s, t, c);
    var th' := EffectOf(ks.s, t, c).local;
    DecidedAfter(ks, t, c, th');
    var call' := NextCall(ks, t, c, NoOp, th');
    if c.Descend? {
      Down(ks, t, n, th', call');
    } else if c.GiveUp? {
      HasLeft(ks, t, n, ks.s.nodes, th', call');
    } else {
      OneOn(ks, t, n, ks.s.nodes, th', call');
    }
  }

  // ----- looking for a leaf

  lemma ProbeVersionOn(ks: Keyed, t: nat, n: nat)
    requires Solo(ks, t, n) && ks.s.threads[t].pc == ProbeVersion
    ensures Advances(ks, t, n, Go)
  {
    hide Solo, KeysOk, Inv, Locks, Nearer, EffectOf, NextCall;
    SoloFacts(ks, t, n);
    ProbeVersionStep(ks.s, t);
    var th := ks.s.threads[t];
    NoLocks(th);
    if Readable(Get(ks.s.nodes, th.spot)) {
      var th' := EffectOf(ks.s, t, Go).local;
      SameCall(ks, t, Go, th');
      OneOn(ks, t, n, ks.s.nodes, th', ks.calls[t]);
    } else {
      FromRootOn(ks, t, n);
    }
  }

  lemma ProbeVersionStep(s: State, t: nat)
    requires t < |s.threads| == |s.lists| && s.threads[t].pc == ProbeVersion
    ensures var th, x := s.threads[t], Get(s.nodes, s.threads[t].spot);
            EffectOf(s, t, Go) == Stay(s, t, if Readable(x) then th.(pc := ProbeReady, sv := x.version)
                                             else FromRoot(th))
  {
  }

  /** As long as the spot is as it was read, it has a child. */
  lemma ProbeByte(ks: Keyed, t: nat, n: nat) returns (b: Byte)
    requires Solo(ks, t, n) && ks.s.threads[t].pc == ProbeReady
    ensures var x := Get(ks.s.nodes, ks.s.threads[t].spot);
            Clean(x, ks.s.threads[t].sv) ==> Kid(x, b).Some?
  {
    hide Solo, KeysOk, Inv, ViewOk, TagOf, Undisturbed, WalkOk, LockingOk;
    SoloFacts(ks, t, n);
    var th := ks.s.threads[t];
    b := 0;
    if Clean(Get(ks.s.nodes, th.spot), th.sv) {
      InvOf(ks);
      ProbeFacts(ks, t);
      Walking(ks.s, t);
      CleanIsLinked(ks.s, t, th.spot, th.sv);
      LeafTag(ks, th.spot);
      SpotPath(ks.tags, th);
      b := SomeChild(ks, th.spot);
    }
  }

  lemma SpotPath(tags: seq<Tag>, th: Local)
    requires Located(tags, th) && th.pc in {ProbeVersion, ProbeReady, ProbeCheck} && th.node < |tags|
    requires th.spot < |tags| && Prefix(tags[th.node].path, tags[th.spot].path)
    ensures tags[th.spot].path != []
  {
  }

  lemma ProbeReadyStep(s: State, t: nat, b: Byte)
    requires t < |s.threads| == |s.lists| && s.threads[t].pc == ProbeReady
    requires var x := Get(s.nodes, s.threads[t].spot); Clean(x, s.threads[t].sv) ==> Kid(x, b).Some?
    ensures var th, e := s.threads[t], EffectOf(s, t, Look(b, Some(0)));
            e == Stay(s, t, th.(pc := ProbeCheck, sb := b, snext := e.local.snext)) && e.local.snext.Some?
  {
  }

  lemma ProbeReadyOn(ks: Keyed, t: nat, n: nat) returns (c: Choice)
    requires Solo(ks, t, n) && ks.s.threads[t].pc == ProbeReady
    ensures Advances(ks, t, n, c) && !c.Insert?
  {
    hide Solo, KeysOk, Inv, Locks, Nearer, EffectOf, NextCall, Kid;
    SoloFacts(ks, t, n);
    var b := ProbeByte(ks, t, n);
    c := Look(b, Some(0));
    ProbeReadyStep(ks.s, t, b);
    var th' := EffectOf(ks.s, t, c).local;
    SameCall(ks, t, c, th');
    OneOn(ks, t, n, ks.s.nodes, th', ks.calls[t]);
  }

  lemma ProbeCheckStep(s: State, t: nat)
    requires t < |s.threads| == |s.lists| && s.threads[t].pc == ProbeCheck
    ensures var th := s.threads[t];
            EffectOf(s, t, Go)
            == Stay(s, t, if !Clean(Get(s.nodes, th.spot), th.sv) then FromRoot(th)
                          else if th.snext.None? then th.At(Ready)
                          else if Get(s.nodes, th.snext.value).leaf then Hold(th.At(Ready), th.snext)
                          else Hold(th.(pc := ProbeVersion, spot := th.snext.value), th.snext))
  {
  }

  lemma ProbeAfter(ks: Keyed, t: nat, th': Local)
    requires t < |ks.s.threads| && t < |ks.calls| && ks.s.threads[t].pc == ProbeCheck && th'.pc != ReadVersion
    ensures var call, call' := ks.calls[t], NextCall(ks, t, Go, NoOp, th');
            && call'.op == call.op && call'.level == call.level
            && (th'.pc == Ready && ks.s.threads[t].snext.Some? ==> call'.kt.Some?)
  {
    hide TagOf;
  }

  /** The next spot is further down, and can be read. */
  lemma NextSpot(ks: Keyed, t: nat, n: nat)
    requires Solo(ks, t, n) && ks.s.threads[t].pc == ProbeCheck && ks.s.threads[t].snext.Some?
    requires var th := ks.s.threads[t];
             Clean(Get(ks.s.nodes, th.spot), th.sv) && !Get(ks.s.nodes, th.snext.value).leaf
    ensures var th := ks.s.threads[t];
            Up(n, ks.tags, th.snext.value) < Up(n, ks.tags, th.spot) && Readable(Get(ks.s.nodes, th.snext.value))
  {
    hide KeysOk, Inv, ViewOk, Undisturbed, WalkOk, LockingOk, Located, OnAWay;
    var th := ks.s.threads[t];
    SoloFacts(ks, t, n);
    InvOf(ks);
    ProbeSpot(ks.s, t);
    ProbeFacts(ks, t);
    LeafTag(ks, th.spot);
    StrictlyBelow(ks, th.spot, th.sb, th.snext.value);
    LeafTag(ks, th.snext.value);
    ShortWay(ks.stored, ks.tags[th.snext.value].path, n);
    Walking(ks.s, t);
    NoLocks(th);
    ChildReadable(ks.s, t, th.spot, th.sv, th.sb);
  }

  lemma ProbeCheckOn(ks: Keyed, t: nat, n: nat)
    requires Solo(ks, t, n) && ks.s.threads[t].pc == ProbeCheck
    ensures Advances(ks, t, n, Go)
  {
    hide Solo, KeysOk, Inv, Locks, Nearer, EffectOf, NextCall;
    SoloFacts(ks, t, n);
    ProbeCheckStep(ks.s, t);
    var th := ks.s.threads[t];
    NoLocks(th);
    if Clean(Get(ks.s.nodes, th.spot), th.sv) {
      var th' := EffectOf(ks.s, t, Go).local;
      ProbeAfter(ks, t, th');
      var call' := NextCall(ks, t, Go, NoOp, th');
      if th.snext.Some? && !Get(ks.s.nodes, th.snext.value).leaf {
        NextSpot(ks, t, n);
      }
      SpotRank(n, ks.tags, ks.s.nodes, th, th', ks.calls[t], call');
      hide Rank, Current;
      OneOn(ks, t, n, ks.s.nodes, th', call');
    } else {
      FromRootOn(ks, t, n);
    }
  }

  lemma SpotRank(n: nat, tags: seq<Tag>, nodes: seq<Node>, th: Local, th': Local, call: Call, call': Call)
    requires th.pc == ProbeCheck && Clean(Get(nodes, th.spot), th.sv)
    requires call'.op == call.op && call'.level == call.level
    requires if th.snext.None? then th' == th.At(Ready)
             else if Get(nodes, th.snext.value).leaf then th' == Hold(th.At(Ready), th.snext) && call'.kt.Some?
             else && th' == Hold(th.(pc := ProbeVersion, spot := th.snext.value), th.snext)
                  && Up(n, tags, th.snext.value) < Up(n, tags, th.spot) && Readable(Get(nodes, th.snext.value))
    ensures Depth(call') <= Depth(call) && Rank(n, tags, th', call') < Rank(n, tags, th, call)
    ensures Current(nodes, th) ==> Current(nodes, th')
  {
    hide Up, Clean;
  }

  // ----- taking locks

  lemma UpgradeParentStep(s: State, t: nat)
    requires t < |s.threads| == |s.lists| && s.threads[t].pc == UpgradeParent && s.threads[t].parent.Some?
    ensures var th, p := s.threads[t], s.threads[t].parent.value;
            EffectOf(s, t, Go)
            == if Clean(Get(s.nodes, p), th.pv) then
                 Stay(s, t, th.At(UpgradeNode)).(nodes := OlcModel.Put(s.nodes, p, Lock(Get(s.nodes, p), t)))
               else Stay(s, t, FromRoot(th))
  {
  }

  /** The parent read is in the tree, and is not its own child. */
  lemma ParentIsOther(ks: Keyed, t: nat, n: nat)
    requires Solo(ks, t, n) && ks.s.threads[t].pc == UpgradeParent
    ensures ks.s.threads[t].parent.Some?
    ensures var th := ks.s.threads[t];
            Clean(Get(ks.s.nodes, th.parent.value), th.pv) ==>
              th.parent.value < |ks.s.nodes| && th.parent.value != th.node
  {
    hide Solo, KeysOk, ViewOk, Undisturbed, ProbeOk, WritingOk, Inv, OnAWay;
    SoloFacts(ks, t, n);
    InvOf(ks);
    Walking(ks.s, t);
    var th := ks.s.threads[t];
    if Clean(Get(ks.s.nodes, th.parent.value), th.pv) {
      CleanIsLinked(ks.s, t, th.parent.value, th.pv);
      LeafTag(ks, th.parent.value);
      StrictlyBelow(ks, th.parent.value, th.pb, th.node);
    }
  }

  lemma UpgradeParentOn(ks: Keyed, t: nat, n: nat)
    requires Solo(ks, t, n) && ks.s.threads[t].pc == UpgradeParent
    ensures Advances(ks, t, n, Go)
  {
    hide Solo, KeysOk, Inv, Locks, Nearer, EffectOf, NextCall;
    SoloFacts(ks, t, n);
    ParentIsOther(ks, t, n);
    UpgradeParentStep(ks.s, t);
    var th := ks.s.threads[t];
    NoLocks(th);
    var e := EffectOf(ks.s, t, Go);
    if Clean(Get(ks.s.nodes, th.parent.value), th.pv) {
      SameCall(ks, t, Go, e.local);
      OneOn(ks, t, n, e.nodes, e.local, ks.calls[t]);
    } else {
      FromRootOn(ks, t, n);
    }
  }

  lemma UpgradeNodeStep(s: State, t: nat)
    requires t < |s.threads| == |s.lists| && s.threads[t].pc == UpgradeNode
    ensures var th, e := s.threads[t], EffectOf(s, t, Go);
            if Clean(Get(s.nodes, th.node), th.v) then e.local.pc == Writing && e.local.at == 0
            else e == Stay(s, t, th.At(ReleaseParent))
  {
  }

  lemma UpgradeNodeOn(ks: Keyed, t: nat, n: nat)
    requires Solo(ks, t, n) && ks.s.threads[t].pc == UpgradeNode
    ensures Advances(ks, t, n, Go)
  {
    hide Solo, KeysOk, Inv, Locks, Nearer, EffectOf, NextCall;
    SoloFacts(ks, t, n);
    UpgradeNodeStep(ks.s, t);
    var e := EffectOf(ks.s, t, Go);
    SameCall(ks, t, Go, e.local);
    OneOn(ks, t, n, e.nodes, e.local, ks.calls[t]);
  }

  lemma ReleaseParentStep(s: State, t: nat)
    requires t < |s.threads| == |s.lists| && s.threads[t].pc == ReleaseParent && s.threads[t].parent.Some?
    ensures var th, p := s.threads[t], s.threads[t].parent.value;
            EffectOf(s, t, Go) == Stay(s, t, FromRoot(th)).(nodes := OlcModel.Put(s.nodes, p, Unlock(Get(s.nodes, p))))
  {
  }

  lemma ReleaseParentOn(ks: Keyed, t: nat, n: nat)
    requires Solo(ks, t, n) && ks.s.threads[t].pc == ReleaseParent
    ensures Advances(ks, t, n, Go)
  {
    hide Solo, KeysOk, Inv, Nearer, EffectOf, NextCall, WalkOk, ProbeOk;
    SoloFacts(ks, t, n);
    Walking(ks.s, t);
    ReleaseParentStep(ks.s, t);
    RootIsHeld(ks.s, t);
    var th, e := ks.s.threads[t], EffectOf(ks.s, t, Go);
    if th.parent.value != 0 {
      OwnLockOnly(ks.s, t, 0);
    }
    BackAtRoot(ks, t, Go);
    OnceMore(ks, t, n, e.nodes, e.local, NextCall(ks, t, Go, NoOp, e.local));
  }

  lemma UpgradeOnlyStep(s: State, t: nat)
    requires t < |s.threads| == |s.lists| && s.threads[t].pc == UpgradeOnly
    ensures var th, e := s.threads[t], EffectOf(s, t, Go);
            if Clean(Get(s.nodes, th.node), th.v) then
              (e.local.pc == Writing && e.local.at == 0) || e.local.pc == ReadLeaf
            else e == Stay(s, t, FromRoot(th))
  {
  }

  lemma UpgradeOnlyOn(ks: Keyed, t: nat, n: nat)
    requires Solo(ks, t, n) && ks.s.threads[t].pc == UpgradeOnly
    ensures Advances(ks, t, n, Go)
  {
    hide Solo, KeysOk, Inv, Locks, Nearer, EffectOf, NextCall;
    SoloFacts(ks, t, n);
    UpgradeOnlyStep(ks.s, t);
    var th, e := ks.s.threads[t], EffectOf(ks.s, t, Go);
    NoLocks(th);
    if Clean(Get(ks.s.nodes, th.node), th.v) {
      SameCall(ks, t, Go, e.local);
      OneOn(ks, t, n, e.nodes, e.local, ks.calls[t]);
    } else {
      FromRootOn(ks, t, n);
    }
  }

  lemma LeafStep(s: State, t: nat)
    requires Inv(s) && t < |s.threads| == |s.lists| && s.threads[t].pc in {ReadLeaf, UpgradeLeaf}
    ensures var th, e := s.threads[t], EffectOf(s, t, Go);
            if th.pc == ReadLeaf then e.local.pc == UpgradeLeaf else e.local.pc == Writing && e.local.at == 0
  {
    hide Inv, WalkOk, ProbeOk;
    LeafUnlocked(s, t);
    Walking(s, t);
  }

  lemma LeafOn(ks: Keyed, t: nat, n: nat)
    requires Solo(ks, t, n) && ks.s.threads[t].pc in {ReadLeaf, UpgradeLeaf}
    ensures Advances(ks, t, n, Go)
  {
    hide Solo, KeysOk, Inv, Nearer, EffectOf, NextCall;
    SoloFacts(ks, t, n);
    LeafStep(ks.s, t);
    var e := EffectOf(ks.s, t, Go);
    SameCall(ks, t, Go, e.local);
    OneOn(ks, t, n, e.nodes, e.local, ks.calls[t]);
  }

  // ----- writing

  lemma WriteAllowed(ks: Keyed, t: nat, c: Choice)
    requires t < |ks.s.threads| == |ks.s.lists| && t < |ks.calls| && ks.s.threads[t].pc == Writing
    requires ks.s.threads[t].at == 0 ==> ks.calls[t].op.Put? && SplitBytes(ks, t, ks.calls[t].op.key, c)
    ensures Allowed(ks, t, c, NoOp)
  {
    hide SplitBytes;
    var th := ks.s.threads[t];
    if th.at < |Program(th.kind)| {
      PosIsPosition(th.kind, Create, th.at);
    }
  }

  lemma WriteLocal(s: State, t: nat, c: Choice)
    requires Inv(s) && t < |s.threads| == |s.lists| && s.threads[t].pc == Writing && !c.Throw?
    requires s.threads[t].at == 0 ==> c.New? && c.b1 != c.b2
    ensures var th, e := s.threads[t], EffectOf(s, t, c);
            th.at <= 6 && (e.local.pc == Leave || (e.local.pc == Writing && e.local.at == th.at + 1))
  {
    hide Inv, HeldOk, MadeOk, EffectOf;
    WritesOf(s, t);
    ActEffect(s, t, c);
    var th := s.threads[t];
    if th.at < |Program(th.kind)| {
      PosIsPosition(th.kind, Create, th.at);
    }
  }

  lemma WritingOn(ks: Keyed, t: nat, n: nat) returns (c: Choice)
    requires Solo(ks, t, n) && ks.s.threads[t].pc == Writing
    ensures Advances(ks, t, n, c) && !c.Insert?
  {
    hide Solo, KeysOk, Inv, Nearer, EffectOf, NextCall, SplitBytes;
    SoloFacts(ks, t, n);
    c := Go;
    if ks.s.threads[t].at == 0 {
      c := SplitGoesOn(ks, t);
    }
    WriteAllowed(ks, t, c);
    WriteLocal(ks.s, t, c);
    var e := EffectOf(ks.s, t, c);
    WritingCall(ks, t, c, NoOp, e.local);
    if e.local.pc == Leave {
      HasLeft(ks, t, n, e.nodes, e.local, ks.calls[t]);
    } else {
      OneOn(ks, t, n, e.nodes, e.local, ks.calls[t]);
    }
  }

  // ----- any step

  /** Alone, an operation has a step that brings it nearer to its end; a full node grows, unless it is the root. */
  lemma StepOn(ks: Keyed, t: nat, n: nat, full: nat -> bool) returns (c: Choice)
    requires Solo(ks, t, n) && ks.s.threads[t].pc != Leave
    ensures Advances(ks, t, n, c)
    ensures c.Insert? ==> c.grow == (full(ks.s.threads[t].node) && ks.s.threads[t].parent.Some?)
  {
    hide Solo, Advances, Inv;
    SoloFacts(ks, t, n);
    NeverStuck(ks.s, t);
    c := Go;
    match ks.s.threads[t].pc {
      case ReadVersion => ReadVersionOn(ks, t, n);
      case Ready => c := ReadyOn(ks, t, n);
      case CheckNode => CheckNodeOn(ks, t, n);
      case Decided => c := DecidedOn(ks, t, n, full);
      case ProbeVersion => ProbeVersionOn(ks, t, n);
      case ProbeReady => c := ProbeReadyOn(ks, t, n);
      case ProbeCheck => ProbeCheckOn(ks, t, n);
      case UpgradeParent => UpgradeParentOn(ks, t, n);
      case UpgradeNode => UpgradeNodeOn(ks, t, n);
      case ReleaseParent => ReleaseParentOn(ks, t, n);
      case UpgradeOnly => UpgradeOnlyOn(ks, t, n);
      case ReadLeaf => LeafOn(ks, t, n);
      case UpgradeLeaf => LeafOn(ks, t, n);
      case Writing => c := WritingOn(ks, t, n);
      case _ =>
    }
  }

  // ----- what a step leaves

  lemma WalkLocks(s: State, t: nat, c: Choice)
    requires t < |s.threads| == |s.lists| && Undisturbed(s.nodes, t)
    ensures Undisturbed(WalkStep(s, t, c).nodes, t)
  {
  }

  lemma LockLocks(s: State, t: nat)
    requires t < |s.threads| == |s.lists| && Undisturbed(s.nodes, t)
    ensures Undisturbed(LockStep(s, t).nodes, t)
  {
  }

  lemma WriteLocks(s: State, t: nat, c: Choice)
    requires t < |s.threads| == |s.lists| && Undisturbed(s.nodes, t) && !c.Throw?
    ensures Undisturbed(WriteStep(s, t, c).nodes, t)
  {
    hide Program;
  }

  /** A step that does not throw locks and unlocks for its own thread only, and no operation changes an epoch. */
  lemma OwnLocks(s: State, t: nat, c: Choice)
    requires t < |s.threads| == |s.lists| && Undisturbed(s.nodes, t) && !c.Throw?
    requires Busy(s.threads[t].pc) && s.threads[t].pc != Leave
    ensures Undisturbed(EffectOf(s, t, c).nodes, t)
  {
    hide WalkStep, LockStep, WriteStep, EpochStep, Undisturbed;
    WalkLocks(s, t, c);
    LockLocks(s, t);
    WriteLocks(s, t, c);
  }

  ghost predicate SameEpochs(s: State, t: nat, e: Effect)
    requires t < |s.threads|
  {
    e.epoch == s.epoch && e.local.localEpoch == s.threads[t].localEpoch
  }

  lemma WalkEpochs(s: State, t: nat, c: Choice)
    requires t < |s.threads| == |s.lists|
    ensures SameEpochs(s, t, WalkStep(s, t, c))
  {
  }

  lemma LockEpochs(s: State, t: nat)
    requires t < |s.threads| == |s.lists|
    ensures SameEpochs(s, t, LockStep(s, t))
  {
  }

  lemma WriteEpochs(s: State, t: nat, c: Choice)
    requires t < |s.threads| == |s.lists|
    ensures SameEpochs(s, t, WriteStep(s, t, c))
  {
    hide Program;
  }

  lemma OwnEpochs(s: State, t: nat, c: Choice)
    requires t < |s.threads| == |s.lists| && Busy(s.threads[t].pc) && s.threads[t].pc != Leave
    ensures SameEpochs(s, t, EffectOf(s, t, c))
  {
    hide WalkStep, LockStep, WriteStep, EpochStep, SameEpochs;
    WalkEpochs(s, t, c);
    LockEpochs(s, t);
    WriteEpochs(s, t, c);
  }

  // ----- where threads are

  lemma ProbeBelowRoot(x: Tag, kt: Option<Key>, k: Key, level: nat)
    requires PutChoice(x, kt, k, level, Probe)
    ensures x.path != []
  {
    hide Differs;
  }

  lemma ReadyLocated(ks: Keyed, t: nat, c: Choice, op: Op)
    requires Allowed(ks, t, c, op) && Located(ks.tags, ks.s.threads[t]) && ks.s.threads[t].pc == Ready
    ensures Located(ks.tags, WalkStep(ks.s, t, c).local)
  {
    hide Fails, PutChoice;
    if c.Probe? {
      ProbeBelowRoot(TagOf(ks.tags, ks.s.threads[t].node), ks.calls[t].kt, ks.calls[t].op.key, ks.calls[t].level);
    }
  }

  lemma WalkLocated(ks: Keyed, t: nat, c: Choice, op: Op)
    requires Allowed(ks, t, c, op) && Located(ks.tags, ks.s.threads[t]) && AtNode(ks.s.threads[t].pc)
    ensures Located(ks.tags, WalkStep(ks.s, t, c).local)
  {
    hide LookupChoice, PutChoice, SplitBytes;
    if ks.s.threads[t].pc == Ready {
      ReadyLocated(ks, t, c, op);
    }
  }

  lemma LockLocated(ks: Keyed, t: nat)
    requires t < |ks.s.threads| == |ks.s.lists| && Located(ks.tags, ks.s.threads[t]) && AtNode(ks.s.threads[t].pc)
    ensures Located(ks.tags, LockStep(ks.s, t).local)
  {
  }

  lemma WriteLocated(s: State, tags: seq<Tag>, t: nat, c: Choice)
    requires t < |s.threads| == |s.lists| && s.threads[t].pc == Writing
    ensures Located(tags, WriteStep(s, t, c).local)
  {
    hide Program;
  }

  lemma EpochLocated(s: State, tags: seq<Tag>, t: nat, c: Choice)
    requires t < |s.threads| == |s.lists| && (!InOp(s.threads[t].pc) || s.threads[t].pc in {Leave, Failed})
    ensures Located(tags, EpochStep(s, t, c).local)
  {
  }

  lemma OwnLocated(ks: Keyed, t: nat, c: Choice, op: Op)
    requires Allowed(ks, t, c, op) && Located(ks.tags, ks.s.threads[t])
    ensures Located(ks.tags, EffectOf(ks.s, t, c).local)
  {
    hide WalkStep, LockStep, WriteStep, EpochStep, Located;
    AllowedThread(ks, t, c, op);
    if AtNode(ks.s.threads[t].pc) {
      WalkLocated(ks, t, c, op);
      LockLocated(ks, t);
    } else if ks.s.threads[t].pc == Writing {
      WriteLocated(ks.s, ks.tags, t, c);
    } else {
      EpochLocated(ks.s, ks.tags, t, c);
    }
  }

  lemma LocatedGrows(tags: seq<Tag>, more: seq<Tag>, th: Local)
    requires Located(tags, th)
    requires th.pc in {ProbeVersion, ProbeReady, ProbeCheck} ==> th.node < |tags|
    ensures Located(tags + more, th)
  {
  }

  lemma LocatedNext(ks: Keyed, t: nat, c: Choice, op: Op, u: nat)
    requires KeysOk(ks) && Allowed(ks, t, c, op) && u < |ks.s.threads| && Located(ks.tags, ks.s.threads[u])
    ensures u < |NextKeyed(ks, t, c, op).s.threads|
    ensures Located(NextKeyed(ks, t, c, op).tags, NextKeyed(ks, t, c, op).s.threads[u])
  {
    hide KeysOk, Allowed, NextKeyed, Located, EffectOf, NextCall, NewTags, NextView, Stores;
    AllowedThread(ks, t, c, op);
    InvOf(ks);
    StepAfter(ks, t, c, op);
    KeyFields(ks, t, c, op);
    if u == t {
      OwnLocated(ks, t, c, op);
      GrowLocated(ks, t, c, op);
    } else {
      if ks.s.threads[u].pc in {ProbeVersion, ProbeReady, ProbeCheck} {
        ProbeFacts(ks, u);
      }
      OtherThread(ks.s, t, c, u);
      LocatedGrows(ks.tags, NextKeyed(ks, t, c, op).tags[|ks.tags|..], ks.s.threads[u]);
    }
  }

  lemma OtherThread(s: State, t: nat, c: Choice, u: nat)
    requires t < |s.threads| == |s.lists| && u < |s.threads| && u != t
    ensures u < |Step(s, t, c).threads| && Step(s, t, c).threads[u] == s.threads[u]
  {
    hide EffectOf;
  }

  /** Tags are added only by writing, which is not at a node. */
  lemma GrowLocated(ks: Keyed, t: nat, c: Choice, op: Op)
    requires KeysOk(ks) && Allowed(ks, t, c, op) && t < |ks.s.threads| == |ks.s.lists| && t < |ks.calls|
    requires Located(ks.tags, EffectOf(ks.s, t, c).local)
    ensures Located(NextKeyed(ks, t, c, op).tags, EffectOf(ks.s, t, c).local)
  {
    hide KeysOk, Allowed, NextKeyed, EffectOf, Located, WriteStep;
    if ks.s.threads[t].pc != Writing {
      QuietKeys(ks, t, c, op);
    } else {
      EffectOfWriting(ks.s, t, c);
      WriteLocated(ks.s, NextKeyed(ks, t, c, op).tags, t, c);
    }
  }

  lemma EffectOfWriting(s: State, t: nat, c: Choice)
    requires t < |s.threads| == |s.lists| && s.threads[t].pc == Writing
    ensures EffectOf(s, t, c) == WriteStep(s, t, c)
  {
    hide WriteStep;
  }

  lemma {:induction false} LocatedReachable(states: seq<Keyed>, moves: seq<KeyedMove>, i: nat, t: nat)
    requires KeyedRun(states, moves) && i < |states| && t < |states[i].s.threads|
    ensures Located(states[i].tags, states[i].s.threads[t])
  {
    hide KeysOk, NextKeyed, Allowed, Located;
    if i == 0 {
      NotInside(states[0], t);
    } else {
      StepOf(states, moves, i - 1);
      var m := moves[i - 1];
      StepAfter(states[i - 1], m.t, m.c, m.op);
      InvOf(states[i]);
      LocatedReachable(states, moves, i - 1, t);
      LocatedNext(states[i - 1], m.t, m.c, m.op, t);
    }
  }

  lemma NotInside(ks: Keyed, t: nat)
    requires InitialKeyed(ks) && t < |ks.s.threads|
    ensures Located(ks.tags, ks.s.threads[t])
  {
  }

  // ----- to the end

  ghost function Left(ks: Keyed, t: nat, n: nat): nat
    requires t < |ks.s.threads| && t < |ks.calls|
  {
    StepsLeft(n, ks.tags, ks.s.nodes, ks.s.threads[t], ks.calls[t])
  }

  /** Only looking for a leaf depends on the tags. */
  lemma SameRank(n: nat, tags: seq<Tag>, tags': seq<Tag>, nodes: seq<Node>, th: Local, call: Call)
    requires th.pc == Writing
    ensures StepsLeft(n, tags, nodes, th, call) == StepsLeft(n, tags', nodes, th, call)
  {
  }

  lemma SoloNext(ks: Keyed, t: nat, n: nat, c: Choice)
    requires Solo(ks, t, n) && ks.s.threads[t].pc != Leave && Advances(ks, t, n, c)
    ensures var ks' := NextKeyed(ks, t, c, NoOp);
            && Solo(ks', t, n) && ks'.calls[t].op == ks.calls[t].op
            && (ks'.s.threads[t].pc == Leave || Left(ks', t, n) < Left(ks, t, n))
            && ks'.s.epoch == ks.s.epoch && ks'.s.threads[t].localEpoch == ks.s.threads[t].localEpoch
  {
    hide KeysOk, Inv, Allowed, NextKeyed, NextCall, EffectOf, Undisturbed, Located, StepsLeft, NewTags, NextView,
         Stores;
    SoloFacts(ks, t, n);
    KeysKept(ks, t, c, NoOp);
    StepAfter(ks, t, c, NoOp);
    KeyFields(ks, t, c, NoOp);
    OwnLocks(ks.s, t, c);
    OwnEpochs(ks.s, t, c);
    LocatedNext(ks, t, c, NoOp, t);
    var ks', e := NextKeyed(ks, t, c, NoOp), EffectOf(ks.s, t, c);
    SameOp(ks, t, c, NoOp, e.local);
    NotOutside(ks', t);
    if ks.s.threads[t].pc != Writing {
      QuietKeys(ks, t, c, NoOp);
    } else if e.local.pc == Writing {
      SameRank(n, ks.tags, ks'.tags, e.nodes, e.local, ks'.calls[t]);
    } else {
      AfterWriting(ks, t, n, c);
    }
    StepEpoch(ks.s, t, c);
  }

  lemma StepEpoch(s: State, t: nat, c: Choice)
    requires t < |s.threads| == |s.lists|
    ensures Step(s, t, c).epoch == EffectOf(s, t, c).epoch
  {
    hide EffectOf;
  }

  lemma AfterWriting(ks: Keyed, t: nat, n: nat, c: Choice)
    requires Solo(ks, t, n) && ks.s.threads[t].pc == Writing && t < |ks.s.threads| == |ks.s.lists| && !c.Throw?
    requires Allowed(ks, t, c, NoOp)
    ensures EffectOf(ks.s, t, c).local.pc in {Writing, Leave}
  {
    hide Solo, EffectOf, KeysOk, Allowed;
    ActEffect(ks.s, t, c);
  }

  lemma OneFurther(states: seq<Keyed>, moves: seq<KeyedMove>, m: KeyedMove)
    requires KeyedRun(states, moves) && Allowed(states[|moves|], m.t, m.c, m.op)
    ensures KeyedRun(states + [NextKeyed(states[|moves|], m.t, m.c, m.op)], moves + [m])
  {
    hide Allowed, NextKeyed, InitialKeyed;
  }

  /** The moves from position i on are steps of thread t alone; it neither starts again nor throws by choice. */
  ghost predicate Alone(states: seq<Keyed>, moves: seq<KeyedMove>, i: nat, t: nat, full: nat -> bool) {
    && |states| == |moves| + 1
    && forall j | i <= j < |moves| ::
         && moves[j].t == t && moves[j].c != Restart && !moves[j].c.Throw?
         && (moves[j].c.Insert? && t < |states[j].s.threads| ==>
               var th := states[j].s.threads[t]; moves[j].c.grow == (full(th.node) && th.parent.Some?))
  }

  /** All along from position i thread t is in the same operation, and no epoch moves. */
  ghost predicate SameOperation(states: seq<Keyed>, i: nat, t: nat, op: Op, epoch: nat, announced: nat) {
    forall j | i <= j < |states| ::
      && t < |states[j].calls| && t < |states[j].s.threads| && states[j].calls[t].op == op
      && states[j].s.epoch == epoch && states[j].s.threads[t].localEpoch == announced
  }

  // ----- to the end

  lemma AdvanceMeans(ks: Keyed, t: nat, n: nat, c: Choice)
    requires Advances(ks, t, n, c)
    ensures Allowed(ks, t, c, NoOp) && c != Restart && !c.Throw?
  {
    hide Allowed, Nearer, EffectOf, NextCall;
  }

  /** Where one stretch of steps begins with a step of its own. */
  lemma AloneFrom(states: seq<Keyed>, moves: seq<KeyedMove>, i: nat, t: nat, full: nat -> bool)
    requires i < |moves| && Alone(states, moves, i + 1, t, full)
    requires moves[i].t == t && moves[i].c != Restart && !moves[i].c.Throw?
    requires moves[i].c.Insert? && t < |states[i].s.threads| ==>
               var th := states[i].s.threads[t]; moves[i].c.grow == (full(th.node) && th.parent.Some?)
    ensures Alone(states, moves, i, t, full)
  {
  }

  lemma SameFrom(states: seq<Keyed>, i: nat, t: nat, op: Op, epoch: nat, announced: nat)
    requires i < |states| && SameOperation(states, i + 1, t, op, epoch, announced)
    requires t < |states[i].calls| && t < |states[i].s.threads| && states[i].calls[t].op == op
    requires states[i].s.epoch == epoch && states[i].s.threads[t].localEpoch == announced
    ensures SameOperation(states, i, t, op, epoch, announced)
  {
  }

  lemma {:induction false} GoesToEnd(states: seq<Keyed>, moves: seq<KeyedMove>, t: nat, n: nat, full: nat -> bool)
    returns (states': seq<Keyed>, moves': seq<KeyedMove>)
    requires KeyedRun(states, moves) && Solo(states[|moves|], t, n)
    ensures KeyedRun(states', moves') && states <= states' && moves <= moves' && |states'| == |moves'| + 1
    ensures |moves'| <= |moves| + Left(states[|moves|], t, n) + 1
    ensures Alone(states', moves', |moves|, t, full)
    ensures var ks := states[|moves|];
            SameOperation(states', |moves|, t, ks.calls[t].op, ks.s.epoch, ks.s.threads[t].localEpoch)
    ensures states'[|moves'|].s.threads[t].pc == Leave
    decreases Left(states[|moves|], t, n)
  {
    hide Solo, KeysOk, NextKeyed, Allowed, Advances, InitialKeyed, Inv, StepsLeft, Alone, SameOperation, Busy;
    var ks := states[|moves|];
    SoloFacts(ks, t, n);
    states', moves' := states, moves;
    if ks.s.threads[t].pc == Leave {
      Still(states, moves, t, full);
    } else {
      var c := StepOn(ks, t, n, full);
      AdvanceMeans(ks, t, n, c);
      SoloNext(ks, t, n, c);
      var ks', m := NextKeyed(ks, t, c, NoOp), KeyedMove(t, c, NoOp);
      SoloFacts(ks', t, n);
      OneFurther(states, moves, m);
      var ss, ms := states + [ks'], moves + [m];
      states', moves' := ss, ms;
      if ks'.s.threads[t].pc == Leave {
        Still(ss, ms, t, full);
      } else {
        states', moves' := GoesToEnd(ss, ms, t, n, full);
      }
      Kept(ss, ms, states', moves');
      AloneFrom(states', moves', |moves|, t, full);
      SameFrom(states', |moves|, t, ks.calls[t].op, ks.s.epoch, ks.s.threads[t].localEpoch);
    }
  }

  lemma Still(states: seq<Keyed>, moves: seq<KeyedMove>, t: nat, full: nat -> bool)
    requires |states| == |moves| + 1 && t < |states[|moves|].calls| && t < |states[|moves|].s.threads|
    ensures Alone(states, moves, |moves|, t, full)
    ensures var ks := states[|moves|];
            SameOperation(states, |moves|, t, ks.calls[t].op, ks.s.epoch, ks.s.threads[t].localEpoch)
  {
  }

  lemma Kept(states: seq<Keyed>, moves: seq<KeyedMove>, states': seq<Keyed>, moves': seq<KeyedMove>)
    requires states <= states' && moves <= moves' && |states| == |moves| + 1 >= 2
    ensures |moves'| >= |moves| && |states'| >= |states| && moves'[|moves| - 1] == moves[|moves| - 1]
    ensures states'[|moves|] == states[|moves|] && states'[|moves| - 1] == states[|moves| - 1]
    ensures states[..|moves|] <= states' && moves[..|moves| - 1] <= moves'
  {
  }

  // ----- whole operations

  /** The steps an operation needs at most; n bounds the lengths of its key and of the stored ones. */
  function MostSteps(n: nat): nat {
    2 * (n + 2) * (3 * n + 20)
  }

  lemma AtMost(ks: Keyed, t: nat, n: nat)
    requires t < |ks.s.threads| && t < |ks.calls| && ks.calls[t].op != NoOp && |ks.calls[t].op.key| <= n
    ensures Left(ks, t, n) < MostSteps(n)
  {
    hide Budget, Current;
    WithinBudget(n, ks.tags, ks.s.threads[t], ks.calls[t]);
    assert MostSteps(n) == (n + 2) * PerLevel(n) + (n + 2) * PerLevel(n);
  }

  /** No key is longer than n. */
  ghost predicate Short(stored: map<Key, Tid>, k: Key, n: nat) {
    |k| <= n && forall q | q in stored :: |q| <= n
  }

  /**
   * An operation left alone ends, from wherever it stands and however much of what it has read is out of date, within a
   * number of steps that depends on the length of the keys only.
   */
  lemma OperationEnds(states: seq<Keyed>, moves: seq<KeyedMove>, t: nat, n: nat, full: nat -> bool)
    returns (states': seq<Keyed>, moves': seq<KeyedMove>)
    requires KeyedRun(states, moves) && t < |states[|moves|].s.threads| && t < |states[|moves|].calls|
    requires Busy(states[|moves|].s.threads[t].pc) && Undisturbed(states[|moves|].s.nodes, t)
    requires var ks := states[|moves|]; ks.calls[t].op != NoOp && Short(ks.stored, ks.calls[t].op.key, n)
    ensures KeyedRun(states', moves') && states <= states' && moves <= moves' && |states'| == |moves'| + 1
    ensures |moves'| <= |moves| + MostSteps(n) && Alone(states', moves', |moves|, t, full)
    ensures t < |states'[|moves'|].s.threads| && states'[|moves'|].s.threads[t].pc == Leave
    ensures var ks := states[|moves|];
            SameOperation(states', |moves|, t, ks.calls[t].op, ks.s.epoch, ks.s.threads[t].localEpoch)
  {
    hide KeyedRun, KeysOk, Alone, SameOperation, Undisturbed, Located, Busy;
    KeepsRunning(states, moves);
    KeyedReachable(states, moves, |moves|);
    LocatedReachable(states, moves, |moves|, t);
    AtMost(states[|moves|], t, n);
    hide Left, MostSteps;
    states', moves' := GoesToEnd(states, moves, t, n, full);
    LastThread(states', |moves|, t, states[|moves|]);
  }

  lemma LastThread(states: seq<Keyed>, i: nat, t: nat, ks: Keyed)
    requires t < |ks.s.threads| && t < |ks.calls| && i < |states|
    requires SameOperation(states, i, t, ks.calls[t].op, ks.s.epoch, ks.s.threads[t].localEpoch)
    ensures t < |states[|states| - 1].s.threads|
  {
  }

  lemma OutsideSteps(ks: Keyed, t: nat, op: Op)
    requires t < |ks.s.threads| == |ks.s.lists| && t < |ks.calls| && ks.s.threads[t].pc == Outside
    ensures var th, ks' := ks.s.threads[t], NextKeyed(ks, t, Go, op);
            && t < |ks'.s.threads| == |ks'.s.lists| && t < |ks'.calls|
            && ks'.s.threads[t] == th.(pc := StoreEpoch, loaded := ks.s.epoch)
            && ks'.s.nodes == ks.s.nodes && ks'.s.epoch == ks.s.epoch && ks'.stored == ks.stored
            && ks'.calls[t].op == op
  {
    hide NewTags, NextView;
  }

  lemma EnterSteps(ks: Keyed, t: nat)
    requires t < |ks.s.threads| == |ks.s.lists| && t < |ks.calls| && ks.s.threads[t].pc == StoreEpoch
    ensures Allowed(ks, t, Go, NoOp)
    ensures var th, ks' := ks.s.threads[t], NextKeyed(ks, t, Go, NoOp);
            && t < |ks'.s.threads| == |ks'.s.lists| && t < |ks'.calls|
            && ks'.s.threads[t].pc == ReadVersion && ks'.s.threads[t].localEpoch == th.loaded
            && ks'.s.nodes == ks.s.nodes && ks'.s.epoch == ks.s.epoch && ks'.stored == ks.stored
            && ks'.calls[t].op == ks.calls[t].op
  {
    hide NewTags, NextView;
  }

  lemma BeginAllowed(ks: Keyed, t: nat, op: Op)
    requires KeysOk(ks) && t < |ks.calls| && t < |ks.s.threads| && ks.s.threads[t].pc == Outside && MayBegin(ks, t, op)
    ensures Allowed(ks, t, Go, op)
  {
    hide KeysOk, MayBegin;
    InvOf(ks);
    InvLists(ks.s);
  }

  /** The thread begins an operation, and announces the current epoch. */
  lemma BeginsAlone(states: seq<Keyed>, moves: seq<KeyedMove>, t: nat, op: Op)
    returns (states': seq<Keyed>, moves': seq<KeyedMove>)
    requires KeyedRun(states, moves) && t < |states[|moves|].s.threads| && t < |states[|moves|].calls|
    requires states[|moves|].s.threads[t].pc == Outside && MayBegin(states[|moves|], t, op)
    ensures KeyedRun(states', moves') && states <= states' && |states'| == |states| + 2
    ensures moves' == moves + [KeyedMove(t, Go, op), KeyedMove(t, Go, NoOp)]
    ensures var ks, ks1, ks2 := states[|moves|], states'[|moves| + 1], states'[|moves| + 2];
            && t < |ks1.s.threads| && t < |ks1.calls| && t < |ks2.s.threads| && t < |ks2.calls|
            && ks1.calls[t].op == op == ks2.calls[t].op && ks2.s.nodes == ks.s.nodes && ks2.stored == ks.stored
            && ks1.stored == ks.stored && ks2.s.threads[t].pc == ReadVersion
            && ks2.s.epoch == ks.s.epoch == ks2.s.threads[t].localEpoch
  {
    hide KeysOk, NextKeyed, Allowed, InitialKeyed, MayBegin;
    var ks := states[|moves|];
    KeyedReachable(states, moves, |moves|);
    BeginAllowed(ks, t, op);
    AllowedThread(ks, t, Go, op);
    OutsideSteps(ks, t, op);
    var ks1 := NextKeyed(ks, t, Go, op);
    OneFurther(states, moves, KeyedMove(t, Go, op));
    EnterSteps(ks1, t);
    var ks2 := NextKeyed(ks1, t, Go, NoOp);
    OneFurther(states + [ks1], moves + [KeyedMove(t, Go, op)], KeyedMove(t, Go, NoOp));
    states', moves' := states + [ks1] + [ks2], moves + [KeyedMove(t, Go, op)] + [KeyedMove(t, Go, NoOp)];
  }

  /** A thread begins an operation and goes to its end, alone. */
  lemma RunsAlone(states: seq<Keyed>, moves: seq<KeyedMove>, t: nat, op: Op, n: nat, full: nat -> bool)
    returns (states': seq<Keyed>, moves': seq<KeyedMove>)
    requires KeyedRun(states, moves) && t < |states[|moves|].s.threads| && t < |states[|moves|].calls|
    requires states[|moves|].s.threads[t].pc == Outside && MayBegin(states[|moves|], t, op)
    requires Undisturbed(states[|moves|].s.nodes, t) && Short(states[|moves|].stored, op.key, n)
    ensures KeyedRun(states', moves') && states <= states' && moves <= moves' && |states'| == |moves'| + 1
    ensures |moves| < |moves'| <= |moves| + 2 + MostSteps(n) && Alone(states', moves', |moves|, t, full)
    ensures moves'[|moves|].op == op && OneCall(states', moves', t, |moves|, |moves'|)
    ensures var last := states'[|moves'|];
            t < |last.s.threads| && last.s.threads[t].pc == Leave && last.s.threads[t].localEpoch == last.s.epoch
  {
    hide KeyedRun, KeysOk, Alone, SameOperation, Undisturbed, MayBegin, MostSteps, Short;
    KeepsRunning(states, moves);
    NotNoOp(states[|moves|], t, op);
    var ss, ms := BeginsAlone(states, moves, t, op);
    assert ss[|ms|] == ss[|moves| + 2];
    KeepsRunning(ss, ms);
    states', moves' := OperationEnds(ss, ms, t, n, full);
    TwoMore(states, moves, ss, ms, states', moves', t, op, full);
  }

  lemma NotNoOp(ks: Keyed, t: nat, op: Op)
    requires MayBegin(ks, t, op)
    ensures op != NoOp
  {
  }

  lemma KeepsRunning(states: seq<Keyed>, moves: seq<KeyedMove>)
    requires KeyedRun(states, moves)
    ensures |states| == |moves| + 1
  {
  }

  lemma TwoMore(states: seq<Keyed>, moves: seq<KeyedMove>, ss: seq<Keyed>, ms: seq<KeyedMove>, states': seq<Keyed>,
                moves': seq<KeyedMove>, t: nat, op: Op, full: nat -> bool)
    requires |states| == |moves| + 1 && states <= ss <= states' && |ss| == |states| + 2 && |states'| == |moves'| + 1
    requires op != NoOp && ms == moves + [KeyedMove(t, Go, op), KeyedMove(t, Go, NoOp)] && ms <= moves'
    requires t < |states[|moves|].s.threads| && states[|moves|].s.threads[t].pc == Outside
    requires t < |ss[|moves| + 1].calls| && ss[|moves| + 1].calls[t].op == op
    requires Alone(states', moves', |ms|, t, full)
    requires var ks := ss[|ms|];
             && t < |ks.s.threads| && t < |ks.calls| && ks.calls[t].op == op
             && ks.s.threads[t].localEpoch == ks.s.epoch
             && SameOperation(states', |ms|, t, op, ks.s.epoch, ks.s.threads[t].localEpoch)
    ensures Alone(states', moves', |moves|, t, full) && OneCall(states', moves', t, |moves|, |moves'|)
    ensures moves'[|moves|].op == op && moves <= moves' && states <= states'
    ensures var last := states'[|moves'|]; t < |last.s.threads| && last.s.threads[t].localEpoch == last.s.epoch
  {
    assert moves'[|moves|] == ms[|moves|] && moves'[|moves| + 1] == ms[|moves| + 1];
    AloneFrom(states', moves', |moves| + 1, t, full);
    AloneFrom(states', moves', |moves|, t, full);
    assert states'[|moves|] == states[|moves|] && states'[|moves| + 1] == ss[|moves| + 1];
  }

  // ----- what they do

  lemma {:induction false} Constant(states: seq<Keyed>, i: nat, j: nat)
    requires i <= j < |states| && forall m | i <= m < j :: states[m + 1].stored == states[m].stored
    ensures states[j].stored == states[i].stored
    decreases j
  {
    if i < j {
      Constant(states, i, j - 1);
    }
  }

  lemma LooksOnly(states: seq<Keyed>, moves: seq<KeyedMove>, t: nat, i: nat, m: nat, full: nat -> bool)
    requires KeyedRun(states, moves) && OneCall(states, moves, t, i, |moves|) && i <= m < |moves|
    requires moves[i].op.Lookup? && Alone(states, moves, i, t, full)
    ensures states[m + 1].stored == states[m].stored
  {
    hide KeysOk, NextKeyed, Allowed, Stores;
    StoredChanges(states, moves, m);
    StoringPuts(states[m], t);
    if m == i {
      if Stores(states[i], t) {
        StoresWriting(states[i], t);
      }
    } else {
      CallSoFar(states, moves, t, i, m);
    }
  }

  /**
   * A lookup that runs alone ends, and its answer is the value stored under its key when it began; it announces the
   * current epoch and stores nothing.
   */
  lemma LookupAlone(states: seq<Keyed>, moves: seq<KeyedMove>, t: nat, k: Key, n: nat, full: nat -> bool)
    returns (states': seq<Keyed>, moves': seq<KeyedMove>)
    requires KeyedRun(states, moves) && t < |states[|moves|].s.threads| && t < |states[|moves|].calls|
    requires states[|moves|].s.threads[t].pc == Outside && MayBegin(states[|moves|], t, Lookup(k))
    requires Undisturbed(states[|moves|].s.nodes, t) && Short(states[|moves|].stored, k, n)
    ensures KeyedRun(states', moves') && states <= states' && moves <= moves' && |states'| == |moves'| + 1
    ensures |moves| < |moves'| <= |moves| + 2 + MostSteps(n) && Alone(states', moves', |moves|, t, full)
    ensures moves'[|moves|].op == Lookup(k)
    ensures var stored, last := states[|moves|].stored, states'[|moves'|];
            && t < |last.s.threads| && last.s.threads[t].pc == Leave && t < |last.calls|
            && last.calls[t].answer == Some(if k in stored then stored[k] else 0) && last.stored == stored
            && last.s.threads[t].localEpoch == last.s.epoch
  {
    hide KeyedRun, KeysOk, Alone, Undisturbed, MayBegin, MostSteps, Short, OneCall;
    KeepsRunning(states, moves);
    states', moves' := RunsAlone(states, moves, t, Lookup(k), n, full);
    var i := |moves|;
    assert states'[i] == states[i];
    forall m | i <= m < |moves'| ensures states'[m + 1].stored == states'[m].stored {
      LooksOnly(states', moves', t, i, m, full);
    }
    var m := LookupLinearises(states', moves', t, i, |moves'|);
    Constant(states', i, m);
    Constant(states', i, |moves'|);
  }

  /** An insert that runs alone ends, and has stored its key with its value, and nothing else. */
  lemma InsertAlone(states: seq<Keyed>, moves: seq<KeyedMove>, t: nat, k: Key, tid: Tid, n: nat, full: nat -> bool)
    returns (states': seq<Keyed>, moves': seq<KeyedMove>)
    requires KeyedRun(states, moves) && t < |states[|moves|].s.threads| && t < |states[|moves|].calls|
    requires states[|moves|].s.threads[t].pc == Outside && MayBegin(states[|moves|], t, Op.Put(k, tid))
    requires Undisturbed(states[|moves|].s.nodes, t) && Short(states[|moves|].stored, k, n)
    ensures KeyedRun(states', moves') && states <= states' && moves <= moves' && |states'| == |moves'| + 1
    ensures |moves| < |moves'| <= |moves| + 2 + MostSteps(n) && Alone(states', moves', |moves|, t, full)
    ensures moves'[|moves|].op == Op.Put(k, tid)
    ensures var stored, last := states[|moves|].stored, states'[|moves'|];
            && t < |last.s.threads| && last.s.threads[t].pc == Leave
            && k !in stored && last.stored == stored[k := tid] && last.s.threads[t].localEpoch == last.s.epoch
  {
    hide KeyedRun, KeysOk, Undisturbed, MayBegin, MostSteps, Short, OneCall;
    KeepsRunning(states, moves);
    states', moves' := RunsAlone(states, moves, t, Op.Put(k, tid), n, full);
    var i := |moves|;
    assert states'[i] == states[i];
    var m := InsertLinearises(states', moves', t, i, |moves'|);
    Constant(states', i, m);
    Constant(states', m + 1, |moves'|);
  }
}
