/**
 * What concurrent lookups and inserts promise: each takes effect on the map of stored keys at one moment between its
 * beginning and its end.
 */
module OlcLinear {
  import opened Wrappers
  import opened Bytes
  import opened OlcModel
  import opened OlcInvariant
  import opened OlcWrites
  import opened OlcKeys
  import opened OlcView
  import opened OlcKeyed
  import opened OlcKeyedSteps
  import Shape = ArtShape

  // ----- every reachable state

  lemma InitialKeys(ks: Keyed)
    requires InitialKeyed(ks) && Shape.PrefixFree(ks.universe)
    ensures KeysOk(ks)
  {
    InitialOk(ks.s);
    InitialView(ks);
    hide Inv, ViewOk;
  }

  lemma InitialView(ks: Keyed)
    requires InitialKeyed(ks)
    ensures ViewOk(ks.s.nodes, ks.tags, ks.stored, ks.view)
  {
    assert forall p :: !Shape.Branch({}, p);
    assert Shape.ShapeOk({}, {[]}, map[]);
    assert ks.stored.Keys == {} && ks.view.inner.Keys == {[]};
  }

  lemma {:induction false} KeyedReachable(states: seq<Keyed>, moves: seq<KeyedMove>, i: nat)
    requires KeyedRun(states, moves) && i < |states|
    ensures KeysOk(states[i]) && states[i].universe == states[0].universe
  {
    hide KeysOk, NextKeyed, Allowed, InitialKeyed;
    if i == 0 {
      InitialKeys(states[0]);
    } else {
      KeyedReachable(states, moves, i - 1);
      var m := moves[i - 1];
      KeysKept(states[i - 1], m.t, m.c, m.op);
      StepAfter(states[i - 1], m.t, m.c, m.op);
    }
  }

  /** Without the keys, a run of the tree with keys is a run of the protocol, so all its theorems hold. */
  ghost function Bare(states: seq<Keyed>): seq<State> {
    seq(|states|, i requires 0 <= i < |states| => states[i].s)
  }

  ghost function BareMoves(moves: seq<KeyedMove>): seq<Move> {
    seq(|moves|, i requires 0 <= i < |moves| => Move(moves[i].t, moves[i].c))
  }

  lemma KeyedRunsAreRuns(states: seq<Keyed>, moves: seq<KeyedMove>)
    requires KeyedRun(states, moves)
    ensures Run(Bare(states), BareMoves(moves))
  {
    hide KeysOk, NextKeyed, Allowed, Step;
    forall i | 0 <= i < |moves|
      ensures moves[i].t < |states[i].s.threads| == |states[i].s.lists|
              && states[i + 1].s == Step(states[i].s, moves[i].t, moves[i].c)
    {
      KeyedReachable(states, moves, i);
      StepAfter(states[i], moves[i].t, moves[i].c, moves[i].op);
    }
  }

  // ----- the tree is the map

  /** The leaf at the end of a key's bytes, followed from inner node i while nothing moves. */
  ghost function Follow(ks: Keyed, i: nat, k: Key): Option<nat>
    decreases |k| - if i < |ks.tags| then |ks.tags[i].path| else 0
  {
    if i >= |ks.s.nodes| || i >= |ks.tags| || |ks.tags[i].path| >= |k| || !Prefix(ks.tags[i].path, k) then None
    else match Kid(ks.s.nodes[i], k[|ks.tags[i].path|])
      case None => None
      case Some(x) =>
        if x >= |ks.tags| then None
        else if ks.tags[x].leaf then Some(x)
        else if |ks.tags[x].path| <= |ks.tags[i].path| then None
        else Follow(ks, x, k)
  }

  lemma ChildInTree(ks: Keyed, i: nat, b: Byte, x: nat)
    requires KeysOk(ks) && InTree(ks.s.nodes, i) && Kid(ks.s.nodes[i], b) == Some(x)
    ensures InTree(ks.s.nodes, x)
  {
    hide KeysOk, NodeOk, ThreadOk, ListOk, PairOk;
    InvOf(ks);
    assert Edge(ks.s.nodes, i, b) == Some(x);
  }

  lemma InvOf(ks: Keyed)
    requires KeysOk(ks)
    ensures Inv(ks.s) && ViewOk(ks.s.nodes, ks.tags, ks.stored, ks.view) && StoredOk(ks.stored, ks.universe)
    ensures |ks.tags| == |ks.s.nodes| && |ks.calls| == |ks.s.threads|
  {
    hide Inv, ViewOk, StoredOk, CallOk;
    SameLength(ks.s.nodes, ks.tags, ks.stored, ks.view);
  }

  lemma {:induction false} FollowRight(ks: Keyed, i: nat, k: Key)
    requires KeysOk(ks) && InTree(ks.s.nodes, i) && i < |ks.tags| && !ks.tags[i].leaf
    requires ks.tags[i].hang <= |ks.tags[i].path|
    requires Prefix(ks.tags[i].path, k) && |ks.tags[i].path| < |k|
    ensures var x := Follow(ks, i, k);
            if k in ks.stored then
              x.Some? && x.value < |ks.tags| && ks.tags[x.value] == Tag(true, k, ks.tags[x.value].hang, ks.stored[k])
            else x.Some? ==> x.value < |ks.tags| && ks.tags[x.value].path in ks.stored && ks.tags[x.value].path != k
    decreases |k| - |ks.tags[i].path|
  {
    hide KeysOk, ViewOk, Inv;
    var n, b := ks.tags[i], k[|ks.tags[i].path|];
    var call := Call(Lookup(k), |n.path|, true, None, 0, 0, None, ks.stored);
    InvOf(ks);
    InnerInView(ks, i);
    InnerOnAWay(ks, n.path);
    ReadTells(ks, i, b, call, k);
    var next := Kid(ks.s.nodes[i], b);
    if next.Some? {
      var x := ks.tags[next.value];
      ChildInTree(ks, i, b, next.value);
      if x.leaf {
        if k in ks.stored {
          StoredPrefixSame(ks, x.path, k);
        }
      } else if Prefix(x.path, k) && |x.path| < |k| {
        FollowRight(ks, next.value, k);
      }
    }
  }

  lemma StoredPrefixSame(ks: Keyed, a: Key, b: Key)
    requires StoredOk(ks.stored, ks.universe) && a in ks.stored && b in ks.stored && Prefix(a, b)
    ensures a == b
  {
  }

  /**
   * At every moment of every run, following a key's bytes from the root finds its value, or shows that it is not
   * stored.
   */
  lemma TreeIsTheMap(states: seq<Keyed>, moves: seq<KeyedMove>, i: nat, k: Key)
    requires KeyedRun(states, moves) && i < |states| && k in states[0].universe
    ensures var ks := states[i];
            var x := Follow(ks, 0, k);
            if k in ks.stored then
              x.Some? && x.value < |ks.tags| && ks.tags[x.value].path == k && ks.tags[x.value].tid == ks.stored[k]
            else x.Some? ==> x.value < |ks.tags| && ks.tags[x.value].path != k
  {
    hide KeysOk, ViewOk, Inv, Follow, InTree, NextKeyed, Allowed, Initial;
    var ks := states[i];
    KeyedReachable(states, moves, i);
    InvOf(ks);
    RootTag(ks);
    RootInTree(ks);
    assert k != [];
    FollowRight(ks, 0, k);
  }

  lemma RootInTree(ks: Keyed)
    requires KeysOk(ks)
    ensures InTree(ks.s.nodes, 0)
  {
    hide KeysOk, NodeOk, ThreadOk, ListOk, PairOk;
    InvOf(ks);
  }

  /**
   * Two nodes of two trees: the same key, or the same path, prefix and bytes, with children of the same paths below.
   */
  ghost predicate SameLook(ks1: Keyed, x: nat, ks2: Keyed, y: nat) {
    && InTree(ks1.s.nodes, x) && InTree(ks2.s.nodes, y) && x < |ks1.tags| && y < |ks2.tags|
    && ks1.tags[x].leaf == ks2.tags[y].leaf && ks1.tags[x].path == ks2.tags[y].path
    && (!ks1.tags[x].leaf ==>
          && ks1.tags[x].hang == ks2.tags[y].hang && ks1.s.nodes[x].kids.Keys == ks2.s.nodes[y].kids.Keys
          && forall b | b in ks1.s.nodes[x].kids && b in ks2.s.nodes[y].kids ::
               var c, d := ks1.s.nodes[x].kids[b], ks2.s.nodes[y].kids[b];
               c < |ks1.tags| && d < |ks2.tags| && TargetOf(ks1.tags[c]) == TargetOf(ks2.tags[d]))
  }

  /**
   * Two moments, of one run or of two, at which the same keys are stored: the trees look the same. Each node of the one
   * has its counterpart in the other.
   */
  lemma SameKeysSameTree(states1: seq<Keyed>, moves1: seq<KeyedMove>, i: nat, states2: seq<Keyed>,
                         moves2: seq<KeyedMove>, j: nat, x: nat)
    returns (y: nat)
    requires KeyedRun(states1, moves1) && i < |states1| && KeyedRun(states2, moves2) && j < |states2|
    requires states1[i].stored.Keys == states2[j].stored.Keys && InTree(states1[i].s.nodes, x)
    ensures SameLook(states1[i], x, states2[j], y)
    ensures forall z: nat | SameLook(states1[i], x, states2[j], z) :: z == y
    ensures states1[i].view.inner.Keys == states2[j].view.inner.Keys && states1[i].view.edges == states2[j].view.edges
  {
    hide KeysOk, KeyedRun, ViewOk, StoredOk, SameLook;
    KeyedReachable(states1, moves1, i);
    KeyedReachable(states2, moves2, j);
    SameView(states1[i], states2[j]);
    if states1[i].tags[x].leaf {
      y := LeafAgain(states1[i], states2[j], x);
    } else {
      y := InnerAgain(states1[i], states2[j], x);
    }
    forall z: nat | SameLook(states1[i], x, states2[j], z) ensures z == y {
      OneCounterpart(states1[i], x, states2[j], y, z);
    }
  }

  lemma OneCounterpart(ks1: Keyed, x: nat, ks2: Keyed, y: nat, z: nat)
    requires KeysOk(ks2) && SameLook(ks1, x, ks2, y) && SameLook(ks1, x, ks2, z)
    ensures y == z
  {
    hide KeysOk, TagsOk, KidsOk, HangsOk, Shape.ShapeOk, InTree;
    InvOf(ks2);
    OneNodePerPath(ks2.s.nodes, ks2.tags, ks2.stored, ks2.view, y, z);
  }

  lemma SameView(ks1: Keyed, ks2: Keyed)
    requires KeysOk(ks1) && KeysOk(ks2) && ks1.stored.Keys == ks2.stored.Keys
    ensures ks1.view.inner.Keys == ks2.view.inner.Keys && ks1.view.edges == ks2.view.edges
    ensures |ks1.tags| == |ks1.s.nodes| && |ks2.tags| == |ks2.s.nodes|
  {
    hide KeysOk, TagsOk, PlacesOk, KidsOk, HangsOk, Shape.ShapeOk;
    InvOf(ks1);
    InvOf(ks2);
    Shape.ShapeIsUnique(ks1.stored.Keys, ks1.view.inner.Keys, ks1.view.edges, ks2.view.inner.Keys, ks2.view.edges);
  }

  lemma LeafAgain(ks1: Keyed, ks2: Keyed, x: nat) returns (y: nat)
    requires KeysOk(ks1) && KeysOk(ks2) && ks1.stored.Keys == ks2.stored.Keys
    requires InTree(ks1.s.nodes, x) && x < |ks1.tags| && ks1.tags[x].leaf
    ensures SameLook(ks1, x, ks2, y)
  {
    hide KeysOk, TagsOk, KidsOk, HangsOk, Shape.ShapeOk;
    InvOf(ks1);
    InvOf(ks2);
    LeafInView(ks1, x);
    y := ks2.view.leaves[ks1.tags[x].path];
  }

  /** What an inner node looks like is read off the view. */
  lemma LooksLike(ks: Keyed, p: Key) returns (x: nat)
    requires KeysOk(ks) && p in ks.view.inner
    ensures InTree(ks.s.nodes, x) && x < |ks.tags| && !ks.tags[x].leaf && ks.tags[x].path == p && x == ks.view.inner[p]
    ensures forall b: Byte :: Kid(ks.s.nodes[x], b) == EdgeTo(ks.view, p, b)
    ensures if p == [] then ks.tags[x].hang == 0
            else exists e ::
              e in ks.view.edges && ks.view.edges[e] == Shape.ToInner(p) && ks.tags[x].hang == |e.path| + 1
  {
    hide KeysOk, TagsOk, Shape.ShapeOk, Shape.PrefixFree, KidsOk, HangsOk;
    InvOf(ks);
    x := ks.view.inner[p];
    assert InnerAt(ks.s.nodes, ks.tags, x, p);
    hide PlacesOk;
    forall b: Byte ensures Kid(ks.s.nodes[x], b) == EdgeTo(ks.view, p, b) {
      AnchorInView(ks.s.nodes, ks.tags, ks.stored, ks.view, x, b);
    }
    if p == [] {
      RootTag(ks);
      RootInTree(ks);
      InnerPlace(ks.s.nodes, ks.tags, ks.stored, ks.view, 0);
    } else {
      var e := HangsUnder(ks, p);
    }
  }

  lemma HangsUnder(ks: Keyed, p: Key) returns (e: Shape.Edge)
    requires KeysOk(ks) && p in ks.view.inner && p != [] && ks.view.inner[p] < |ks.tags|
    ensures e in ks.view.edges && ks.view.edges[e] == Shape.ToInner(p) && ks.tags[ks.view.inner[p]].hang == |e.path| + 1
  {
    hide KeysOk, TagsOk, Shape.ShapeOk, Shape.PrefixFree, KidsOk, PlacesOk;
    InvOf(ks);
    RootInner(ks);
    SubsetFree(ks.universe, ks.stored.Keys);
    e := Shape.EdgeInto(ks.stored.Keys, ks.view.inner.Keys, ks.view.edges, [], Shape.ToInner(p));
  }

  lemma RootInner(ks: Keyed)
    requires ViewOk(ks.s.nodes, ks.tags, ks.stored, ks.view)
    ensures [] in ks.view.inner
  {
    hide TagsOk, KidsOk, HangsOk, Shape.ShapeOk;
  }

  /** The node below an edge, as a target. */
  lemma BelowEdge(ks: Keyed, p: Key, b: Byte)
    requires KeysOk(ks) && Shape.Edge(p, b) in ks.view.edges
    ensures var x := IndexOf(ks.view, ks.view.edges[Shape.Edge(p, b)]);
            x < |ks.tags| && TargetOf(ks.tags[x]) == ks.view.edges[Shape.Edge(p, b)]
  {
    hide KeysOk, TagsOk, KidsOk, HangsOk, Shape.ShapeOk, PlacesOk;
    InvOf(ks);
    EdgeBehind(ks.s.nodes, ks.tags, ks.stored, ks.view, p, b, IndexOf(ks.view, ks.view.edges[Shape.Edge(p, b)]));
  }

  lemma InnerAgain(ks1: Keyed, ks2: Keyed, x: nat) returns (y: nat)
    requires KeysOk(ks1) && KeysOk(ks2) && ks1.stored.Keys == ks2.stored.Keys
    requires InTree(ks1.s.nodes, x) && x < |ks1.tags| && !ks1.tags[x].leaf
    ensures SameLook(ks1, x, ks2, y)
  {
    hide KeysOk, ViewOk, InTree;
    SameView(ks1, ks2);
    InvOf(ks1);
    InnerInView(ks1, x);
    var p := ks1.tags[x].path;
    var x0 := LooksLike(ks1, p);
    InnerHere(ks1, x);
    y := LooksLike(ks2, p);
    SameHang(ks1, ks2, p, x, y);
    forall b: Byte ensures b in ks1.s.nodes[x].kids <==> b in ks2.s.nodes[y].kids {
      assert Kid(ks1.s.nodes[x], b) == EdgeTo(ks1.view, p, b) && Kid(ks2.s.nodes[y], b) == EdgeTo(ks2.view, p, b);
    }
    forall b | b in ks1.s.nodes[x].kids && b in ks2.s.nodes[y].kids
      ensures var c, d := ks1.s.nodes[x].kids[b], ks2.s.nodes[y].kids[b];
              c < |ks1.tags| && d < |ks2.tags| && TargetOf(ks1.tags[c]) == TargetOf(ks2.tags[d])
    {
      assert Kid(ks1.s.nodes[x], b) == EdgeTo(ks1.view, p, b) && Kid(ks2.s.nodes[y], b) == EdgeTo(ks2.view, p, b);
      BelowEdge(ks1, p, b);
      BelowEdge(ks2, p, b);
    }
  }

  lemma InnerHere(ks: Keyed, x: nat)
    requires KeysOk(ks) && InTree(ks.s.nodes, x) && x < |ks.tags| && !ks.tags[x].leaf
    ensures ks.tags[x].path in ks.view.inner && ks.view.inner[ks.tags[x].path] == x
  {
    hide KeysOk, TagsOk, KidsOk, HangsOk, Shape.ShapeOk, PlacesOk;
    InvOf(ks);
    InnerPlace(ks.s.nodes, ks.tags, ks.stored, ks.view, x);
  }

  lemma SameHang(ks1: Keyed, ks2: Keyed, p: Key, x: nat, y: nat)
    requires KeysOk(ks1) && ks1.view.edges == ks2.view.edges && x < |ks1.tags| && y < |ks2.tags|
    requires if p == [] then ks1.tags[x].hang == 0
             else exists e ::
               e in ks1.view.edges && ks1.view.edges[e] == Shape.ToInner(p) && ks1.tags[x].hang == |e.path| + 1
    requires if p == [] then ks2.tags[y].hang == 0
             else exists e ::
               e in ks2.view.edges && ks2.view.edges[e] == Shape.ToInner(p) && ks2.tags[y].hang == |e.path| + 1
    ensures ks1.tags[x].hang == ks2.tags[y].hang
  {
    hide KeysOk, TagsOk, KidsOk, HangsOk, PlacesOk, Shape.ShapeOk;
    if p != [] {
      InvOf(ks1);
      var e :| e in ks1.view.edges && ks1.view.edges[e] == Shape.ToInner(p) && ks1.tags[x].hang == |e.path| + 1;
      var f :| f in ks2.view.edges && ks2.view.edges[f] == Shape.ToInner(p) && ks2.tags[y].hang == |f.path| + 1;
      if e != f {
        OtherTargets(ks1.tags, ks1.stored, ks1.view, e, f);
      }
    }
  }

  // ----- one operation

  /** Thread t begins an operation with step i and is in it up to state j. */
  ghost predicate OneCall(states: seq<Keyed>, moves: seq<KeyedMove>, t: nat, i: nat, j: nat) {
    && i < j < |states| && i < |moves| && moves[i].t == t && t < |states[i].s.threads|
    && states[i].s.threads[t].pc == Outside
    && forall n | i < n <= j :: t < |states[n].calls| && states[n].calls[t].op != NoOp
  }

  lemma StepOf(states: seq<Keyed>, moves: seq<KeyedMove>, n: nat)
    requires KeyedRun(states, moves) && n < |moves|
    ensures KeysOk(states[n]) && KeysOk(states[n + 1]) && Allowed(states[n], moves[n].t, moves[n].c, moves[n].op)
    ensures moves[n].t < |states[n].s.threads| == |states[n].s.lists|
    ensures moves[n].t < |states[n].calls| == |states[n].s.threads|
    ensures states[n + 1] == NextKeyed(states[n], moves[n].t, moves[n].c, moves[n].op)
  {
    hide KeysOk, NextKeyed, Allowed;
    KeyedReachable(states, moves, n);
    KeyedReachable(states, moves, n + 1);
    StepAfter(states[n], moves[n].t, moves[n].c, moves[n].op);
  }

  /** A thread that does not step keeps its operation, and one that does keeps it until it leaves. */
  lemma CallStays(states: seq<Keyed>, moves: seq<KeyedMove>, t: nat, n: nat)
    requires KeyedRun(states, moves) && n < |moves| && t < |states[n].calls| && states[n].calls[t].op != NoOp
    ensures t < |states[n + 1].calls|
    ensures states[n + 1].calls[t].op != NoOp ==>
              states[n + 1].calls[t].op == states[n].calls[t].op
              && states[n + 1].calls[t].before == states[n].calls[t].before
  {
    hide KeysOk, NextKeyed, Allowed, NextCall, EffectOf, CallOk, ViewOk, Inv, StoredOk;
    StepOf(states, moves, n);
    CallOf(states[n], t);
    var ks, m := states[n], moves[n];
    CallsAfter(ks, m.t, m.c, m.op);
    SameOp(ks, m.t, m.c, m.op, EffectOf(ks.s, m.t, m.c).local);
    NotOutside(ks, t);
  }

  lemma NotOutside(ks: Keyed, t: nat)
    requires KeysOk(ks) && t < |ks.calls| && t < |ks.s.threads|
    ensures ks.calls[t].op == NoOp <==> ks.s.threads[t].pc in {Outside, StoreMax, Scan, FreeOld, Failed}
  {
    hide KeysOk, Inv, ViewOk, StoredOk, BaseOk, PcOk;
    CallOf(ks, t);
  }

  /** An operation begins with what is stored at that moment, and keeps its key. */
  lemma {:induction false} CallSoFar(states: seq<Keyed>, moves: seq<KeyedMove>, t: nat, i: nat, j: nat)
    requires KeyedRun(states, moves) && OneCall(states, moves, t, i, j)
    ensures t < |states[j].calls| == |states[j].s.threads|
    ensures states[j].calls[t].op == moves[i].op && states[j].calls[t].before == states[i].stored
    decreases j
  {
    hide KeysOk, NextKeyed, Allowed, NextCall, EffectOf;
    StepOf(states, moves, j - 1);
    if i == j - 1 {
      Begins(states[i], t, moves[i].c, moves[i].op);
    } else {
      CallSoFar(states, moves, t, i, j - 1);
      CallStays(states, moves, t, j - 1);
    }
    Lengths(states, moves, j);
  }

  lemma Lengths(states: seq<Keyed>, moves: seq<KeyedMove>, j: nat)
    requires KeyedRun(states, moves) && j < |states|
    ensures |states[j].calls| == |states[j].s.threads|
  {
    hide KeysOk, KeyedRun;
    KeyedReachable(states, moves, j);
    InvOf(states[j]);
  }

  lemma Begins(ks: Keyed, t: nat, c: Choice, op: Op)
    requires KeysOk(ks) && Allowed(ks, t, c, op) && ks.s.threads[t].pc == Outside
    ensures var ks' := NextKeyed(ks, t, c, op);
            t < |ks'.calls| && ks'.calls[t].op == op && ks'.calls[t].before == ks.stored
  {
    hide KeysOk, EffectOf, NextView, NewTags, Stores;
    CallsAfter(ks, t, c, op);
  }

  // ----- lookups

  /**
   * A finished lookup found the value its key had when it ended, or there was none when it began: either way the answer
   * is what the map held at one moment of the operation.
   */
  lemma LookupLinearises(states: seq<Keyed>, moves: seq<KeyedMove>, t: nat, i: nat, j: nat) returns (m: nat)
    requires KeyedRun(states, moves) && OneCall(states, moves, t, i, j) && moves[i].op.Lookup?
    requires t < |states[j].s.threads| && states[j].s.threads[t].pc == Leave
    ensures i <= m <= j && t < |states[j].calls| && states[j].calls[t].answer.Some?
    ensures var k, map0 := moves[i].op.key, states[m].stored;
            states[j].calls[t].answer.value == if k in map0 then map0[k] else 0
  {
    hide KeysOk, KeyedRun, Inv, ViewOk;
    CallSoFar(states, moves, t, i, j);
    KeyedReachable(states, moves, j);
    CallOf(states[j], t);
    Answered(states[j], t);
    m := if states[j].calls[t].answer.value == 0 then i else j;
  }

  lemma Answered(ks: Keyed, t: nat)
    requires KeysOk(ks) && t < |ks.calls| && t < |ks.s.threads| && ks.s.threads[t].pc == Leave && ks.calls[t].op.Lookup?
    ensures AnswerOk(ks.stored, ks.calls[t], ks.calls[t].op.key)
  {
    hide KeysOk, AnswerOk;
    InCall(ks, t);
  }

  // ----- inserts

  /** What is stored changes only where a thread stores the key of its insert. */
  lemma StoredChanges(states: seq<Keyed>, moves: seq<KeyedMove>, n: nat)
    requires KeyedRun(states, moves) && n < |moves|
    ensures moves[n].t < |states[n].calls|
    ensures if Stores(states[n], moves[n].t) then
              var op := states[n].calls[moves[n].t].op;
              op.Put? && op.key !in states[n].stored && states[n + 1].stored == states[n].stored[op.key := op.tid]
            else states[n + 1].stored == states[n].stored
  {
    hide KeysOk, NextKeyed, Allowed, NextCall, EffectOf, NextView, NewTags;
    StepOf(states, moves, n);
    KeyFields(states[n], moves[n].t, moves[n].c, moves[n].op);
    if Stores(states[n], moves[n].t) {
      KeyStored(states[n], moves[n].t);
    }
  }

  lemma {:induction false} OnlyGrows(states: seq<Keyed>, moves: seq<KeyedMove>, i: nat, j: nat)
    requires KeyedRun(states, moves) && i <= j < |states|
    ensures Grown(states[i].stored, states[j].stored)
    decreases j
  {
    hide Stores, NextKeyed, Allowed;
    if i < j {
      OnlyGrows(states, moves, i, j - 1);
      StoredChanges(states, moves, j - 1);
    }
  }

  /** The key of an insert is not stored before its pointer moves, and is from then on. */
  lemma InsertSoFar(states: seq<Keyed>, moves: seq<KeyedMove>, t: nat, i: nat, j: nat)
    requires KeyedRun(states, moves) && OneCall(states, moves, t, i, j) && moves[i].op.Put?
    ensures t < |states[j].s.threads|
    ensures var op, stored := moves[i].op, states[j].stored;
            if Done(states[j].s.threads[t]) then op.key in stored && stored[op.key] == op.tid else op.key !in stored
  {
    hide KeysOk, KeyedRun, Inv, ViewOk, Done, PcOk, StoredOk;
    CallSoFar(states, moves, t, i, j);
    KeyedReachable(states, moves, j);
    CallOf(states[j], t);
  }

  /** Before its first step inside the tree, an insert has stored nothing. */
  lemma NotYet(states: seq<Keyed>, moves: seq<KeyedMove>, t: nat, i: nat)
    requires KeyedRun(states, moves) && OneCall(states, moves, t, i, i + 1) && moves[i].op.Put?
    ensures moves[i].op.key !in states[i + 1].stored && states[i + 1].stored == states[i].stored
  {
    hide KeysOk, NextKeyed, Allowed, NextCall, EffectOf;
    StepOf(states, moves, i);
    StoredChanges(states, moves, i);
    MayStore(states[i], t, moves[i].c, moves[i].op);
  }

  lemma MayStore(ks: Keyed, t: nat, c: Choice, op: Op)
    requires Allowed(ks, t, c, op) && ks.s.threads[t].pc == Outside && op.Put?
    ensures op.key !in ks.stored
  {
  }

  /** Where the key of an insert gets stored, it is the insert's own step that stores it. */
  lemma OwnStore(states: seq<Keyed>, moves: seq<KeyedMove>, t: nat, n: nat)
    requires KeyedRun(states, moves) && n < |moves| && t < |states[n].calls| && states[n].calls[t].op.Put?
    requires var k := states[n].calls[t].op.key; k !in states[n].stored && k in states[n + 1].stored
    ensures moves[n].t == t && Stores(states[n], t)
  {
    hide KeysOk, NextKeyed, Allowed, Stores;
    StoredChanges(states, moves, n);
    KeyedReachable(states, moves, n);
    StoringPuts(states[n], moves[n].t);
    if moves[n].t != t {
      DistinctKeys(states[n], moves[n].t, t);
    }
  }

  lemma StoringPuts(ks: Keyed, t: nat)
    ensures Stores(ks, t) ==> t < |ks.calls| && ks.calls[t].op.Put?
  {
  }

  lemma {:induction false} FindStore(states: seq<Keyed>, moves: seq<KeyedMove>, t: nat, i: nat, j: nat) returns (m: nat)
    requires KeyedRun(states, moves) && OneCall(states, moves, t, i, j) && moves[i].op.Put?
    requires moves[i].op.key in states[j].stored
    ensures i < m < j && moves[m].t == t && Stores(states[m], t) && states[m].calls[t].op == moves[i].op
    decreases j
  {
    hide KeysOk, NextKeyed, Allowed, Stores, Done;
    if j == i + 1 {
      NotYet(states, moves, t, i);
      assert false;
    }
    CallSoFar(states, moves, t, i, j - 1);
    if moves[i].op.key in states[j - 1].stored {
      m := FindStore(states, moves, t, i, j - 1);
    } else {
      m := j - 1;
      OwnStore(states, moves, t, m);
    }
  }

  /**
   * A finished insert has taken effect at exactly one moment between its beginning and its end: there its key was not
   * stored, and then it was, with its value; no other step of the insert changed what is stored.
   */
  lemma InsertLinearises(states: seq<Keyed>, moves: seq<KeyedMove>, t: nat, i: nat, j: nat) returns (m: nat)
    requires KeyedRun(states, moves) && OneCall(states, moves, t, i, j) && moves[i].op.Put?
    requires t < |states[j].s.threads| && states[j].s.threads[t].pc == Leave
    ensures i < m < j && moves[m].t == t
    ensures var op := moves[i].op;
            op.key !in states[m].stored && states[m + 1].stored == states[m].stored[op.key := op.tid]
    ensures forall n | i <= n < j && n != m && moves[n].t == t :: states[n + 1].stored == states[n].stored
    ensures moves[i].op.key in states[j].stored && states[j].stored[moves[i].op.key] == moves[i].op.tid
  {
    hide KeysOk, NextKeyed, Allowed, Stores;
    InsertSoFar(states, moves, t, i, j);
    m := FindStore(states, moves, t, i, j);
    StoredChanges(states, moves, m);
    forall n | i <= n < j && n != m && moves[n].t == t ensures states[n + 1].stored == states[n].stored {
      OnlyOnce(states, moves, t, i, n, m);
    }
  }

  lemma OnlyOnce(states: seq<Keyed>, moves: seq<KeyedMove>, t: nat, i: nat, n: nat, m: nat)
    requires KeyedRun(states, moves) && i < m < |moves| && i <= n < |moves| && n != m && moves[m].t == t == moves[n].t
    requires OneCall(states, moves, t, i, if n < m then m else n) && moves[i].op.Put?
    requires moves[i].op.key !in states[m].stored && moves[i].op.key in states[m + 1].stored
    ensures states[n + 1].stored == states[n].stored
  {
    hide KeysOk, NextKeyed, Allowed, Stores;
    StoredChanges(states, moves, n);
    if Stores(states[n], t) {
      if n == i {
        StoresWriting(states[n], t);
        assert false;
      }
      CallSoFar(states, moves, t, i, n);
      if n < m {
        OnlyGrows(states, moves, n + 1, m);
      } else {
        OnlyGrows(states, moves, m + 1, n);
      }
      assert false;
    }
  }

  lemma StoresWriting(ks: Keyed, t: nat)
    requires Stores(ks, t)
    ensures t < |ks.s.threads| && ks.s.threads[t].pc == Writing
  {
  }

  // ----- no operation runs out of steps

  /** An insert does not run past the end of its key: what its key would have to be a prefix of is stored. */
  lemma KeyGoesOn(ks: Keyed, p: Key, j: nat, k: Key)
    requires StoredOk(ks.stored, ks.universe) && OnAWay(ks.stored, p) && k in ks.universe && k !in ks.stored
    requires j <= |p| && Prefix(p[..j], k)
    ensures j < |k|
  {
    assert k != [];
    if j == |k| {
      var c :| c in ks.stored && Prefix(p, c);
      assert c[..j] == p[..j] == k;
      SameKey(ks, k, c);
      assert false;
    }
  }

  lemma PutGoesOn(ks: Keyed, n: Tag, call: Call, k: Key) returns (c: Choice)
    requires StoredOk(ks.stored, ks.universe) && k in ks.universe && k !in ks.stored && call.op.Put?
    requires Here(ks.stored, n, call, k) && AtHang(n, call, k)
    ensures PutChoice(n, call.kt, k, call.level, c) && c != Restart
  {
    if n.PrefixLength() > Shape.MAX_STORED_PREFIX && call.kt.None? {
      c := Probe;
    } else if Differs(n, call.kt, k, call.level, 0) < n.PrefixLength() {
      c := Choice.Split;
    } else {
      assert n.path[..call.level + 0] == n.path[..call.level];
      FirstDifference(n, call.kt, k, call.level, 0);
      KeyGoesOn(ks, n.path, |n.path|, k);
      c := Look(k[call.level + n.PrefixLength()], None);
    }
  }

  lemma PlacingNow(ks: Keyed, t: nat)
    requires KeysOk(ks) && t < |ks.calls| && t < |ks.s.threads| && ks.s.threads[t].pc == Writing
    requires ks.s.threads[t].at == 0
    ensures var th, call := ks.s.threads[t], ks.calls[t];
            && call.op.Put? && call.op.key !in ks.stored && call.op.key in ks.universe
            && StoredOk(ks.stored, ks.universe)
            && th.anchor < |ks.tags| && th.victim < |ks.tags| && Pending(th, Change)
            && Placing(ks.tags[th.anchor], ks.tags[th.victim], th, call, call.op.key)
  {
    hide KeysOk, Inv, ViewOk, Made, Placing, StoredOk;
    CallOf(ks, t);
    WritingFacts(ks, t);
    CreatePending(ks.s.threads[t]);
  }

  lemma PrefixBytes(ks: Keyed, t: nat)
    requires KeysOk(ks) && t < |ks.calls| && t < |ks.s.threads| && ks.s.threads[t].pc == Writing
    requires ks.s.threads[t].at == 0
    requires ks.s.threads[t].kind == PrefixSplit
    ensures var call := ks.calls[t];
            && call.op.Put? && call.at < |call.op.key| && call.op.key[call.at] != call.other
            && SplitBytes(ks, t, call.op.key, New(call.op.key[call.at], call.other))
  {
    hide KeysOk, StoredOk, OnAWay, Pending;
    PlacingNow(ks, t);
    VictimOnAWay(ks, t);
    KeyGoesOn(ks, ks.tags[ks.s.threads[t].victim].path, ks.calls[t].at, ks.calls[t].op.key);
  }

  lemma LeafBytes(ks: Keyed, t: nat)
    requires KeysOk(ks) && t < |ks.calls| && t < |ks.s.threads| && ks.s.threads[t].pc == Writing
    requires ks.s.threads[t].at == 0
    requires ks.s.threads[t].kind == LeafSplit
    ensures ks.calls[t].op.Put?
    ensures var q, k := TagOf(ks.tags, ks.s.threads[t].victim).path, ks.calls[t].op.key;
            var m := Parts(q, k, ks.calls[t].level + 1);
            m < |q| && m < |k| && k[m] != q[m]
  {
    hide KeysOk, StoredOk, Parts, Pending;
    PlacingNow(ks, t);
    var th, call := ks.s.threads[t], ks.calls[t];
    var v, a, k := ks.tags[th.victim], ks.tags[th.anchor], call.op.key;
    VictimStored(ks, t);
    AgreeBelow(a.path, th.ab, k, v.path);
    PartsMeans(v.path, k, call.level + 1);
    LeafParts(ks, v.path, k, Parts(v.path, k, call.level + 1));
  }

  lemma SplitGoesOn(ks: Keyed, t: nat) returns (c: Choice)
    requires KeysOk(ks) && t < |ks.calls| && t < |ks.s.threads| && ks.s.threads[t].pc == Writing
    requires ks.s.threads[t].at == 0
    ensures ks.calls[t].op.Put? && SplitBytes(ks, t, ks.calls[t].op.key, c) && c.New? && c.b1 != c.b2
  {
    hide KeysOk, Placing, Parts, StoredOk;
    PlacingNow(ks, t);
    var call, q := ks.calls[t], TagOf(ks.tags, ks.s.threads[t].victim).path;
    match ks.s.threads[t].kind {
      case PrefixSplit =>
        PrefixBytes(ks, t);
        c := New(call.op.key[call.at], call.other);
      case LeafSplit =>
        LeafBytes(ks, t);
        var m := Parts(q, call.op.key, call.level + 1);
        c := New(call.op.key[m], q[m]);
      case _ => c := New(0, 1);
    }
  }

  lemma LeafParts(ks: Keyed, q: Key, k: Key, m: nat)
    requires StoredOk(ks.stored, ks.universe) && q in ks.stored && k in ks.universe && k !in ks.stored
    requires m <= |q| && m <= |k| && q[..m] == k[..m]
    ensures m < |q| && m < |k|
  {
    if m == |q| {
      StoredInUniverse(ks, q, k);
    } else if m == |k| {
      SameKey(ks, k, q);
    }
  }

  lemma VictimOnAWay(ks: Keyed, t: nat)
    requires KeysOk(ks) && t < |ks.calls| && t < |ks.s.threads| && Pending(ks.s.threads[t], Change)
    requires ks.s.threads[t].kind == PrefixSplit && ks.s.threads[t].victim < |ks.tags|
    requires !ks.tags[ks.s.threads[t].victim].leaf
    ensures OnAWay(ks.stored, ks.tags[ks.s.threads[t].victim].path)
  {
    hide KeysOk, ViewOk, OnAWay, Inv, WalkOk, ProbeOk, LockingOk, MadeOk, CallOk;
    var x := ks.s.threads[t].victim;
    CallOf(ks, t);
    VictimInTree(ks.s, t);
    InnerInView(ks, x);
    InnerOnAWay(ks, ks.tags[x].path);
  }

  lemma InnerInView(ks: Keyed, x: nat)
    requires ViewOk(ks.s.nodes, ks.tags, ks.stored, ks.view) && InTree(ks.s.nodes, x) && x < |ks.tags|
    requires !ks.tags[x].leaf
    ensures ks.tags[x].path in ks.view.inner
  {
    hide TagsOk, KidsOk, HangsOk, Shape.ShapeOk;
    InnerPlace(ks.s.nodes, ks.tags, ks.stored, ks.view, x);
  }

  lemma VictimInTree(s: State, t: nat)
    requires Inv(s) && t < |s.threads| && Pending(s.threads[t], Change) && s.threads[t].kind != Plain
    ensures InTree(s.nodes, s.threads[t].victim)
  {
    hide Inv, MadeOk, HeldOk, ProbeOk, WalkOk, LockingOk, Graph, ListOk;
    ThreadOf(s, t);
  }

  lemma VictimStored(ks: Keyed, t: nat)
    requires KeysOk(ks) && t < |ks.calls| && t < |ks.s.threads| && Pending(ks.s.threads[t], Change)
    requires ks.s.threads[t].kind == LeafSplit && ks.s.threads[t].victim < |ks.tags|
    requires ks.tags[ks.s.threads[t].victim].leaf
    ensures ks.tags[ks.s.threads[t].victim].path in ks.stored
  {
    hide KeysOk, ViewOk, Inv, CallOk, StoredOk;
    CallOf(ks, t);
    VictimInTree(ks.s, t);
    LeafInView(ks, ks.s.threads[t].victim);
  }

  lemma LeafInView(ks: Keyed, x: nat)
    requires ViewOk(ks.s.nodes, ks.tags, ks.stored, ks.view) && InTree(ks.s.nodes, x) && x < |ks.tags|
    requires ks.tags[x].leaf
    ensures ks.tags[x].path in ks.stored
  {
    hide TagsOk, KidsOk, HangsOk, Shape.ShapeOk;
    assert Placed(ks.view, x, ks.tags[x]);
    LeavesAreStored(ks.s.nodes, ks.tags, ks.stored, ks.view);
  }

  /**
   * In every reachable state a thread inside an operation has a step, other than to start again, that its key allows.
   */
  lemma NeverBlocked(states: seq<Keyed>, moves: seq<KeyedMove>, i: nat, t: nat) returns (c: Choice)
    requires KeyedRun(states, moves) && i < |states| && t < |states[i].calls| && t < |states[i].s.threads|
    requires InOp(states[i].s.threads[t].pc)
    ensures Allowed(states[i], t, c, NoOp) && c != Restart
    ensures states[i].s.threads[t].pc == Writing && states[i].s.threads[t].at == 0 ==> c.New? && c.b1 != c.b2
  {
    hide KeysOk, KeyedRun, Inv, ViewOk, StoredOk, PcOk, PutChoice, Fails, SplitBytes;
    KeyedReachable(states, moves, i);
    var ks := states[i];
    CallOf(ks, t);
    if ks.s.threads[t].pc == Failed {
      c := Go;
      return;
    }
    InCall(ks, t);
    var th, call := ks.s.threads[t], ks.calls[t];
    if th.pc == Ready {
      HangFacts(ks, t);
      if call.op.Put? {
        c := PutGoesOn(ks, ks.tags[th.node], call, call.op.key);
      } else {
        c := LookupGoesOn(ks.tags[th.node], call.op.key, call.level);
      }
    } else if th.pc == Decided {
      c := if th.next.Some? && !TagOf(ks.tags, th.next.value).leaf then Descend
           else if call.op.Lookup? then GiveUp else Insert(false);
    } else if th.pc == Writing && th.at == 0 {
      c := SplitGoesOn(ks, t);
    } else {
      c := Go;
      if th.pc == Writing && th.at < |Program(th.kind)| {
        PosIsPosition(th.kind, Create, th.at);
      }
    }
  }

  lemma LookupGoesOn(n: Tag, k: Key, level: nat) returns (c: Choice)
    ensures LookupChoice(n, k, level, c) && c != Restart
  {
    hide Fails;
    c := if Fails(n, k, level) || |k| <= level + n.PrefixLength() then GiveUp
         else Look(k[level + n.PrefixLength()], None);
  }
}
