/**
 * What every step keeps of the keys: the shape of the tree is the one its stored keys determine, and every operation is
 * on its key's way, however many other operations change the tree behind it.
 */
module OlcKeyed {
  import opened Wrappers
  import opened Bytes
  import opened DeletionLists
  import opened OlcModel
  import opened OlcInvariant
  import opened OlcSteps
  import opened OlcWrites
  import opened OlcKeys
  import opened OlcView
  import Shape = ArtShape

  // ----- what an operation knows

  /** A key stored all along lies below the node. */
  ghost predicate Here(stored: map<Key, Tid>, n: Tag, call: Call, k: Key) {
    && !n.leaf && n.hang <= |n.path| && OnAWay(stored, n.path)
    && (k in call.before ==> Prefix(n.path, k) && |n.path| < |k|)
  }

  /** Inner nodes are on the way to stored keys, also after they have been cut off. */
  ghost predicate OnAWay(stored: map<Key, Tid>, p: Key) {
    p == [] || exists c :: c in stored && Prefix(p, c)
  }

  /** At the beginning of a compressed prefix: what an insert, or a lookup that skipped nothing, has compared. */
  ghost predicate AtHang(n: Tag, call: Call, k: Key) {
    && call.level == n.hang <= |n.path|
    && (call.op.Put? || call.exact ==> Prefix(n.path[..call.level], k))
    && (call.kt.Some? ==> Prefix(n.path, call.kt.value))
  }

  /** Behind the prefix, about to follow a byte. */
  ghost predicate AtPath(n: Tag, call: Call, k: Key, b: Byte) {
    call.level == |n.path| < |k| && k[|n.path|] == b && (call.op.Put? || call.exact ==> Prefix(n.path, k))
  }

  /** The node the byte leads to. */
  ghost predicate ChildOk(n: Tag, x: Tag, stored: map<Key, Tid>, call: Call, k: Key, b: Byte) {
    && Shape.Under(n.path, b, x.path) && (k in call.before ==> Prefix(x.path, k))
    && (x.leaf ==> x.path in stored && stored[x.path] == x.tid)
    && (!x.leaf ==>
          x.hang == |n.path| + 1 && x.hang <= |x.path| && OnAWay(stored, x.path)
          && (k in call.before ==> |x.path| < |k|))
  }

  /** Where the key leaves the prefix. */
  ghost predicate Leaves(n: Tag, call: Call, k: Key) {
    && call.level <= call.at < |n.path| && Prefix(n.path[..call.at], k)
    && (call.at < |k| ==> k[call.at] != n.path[call.at]) && call.other == n.path[call.at]
  }

  /** In an operation that has not failed. */
  predicate Busy(pc: Pc) {
    InOp(pc) && pc != Failed
  }

  predicate HangPc(th: Local) {
    || th.pc in {ReadVersion, Ready, ProbeVersion, ProbeReady, ProbeCheck}
    || (th.pc in {UpgradeParent, UpgradeNode} && th.kind == PrefixSplit)
  }

  predicate PathPc(th: Local) {
    || th.pc in {CheckNode, Decided, UpgradeOnly, ReadLeaf, UpgradeLeaf}
    || (th.pc in {UpgradeParent, UpgradeNode} && th.kind == Grow)
  }

  predicate NextPc(th: Local) {
    th.pc == Decided || (th.pc in {UpgradeOnly, ReadLeaf, UpgradeLeaf} && th.kind == LeafSplit)
  }

  /** The new nodes have their tags, and those of a split the bytes at which the two paths part. */
  ghost predicate Made(tags: seq<Tag>, th: Local, call: Call, k: Key) {
    var v := TagOf(tags, th.victim);
    && call.op.Put? && th.made + NewNodes(th.kind) <= |tags|
    && tags[th.made..th.made + NewNodes(th.kind)] == NewTags(th, call, v, TagOf(tags, th.anchor), k, call.op.tid)
    && (th.kind == PrefixSplit ==>
          call.at < |k| && call.at < |v.path| && th.nb1 == k[call.at] && th.nb2 == v.path[call.at])
    && (th.kind == LeafSplit ==>
          var m := Parts(v.path, k, call.level + 1);
          m < |k| && m < |v.path| && th.nb1 == k[m] && th.nb2 == v.path[m])
  }

  ghost predicate Placing(a: Tag, v: Tag, th: Local, call: Call, k: Key) {
    match th.kind
    case Plain => Shape.Under(a.path, th.ab, k)
    case Grow => Shape.Under(v.path, th.byte, k) && !v.leaf
    case PrefixSplit => AtHang(v, call, k) && Leaves(v, call, k) && !v.leaf
    case LeafSplit =>
      Shape.Under(a.path, th.ab, k) && Shape.Under(a.path, th.ab, v.path) && call.level == |a.path| && v.leaf
  }

  ghost predicate WriteOk(tags: seq<Tag>, th: Local, call: Call, k: Key) {
    && th.anchor < |tags| && th.victim < |tags|
    && (Pending(th, Change) ==> Placing(tags[th.anchor], tags[th.victim], th, call, k))
    && (Pending(th, Change) && Past(th, Create) ==> Made(tags, th, call, k))
  }

  ghost predicate AnswerOk(stored: map<Key, Tid>, call: Call, k: Key) {
    call.answer.Some? && if call.answer.value == 0 then k !in call.before
                         else k in stored && stored[k] == call.answer.value
  }

  ghost predicate PcOk(tags: seq<Tag>, stored: map<Key, Tid>, th: Local, call: Call, k: Key) {
    && (HangPc(th) || PathPc(th) ==> th.node < |tags| && Here(stored, tags[th.node], call, k))
    && (HangPc(th) ==> AtHang(tags[th.node], call, k))
    && (PathPc(th) ==> AtPath(tags[th.node], call, k, th.byte))
    && (NextPc(th) && th.next.Some? ==>
          th.next.value < |tags| && ChildOk(tags[th.node], tags[th.next.value], stored, call, k, th.byte))
    && (th.pc == Decided && th.next.None? ==> k !in call.before)
    && (th.pc in {ProbeVersion, ProbeReady, ProbeCheck} ==>
          call.op.Put? && th.spot < |tags| && Prefix(tags[th.node].path, tags[th.spot].path))
    && (th.pc in {UpgradeParent, UpgradeNode, UpgradeOnly, ReadLeaf, UpgradeLeaf, Writing} ==> call.op.Put?)
    && (th.pc in {UpgradeParent, UpgradeNode} && th.kind == PrefixSplit ==> Leaves(tags[th.node], call, k))
    && (th.pc == Writing ==> WriteOk(tags, th, call, k))
    && (th.pc == Leave && call.op.Lookup? ==> AnswerOk(stored, call, k))
  }

  /** The key of an insert is stored from the moment the pointer of its anchor moves, and not before. */
  predicate Done(th: Local) {
    th.pc == Leave || Past(th, Change)
  }

  ghost predicate BaseOk(stored: map<Key, Tid>, universe: set<Key>, th: Local, call: Call) {
    call.op != NoOp ==>
      && call.op.key in universe
      && (forall q | q in call.before :: q in stored && stored[q] == call.before[q])
      && (call.op.Put? ==>
            && call.op.tid != 0 && call.op.key !in call.before
            && if Done(th) then call.op.key in stored && stored[call.op.key] == call.op.tid else call.op.key !in stored)
  }

  ghost predicate CallOk(tags: seq<Tag>, stored: map<Key, Tid>, universe: set<Key>, th: Local, call: Call) {
    && BaseOk(stored, universe, th, call)
    && (call.op == NoOp <==> th.pc in {Outside, StoreMax, Scan, FreeOld, Failed})
    && (Busy(th.pc) ==> PcOk(tags, stored, th, call, call.op.key))
  }

  ghost predicate Distinct(calls: seq<Call>) {
    forall u, t | 0 <= u < |calls| && 0 <= t < |calls| && u != t && calls[u].op.Put? && calls[t].op.Put? ::
      calls[u].op.key != calls[t].op.key
  }

  ghost predicate StoredOk(stored: map<Key, Tid>, universe: set<Key>) {
    && Shape.PrefixFree(universe) && stored.Keys <= universe
    && forall q | q in stored :: stored[q] != 0
  }

  ghost predicate KeysOk(ks: Keyed) {
    && Inv(ks.s) && |ks.calls| == |ks.s.threads|
    && ViewOk(ks.s.nodes, ks.tags, ks.stored, ks.view) && StoredOk(ks.stored, ks.universe) && Distinct(ks.calls)
    && forall t | 0 <= t < |ks.calls| :: CallOk(ks.tags, ks.stored, ks.universe, ks.s.threads[t], ks.calls[t])
  }

  lemma CallOf(ks: Keyed, t: nat)
    requires KeysOk(ks) && t < |ks.calls|
    ensures t < |ks.s.threads| == |ks.s.lists| && CallOk(ks.tags, ks.stored, ks.universe, ks.s.threads[t], ks.calls[t])
    ensures Inv(ks.s) && ViewOk(ks.s.nodes, ks.tags, ks.stored, ks.view) && StoredOk(ks.stored, ks.universe)
    ensures |ks.tags| == |ks.s.nodes|
  {
    hide CallOk, ViewOk, StoredOk, Distinct;
    SameLength(ks.s.nodes, ks.tags, ks.stored, ks.view);
    InvLists(ks.s);
  }

  lemma InvLists(s: State)
    requires Inv(s)
    ensures |s.threads| == |s.lists|
  {
  }

  lemma SameLength(nodes: seq<Node>, tags: seq<Tag>, stored: map<Key, Tid>, w: View)
    requires ViewOk(nodes, tags, stored, w)
    ensures |tags| == |nodes|
  {
  }

  // ----- the other operations

  ghost predicate Grown(stored: map<Key, Tid>, stored': map<Key, Tid>) {
    forall q | q in stored :: q in stored' && stored'[q] == stored[q]
  }

  /** What an operation knows stays true when the tree grows behind it. */
  lemma OtherCall(tags: seq<Tag>, tags': seq<Tag>, stored: map<Key, Tid>, stored': map<Key, Tid>, universe: set<Key>,
                  th: Local, call: Call)
    requires CallOk(tags, stored, universe, th, call) && tags <= tags' && Grown(stored, stored')
    requires call.op.Put? && call.op.key in stored' ==> call.op.key in stored
    ensures CallOk(tags', stored', universe, th, call)
  {
    assert forall i | 0 <= i < |tags| :: tags'[i] == tags[i];
    if Busy(th.pc) {
      OtherPc(tags, tags', stored, stored', th, call, call.op.key);
    }
    hide PcOk;
  }

  lemma OtherPc(tags: seq<Tag>, tags': seq<Tag>, stored: map<Key, Tid>, stored': map<Key, Tid>, th: Local, call: Call,
                k: Key)
    requires PcOk(tags, stored, th, call, k) && tags <= tags' && Grown(stored, stored')
    ensures PcOk(tags', stored', th, call, k)
  {
    hide AtHang, AtPath, Leaves, WriteOk;
    assert forall i | 0 <= i < |tags| :: tags'[i] == tags[i];
    forall p | OnAWay(stored, p) ensures OnAWay(stored', p) {
      OtherWay(stored, stored', p);
    }
    hide OnAWay;
    if th.pc == Writing {
      OtherWrite(tags, tags', th, call, k);
    }
  }

  lemma OtherWay(stored: map<Key, Tid>, stored': map<Key, Tid>, p: Key)
    requires OnAWay(stored, p) && Grown(stored, stored')
    ensures OnAWay(stored', p)
  {
  }

  lemma OtherWrite(tags: seq<Tag>, tags': seq<Tag>, th: Local, call: Call, k: Key)
    requires WriteOk(tags, th, call, k) && tags <= tags'
    ensures WriteOk(tags', th, call, k)
  {
    hide Placing, Pending, Past;
    assert tags'[th.anchor] == tags[th.anchor] && tags'[th.victim] == tags[th.victim];
    if Pending(th, Change) && Past(th, Create) {
      assert tags'[th.made..th.made + NewNodes(th.kind)] == tags[th.made..th.made + NewNodes(th.kind)];
    }
  }

  // ----- walking down

  lemma SubsetFree(universe: set<Key>, keys: set<Key>)
    requires Shape.PrefixFree(universe) && keys <= universe
    ensures Shape.PrefixFree(keys)
  {
  }

  /** What a validated read of a child pointer tells. */
  lemma ReadTells(ks: Keyed, i: nat, b: Byte, call: Call, k: Key)
    requires ViewOk(ks.s.nodes, ks.tags, ks.stored, ks.view) && StoredOk(ks.stored, ks.universe)
    requires InTree(ks.s.nodes, i) && i < |ks.tags| && Here(ks.stored, ks.tags[i], call, k)
    requires AtPath(ks.tags[i], call, k, b)
    requires k in call.before ==> k in ks.stored
    ensures var next := Kid(ks.s.nodes[i], b);
            if next.Some? then next.value < |ks.tags| && ChildOk(ks.tags[i], ks.tags[next.value], ks.stored, call, k, b)
            else k !in call.before
  {
    hide Shape.ShapeOk, HangsOk, PlacesOk, KidsOk, Shape.PrefixFree, TagsOk, OnAWay;
    var n, next := ks.tags[i], Kid(ks.s.nodes[i], b);
    AnchorInView(ks.s.nodes, ks.tags, ks.stored, ks.view, i, b);
    if k in call.before {
      Shape.EdgeOfKey(ks.stored.Keys, ks.view.inner.Keys, ks.view.edges, n.path, k);
    }
    if next.Some? {
      EdgeBehind(ks.s.nodes, ks.tags, ks.stored, ks.view, n.path, b, next.value);
      InnerChild(ks, n.path, b, next.value);
      if !ks.tags[next.value].leaf {
        InnerOnAWay(ks, ks.tags[next.value].path);
      }
      if k in call.before && !ks.tags[next.value].leaf {
        InnerBefore(ks, ks.tags[next.value].path, k);
      }
    }
  }

  lemma InnerOnAWay(ks: Keyed, p: Key)
    requires ViewOk(ks.s.nodes, ks.tags, ks.stored, ks.view) && p in ks.view.inner
    ensures OnAWay(ks.stored, p)
  {
    hide TagsOk, PlacesOk, KidsOk, HangsOk, Shape.EdgesOk;
    if p != [] {
      var a, b := Shape.BelowInner(ks.stored.Keys, ks.view.inner.Keys, p);
      assert a in ks.stored;
    }
  }

  /** The compressed prefix of an inner child begins behind the edge. */
  lemma InnerChild(ks: Keyed, p: Key, b: Byte, x: nat)
    requires ViewOk(ks.s.nodes, ks.tags, ks.stored, ks.view) && EdgeTo(ks.view, p, b) == Some(x) && x < |ks.tags|
    requires ks.view.edges[Shape.Edge(p, b)] == TargetOf(ks.tags[x])
    ensures !ks.tags[x].leaf ==>
              ks.tags[x].path in ks.view.inner && ks.tags[x].hang == |p| + 1 && ks.tags[x].hang <= |ks.tags[x].path|
  {
    hide Shape.ShapeOk, KidsOk, PlacesOk;
    if !ks.tags[x].leaf {
      InnerEdge(ks.stored, ks.view, Shape.Edge(p, b));
    }
  }

  lemma InnerEdge(stored: map<Key, Tid>, w: View, e: Shape.Edge)
    requires Shape.ShapeOk(stored.Keys, w.inner.Keys, w.edges) && e in w.edges
    ensures w.edges[e].ToInner? ==> w.edges[e].path in w.inner
  {
    TargetKnown(stored, w, e);
  }

  /** A key of the universe goes on past the path of an inner node. */
  lemma InnerBefore(ks: Keyed, p: Key, k: Key)
    requires ViewOk(ks.s.nodes, ks.tags, ks.stored, ks.view) && StoredOk(ks.stored, ks.universe)
    requires k in ks.stored && p in ks.view.inner && Prefix(p, k)
    ensures |p| < |k|
  {
    hide TagsOk, PlacesOk, KidsOk, HangsOk, Shape.InnerOk, Shape.EdgesOk, Shape.PrefixFree;
    assert ks.stored.Keys + {k} == ks.stored.Keys;
    SubsetFree(ks.universe, ks.stored.Keys);
    Shape.KeyBeyondInner(ks.stored.Keys, ks.view.inner.Keys, p, k);
  }

  lemma RootTag(ks: Keyed)
    requires ViewOk(ks.s.nodes, ks.tags, ks.stored, ks.view)
    ensures |ks.tags| > 0 && ks.tags[0].path == [] && ks.tags[0].hang == 0 && !ks.tags[0].leaf
  {
    hide Shape.ShapeOk, KidsOk, HangsOk;
    assert InnerAt(ks.s.nodes, ks.tags, ks.view.inner[[]], []);
  }

  // ----- comparing prefixes

  /** The optimistic check of a prefix that is stored in full. */
  lemma StoredPrefix(n: Tag, k: Key, level: nat)
    requires level == n.hang <= |n.path| && Prefix(n.path[..level], k) && !Fails(n, k, level)
    requires n.PrefixLength() <= Shape.MAX_STORED_PREFIX
    requires level + n.PrefixLength() < |k|
    ensures Prefix(n.path, k)
  {
    forall i | 0 <= i < |n.path| ensures n.path[i] == k[i] {
      if i < level {
        assert n.path[..level][i] == k[..level][i];
      } else {
        assert !StoredByteDiffers(n, k, level, i - level);
      }
    }
    assert n.path == k[..|n.path|];
  }

  /** The pessimistic check finds the first byte of the prefix at which the key differs. */
  lemma FirstDifference(n: Tag, kt: Option<Key>, k: Key, level: nat, i: nat)
    requires level == n.hang <= |n.path| && (kt.Some? ==> Prefix(n.path, kt.value))
    requires n.PrefixLength() > Shape.MAX_STORED_PREFIX ==> kt.Some?
    requires i <= n.PrefixLength() && Prefix(n.path[..level + i], k)
    ensures var d := Differs(n, kt, k, level, i);
            && i <= d <= n.PrefixLength() && Prefix(n.path[..level + d], k)
            && (d < n.PrefixLength() ==>
                  PrefixByte(n, kt, level, d) == Some(n.path[level + d])
                  && (level + d < |k| ==> k[level + d] != n.path[level + d]))
    decreases n.PrefixLength() - i
  {
    hide Prefix, PrefixByte;
    if i < n.PrefixLength() {
      KnownByte(n, kt, level, i);
      if PrefixByte(n, kt, level, i) == KeyByte(k, level + i) {
        OneMore(n.path, k, level + i);
        FirstDifference(n, kt, k, level, i + 1);
      }
    }
  }

  lemma KnownByte(n: Tag, kt: Option<Key>, level: nat, i: nat)
    requires level == n.hang <= |n.path| && (kt.Some? ==> Prefix(n.path, kt.value))
    requires n.PrefixLength() > Shape.MAX_STORED_PREFIX ==> kt.Some?
    requires i < n.PrefixLength()
    ensures PrefixByte(n, kt, level, i) == Some(n.path[level + i])
  {
    if kt.Some? {
      Shape.SameByte(n.path, kt.value, level + i);
    }
  }

  lemma OneMore(p: Key, k: Key, j: nat)
    requires j < |p| && j < |k| && Prefix(p[..j], k) && p[j] == k[j]
    ensures Prefix(p[..j + 1], k)
  {
    assert p[..j + 1] == p[..j] + [p[j]];
    assert k[..j + 1] == k[..j] + [k[j]];
  }

  /** Behind a compared prefix. */
  lemma PastPrefix(n: Tag, call: Call, k: Key, c: Choice)
    requires AtHang(n, call, k) && c.Look?
    requires if call.op.Put? then PutChoice(n, call.kt, k, call.level, c) else LookupChoice(n, k, call.level, c)
    ensures var exact := call.exact && n.PrefixLength() <= Shape.MAX_STORED_PREFIX;
            AtPath(n, call.(level := call.level + n.PrefixLength(), exact := exact), k, c.b)
  {
    hide Fails;
    if call.op.Put? {
      assert n.path[..call.level + 0] == n.path[..call.level];
      FirstDifference(n, call.kt, k, call.level, 0);
      assert n.path[..|n.path|] == n.path;
    } else if call.exact && n.PrefixLength() <= Shape.MAX_STORED_PREFIX {
      StoredPrefix(n, k, call.level);
    }
  }

  /** Where an insert finds a difference. */
  lemma FoundDifference(n: Tag, call: Call, k: Key)
    requires AtHang(n, call, k) && call.op.Put? && PutChoice(n, call.kt, k, call.level, Choice.Split)
    ensures var i := Differs(n, call.kt, k, call.level, 0);
            var b := PrefixByte(n, call.kt, call.level, i);
            Leaves(n, call.(at := call.level + i, other := if b.Some? then b.value else 0), k)
  {
    assert n.path[..call.level + 0] == n.path[..call.level];
    FirstDifference(n, call.kt, k, call.level, 0);
  }

  // ----- steps of the walk

  /** What a thread in an operation knows. */
  lemma InCall(ks: Keyed, t: nat)
    requires KeysOk(ks) && t < |ks.calls| && t < |ks.s.threads| && Busy(ks.s.threads[t].pc)
    ensures var th, call := ks.s.threads[t], ks.calls[t];
            && call.op != NoOp && BaseOk(ks.stored, ks.universe, th, call)
            && PcOk(ks.tags, ks.stored, th, call, call.op.key)
  {
    hide KeysOk, PcOk, BaseOk;
    CallOf(ks, t);
  }

  /** The operation goes on. */
  ghost predicate GoesOn(ks: Keyed, t: nat, th': Local, call': Call) {
    && t < |ks.calls| && t < |ks.s.threads| && Busy(ks.s.threads[t].pc) && Busy(th'.pc) && ks.calls[t].op != NoOp
    && call'.op == ks.calls[t].op && call'.before == ks.calls[t].before
  }

  lemma CallKept(ks: Keyed, t: nat, th': Local, call': Call)
    requires KeysOk(ks) && GoesOn(ks, t, th', call')
    requires Done(th') == Done(ks.s.threads[t]) || !call'.op.Put?
    requires PcOk(ks.tags, ks.stored, th', call', call'.op.key)
    ensures CallOk(ks.tags, ks.stored, ks.universe, th', call')
  {
    hide KeysOk, PcOk, Done;
    InCall(ks, t);
  }

  lemma ToHang(ks: Keyed, t: nat, th': Local, call': Call)
    requires KeysOk(ks) && GoesOn(ks, t, th', call') && !Done(ks.s.threads[t]) && th'.pc in {ReadVersion, Ready}
    requires th'.node < |ks.tags| && Here(ks.stored, ks.tags[th'.node], call', call'.op.key)
    requires AtHang(ks.tags[th'.node], call', call'.op.key)
    ensures CallOk(ks.tags, ks.stored, ks.universe, th', call')
  {
    hide KeysOk, Here, AtHang;
    CallKept(ks, t, th', call');
  }

  lemma ToPath(ks: Keyed, t: nat, th': Local, call': Call)
    requires KeysOk(ks) && GoesOn(ks, t, th', call') && !Done(ks.s.threads[t]) && th'.pc in {CheckNode, Decided}
    requires th'.node < |ks.tags| && Here(ks.stored, ks.tags[th'.node], call', call'.op.key)
    requires AtPath(ks.tags[th'.node], call', call'.op.key, th'.byte)
    requires th'.pc == Decided ==>
               if th'.next.Some? then
                 th'.next.value < |ks.tags|
                 && ChildOk(ks.tags[th'.node], ks.tags[th'.next.value], ks.stored, call', call'.op.key, th'.byte)
               else call'.op.key !in call'.before
    ensures CallOk(ks.tags, ks.stored, ks.universe, th', call')
  {
    hide KeysOk, Here, AtPath, ChildOk;
    CallKept(ks, t, th', call');
  }

  lemma ToProbe(ks: Keyed, t: nat, th': Local, call': Call)
    requires KeysOk(ks) && GoesOn(ks, t, th', call') && !Done(ks.s.threads[t])
    requires th'.pc in {ProbeVersion, ProbeReady, ProbeCheck}
    requires th'.node < |ks.tags| && Here(ks.stored, ks.tags[th'.node], call', call'.op.key)
    requires AtHang(ks.tags[th'.node], call', call'.op.key)
    requires call'.op.Put? && th'.spot < |ks.tags| && Prefix(ks.tags[th'.node].path, ks.tags[th'.spot].path)
    ensures CallOk(ks.tags, ks.stored, ks.universe, th', call')
  {
    hide KeysOk, Here, AtHang;
    CallKept(ks, t, th', call');
  }

  /** Back at the root, nothing is known but what was known when the operation began. */
  lemma RestartCall(ks: Keyed, t: nat, th': Local, call': Call)
    requires KeysOk(ks) && GoesOn(ks, t, th', call') && !Done(ks.s.threads[t])
    requires th'.pc == ReadVersion && th'.node == 0 && call'.level == 0 && call'.kt.None?
    ensures CallOk(ks.tags, ks.stored, ks.universe, th', call')
  {
    hide KeysOk, ViewOk, Inv, PcOk;
    CallOf(ks, t);
    InCall(ks, t);
    RootTag(ks);
    AtRoot(ks.stored, ks.tags[0], call', call'.op.key, ks.universe);
    ToHang(ks, t, th', call');
  }

  lemma AtRoot(stored: map<Key, Tid>, n: Tag, call: Call, k: Key, universe: set<Key>)
    requires n.path == [] && n.hang == 0 && !n.leaf && Shape.PrefixFree(universe) && k in universe
    requires call.level == 0 && call.kt.None?
    ensures Here(stored, n, call, k) && AtHang(n, call, k)
  {
  }

  lemma HangFacts(ks: Keyed, t: nat)
    requires KeysOk(ks) && t < |ks.calls| && t < |ks.s.threads| && HangPc(ks.s.threads[t])
    ensures var th, call := ks.s.threads[t], ks.calls[t];
            && call.op != NoOp && !Done(th) && th.node < |ks.tags|
            && Here(ks.stored, ks.tags[th.node], call, call.op.key) && AtHang(ks.tags[th.node], call, call.op.key)
  {
    hide KeysOk, Here, AtHang;
    InCall(ks, t);
  }

  lemma PathFacts(ks: Keyed, t: nat)
    requires KeysOk(ks) && t < |ks.calls| && t < |ks.s.threads| && PathPc(ks.s.threads[t])
    ensures var th, call := ks.s.threads[t], ks.calls[t];
            && call.op != NoOp && !Done(th) && th.node < |ks.tags|
            && Here(ks.stored, ks.tags[th.node], call, call.op.key)
            && AtPath(ks.tags[th.node], call, call.op.key, th.byte)
  {
    hide KeysOk, Here, AtPath;
    InCall(ks, t);
  }

  lemma ReadVersionCall(ks: Keyed, t: nat, c: Choice, op: Op)
    requires KeysOk(ks) && Allowed(ks, t, c, op) && ks.s.threads[t].pc == ReadVersion
    ensures var th' := WalkStep(ks.s, t, c).local;
            CallOk(ks.tags, ks.stored, ks.universe, th', NextCall(ks, t, c, op, th'))
  {
    hide KeysOk, CallOk, AtHang, Here, Done;
    HangFacts(ks, t);
    var th' := WalkStep(ks.s, t, c).local;
    if th'.pc == ReadVersion {
      RestartCall(ks, t, th', NextCall(ks, t, c, op, th'));
    } else {
      ToHang(ks, t, th', NextCall(ks, t, c, op, th'));
    }
  }

  lemma CheckNodeCall(ks: Keyed, t: nat, c: Choice, op: Op)
    requires KeysOk(ks) && Allowed(ks, t, c, op) && ks.s.threads[t].pc == CheckNode
    ensures var th' := WalkStep(ks.s, t, c).local;
            CallOk(ks.tags, ks.stored, ks.universe, th', NextCall(ks, t, c, op, th'))
  {
    hide KeysOk, CallOk, AtPath, Here, ChildOk, Done;
    PathFacts(ks, t);
    var th, call := ks.s.threads[t], ks.calls[t];
    var th' := WalkStep(ks.s, t, c).local;
    if th'.pc == ReadVersion {
      RestartCall(ks, t, th', NextCall(ks, t, c, op, th'));
    } else {
      Validated(ks, t, th');
      ToPath(ks, t, th', call);
    }
  }

  lemma Validated(ks: Keyed, t: nat, th': Local)
    requires KeysOk(ks) && t < |ks.calls| && t < |ks.s.threads| && ks.s.threads[t].pc == CheckNode
    requires var th := ks.s.threads[t]; Clean(Get(ks.s.nodes, th.node), th.v) && th' == Hold(th.At(Decided), th.next)
    ensures var th, call := ks.s.threads[t], ks.calls[t];
            && call.op != NoOp && th.node < |ks.tags|
            && if th.next.Some? then
                 th.next.value < |ks.tags|
                 && ChildOk(ks.tags[th.node], ks.tags[th.next.value], ks.stored, call, call.op.key, th.byte)
               else call.op.key !in call.before
  {
    hide KeysOk, ViewOk, StoredOk, PcOk, Inv, AtPath, Here, ChildOk, WalkFacts, Hold, CallOk;
    var th, call := ks.s.threads[t], ks.calls[t];
    PathFacts(ks, t);
    CallOf(ks, t);
    InCall(ks, t);
    Walking(ks.s, t);
    CheckNodeWalks(ks.s, t, th');
    CleanIsLinked(ks.s, t, th.node, th.v);
    ReadTells(ks, th.node, th.byte, call, call.op.key);
  }

  lemma NoByteDiffers(n: Tag, k: Key)
    requires Prefix(n.path, k)
    ensures forall i: nat :: !StoredByteDiffers(n, k, n.hang, i)
  {
    forall i: nat ensures !StoredByteDiffers(n, k, n.hang, i) {
      if n.hang + i < |n.path| {
        Shape.SameByte(n.path, k, n.hang + i);
      }
    }
  }

  /** A lookup whose key leaves the prefix, or ends in it: the key was not stored when the lookup began. */
  lemma NoMatch(stored: map<Key, Tid>, n: Tag, call: Call, k: Key)
    requires Here(stored, n, call, k) && AtHang(n, call, k) && LookupChoice(n, k, call.level, GiveUp)
    ensures k !in call.before
  {
    if k in call.before {
      NoByteDiffers(n, k);
    }
  }

  /** What following a byte does to a thread and its operation. */
  lemma LookNext(ks: Keyed, t: nat, c: Choice, op: Op)
    requires Allowed(ks, t, c, op) && ks.s.threads[t].pc == Ready && c.Look?
    ensures t < |ks.s.threads| == |ks.s.lists| && t < |ks.calls|
    ensures var th, call := ks.s.threads[t], ks.calls[t];
            var th' := WalkStep(ks.s, t, c).local;
            var n := TagOf(ks.tags, th.node);
            && th'.pc == CheckNode && th'.node == th.node && th'.byte == c.b
            && NextCall(ks, t, c, op, th')
               == call.(level := call.level + n.PrefixLength(),
                        exact := call.exact && n.PrefixLength() <= Shape.MAX_STORED_PREFIX)
            && (call.op.Put? || call.op.Lookup?)
            && if call.op.Put? then PutChoice(n, call.kt, call.op.key, call.level, c)
               else LookupChoice(n, call.op.key, call.level, c)
  {
    hide PutChoice, LookupChoice;
  }

  /** What finding a difference in a prefix does to a thread and its operation. */
  lemma SplitNext(ks: Keyed, t: nat, c: Choice, op: Op)
    requires Allowed(ks, t, c, op) && ks.s.threads[t].pc == Ready && c.Split?
    ensures t < |ks.s.threads| == |ks.s.lists| && t < |ks.calls|
    ensures var th, call := ks.s.threads[t], ks.calls[t];
            var th' := WalkStep(ks.s, t, c).local;
            var n := TagOf(ks.tags, th.node);
            && th' == (if th.parent.Some? then th.(pc := UpgradeParent, kind := PrefixSplit) else th)
            && call.op.Put? && PutChoice(n, call.kt, call.op.key, call.level, c)
            && var i := Differs(n, call.kt, call.op.key, call.level, 0);
               var b := PrefixByte(n, call.kt, call.level, i);
               NextCall(ks, t, c, op, th') == call.(at := call.level + i, other := if b.Some? then b.value else 0)
  {
    hide PutChoice, Differs, PrefixByte;
  }

  lemma LookCall(ks: Keyed, t: nat, c: Choice, op: Op)
    requires KeysOk(ks) && Allowed(ks, t, c, op) && ks.s.threads[t].pc == Ready && c.Look?
    ensures var th' := WalkStep(ks.s, t, c).local;
            CallOk(ks.tags, ks.stored, ks.universe, th', NextCall(ks, t, c, op, th'))
  {
    hide KeysOk, CallOk, AtPath, AtHang, Here, LookupChoice, PutChoice, Done, WalkStep, NextCall, Allowed;
    LookNext(ks, t, c, op);
    HangFacts(ks, t);
    var th, call := ks.s.threads[t], ks.calls[t];
    var th' := WalkStep(ks.s, t, c).local;
    var n, k, call' := ks.tags[th.node], call.op.key, NextCall(ks, t, c, op, th');
    PastPrefix(n, call, k, c);
    StillHere(ks.stored, n, call, call', k);
    ToPath(ks, t, th', call');
  }

  lemma ProbeCall(ks: Keyed, t: nat, c: Choice, op: Op)
    requires KeysOk(ks) && Allowed(ks, t, c, op) && ks.s.threads[t].pc == Ready && c.Probe?
    ensures var th' := WalkStep(ks.s, t, c).local;
            CallOk(ks.tags, ks.stored, ks.universe, th', NextCall(ks, t, c, op, th'))
  {
    hide KeysOk, CallOk, AtHang, Here, LookupChoice, PutChoice, Done;
    HangFacts(ks, t);
    var th, call := ks.s.threads[t], ks.calls[t];
    OnlyPutsSplit(ks.tags[th.node], call, call.op.key, c);
    ToProbe(ks, t, WalkStep(ks.s, t, c).local, call);
  }

  lemma SplitCall(ks: Keyed, t: nat, c: Choice, op: Op)
    requires KeysOk(ks) && Allowed(ks, t, c, op) && ks.s.threads[t].pc == Ready && c.Split?
    ensures var th' := WalkStep(ks.s, t, c).local;
            CallOk(ks.tags, ks.stored, ks.universe, th', NextCall(ks, t, c, op, th'))
  {
    hide KeysOk, CallOk, PcOk, AtHang, Here, Leaves, LookupChoice, PutChoice, Done, Differs, PrefixByte, WalkStep,
         NextCall, Allowed;
    SplitNext(ks, t, c, op);
    HangFacts(ks, t);
    var th, call := ks.s.threads[t], ks.calls[t];
    var th' := WalkStep(ks.s, t, c).local;
    var n, k, call' := ks.tags[th.node], call.op.key, NextCall(ks, t, c, op, th');
    FoundDifference(n, call, k);
    StillHere(ks.stored, n, call, call', k);
    if th.parent.Some? {
      ToUpgrade(ks, t, th', call');
    } else {
      ToHang(ks, t, th', call');
    }
  }

  /** An insert that has found where its key leaves a prefix. */
  lemma ToUpgrade(ks: Keyed, t: nat, th': Local, call': Call)
    requires KeysOk(ks) && GoesOn(ks, t, th', call') && !Done(ks.s.threads[t])
    requires th'.pc == UpgradeParent && th'.kind == PrefixSplit && call'.op.Put?
    requires th'.node < |ks.tags| && Here(ks.stored, ks.tags[th'.node], call', call'.op.key)
    requires AtHang(ks.tags[th'.node], call', call'.op.key) && Leaves(ks.tags[th'.node], call', call'.op.key)
    ensures CallOk(ks.tags, ks.stored, ks.universe, th', call')
  {
    hide KeysOk, Here, AtHang, Leaves;
    CallKept(ks, t, th', call');
  }

  lemma ToAnswer(ks: Keyed, t: nat, th': Local, call': Call)
    requires KeysOk(ks) && GoesOn(ks, t, th', call') && th'.pc == Leave
    requires call'.op.Lookup? && AnswerOk(ks.stored, call', call'.op.key)
    ensures CallOk(ks.tags, ks.stored, ks.universe, th', call')
  {
    hide KeysOk, AnswerOk;
    CallKept(ks, t, th', call');
  }

  lemma GiveUpCall(ks: Keyed, t: nat, c: Choice, op: Op)
    requires KeysOk(ks) && Allowed(ks, t, c, op) && ks.s.threads[t].pc == Ready && c.GiveUp?
    ensures var th' := WalkStep(ks.s, t, c).local;
            CallOk(ks.tags, ks.stored, ks.universe, th', NextCall(ks, t, c, op, th'))
  {
    hide KeysOk, CallOk, AtHang, Here, LookupChoice, PutChoice, Done;
    HangFacts(ks, t);
    var th, call := ks.s.threads[t], ks.calls[t];
    var th' := WalkStep(ks.s, t, c).local;
    var n, k := ks.tags[th.node], call.op.key;
    OnlyLookupsGiveUp(n, call, k, c);
    NoMatch(ks.stored, n, call, k);
    ToAnswer(ks, t, th', NextCall(ks, t, c, op, th'));
  }

  lemma ReadyCall(ks: Keyed, t: nat, c: Choice, op: Op)
    requires KeysOk(ks) && Allowed(ks, t, c, op) && ks.s.threads[t].pc == Ready
    ensures var th' := WalkStep(ks.s, t, c).local;
            CallOk(ks.tags, ks.stored, ks.universe, th', NextCall(ks, t, c, op, th'))
  {
    hide KeysOk, CallOk, Here, AtHang, LookupChoice, PutChoice, Done;
    match c {
      case Look(b, garbage) => LookCall(ks, t, c, op);
      case Split => SplitCall(ks, t, c, op);
      case Probe => ProbeCall(ks, t, c, op);
      case GiveUp => GiveUpCall(ks, t, c, op);
      case _ =>
        HangFacts(ks, t);
        var th' := WalkStep(ks.s, t, c).local;
        RestartCall(ks, t, th', NextCall(ks, t, c, op, th'));
    }
  }

  lemma OnlyPutsSplit(n: Tag, call: Call, k: Key, c: Choice)
    requires LookupChoice(n, k, call.level, c) || call.op.Put?
    ensures c.Split? || c.Probe? ==> call.op.Put?
  {
  }

  lemma OnlyLookupsGiveUp(n: Tag, call: Call, k: Key, c: Choice)
    requires call.op.Lookup? || PutChoice(n, call.kt, k, call.level, c)
    ensures c.GiveUp? ==> call.op.Lookup?
  {
  }

  lemma StillHere(stored: map<Key, Tid>, n: Tag, call: Call, call': Call, k: Key)
    requires Here(stored, n, call, k) && call'.before == call.before
    ensures Here(stored, n, call', k)
    ensures AtHang(n, call, k) && call' == call.(at := call'.at, other := call'.other) ==> AtHang(n, call', k)
  {
  }

  // ----- what is found below a node

  lemma Found(ks: Keyed, t: nat)
    requires KeysOk(ks) && t < |ks.calls| && t < |ks.s.threads| && NextPc(ks.s.threads[t])
    ensures var th, call := ks.s.threads[t], ks.calls[t];
            && call.op != NoOp && th.node < |ks.tags|
            && (th.next.Some? ==>
                  th.next.value < |ks.tags|
                  && ChildOk(ks.tags[th.node], ks.tags[th.next.value], ks.stored, call, call.op.key, th.byte))
            && (th.pc == Decided && th.next.None? ==> call.op.key !in call.before)
  {
    hide KeysOk, Here, AtPath, ChildOk;
    InCall(ks, t);
  }

  lemma StoredInUniverse(ks: Keyed, a: Key, b: Key)
    requires StoredOk(ks.stored, ks.universe) && a in ks.stored && b in ks.universe && Prefix(a, b)
    ensures a == b
  {
  }

  /** The answer at a leaf, or where no child is: what is returned is stored; 0 means that the key was not, at first. */
  lemma AnswerRight(ks: Keyed, t: nat)
    requires KeysOk(ks) && t < |ks.calls| && t < |ks.s.threads| && ks.s.threads[t].pc == Decided
    requires var th := ks.s.threads[t]; th.next.Some? ==> TagOf(ks.tags, th.next.value).leaf
    ensures var th, call := ks.s.threads[t], ks.calls[t];
            && call.op != NoOp
            && (call.op.Lookup? ==>
                  AnswerOk(ks.stored, call.(answer := Some(Answer(ks, th, call, call.op.key))), call.op.key))
  {
    hide KeysOk, ViewOk, PcOk, Inv, CallOk;
    var th, call := ks.s.threads[t], ks.calls[t];
    CallOf(ks, t);
    InCall(ks, t);
    PathFacts(ks, t);
    Found(ks, t);
    if th.next.Some? && call.op.Lookup? {
      LeafAnswer(ks, ks.tags[th.node], ks.tags[th.next.value], call, call.op.key, th.byte,
                 Answer(ks, th, call, call.op.key));
    }
  }

  lemma LeafAnswer(ks: Keyed, n: Tag, x: Tag, call: Call, k: Key, b: Byte, answer: Tid)
    requires StoredOk(ks.stored, ks.universe) && k in ks.universe && x.leaf
    requires AtPath(n, call, k, b) && ChildOk(n, x, ks.stored, call, k, b)
    requires answer == if call.level + 1 < |k| || !call.exact then (if x.path == k then x.tid else 0) else x.tid
    ensures AnswerOk(ks.stored, call.(answer := Some(answer)), k)
  {
    if call.level + 1 < |k| || !call.exact {
      if k in call.before {
        StoredInUniverse(ks, x.path, k);
      }
    } else {
      assert k == n.path + [b];
      assert Prefix(k, x.path);
      SameKey(ks, k, x.path);
    }
  }

  lemma SameKey(ks: Keyed, a: Key, b: Key)
    requires StoredOk(ks.stored, ks.universe) && a in ks.universe && b in ks.stored && Prefix(a, b)
    ensures a == b
  {
  }

  lemma FinishLookup(ks: Keyed, t: nat, c: Choice, op: Op)
    requires KeysOk(ks) && Allowed(ks, t, c, op) && ks.s.threads[t].pc == Decided && c.GiveUp?
    ensures var th' := WalkStep(ks.s, t, c).local;
            CallOk(ks.tags, ks.stored, ks.universe, th', NextCall(ks, t, c, op, th'))
  {
    hide KeysOk, CallOk, Answer, AnswerOk;
    AnswerRight(ks, t);
    var th' := WalkStep(ks.s, t, c).local;
    ToAnswer(ks, t, th', NextCall(ks, t, c, op, th'));
  }

  lemma DescendCall(ks: Keyed, t: nat, c: Choice, op: Op)
    requires KeysOk(ks) && Allowed(ks, t, c, op) && ks.s.threads[t].pc == Decided && c.Descend?
    ensures var th' := WalkStep(ks.s, t, c).local;
            CallOk(ks.tags, ks.stored, ks.universe, th', NextCall(ks, t, c, op, th'))
  {
    hide KeysOk, CallOk, Here, AtPath, ChildOk, AtHang, Done, Inv, ViewOk;
    PathFacts(ks, t);
    Found(ks, t);
    CallOf(ks, t);
    var th, call := ks.s.threads[t], ks.calls[t];
    var th' := WalkStep(ks.s, t, c).local;
    var call' := NextCall(ks, t, c, op, th');
    LeafTag(ks, th.next.value);
    Below(ks.tags[th.node], ks.tags[th.next.value], ks.stored, call, call', call.op.key, th.byte);
    ToHang(ks, t, th', call');
  }

  lemma LeafTag(ks: Keyed, i: nat)
    requires ViewOk(ks.s.nodes, ks.tags, ks.stored, ks.view) && i < |ks.tags|
    ensures i < |ks.s.nodes| && ks.tags[i].leaf == ks.s.nodes[i].leaf
  {
    hide Shape.ShapeOk, PlacesOk, KidsOk, HangsOk;
  }

  lemma Below(n: Tag, x: Tag, stored: map<Key, Tid>, call: Call, call': Call, k: Key, b: Byte)
    requires AtPath(n, call, k, b) && ChildOk(n, x, stored, call, k, b) && !x.leaf
    requires call' == call.(level := call.level + 1, kt := None)
    ensures Here(stored, x, call', k) && AtHang(x, call', k)
  {
    if call.op.Put? || call.exact {
      assert x.path[..call'.level] == n.path + [b];
      assert k[..call'.level] == n.path + [b];
    }
  }

  lemma InsertCall(ks: Keyed, t: nat, c: Choice, op: Op)
    requires KeysOk(ks) && Allowed(ks, t, c, op) && ks.s.threads[t].pc == Decided && c.Insert?
    ensures var th' := WalkStep(ks.s, t, c).local;
            CallOk(ks.tags, ks.stored, ks.universe, th', NextCall(ks, t, c, op, th'))
  {
    hide KeysOk, CallOk, PcOk, Here, AtPath, ChildOk, Done;
    PathFacts(ks, t);
    Found(ks, t);
    InsertPc(ks, t, c, op);
    var th' := WalkStep(ks.s, t, c).local;
    CallKept(ks, t, th', NextCall(ks, t, c, op, th'));
  }

  lemma InsertPc(ks: Keyed, t: nat, c: Choice, op: Op)
    requires KeysOk(ks) && Allowed(ks, t, c, op) && ks.s.threads[t].pc == Decided && c.Insert?
    requires ks.calls[t].op != NoOp
    ensures var th' := WalkStep(ks.s, t, c).local;
            && GoesOn(ks, t, th', NextCall(ks, t, c, op, th')) && Done(th') == Done(ks.s.threads[t])
            && PcOk(ks.tags, ks.stored, th', NextCall(ks, t, c, op, th'), ks.calls[t].op.key)
  {
    hide KeysOk, CallOk, Here, AtPath, ChildOk;
    InCall(ks, t);
  }

  lemma DecidedCall(ks: Keyed, t: nat, c: Choice, op: Op)
    requires KeysOk(ks) && Allowed(ks, t, c, op) && ks.s.threads[t].pc == Decided
    ensures var th' := WalkStep(ks.s, t, c).local;
            CallOk(ks.tags, ks.stored, ks.universe, th', NextCall(ks, t, c, op, th'))
  {
    hide KeysOk, CallOk, Here, AtPath, ChildOk, Done;
    if c.GiveUp? {
      FinishLookup(ks, t, c, op);
    } else if c.Descend? {
      DescendCall(ks, t, c, op);
    } else if c.Insert? {
      InsertCall(ks, t, c, op);
    } else {
      PathFacts(ks, t);
      var th' := WalkStep(ks.s, t, c).local;
      RestartCall(ks, t, th', NextCall(ks, t, c, op, th'));
    }
  }

  // ----- looking for a leaf

  lemma ProbeFacts(ks: Keyed, t: nat)
    requires KeysOk(ks) && t < |ks.calls| && t < |ks.s.threads|
    requires ks.s.threads[t].pc in {ProbeVersion, ProbeReady, ProbeCheck}
    ensures var th, call := ks.s.threads[t], ks.calls[t];
            call.op.Put? && th.node < |ks.tags| && th.spot < |ks.tags|
            && Prefix(ks.tags[th.node].path, ks.tags[th.spot].path)
  {
    hide KeysOk, Here, AtHang;
    InCall(ks, t);
  }

  lemma ProbingCall(ks: Keyed, t: nat, c: Choice, op: Op)
    requires KeysOk(ks) && Allowed(ks, t, c, op) && ks.s.threads[t].pc in {ProbeVersion, ProbeReady}
    ensures var th' := WalkStep(ks.s, t, c).local;
            CallOk(ks.tags, ks.stored, ks.universe, th', NextCall(ks, t, c, op, th'))
  {
    hide KeysOk, CallOk, Here, AtHang, Done;
    HangFacts(ks, t);
    ProbeFacts(ks, t);
    var th' := WalkStep(ks.s, t, c).local;
    if th'.pc == ReadVersion {
      RestartCall(ks, t, th', NextCall(ks, t, c, op, th'));
    } else {
      ToProbe(ks, t, th', NextCall(ks, t, c, op, th'));
    }
  }

  /** What a validated read finds below the node of the probe is below the node the probe began at. */
  lemma ProbeTells(ks: Keyed, t: nat)
    requires KeysOk(ks) && t < |ks.calls| && t < |ks.s.threads| && ks.s.threads[t].pc == ProbeCheck
    requires Clean(Get(ks.s.nodes, ks.s.threads[t].spot), ks.s.threads[t].sv) && ks.s.threads[t].snext.Some?
    ensures var th := ks.s.threads[t];
            && th.node < |ks.tags| && th.snext.value < |ks.tags|
            && Prefix(ks.tags[th.node].path, ks.tags[th.snext.value].path)
  {
    hide KeysOk, ViewOk, Inv, CallOk, StoredOk;
    var th := ks.s.threads[t];
    CallOf(ks, t);
    ProbeFacts(ks, t);
    ProbeSpot(ks.s, t);
    LeafTag(ks, th.spot);
    ChildBelow(ks, th.spot, th.sb, th.snext.value);
    PrefixTrans(ks.tags[th.node].path, ks.tags[th.spot].path, ks.tags[th.snext.value].path);
  }

  lemma ProbeSpot(s: State, t: nat)
    requires Inv(s) && t < |s.threads| && s.threads[t].pc == ProbeCheck
    requires Clean(Get(s.nodes, s.threads[t].spot), s.threads[t].sv)
    ensures var th := s.threads[t];
            && InTree(s.nodes, th.spot) && !s.nodes[th.spot].leaf && th.snext == Kid(s.nodes[th.spot], th.sb)
  {
    hide Inv, WalkOk, LockingOk;
    var th := s.threads[t];
    Walking(s, t);
    ProbeCheckKnows(s, t);
    CleanIsLinked(s, t, th.spot, th.sv);
  }

  lemma ChildBelow(ks: Keyed, i: nat, b: Byte, x: nat)
    requires ViewOk(ks.s.nodes, ks.tags, ks.stored, ks.view) && InTree(ks.s.nodes, i) && i < |ks.tags|
    requires !ks.tags[i].leaf
    requires Kid(ks.s.nodes[i], b) == Some(x)
    ensures x < |ks.tags| && Prefix(ks.tags[i].path, ks.tags[x].path)
  {
    hide Shape.ShapeOk, HangsOk, PlacesOk, KidsOk, TagsOk;
    AnchorInView(ks.s.nodes, ks.tags, ks.stored, ks.view, i, b);
    EdgeBehind(ks.s.nodes, ks.tags, ks.stored, ks.view, ks.tags[i].path, b, x);
  }

  lemma ProbeCheckCall(ks: Keyed, t: nat, c: Choice, op: Op)
    requires KeysOk(ks) && Allowed(ks, t, c, op) && ks.s.threads[t].pc == ProbeCheck
    ensures var th' := WalkStep(ks.s, t, c).local;
            CallOk(ks.tags, ks.stored, ks.universe, th', NextCall(ks, t, c, op, th'))
  {
    hide KeysOk, CallOk, Here, AtHang, Done;
    HangFacts(ks, t);
    ProbeFacts(ks, t);
    var th, call := ks.s.threads[t], ks.calls[t];
    var th' := WalkStep(ks.s, t, c).local;
    var call' := NextCall(ks, t, c, op, th');
    if th'.pc == ReadVersion {
      RestartCall(ks, t, th', call');
    } else {
      if th.snext.Some? {
        ProbeTells(ks, t);
      }
      LoadedKey(ks.stored, ks.tags[th.node], call, call', call.op.key);
      if th'.pc == Ready {
        ToHang(ks, t, th', call');
      } else {
        ToProbe(ks, t, th', call');
      }
    }
  }

  lemma LoadedKey(stored: map<Key, Tid>, n: Tag, call: Call, call': Call, k: Key)
    requires Here(stored, n, call, k) && AtHang(n, call, k) && call' == call.(kt := call'.kt)
    requires call'.kt == call.kt || (call'.kt.Some? && Prefix(n.path, call'.kt.value))
    ensures Here(stored, n, call', k) && AtHang(n, call', k)
  {
  }

  // ----- taking locks

  lemma UpgradeParentCall(ks: Keyed, t: nat, c: Choice, op: Op)
    requires KeysOk(ks) && Allowed(ks, t, c, op) && ks.s.threads[t].pc == UpgradeParent
    requires ks.s.threads[t].kind in {Grow, PrefixSplit}
    ensures var th' := LockStep(ks.s, t).local;
            CallOk(ks.tags, ks.stored, ks.universe, th', NextCall(ks, t, c, op, th'))
  {
    hide KeysOk, CallOk, Here, AtHang, AtPath, Leaves;
    InCall(ks, t);
    var th' := LockStep(ks.s, t).local;
    var call' := NextCall(ks, t, c, op, th');
    if th'.pc == ReadVersion {
      RestartCall(ks, t, th', call');
    } else {
      CallKept(ks, t, th', call');
    }
  }

  lemma UpgradeNodeCall(ks: Keyed, t: nat, c: Choice, op: Op)
    requires KeysOk(ks) && Allowed(ks, t, c, op) && ks.s.threads[t].pc == UpgradeNode && ks.s.threads[t].parent.Some?
    requires ks.s.threads[t].kind in {Grow, PrefixSplit} && ks.s.threads[t].parent.value < |ks.tags|
    ensures var th' := LockStep(ks.s, t).local;
            CallOk(ks.tags, ks.stored, ks.universe, th', NextCall(ks, t, c, op, th'))
  {
    hide KeysOk, CallOk, AtHang, Leaves;
    InCall(ks, t);
    var th' := LockStep(ks.s, t).local;
    var call' := NextCall(ks, t, c, op, th');
    CallKept(ks, t, th', call');
  }

  lemma ReleaseCall(ks: Keyed, t: nat, c: Choice, op: Op)
    requires KeysOk(ks) && Allowed(ks, t, c, op) && ks.s.threads[t].pc == ReleaseParent
    ensures var th' := LockStep(ks.s, t).local;
            CallOk(ks.tags, ks.stored, ks.universe, th', NextCall(ks, t, c, op, th'))
  {
    hide KeysOk, CallOk, PcOk;
    InCall(ks, t);
    var th' := LockStep(ks.s, t).local;
    RestartCall(ks, t, th', NextCall(ks, t, c, op, th'));
  }

  lemma UpgradeOnlyCall(ks: Keyed, t: nat, c: Choice, op: Op)
    requires KeysOk(ks) && Allowed(ks, t, c, op) && ks.s.threads[t].pc == UpgradeOnly
    requires ks.s.threads[t].kind in {Plain, LeafSplit} && |ks.tags| > 0
    ensures var th' := LockStep(ks.s, t).local;
            CallOk(ks.tags, ks.stored, ks.universe, th', NextCall(ks, t, c, op, th'))
  {
    hide KeysOk, CallOk, Here, ChildOk;
    InCall(ks, t);
    var th' := LockStep(ks.s, t).local;
    var call' := NextCall(ks, t, c, op, th');
    if th'.pc == ReadVersion {
      RestartCall(ks, t, th', call');
    } else {
      CallKept(ks, t, th', call');
    }
  }

  lemma LeafLockCall(ks: Keyed, t: nat, c: Choice, op: Op)
    requires KeysOk(ks) && Allowed(ks, t, c, op) && ks.s.threads[t].pc in {ReadLeaf, UpgradeLeaf}
    requires var th := ks.s.threads[t];
             th.kind == LeafSplit && th.next.Some? && th.next.value < |ks.tags| && ks.tags[th.next.value].leaf
    ensures var th' := LockStep(ks.s, t).local;
            CallOk(ks.tags, ks.stored, ks.universe, th', NextCall(ks, t, c, op, th'))
  {
    hide KeysOk, CallOk, Here;
    InCall(ks, t);
    var th' := LockStep(ks.s, t).local;
    var call' := NextCall(ks, t, c, op, th');
    CallKept(ks, t, th', call');
  }

  /** What the protocol knows about a thread that takes locks. */
  lemma LockFacts(ks: Keyed, t: nat)
    requires KeysOk(ks) && t < |ks.calls| && t < |ks.s.threads|
    requires ks.s.threads[t].pc in {UpgradeParent, UpgradeNode, UpgradeOnly, ReadLeaf, UpgradeLeaf}
    ensures var th := ks.s.threads[t];
            && |ks.tags| > 0
            && (th.pc in {UpgradeParent, UpgradeNode} ==> th.kind in {Grow, PrefixSplit})
            && (th.pc == UpgradeNode ==> th.parent.Some? && th.parent.value < |ks.tags|)
            && (th.pc == UpgradeOnly ==> th.kind in {Plain, LeafSplit})
            && (th.pc in {ReadLeaf, UpgradeLeaf} ==>
                  th.kind == LeafSplit && th.next.Some? && th.next.value < |ks.tags| && ks.tags[th.next.value].leaf)
  {
    hide KeysOk, Inv, ViewOk, StoredOk, CallOk, WalkOk, ProbeOk;
    var th := ks.s.threads[t];
    CallOf(ks, t);
    RootTag(ks);
    Walking(ks.s, t);
    if th.pc in {ReadLeaf, UpgradeLeaf} {
      LeafTag(ks, th.next.value);
    }
  }

  lemma LockCall(ks: Keyed, t: nat, c: Choice, op: Op)
    requires KeysOk(ks) && Allowed(ks, t, c, op)
    requires ks.s.threads[t].pc in {UpgradeParent, UpgradeNode, ReleaseParent, UpgradeOnly, ReadLeaf, UpgradeLeaf,
                                    Stuck}
    ensures var th' := LockStep(ks.s, t).local;
            CallOk(ks.tags, ks.stored, ks.universe, th', NextCall(ks, t, c, op, th'))
  {
    hide KeysOk, CallOk, Inv, ViewOk, LockStep;
    CallOf(ks, t);
    NeverStuck(ks.s, t);
    var pc := ks.s.threads[t].pc;
    if pc == ReleaseParent {
      ReleaseCall(ks, t, c, op);
    } else {
      LockFacts(ks, t);
      if pc == UpgradeParent {
        UpgradeParentCall(ks, t, c, op);
      } else if pc == UpgradeNode {
        UpgradeNodeCall(ks, t, c, op);
      } else if pc == UpgradeOnly {
        UpgradeOnlyCall(ks, t, c, op);
      } else {
        LeafLockCall(ks, t, c, op);
      }
    }
  }

  // ----- outside the tree

  lemma OutsideCall(ks: Keyed, t: nat, c: Choice, op: Op)
    requires KeysOk(ks) && Allowed(ks, t, c, op) && ks.s.threads[t].pc in {Outside, StoreMax, Scan, FreeOld, Failed}
    ensures var th' := EpochStep(ks.s, t, c).local;
            CallOk(ks.tags, ks.stored, ks.universe, th', NextCall(ks, t, c, op, th'))
  {
    hide KeysOk, Inv, ViewOk, StoredOk, PcOk;
    CallOf(ks, t);
  }

  lemma EnterCall(ks: Keyed, t: nat, c: Choice, op: Op)
    requires KeysOk(ks) && Allowed(ks, t, c, op) && ks.s.threads[t].pc == StoreEpoch
    ensures var th' := EpochStep(ks.s, t, c).local;
            CallOk(ks.tags, ks.stored, ks.universe, th', NextCall(ks, t, c, op, th'))
  {
    hide KeysOk, Inv, ViewOk, PcOk;
    CallOf(ks, t);
    RootTag(ks);
    var th' := EpochStep(ks.s, t, c).local;
    var call' := NextCall(ks, t, c, op, th');
    AtRoot(ks.stored, ks.tags[0], call', call'.op.key, ks.universe);
    EnteredPc(ks.tags, ks.stored, th', call', call'.op.key);
  }

  lemma EnteredPc(tags: seq<Tag>, stored: map<Key, Tid>, th: Local, call: Call, k: Key)
    requires th.pc == ReadVersion && th.node < |tags| && Here(stored, tags[th.node], call, k)
    requires AtHang(tags[th.node], call, k)
    ensures PcOk(tags, stored, th, call, k)
  {
  }

  lemma LeaveCall(ks: Keyed, t: nat, c: Choice, op: Op)
    requires KeysOk(ks) && Allowed(ks, t, c, op) && ks.s.threads[t].pc == Leave
    ensures var th' := EpochStep(ks.s, t, c).local;
            CallOk(ks.tags, ks.stored, ks.universe, th', NextCall(ks, t, c, op, th'))
  {
    hide KeysOk, Inv, ViewOk, StoredOk, PcOk;
    CallOf(ks, t);
  }

  // ----- writing under lock

  lemma {:induction false} PartsMeans(a: Key, b: Key, n: nat)
    requires n <= |a| && n <= |b| && a[..n] == b[..n]
    ensures var m := Parts(a, b, n);
            && n <= m <= |a| && m <= |b| && a[..m] == b[..m] && (m < |a| && m < |b| ==> a[m] != b[m])
    decreases |a| - n
  {
    if n < |a| && n < |b| && a[n] == b[n] {
      assert a[..n + 1] == a[..n] + [a[n]] && b[..n + 1] == b[..n] + [b[n]];
      PartsMeans(a, b, n + 1);
    }
  }

  /** Two keys below one edge agree beyond its byte. */
  lemma AgreeBelow(p: Key, b: Byte, k: Key, q: Key)
    requires Shape.Under(p, b, k) && Shape.Under(p, b, q)
    ensures |p| + 1 <= |k| && |p| + 1 <= |q| && q[..|p| + 1] == k[..|p| + 1]
  {
    assert k[..|p| + 1] == p + [b];
    assert q[..|p| + 1] == p + [b];
  }

  lemma WritingFacts(ks: Keyed, t: nat)
    requires KeysOk(ks) && t < |ks.calls| && t < |ks.s.threads| && ks.s.threads[t].pc == Writing
    ensures var th, call := ks.s.threads[t], ks.calls[t];
            && call.op.Put? && BaseOk(ks.stored, ks.universe, th, call) && WriteOk(ks.tags, th, call, call.op.key)
  {
    hide KeysOk, WriteOk, BaseOk;
    InCall(ks, t);
  }

  /** The tags made for a change fit the nodes made for it. */
  lemma NewTagsFit(ks: Keyed, t: nat, c: Choice)
    requires KeysOk(ks) && t < |ks.calls| && t < |ks.s.threads| && ks.s.threads[t].pc == Writing
    requires Pending(ks.s.threads[t], Change) && ks.calls[t].op.Put? && SplitBytes(ks, t, ks.calls[t].op.key, c)
    ensures var th, call := ks.s.threads[t], ks.calls[t];
            var v, a, k := TagOf(ks.tags, th.victim), TagOf(ks.tags, th.anchor), call.op.key;
            var added := NewTags(th, call, v, a, k, call.op.tid);
            var made := Created(t, th, Get(ks.s.nodes, th.victim), |ks.tags|, c.b1, c.b2);
            && |added| == |made| == NewNodes(th.kind)
            && forall i | 0 <= i < |added| ::
                 added[i].leaf == made[i].leaf && (!added[i].leaf ==> added[i].hang <= |added[i].path|)
  {
    hide KeysOk, BaseOk, Inv, ViewOk, StoredOk, CallOk, Made, Parts;
    var th, call := ks.s.threads[t], ks.calls[t];
    WritingFacts(ks, t);
    CallOf(ks, t);
    LeafTag(ks, th.victim);
    TagHang(ks, th.victim);
    if th.kind == LeafSplit {
      AgreeBelow(ks.tags[th.anchor].path, th.ab, call.op.key, ks.tags[th.victim].path);
      PartsMeans(ks.tags[th.victim].path, call.op.key, call.level + 1);
    }
  }

  lemma TagHang(ks: Keyed, i: nat)
    requires ViewOk(ks.s.nodes, ks.tags, ks.stored, ks.view) && i < |ks.tags|
    ensures !ks.tags[i].leaf ==> ks.tags[i].hang <= |ks.tags[i].path|
  {
    hide Shape.ShapeOk, PlacesOk, KidsOk, HangsOk;
  }

  lemma StillWriting(ks: Keyed, t: nat, th': Local, tags': seq<Tag>, stored': map<Key, Tid>)
    requires KeysOk(ks) && t < |ks.calls| && t < |ks.s.threads| && ks.s.threads[t].pc == Writing && th'.pc == Writing
    requires ks.calls[t].op.Put? && WriteOk(tags', th', ks.calls[t], ks.calls[t].op.key)
    requires if Done(th') == Done(ks.s.threads[t]) then stored' == ks.stored
             else Done(th') && stored' == ks.stored[ks.calls[t].op.key := ks.calls[t].op.tid]
    ensures CallOk(tags', stored', ks.universe, th', ks.calls[t])
  {
    hide KeysOk, WriteOk, Done;
    WritingFacts(ks, t);
  }

  /** Nodes are made. */
  lemma CreateCall(ks: Keyed, t: nat, c: Choice, th': Local, tags': seq<Tag>)
    requires KeysOk(ks) && t < |ks.calls| && t < |ks.s.threads| && ks.s.threads[t].pc == Writing
    requires ks.s.threads[t].at == 0
    requires ks.calls[t].op.Put? && SplitBytes(ks, t, ks.calls[t].op.key, c)
    requires th' == ks.s.threads[t].(at := 1, made := |ks.tags|, nb1 := c.b1, nb2 := c.b2)
    requires var th, call := ks.s.threads[t], ks.calls[t];
             tags' == ks.tags + NewTags(th, call, TagOf(ks.tags, th.victim), TagOf(ks.tags, th.anchor), call.op.key,
                                        call.op.tid)
    ensures CallOk(tags', ks.stored, ks.universe, th', ks.calls[t])
  {
    hide KeysOk, CallOk, NewTags, BaseOk, Parts, Shape.Under;
    var th, call := ks.s.threads[t], ks.calls[t];
    WritingFacts(ks, t);
    NewTagsFit(ks, t, c);
    assert tags'[th.anchor] == ks.tags[th.anchor] && tags'[th.victim] == ks.tags[th.victim];
    SameNewTags(th, th', call, TagOf(ks.tags, th.victim), TagOf(ks.tags, th.anchor), call.op.key, call.op.tid);
    PlacingKept(ks.tags[th.anchor], ks.tags[th.victim], th, th', call, call.op.key);
    assert tags'[|ks.tags|..|ks.tags| + NewNodes(th.kind)]
        == NewTags(th, call, TagOf(ks.tags, th.victim), TagOf(ks.tags, th.anchor), call.op.key, call.op.tid);
    StillWriting(ks, t, th', tags', ks.stored);
  }

  lemma SameNewTags(th: Local, th': Local, call: Call, v: Tag, a: Tag, k: Key, tid: Tid)
    requires th'.kind == th.kind
    ensures NewTags(th', call, v, a, k, tid) == NewTags(th, call, v, a, k, tid)
  {
  }

  lemma PlacingKept(a: Tag, v: Tag, th: Local, th': Local, call: Call, k: Key)
    requires Placing(a, v, th, call, k) && th'.kind == th.kind && th'.ab == th.ab && th'.byte == th.byte
    ensures Placing(a, v, th', call, k)
  {
  }

  /** The pointer of the anchor moves: the key is stored. */
  lemma ChangeCall(ks: Keyed, t: nat, th': Local)
    requires KeysOk(ks) && t < |ks.calls| && t < |ks.s.threads| && ks.s.threads[t].pc == Writing
    requires ks.s.threads[t].at == Pos(ks.s.threads[t].kind, Change)
    requires th' == ks.s.threads[t].(at := ks.s.threads[t].at + 1)
    requires ks.calls[t].op.Put?
    ensures CallOk(ks.tags, ks.stored[ks.calls[t].op.key := ks.calls[t].op.tid], ks.universe, th', ks.calls[t])
  {
    hide KeysOk, CallOk, BaseOk, Made, Placing;
    WritingFacts(ks, t);
    StillWriting(ks, t, th', ks.tags, ks.stored[ks.calls[t].op.key := ks.calls[t].op.tid]);
  }

  /** Any other act under lock. */
  lemma ActCall(ks: Keyed, t: nat, th': Local)
    requires KeysOk(ks) && t < |ks.calls| && t < |ks.s.threads| && ks.s.threads[t].pc == Writing
    requires ks.s.threads[t].at != Pos(ks.s.threads[t].kind, Change) && ks.s.threads[t].at > 0
    requires th' == ks.s.threads[t].(at := ks.s.threads[t].at + 1, markEpoch := th'.markEpoch)
    ensures CallOk(ks.tags, ks.stored, ks.universe, th', ks.calls[t])
  {
    hide KeysOk, CallOk, BaseOk, NewTags, Parts;
    var th, call := ks.s.threads[t], ks.calls[t];
    WritingFacts(ks, t);
    SameNewTags(th, th', call, TagOf(ks.tags, th.victim), TagOf(ks.tags, th.anchor), call.op.key, call.op.tid);
    if Pending(th', Change) {
      PlacingKept(ks.tags[th.anchor], ks.tags[th.victim], th, th', call, call.op.key);
    }
    hide Placing;
    StillWriting(ks, t, th', ks.tags, ks.stored);
  }

  /** Done writing. */
  lemma WrittenCall(ks: Keyed, t: nat, th': Local)
    requires KeysOk(ks) && t < |ks.calls| && t < |ks.s.threads| && ks.s.threads[t].pc == Writing
    requires ks.s.threads[t].at >= |Program(ks.s.threads[t].kind)| && th' == ks.s.threads[t].At(Leave)
    ensures CallOk(ks.tags, ks.stored, ks.universe, th', ks.calls[t])
  {
    hide KeysOk, CallOk, WriteOk;
    WritingFacts(ks, t);
    PosIsPosition(ks.s.threads[t].kind, Change, 0);
    WrittenPc(ks.tags, ks.stored, th', ks.calls[t], ks.calls[t].op.key);
    CallKept(ks, t, th', ks.calls[t]);
  }

  lemma WrittenPc(tags: seq<Tag>, stored: map<Key, Tid>, th: Local, call: Call, k: Key)
    requires th.pc == Leave && call.op.Put?
    ensures PcOk(tags, stored, th, call, k)
  {
  }
}
