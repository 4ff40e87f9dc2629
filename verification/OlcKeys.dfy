/**
 * The concurrent tree with its keys. Each node has, besides what the versions protect, a path that never changes; each
 * operation has a key, and takes at every node the step its key asks for. What the tree stores is written down at the
 * moment an insert moves the pointer of its anchor.
 */
module OlcKeys {
  import opened Wrappers
  import opened Bytes
  import opened OlcModel
  import Shape = ArtShape

  type Key = Word
  type Tid = nat

  /**
   * What a node is made with and keeps: the path of an inner node or the key of a leaf; where on that path its
   * compressed prefix begins; and the value of a leaf. The first eleven bytes of the prefix are stored in the node.
   */
  datatype Tag = Tag(leaf: bool, path: Key, hang: nat, tid: Tid)
  {
    function PrefixLength(): nat {
      if hang <= |path| then |path| - hang else 0
    }
  }

  datatype Op = NoOp | Lookup(key: Key) | Put(key: Key, tid: Tid)

  /**
   * A thread's operation: the level it has come to; whether every byte so far was compared; the key loaded for a long
   * prefix; the position and byte at which its key leaves a prefix; its answer. What was stored when it began only
   * serves the proof.
   */
  datatype Call = Call(op: Op, level: nat, exact: bool, kt: Option<Key>, at: nat, other: Byte, answer: Option<Tid>,
                       before: map<Key, Tid>)

  /** Where everything is, by path and key; only serves the proof. */
  datatype View = View(inner: map<Key, nat>, leaves: map<Key, nat>, edges: map<Shape.Edge, Shape.Target>)

  /** The keys of all operations come from a universe in which none is a prefix of another. */
  datatype Keyed = Keyed(s: State, tags: seq<Tag>, calls: seq<Call>, stored: map<Key, Tid>, view: View,
                         universe: set<Key>)

  // ----- what the code computes at a node

  /** The optimistic check: the key is too short, or differs in a stored byte. */
  predicate Fails(n: Tag, k: Key, level: nat) {
    && n.PrefixLength() > 0
    && (|k| <= level + n.PrefixLength()
        || exists i :: 0 <= i < Min(n.PrefixLength(), Shape.MAX_STORED_PREFIX) && StoredByteDiffers(n, k, level, i))
  }

  predicate StoredByteDiffers(n: Tag, k: Key, level: nat, i: nat) {
    n.hang + i < |n.path| && level + i < |k| && n.path[n.hang + i] != k[level + i]
  }

  /** A byte of the prefix: stored, or taken from the key of some leaf below. */
  function PrefixByte(n: Tag, kt: Option<Key>, level: nat, i: nat): Option<Byte> {
    if i < Shape.MAX_STORED_PREFIX then (if n.hang + i < |n.path| then Some(n.path[n.hang + i]) else None)
    else if kt.Some? && level + i < |kt.value| then Some(kt.value[level + i]) else None
  }

  function KeyByte(k: Key, i: nat): Option<Byte> {
    if i < |k| then Some(k[i]) else None
  }

  /** The first position of the prefix, counted from i, at which the key differs; the prefix length if there is none. */
  function Differs(n: Tag, kt: Option<Key>, k: Key, level: nat, i: nat): nat
    requires i <= n.PrefixLength()
    decreases n.PrefixLength() - i
  {
    if i == n.PrefixLength() then i
    else if PrefixByte(n, kt, level, i) != KeyByte(k, level + i) then i
    else Differs(n, kt, k, level, i + 1)
  }

  /** The first position, from n on, at which two keys differ. */
  function Parts(a: Key, b: Key, n: nat): nat
    decreases |a| - n
  {
    if n < |a| && n < |b| && a[n] == b[n] then Parts(a, b, n + 1) else n
  }

  function TagOf(tags: seq<Tag>, i: nat): Tag {
    if i < |tags| then tags[i] else Tag(true, [], 0, 0)
  }

  // ----- which choices an operation has

  predicate LookupChoice(n: Tag, k: Key, level: nat, c: Choice) {
    if Fails(n, k, level) then c == GiveUp
    else if |k| <= level + n.PrefixLength() then c == GiveUp
    else c.Look? && c.b == k[level + n.PrefixLength()]
  }

  predicate PutChoice(n: Tag, kt: Option<Key>, k: Key, level: nat, c: Choice) {
    if n.PrefixLength() > Shape.MAX_STORED_PREFIX && kt.None? then c == Probe
    else if Differs(n, kt, k, level, 0) < n.PrefixLength() then c == Choice.Split
    else level + n.PrefixLength() < |k| && c.Look? && c.b == k[level + n.PrefixLength()]
  }

  /** The bytes under which the new node of a split gets its children. */
  predicate SplitBytes(ks: Keyed, t: nat, k: Key, c: Choice)
    requires t < |ks.s.threads| && t < |ks.calls|
  {
    var th, call := ks.s.threads[t], ks.calls[t];
    c.New?
    && (th.kind == PrefixSplit ==> call.at < |k| && c.b1 == k[call.at] && c.b2 == call.other)
    && (th.kind == LeafSplit ==>
          var key := TagOf(ks.tags, th.victim).path;
          var m := Parts(key, k, call.level + 1);
          m < |k| && m < |key| && c.b1 == k[m] && c.b2 == key[m])
  }

  /** An insert of a key begins only if it is not stored and nobody else is about to store it. */
  predicate MayBegin(ks: Keyed, t: nat, op: Op) {
    && op != NoOp && op.key in ks.universe
    && (op.Put? ==>
          && op.tid != 0 && op.key !in ks.stored
          && forall u | 0 <= u < |ks.calls| && u != t :: ks.calls[u].op.Put? ==> ks.calls[u].op.key != op.key)
  }

  predicate Allowed(ks: Keyed, t: nat, c: Choice, op: Op) {
    && t < |ks.s.threads| == |ks.s.lists| && t < |ks.calls|
    && var th, call := ks.s.threads[t], ks.calls[t];
       match th.pc
       case Outside => MayBegin(ks, t, op)
       case Ready =>
         c == Restart
         || (call.op.Lookup? && LookupChoice(TagOf(ks.tags, th.node), call.op.key, call.level, c))
         || (call.op.Put? && PutChoice(TagOf(ks.tags, th.node), call.kt, call.op.key, call.level, c))
       case Decided =>
         c == Restart
         || (if th.next.Some? && !TagOf(ks.tags, th.next.value).leaf then c == Descend
             else if call.op.Lookup? then c == GiveUp else c.Insert?)
       case Writing =>
         th.at < |Program(th.kind)| && Program(th.kind)[th.at] == Create ==>
           call.op.Put? && (c.Throw? || SplitBytes(ks, t, call.op.key, c))
       case _ => true
  }

  // ----- what a step does to the keys

  /** The answer of a lookup that reads no further. */
  function Answer(ks: Keyed, th: Local, call: Call, k: Key): Tid {
    if th.pc == Decided && th.next.Some? then
      var leaf := TagOf(ks.tags, th.next.value);
      if call.level + 1 < |k| || !call.exact then (if leaf.path == k then leaf.tid else 0) else leaf.tid
    else 0
  }

  function NextCall(ks: Keyed, t: nat, c: Choice, op: Op, th': Local): Call
    requires t < |ks.s.threads| && t < |ks.calls|
  {
    var th, call := ks.s.threads[t], ks.calls[t];
    var n := TagOf(ks.tags, th.node);
    if th.pc == Outside then Call(op, 0, true, None, 0, 0, None, ks.stored)
    else if (th.pc == Leave && th'.pc != Leave) || (th.pc == Writing && th'.pc == Failed) then call.(op := NoOp)
    else if th'.pc == ReadVersion && th'.parent.None? then call.(level := 0, exact := true, kt := None)
    else match th.pc
      case Ready =>
        if c.Look? then call.(level := call.level + n.PrefixLength(),
                              exact := call.exact && n.PrefixLength() <= Shape.MAX_STORED_PREFIX)
        else if c.GiveUp? then call.(answer := Some(0))
        else if c.Split? && call.op.Put? then
          var i := Differs(n, call.kt, call.op.key, call.level, 0);
          var b := PrefixByte(n, call.kt, call.level, i);
          call.(at := call.level + i, other := if b.Some? then b.value else 0)
        else call
      case Decided =>
        if c.Descend? then call.(level := call.level + 1, kt := None)
        else if c.GiveUp? && call.op.Lookup? then call.(answer := Some(Answer(ks, th, call, call.op.key)))
        else call
      case ProbeCheck =>
        if th'.pc == Ready && th.snext.Some? then call.(kt := Some(TagOf(ks.tags, th.snext.value).path)) else call
      case _ => call
  }

  /** The tags of the nodes a change makes; v is that of the victim, a that of the anchor. */
  function NewTags(th: Local, call: Call, v: Tag, a: Tag, k: Key, tid: Tid): seq<Tag> {
    match th.kind
    case Plain => [Tag(true, k, |a.path| + 1, tid)]
    case Grow => [v, Tag(true, k, |v.path| + 1, tid)]
    case PrefixSplit =>
      var r := if call.at <= |v.path| then v.path[..call.at] else [];
      [Tag(false, r, v.hang, 0), Tag(true, k, |r| + 1, tid), Tag(false, v.path, |r| + 1, 0)]
    case LeafSplit =>
      var m := Parts(v.path, k, call.level + 1);
      var r := if m <= |k| then k[..m] else [];
      [Tag(false, r, call.level + 1, 0), Tag(true, k, |r| + 1, tid), Tag(true, v.path, |r| + 1, v.tid)]
  }

  /** The view after an insert: new places for what moved, and the edges of the new shape; p is the anchor's path. */
  function NextView(w: View, th: Local, p: Key, v: Tag, r: Key, k: Key): View {
    var f := th.made;
    match th.kind
    case Plain =>
      View(w.inner, w.leaves[k := f], if |p| < |k| then w.edges[Shape.Edge(p, k[|p|]) := Shape.ToLeaf(k)] else w.edges)
    case Grow =>
      View(w.inner[v.path := f], w.leaves[k := f + 1],
           if |v.path| < |k| then w.edges[Shape.Edge(v.path, k[|v.path|]) := Shape.ToLeaf(k)] else w.edges)
    case _ =>
      View(if v.leaf then w.inner[r := f] else w.inner[r := f][v.path := f + 2],
           if v.leaf then w.leaves[k := f + 1][v.path := f + 2] else w.leaves[k := f + 1],
           if |p| < |k| && |r| < |k| && |r| < |v.path| && Shape.Edge(p, k[|p|]) in w.edges
           then Shape.Split(w.edges, p, k, r, v.path[|r|]) else w.edges)
  }

  /** This step of thread t moves the pointer of its anchor. */
  predicate Stores(ks: Keyed, t: nat) {
    && t < |ks.s.threads| && t < |ks.calls| && ks.calls[t].op.Put?
    && var th := ks.s.threads[t];
       th.pc == Writing && th.at < |Program(th.kind)| && Program(th.kind)[th.at] == Change
  }

  function NextKeyed(ks: Keyed, t: nat, c: Choice, op: Op): Keyed
    requires t < |ks.s.threads| == |ks.s.lists| && t < |ks.calls|
  {
    var s' := Step(ks.s, t, c);
    var th, call := ks.s.threads[t], ks.calls[t];
    var v, a, r := TagOf(ks.tags, th.victim), TagOf(ks.tags, th.anchor), TagOf(ks.tags, th.made);
    Keyed(s',
          if |s'.nodes| > |ks.s.nodes| && call.op.Put? then ks.tags + NewTags(th, call, v, a, call.op.key, call.op.tid)
          else ks.tags,
          ks.calls[t := NextCall(ks, t, c, op, EffectOf(ks.s, t, c).local)],
          if Stores(ks, t) then ks.stored[call.op.key := call.op.tid] else ks.stored,
          if Stores(ks, t) then NextView(ks.view, th, a.path, v, r.path, call.op.key) else ks.view,
          ks.universe)
  }

  // ----- runs

  predicate InitialKeyed(ks: Keyed) {
    && Initial(ks.s) && ks.tags == [Tag(false, [], 0, 0)] && |ks.calls| == |ks.s.threads|
    && (forall t | 0 <= t < |ks.calls| :: ks.calls[t].op == NoOp)
    && ks.stored == map[] && ks.view == View(map[[] := 0], map[], map[])
  }

  datatype KeyedMove = KeyedMove(t: nat, c: Choice, op: Op)

  ghost predicate KeyedRun(states: seq<Keyed>, moves: seq<KeyedMove>) {
    && |states| == |moves| + 1 && InitialKeyed(states[0]) && Shape.PrefixFree(states[0].universe)
    && forall i | 0 <= i < |moves| ::
         && Allowed(states[i], moves[i].t, moves[i].c, moves[i].op)
         && states[i + 1] == NextKeyed(states[i], moves[i].t, moves[i].c, moves[i].op)
  }
}
