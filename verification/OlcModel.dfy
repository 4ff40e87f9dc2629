/**
 * Concurrent use of the tree: optimistic lock coupling and epoch-based reclamation, one atomic step at a time. Keys are
 * left out; which bytes a thread follows, which change it makes and whether there is space is up to the scheduler. A
 * node that is allocated gets a new name, even if its slot was used before.
 */
module OlcModel {
  import opened Wrappers
  import opened Bytes
  import opened DeletionLists

  /** Whether a node is reachable only by the thread that made it, part of the tree, cut off, or given back. */
  datatype Stage = Private(owner: nat) | Linked | Unlinked | Freed

  /** The version word, split into its parts, and the child pointers. Stage and doomed only serve the proof. */
  datatype Node = Node(version: nat, lockedBy: Option<nat>, obsolete: bool, leaf: bool, kids: map<Byte, nat>,
                       stage: Stage, doomed: Option<nat>)

  /** The ways an insert changes the tree. */
  datatype Kind = Plain | Grow | PrefixSplit | LeafSplit

  /** What is done under lock, in the order of the source. */
  datatype Act = Create | Change | Obsolete | LoadEpoch | Mark | UnlockAnchor

  function Program(kind: Kind): seq<Act> {
    match kind
    case Plain => [Create, Change, UnlockAnchor]
    case Grow => [Create, Change, Obsolete, LoadEpoch, Mark, UnlockAnchor]
    case PrefixSplit => [Create, Change, UnlockAnchor, Obsolete, LoadEpoch, Mark]
    case LeafSplit => [Create, Obsolete, LoadEpoch, Mark, Change, UnlockAnchor]
  }

  datatype Pc =
    // outside an operation, or cleaning up after one
    | Outside | StoreEpoch | StoreMax | Scan | FreeOld
    // walking down
    | ReadVersion | Ready | CheckNode | Decided
    // looking for some leaf below a node
    | ProbeVersion | ProbeReady | ProbeCheck
    // taking locks
    | UpgradeParent | UpgradeNode | ReleaseParent | UpgradeOnly | ReadLeaf | UpgradeLeaf | Stuck
    // changing the tree, and leaving; or leaving because there is no space
    | Writing | Leave | Failed

  /**
   * A thread: where it is in the tree, with the versions it relies on; the change it makes; its epochs; and, only for
   * the proof, every node whose pointer it obtained in the current operation and the children it saw at its node.
   */
  datatype Local = Local(pc: Pc, node: nat, v: nat, parent: Option<nat>, pv: nat, pb: Byte, byte: Byte,
                         next: Option<nat>, spot: nat, sv: nat, sb: Byte, snext: Option<nat>,
                         kind: Kind, at: nat, anchor: nat, ab: Byte, victim: nat, lv: nat, made: nat, nb1: Byte,
                             nb2: Byte, markEpoch: nat, localEpoch: nat, loaded: nat, oldest: nat, scanned: nat,
                         held: set<nat>, seen: map<Byte, nat>)
  {
    function At(pc: Pc): Local {
      this.(pc := pc)
    }
  }

  datatype State = State(nodes: seq<Node>, threads: seq<Local>, lists: seq<seq<Label<nat>>>, epoch: nat)

  /** The scheduler's choices. What is read while another thread writes can be anything. */
  datatype Choice =
    | Go
    | Restart
    | GiveUp
    | Look(b: Byte, garbage: Option<nat>)
    | Probe
    | Split
    | Insert(grow: bool)
    | Descend
    | New(b1: Byte, b2: Byte)
    | Throw
    | Finish(bump: bool, cleanup: bool)
    | FreeLabel(i: nat)

  /** The version word is still the one read: same version, not locked, not obsolete. */
  predicate Clean(n: Node, v: nat) {
    n.version == v && n.lockedBy == None && !n.obsolete
  }

  function Lock(n: Node, t: nat): Node {
    n.(lockedBy := Some(t))
  }

  function Unlock(n: Node): Node {
    n.(version := n.version + 1, lockedBy := None)
  }

  /** Effects of a step: on the nodes, on the thread, on its deletion list, on the epoch. */
  datatype Effect = Effect(nodes: seq<Node>, local: Local, list: seq<Label<nat>>, epoch: nat)

  function Put(nodes: seq<Node>, i: nat, n: Node): seq<Node> {
    if i < |nodes| then nodes[i := n] else nodes
  }

  function Get(nodes: seq<Node>, i: nat): Node {
    if i < |nodes| then nodes[i] else Node(0, None, true, true, map[], Freed, None)
  }

  function Kid(n: Node, b: Byte): Option<nat> {
    if b in n.kids then Some(n.kids[b]) else None
  }

  /** Back to the root; pointers obtained so far still count as held. */
  function FromRoot(th: Local): Local {
    th.(pc := ReadVersion, node := 0, parent := None)
  }

  function Hold(th: Local, x: Option<nat>): Local {
    th.(held := th.held + match x case None => {} case Some(n) => {n})
  }

  /** What a read of a child pointer yields: garbage is possible only if the node is not as it was. */
  function ReadKid(n: Node, v: nat, b: Byte, garbage: Option<nat>): Option<nat> {
    if Clean(n, v) then Kid(n, b) else garbage
  }

  function Stay(s: State, t: nat, th: Local): Effect
    requires t < |s.lists|
  {
    Effect(s.nodes, th, s.lists[t], s.epoch)
  }

  // ----- walking

  function WalkStep(s: State, t: nat, c: Choice): Effect
    requires t < |s.threads| == |s.lists|
  {
    var th := s.threads[t];
    var n := Get(s.nodes, th.node);
    match th.pc
    case ReadVersion =>
      if n.lockedBy.Some? || n.obsolete then Stay(s, t, FromRoot(th))
      else Stay(s, t, th.(pc := Ready, v := n.version, seen := n.kids))
    case Ready =>
      (match c
       case Look(b, garbage) => Stay(s, t, th.(pc := CheckNode, byte := b, next := ReadKid(n, th.v, b, garbage)))
       case Probe => Stay(s, t, th.(pc := ProbeVersion, spot := th.node))
       case Split => if th.parent.Some? then Stay(s, t, th.(pc := UpgradeParent, kind := PrefixSplit))
                     else Stay(s, t, th)
       case GiveUp => Stay(s, t, th.At(Leave))
       case _ => Stay(s, t, FromRoot(th)))
    case CheckNode =>
      if Clean(n, th.v) then Stay(s, t, Hold(th.At(Decided), th.next)) else Stay(s, t, FromRoot(th))
    case Decided =>
      (match c
       case Insert(grow) =>
         if th.next.Some? then
           (if Get(s.nodes, th.next.value).leaf then Stay(s, t, th.(pc := UpgradeOnly, kind := LeafSplit))
            else Stay(s, t, th))
         else if grow then
           (if th.parent.Some? then Stay(s, t, th.(pc := UpgradeParent, kind := Grow)) else Stay(s, t, th))
         else Stay(s, t, th.(pc := UpgradeOnly, kind := Plain))
       case Descend =>
         if th.next.Some? && !Get(s.nodes, th.next.value).leaf then
           Stay(s, t, th.(pc := ReadVersion, parent := Some(th.node), pv := th.v, pb := th.byte, node := th.next.value))
         else Stay(s, t, th)
       case GiveUp => Stay(s, t, th.At(Leave))
       case _ => Stay(s, t, FromRoot(th)))
    case ProbeVersion =>
      var m := Get(s.nodes, th.spot);
      if m.lockedBy.Some? || m.obsolete then Stay(s, t, FromRoot(th))
      else Stay(s, t, th.(pc := ProbeReady, sv := m.version))
    case ProbeReady =>
      (match c
       case Look(b, garbage) =>
         Stay(s, t, th.(pc := ProbeCheck, sb := b, snext := ReadKid(Get(s.nodes, th.spot), th.sv, b, garbage)))
       case _ => Stay(s, t, th))
    case ProbeCheck =>
      if !Clean(Get(s.nodes, th.spot), th.sv) then Stay(s, t, FromRoot(th))
      else if th.snext.None? then Stay(s, t, th.At(Ready))
      else if Get(s.nodes, th.snext.value).leaf then Stay(s, t, Hold(th.At(Ready), th.snext))
      else Stay(s, t, Hold(th.(pc := ProbeVersion, spot := th.snext.value), th.snext))
    case _ => Stay(s, t, th)
  }

  // ----- locking

  function StartWriting(th: Local, anchor: nat, ab: Byte, victim: nat): Local {
    th.(pc := Writing, at := 0, anchor := anchor, ab := ab, victim := victim)
  }

  function LockStep(s: State, t: nat): Effect
    requires t < |s.threads| == |s.lists|
  {
    var th := s.threads[t];
    var n := Get(s.nodes, th.node);
    var p := if th.parent.Some? then th.parent.value else 0;
    match th.pc
    case UpgradeParent =>
      if Clean(Get(s.nodes, p), th.pv) then
        Stay(s, t, th.At(UpgradeNode)).(nodes := Put(s.nodes, p, Lock(Get(s.nodes, p), t)))
      else Stay(s, t, FromRoot(th))
    case UpgradeNode =>
      if Clean(n, th.v) then
        Stay(s, t, StartWriting(th, p, th.pb, th.node)).(nodes := Put(s.nodes, th.node, Lock(n, t).(doomed := Some(t))))
      else Stay(s, t, th.At(ReleaseParent))
    case ReleaseParent => Stay(s, t, FromRoot(th)).(nodes := Put(s.nodes, p, Unlock(Get(s.nodes, p))))
    case UpgradeOnly =>
      if Clean(n, th.v) then
        Stay(s, t, if th.kind == Plain then StartWriting(th, th.node, th.byte, 0) else th.At(ReadLeaf))
          .(nodes := Put(s.nodes, th.node, Lock(n, t)))
      else Stay(s, t, FromRoot(th))
    case ReadLeaf =>
      var x := Get(s.nodes, if th.next.Some? then th.next.value else 0);
      if x.lockedBy.Some? || x.obsolete then Stay(s, t, th.At(Stuck))
      else Stay(s, t, th.(pc := UpgradeLeaf, lv := x.version))
    case UpgradeLeaf =>
      var i := if th.next.Some? then th.next.value else 0;
      var x := Get(s.nodes, i);
      if Clean(x, th.lv) then
        Stay(s, t, StartWriting(th, th.node, th.byte, i)).(nodes := Put(s.nodes, i, Lock(x, t).(doomed := Some(t))))
      else Stay(s, t, th.At(Stuck))
    case _ => Stay(s, t, th)
  }

  // ----- writing under lock

  function NewLeaf(t: nat): Node {
    Node(0, None, false, true, map[], Private(t), None)
  }

  function NewInner(t: nat, kids: map<Byte, nat>): Node {
    Node(0, None, false, false, kids, Private(t), None)
  }

  /** The nodes a change makes, named f, f + 1, ...; the first takes the victim's place, one is a copy of the victim. */
  function Created(t: nat, th: Local, victim: Node, f: nat, b1: Byte, b2: Byte): seq<Node> {
    match th.kind
    case Plain => [NewLeaf(t)]
    case Grow => [NewInner(t, victim.kids[th.byte := f + 1]), NewLeaf(t)]
    case _ =>
      [NewInner(t, map[b1 := f + 1, b2 := f + 2]), NewLeaf(t),
       Node(0, None, false, victim.leaf, victim.kids, Private(t), None)]
  }

  /** One pointer of the anchor moves: the new nodes are part of the tree, the victim is not. */
  function Relinked(s: State, t: nat): seq<Node>
    requires t < |s.threads|
  {
    var th := s.threads[t];
    seq(|s.nodes|, i requires 0 <= i < |s.nodes| =>
      var n := s.nodes[i];
      if i == th.anchor then n.(kids := n.kids[th.ab := th.made])
      else if th.kind != Plain && i == th.victim then n.(stage := Unlinked)
      else if n.stage == Private(t) then n.(stage := Linked)
      else n)
  }

  /** A lock nobody will release: its bit stays, but its holder has left. */
  function Forsake(s: State, n: Node): Node {
    n.(lockedBy := Some(|s.threads|))
  }

  /** An insert that throws releases nothing. */
  function Forsaken(s: State, th: Local): seq<Node> {
    var nodes := Put(s.nodes, th.anchor, Forsake(s, Get(s.nodes, th.anchor)));
    if th.kind == Plain then nodes else Put(nodes, th.victim, Forsake(s, Get(s.nodes, th.victim)))
  }

  function WriteStep(s: State, t: nat, c: Choice): Effect
    requires t < |s.threads| == |s.lists|
  {
    var th := s.threads[t];
    if th.at >= |Program(th.kind)| then Stay(s, t, th.At(Leave)) else
    var done := th.(at := th.at + 1);
    match Program(th.kind)[th.at]
    case Create =>
      if c.New? && c.b1 != c.b2 then
        Stay(s, t, done.(made := |s.nodes|, nb1 := c.b1, nb2 := c.b2))
          .(nodes := s.nodes + Created(t, th, Get(s.nodes, th.victim), |s.nodes|, c.b1, c.b2))
      else if c.Throw? then Stay(s, t, th.At(Failed)).(nodes := Forsaken(s, th))
      else Stay(s, t, th)
    case Change => Stay(s, t, done).(nodes := Relinked(s, t))
    case Obsolete =>
      Stay(s, t, done).(nodes := Put(s.nodes, th.victim, Unlock(Get(s.nodes, th.victim)).(obsolete := true)))
    case LoadEpoch => Stay(s, t, done.(markEpoch := s.epoch))
    case Mark => Stay(s, t, done).(list := WithEntry(s.lists[t], th.victim, th.markEpoch))
    case UnlockAnchor => Stay(s, t, done).(nodes := Put(s.nodes, th.anchor, Unlock(Get(s.nodes, th.anchor))))
  }

  // ----- epochs

  /** Give back every entry of a label. */
  function FreedNodes(nodes: seq<Node>, gone: seq<nat>): seq<Node> {
    seq(|nodes|, i requires 0 <= i < |nodes| => if i in gone then nodes[i].(stage := Freed) else nodes[i])
  }

  function EpochStep(s: State, t: nat, c: Choice): Effect
    requires t < |s.threads| == |s.lists|
  {
    var th := s.threads[t];
    match th.pc
    case Outside => Stay(s, t, th.(pc := StoreEpoch, loaded := s.epoch))
    case StoreEpoch => Stay(s, t, FromRoot(th).(localEpoch := th.loaded, held := {0}))
    case Leave | Failed =>
      (match c
       case Finish(bump, cleanup) =>
         Stay(s, t, th.(pc := if cleanup then StoreMax else Outside, held := {}))
           .(epoch := if bump then s.epoch + 1 else s.epoch)
       case _ => Stay(s, t, th))
    case StoreMax => Stay(s, t, th.(pc := Scan, localEpoch := MAX_EPOCH, oldest := MAX_EPOCH, scanned := 0))
    case Scan =>
      if th.scanned < |s.threads| then
        var e := s.threads[th.scanned].localEpoch;
        Stay(s, t, th.(scanned := th.scanned + 1, oldest := if e < th.oldest then e else th.oldest))
      else Stay(s, t, th.At(FreeOld))
    case FreeOld =>
      (match c
       case FreeLabel(i) =>
         if i < |s.lists[t]| && s.lists[t][i].epoch < th.oldest then
           Effect(FreedNodes(s.nodes, s.lists[t][i].entries), th, s.lists[t][..i] + s.lists[t][i + 1..], s.epoch)
         else Stay(s, t, th)
       case _ => Stay(s, t, th.At(Outside)))
    case _ => Stay(s, t, th)
  }

  // ----- runs

  function EffectOf(s: State, t: nat, c: Choice): Effect
    requires t < |s.threads| == |s.lists|
  {
    var pc := s.threads[t].pc;
    if pc in {ReadVersion, Ready, CheckNode, Decided, ProbeVersion, ProbeReady, ProbeCheck} then WalkStep(s, t, c)
    else if pc in {UpgradeParent, UpgradeNode, ReleaseParent, UpgradeOnly, ReadLeaf, UpgradeLeaf, Stuck} then
      LockStep(s, t)
    else if pc == Writing then WriteStep(s, t, c)
    else EpochStep(s, t, c)
  }

  function Apply(s: State, t: nat, e: Effect): State
    requires t < |s.threads| == |s.lists|
  {
    State(e.nodes, s.threads[t := e.local], s.lists[t := e.list], e.epoch)
  }

  function Step(s: State, t: nat, c: Choice): State
    requires t < |s.threads| == |s.lists|
  {
    Apply(s, t, EffectOf(s, t, c))
  }

  /** Only a root, and no thread has started. */
  predicate Initial(s: State) {
    && s.nodes == [Node(0, None, false, false, map[], Linked, None)]
    && |s.threads| == |s.lists|
    && (forall t | 0 <= t < |s.threads| :: s.threads[t].pc == Outside && s.threads[t].held == {} && s.lists[t] == [])
  }

  datatype Move = Move(t: nat, c: Choice)

  predicate Run(states: seq<State>, moves: seq<Move>) {
    && |states| == |moves| + 1 && Initial(states[0])
    && forall i | 0 <= i < |moves| ::
         && moves[i].t < |states[i].threads| == |states[i].lists|
         && states[i + 1] == Step(states[i], moves[i].t, moves[i].c)
  }
}
