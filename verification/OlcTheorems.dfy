/** What the invariant means for the threads that use the tree. */
module OlcTheorems {
  import opened Wrappers
  import opened Bytes
  import opened DeletionLists
  import opened OlcModel
  import opened OlcInvariant
  import opened OlcSteps
  import opened OlcWrites

  // ----- reclamation

  /** Within one operation a thread only gains pointers. */
  lemma HeldGrows(s: State, t: nat, c: Choice, u: nat)
    requires t < |s.threads| == |s.lists| && u < |s.threads| && InOp(s.threads[u].pc)
    requires InOp(Step(s, t, c).threads[u].pc)
    ensures s.threads[u].held <= Step(s, t, c).threads[u].held
  {
    hide WalkStep, LockStep, WriteStep, EpochStep;
    if u == t {
      var pc := s.threads[t].pc;
      if pc in {ReadVersion, Ready, CheckNode, Decided, ProbeVersion, ProbeReady, ProbeCheck} {
        WalkHolds(s, t, c);
      } else if pc in {UpgradeParent, UpgradeNode, ReleaseParent, UpgradeOnly, ReadLeaf, UpgradeLeaf, Stuck} {
        LockHolds(s, t);
      } else if pc == Writing {
        WriteHolds(s, t, c);
      } else {
        LeaveHolds(s, t, c);
      }
    }
  }

  lemma WalkHolds(s: State, t: nat, c: Choice)
    requires t < |s.threads| == |s.lists|
    ensures s.threads[t].held <= WalkStep(s, t, c).local.held
  {
  }

  lemma LockHolds(s: State, t: nat)
    requires t < |s.threads| == |s.lists|
    ensures s.threads[t].held <= LockStep(s, t).local.held
  {
  }

  lemma WriteHolds(s: State, t: nat, c: Choice)
    requires t < |s.threads| == |s.lists|
    ensures s.threads[t].held <= WriteStep(s, t, c).local.held
  {
  }

  lemma LeaveHolds(s: State, t: nat, c: Choice)
    requires t < |s.threads| == |s.lists| && InOp(s.threads[t].pc) && InOp(EpochStep(s, t, c).local.pc)
    ensures s.threads[t].held <= EpochStep(s, t, c).local.held
  {
  }

  lemma SameThreads(s: State, t: nat, c: Choice)
    requires t < |s.threads| == |s.lists|
    ensures |Step(s, t, c).threads| == |s.threads| && |Step(s, t, c).lists| == |s.lists|
  {
  }

  lemma HeldIsLive(s: State, t: nat, x: nat)
    requires Inv(s) && t < |s.threads| && InOp(s.threads[t].pc) && x in s.threads[t].held
    ensures x < |s.nodes| && s.nodes[x].stage in {Linked, Unlinked}
  {
    hide Inv, WalkOk, ProbeOk, LockingOk, WritingOk, ListOk, Graph, Locks;
    ThreadOf(s, t);
  }

  /** A thread stays in one operation from state i to state j. */
  ghost predicate OneOperation(states: seq<State>, t: nat, i: nat, j: nat) {
    i <= j < |states| && forall k | i <= k <= j :: t < |states[k].threads| && InOp(states[k].threads[t].pc)
  }

  /**
   * Epoch safety: a node whose pointer a thread has obtained by a validated read is not given back before the
   * operation of that thread ends, whatever the others do.
   */
  lemma {:induction false} NeverFreedWhileHeld(states: seq<State>, moves: seq<Move>, t: nat, x: nat, i: nat, j: nat)
    requires Run(states, moves) && OneOperation(states, t, i, j) && x in states[i].threads[t].held
    ensures x in states[j].threads[t].held && x < |states[j].nodes| && states[j].nodes[x].stage != Freed
    decreases j
  {
    hide Inv, Step;
    if i < j {
      NeverFreedWhileHeld(states, moves, t, x, i, j - 1);
      HeldGrows(states[j - 1], moves[j - 1].t, moves[j - 1].c, t);
    }
    EveryReachableState(states, moves, j);
    HeldIsLive(states[j], t, x);
  }

  /** So whatever a thread reads or locks is a node that has not been given back. */
  lemma TouchesLiveNodes(states: seq<State>, moves: seq<Move>, i: nat, t: nat)
    requires Run(states, moves) && i < |states| && t < |states[i].threads|
    ensures var s, th := states[i], states[i].threads[t];
            && (AtNode(th.pc) ==> th.node < |s.nodes| && s.nodes[th.node].stage != Freed)
            && (AtNode(th.pc) && th.parent.Some? ==>
                  th.parent.value < |s.nodes| && s.nodes[th.parent.value].stage != Freed)
            && (th.pc in {ProbeVersion, ProbeReady, ProbeCheck} ==>
                  th.spot < |s.nodes| && s.nodes[th.spot].stage != Freed)
            && (forall n | n in Locks(th) :: n < |s.nodes| && s.nodes[n].stage != Freed)
  {
    hide Inv, Locks, WalkOk, ProbeOk, LockingOk;
    EveryReachableState(states, moves, i);
    var s, th := states[i], states[i].threads[t];
    LocksHeld(s, t);
    forall n | n in Locks(th) ensures n < |s.nodes| && s.nodes[n].stage != Freed {
      NodeOf(s, n);
      FreedIsUnlocked(s.threads, n, s.nodes[n]);
    }
    Touched(s, t);
  }

  lemma FreedIsUnlocked(ths: seq<Local>, i: nat, n: Node)
    requires NodeOk(ths, i, n) && n.lockedBy.Some?
    ensures n.stage != Freed
  {
  }

  lemma Touched(s: State, t: nat)
    requires Inv(s) && t < |s.threads|
    ensures var th := s.threads[t];
            && (AtNode(th.pc) ==> th.node < |s.nodes| && s.nodes[th.node].stage != Freed)
            && (AtNode(th.pc) && th.parent.Some? ==>
                  th.parent.value < |s.nodes| && s.nodes[th.parent.value].stage != Freed)
            && (th.pc in {ProbeVersion, ProbeReady, ProbeCheck} ==>
                  th.spot < |s.nodes| && s.nodes[th.spot].stage != Freed)
  {
    hide Inv, WritingOk, ListOk, Graph, Locks, LockingOk;
    ThreadOf(s, t);
  }

  // ----- lock coupling

  /**
   * When both upgrades of a growth or a prefix split succeed, the node is still the parent's child under the byte the
   * thread followed, both are part of the tree, and neither has changed since its version was read.
   */
  lemma BothUpgradesAreCurrent(states: seq<State>, moves: seq<Move>, i: nat, t: nat)
    requires Run(states, moves) && i < |states| && t < |states[i].threads| && states[i].threads[t].pc == UpgradeNode
    ensures var s, th := states[i], states[i].threads[t];
            && th.parent.Some? && th.parent.value < |s.nodes| && th.node < |s.nodes|
            && var p, n := s.nodes[th.parent.value], s.nodes[th.node];
               && p.lockedBy == Some(t) && p.stage == Linked && p.version == th.pv && Kid(p, th.pb) == Some(th.node)
               && (Clean(n, th.v) ==> n.stage == Linked && n.kids == th.seen && th.node != th.parent.value)
  {
    hide Inv, WalkFacts, Locks;
    EveryReachableState(states, moves, i);
    var s, th := states[i], states[i].threads[t];
    LockedLinked(s, t);
    NodeInRangeOf(s, t);
    if Clean(s.nodes[th.node], th.v) {
      CleanIsLinked(s, t, th.node, th.v);
    }
    Coupled(s, t);
  }

  lemma LockedLinked(s: State, t: nat)
    requires Inv(s) && t < |s.threads| && s.threads[t].pc in {UpgradeNode, ReleaseParent}
    ensures var th := s.threads[t];
            && th.parent.Some? && th.parent.value < |s.nodes| && s.nodes[th.parent.value].lockedBy == Some(t)
  {
    hide Inv, WalkOk, ProbeOk, LockingOk;
    Walking(s, t);
    ParentInRange(s, t);
    LocksHeld(s, t);
  }

  lemma NodeInRangeOf(s: State, t: nat)
    requires Inv(s) && t < |s.threads| && AtNode(s.threads[t].pc)
    ensures s.threads[t].node < |s.nodes| && s.threads[t].node in s.threads[t].held
  {
    hide Inv, WalkFacts;
    Walking(s, t);
    NodeInRange(s, t);
  }

  lemma Coupled(s: State, t: nat)
    requires Inv(s) && t < |s.threads| && s.threads[t].pc == UpgradeNode
    requires s.threads[t].parent.Some? && s.threads[t].parent.value < |s.nodes| && s.threads[t].node < |s.nodes|
    ensures var th := s.threads[t];
            var p, n := s.nodes[th.parent.value], s.nodes[th.node];
            && p.stage == Linked && p.version == th.pv && Kid(p, th.pb) == Some(th.node)
            && (Clean(n, th.v) ==> n.kids == th.seen)
  {
    hide Inv, ProbeOk;
    Walking(s, t);
  }

  /**
   * The lock of a leaf under its parent's lock never fails: the attempt that would leave the parent locked does not
   * occur.
   */
  lemma LeafLockNeverFails(states: seq<State>, moves: seq<Move>, i: nat, t: nat)
    requires Run(states, moves) && i < |states| && t < |states[i].threads|
    ensures states[i].threads[t].pc != Stuck
    ensures states[i].threads[t].pc == UpgradeLeaf ==>
              var s, th := states[i], states[i].threads[t];
              th.next.Some? && th.next.value < |s.nodes| && Clean(s.nodes[th.next.value], th.lv)
  {
    hide Inv;
    EveryReachableState(states, moves, i);
    NeverStuck(states[i], t);
    if states[i].threads[t].pc == UpgradeLeaf {
      LeafUnlocked(states[i], t);
      LeafVersion(states[i], t);
    }
  }

  lemma LeafVersion(s: State, t: nat)
    requires Inv(s) && t < |s.threads| && s.threads[t].pc == UpgradeLeaf
    requires s.threads[t].next.Some? && s.threads[t].next.value < |s.nodes|
    ensures s.nodes[s.threads[t].next.value].version == s.threads[t].lv
  {
    hide Inv, WalkOk, ProbeOk;
    Walking(s, t);
  }

  /** The stretch of an operation in which it holds locks. */
  predicate Locking(pc: Pc) {
    pc in {UpgradeNode, ReleaseParent, ReadLeaf, UpgradeLeaf, Writing}
  }

  /** A thread back at the root, or out of its operation, holds no lock. */
  lemma NoLockHeld(states: seq<State>, moves: seq<Move>, i: nat, t: nat, n: nat)
    requires Run(states, moves) && i < |states| && t < |states[i].threads| && !Locking(states[i].threads[t].pc)
    requires n < |states[i].nodes|
    ensures states[i].nodes[n].lockedBy != Some(t)
  {
    hide Inv;
    EveryReachableState(states, moves, i);
    NodeOf(states[i], n);
  }

  /** Step k throws for want of space, with node n locked. */
  ghost predicate ThrewWith(states: seq<State>, moves: seq<Move>, k: nat, n: nat) {
    && k < |moves| && k < |states| && Throws(states[k], moves[k].t, moves[k].c)
    && n in Locks(states[k].threads[moves[k].t])
  }

  /**
   * A locked node is locked by a thread in the stretch between its first upgrade and its last unlock, or was left
   * locked; and what was left locked are exactly the nodes that inserts had locked when they threw.
   */
  lemma {:induction false} NoLockLeftBehind(states: seq<State>, moves: seq<Move>, i: nat, n: nat)
    requires Run(states, moves) && i < |states| && n < |states[i].nodes|
    ensures var s := states[i];
            s.nodes[n].lockedBy.Some? && s.nodes[n].lockedBy != Some(|s.threads|) ==>
              s.nodes[n].lockedBy.value < |s.threads| && Locking(s.threads[s.nodes[n].lockedBy.value].pc)
    ensures states[i].nodes[n].lockedBy == Some(|states[i].threads|)
            <==> exists k: nat :: k < i && ThrewWith(states, moves, k, n)
    decreases i
  {
    hide Inv, Step, ThrewWith;
    EveryReachableState(states, moves, i);
    NodeOf(states[i], n);
    if i > 0 {
      var s, m := states[i - 1], moves[i - 1];
      EveryReachableState(states, moves, i - 1);
      SameThreads(s, m.t, m.c);
      if n < |s.nodes| {
        NoLockLeftBehind(states, moves, i - 1, n);
        LeftByStep(s, m.t, m.c, n);
        ThrewNow(states, moves, i - 1, n);
      } else {
        NotYetMade(states, moves, i - 1, n);
        StepNodes(s, m.t, m.c);
        ThrowMakesNothing(s, m.t, m.c);
        if states[i].nodes[n].lockedBy == Some(|s.threads|) {
          NewlyForsaken(s, m.t, m.c, n);
        }
      }
    } else {
      assert states[0].nodes[n].lockedBy == None;
    }
  }

  lemma ThrewNow(states: seq<State>, moves: seq<Move>, k: nat, n: nat)
    requires k < |moves| && k < |states|
    ensures ThrewWith(states, moves, k, n)
            <==> Throws(states[k], moves[k].t, moves[k].c) && n in Locks(states[k].threads[moves[k].t])
  {
  }

  /** After a step, what is left locked: what was, and the locks of a thread that threw. */
  lemma LeftByStep(s: State, t: nat, c: Choice, n: nat)
    requires Inv(s) && t < |s.threads| == |s.lists| && n < |s.nodes|
    ensures n < |Step(s, t, c).nodes|
    ensures Step(s, t, c).nodes[n].lockedBy == Some(|s.threads|)
            <==> s.nodes[n].lockedBy == Some(|s.threads|) || (Throws(s, t, c) && n in Locks(s.threads[t]))
  {
    hide Inv, Good, Step, EffectOf, Locks, NodeOk, Forsaken;
    StepKeeps(s, t, c);
    StepNodes(s, t, c);
    NodeOf(s, n);
    StepOfNode(s, t, EffectOf(s, t, c), n);
    if s.nodes[n].lockedBy == Some(|s.threads|) {
      ForsakenKept(s, t, EffectOf(s, t, c), n);
    } else if Throws(s, t, c) {
      ThrowStep(s, t, c);
      ForsakenNode(s, t, s.threads[t].At(Failed), n);
    } else if EffectOf(s, t, c).nodes[n].lockedBy == Some(|s.threads|) {
      NewlyForsaken(s, t, c, n);
    }
  }

  lemma ThrowStep(s: State, t: nat, c: Choice)
    requires Throws(s, t, c) && t < |s.threads| == |s.lists|
    ensures s.threads[t].at == 0 && EffectOf(s, t, c).nodes == Forsaken(s, s.threads[t])
  {
    hide Program, Forsaken;
    PosIsPosition(s.threads[t].kind, Create, s.threads[t].at);
  }

  lemma ThrowMakesNothing(s: State, t: nat, c: Choice)
    requires t < |s.threads| == |s.lists|
    ensures Throws(s, t, c) ==> |EffectOf(s, t, c).nodes| == |s.nodes|
  {
    if Throws(s, t, c) {
      ThrowStep(s, t, c);
    }
  }

  /** Nobody threw with a node locked that was made later. */
  lemma {:induction false} NotYetMade(states: seq<State>, moves: seq<Move>, i: nat, n: nat)
    requires Run(states, moves) && i < |states| && n >= |states[i].nodes|
    ensures !exists k: nat :: k <= i && ThrewWith(states, moves, k, n)
    decreases i
  {
    hide Inv, Step;
    EveryReachableState(states, moves, i);
    if i < |moves| && ThrewWith(states, moves, i, n) {
      ThreadOf(states[i], moves[i].t);
      assert false;
    }
    if i > 0 {
      EveryReachableState(states, moves, i - 1);
      MoreNodes(states[i - 1], moves[i - 1].t, moves[i - 1].c);
      NotYetMade(states, moves, i - 1, n);
    }
  }

  lemma MoreNodes(s: State, t: nat, c: Choice)
    requires Inv(s) && t < |s.threads| == |s.lists|
    ensures |s.nodes| <= |Step(s, t, c).nodes|
  {
    hide Inv, Step, EffectOf, Graph, ThreadOk, ListOk, PairOk, NodeOk;
    StepKeeps(s, t, c);
    StepNodes(s, t, c);
  }

  /** What is left locked is as it is in every later state: no thread ever changes or unlocks it. */
  lemma {:induction false} LeftForGood(states: seq<State>, moves: seq<Move>, i: nat, j: nat, n: nat)
    requires Run(states, moves) && i <= j < |states| && n < |states[i].nodes|
    requires states[i].nodes[n].lockedBy == Some(|states[i].threads|)
    ensures |states[j].threads| == |states[i].threads| && n < |states[j].nodes|
    ensures states[j].nodes[n] == states[i].nodes[n]
    decreases j
  {
    hide Inv, Step, Good, EffectOf;
    if i < j {
      var s, m := states[j - 1], moves[j - 1];
      LeftForGood(states, moves, i, j - 1, n);
      EveryReachableState(states, moves, j - 1);
      StepKeeps(s, m.t, m.c);
      ForsakenKept(s, m.t, EffectOf(s, m.t, m.c), n);
      StepNodes(s, m.t, m.c);
      SameThreads(s, m.t, m.c);
    }
  }

  lemma OneMove(states: seq<State>, moves: seq<Move>, m: Move, s: State)
    requires Run(states, moves) && m.t < |states[|moves|].threads| == |states[|moves|].lists|
    requires s == Step(states[|moves|], m.t, m.c)
    ensures Run(states + [s], moves + [m])
  {
    hide Step, Initial;
  }

  /** It happens: an insert into an empty tree that gets no space leaves the root locked, and ends. */
  lemma RootLeftLocked() returns (states: seq<State>, moves: seq<Move>)
    ensures Run(states, moves) && |moves| > 0 && |states[0].threads| == 1
    ensures var last := states[|moves|];
            && |last.nodes| == 1 && last.nodes[0].lockedBy == Some(|last.threads|)
            && |last.threads| == 1 && last.threads[0].pc == Outside
  {
    hide Run, Step;
    var choices := [Go, Go, Go, Look(0, None), Go, Insert(false), Go, Throw, Finish(false, false)];
    states, moves := [Alone(0)], [];
    AloneStarts();
    var i := 0;
    while i < |choices|
      invariant i <= |choices| && |moves| == i && Run(states, moves) && |states| == i + 1 && states[0] == Alone(0)
      invariant states[i] == Alone(i)
    {
      AloneGoes(i, choices[i]);
      OneMove(states, moves, Move(0, choices[i]), Alone(i + 1));
      states, moves := states + [Alone(i + 1)], moves + [Move(0, choices[i])];
      i := i + 1;
    }
  }

  /** The states of that run. */
  ghost function Alone(i: nat): State {
    var root := Node(0, None, false, false, map[], Linked, None);
    var out := Local(Outside, 0, 0, None, 0, 0, 0, None, 0, 0, 0, None, Plain, 0, 0, 0, 0, 0, 0, 0, 0,
                     0, 0, 0, 0, 0, {}, map[]);
    var th := out.(held := {0});
    State([if i == 7 then root.(lockedBy := Some(0)) else if i >= 8 then root.(lockedBy := Some(1)) else root],
          [match i
           case 0 => out
           case 1 => out.At(StoreEpoch)
           case 2 => th.At(ReadVersion)
           case 3 => th.At(Ready)
           case 4 => th.At(CheckNode)
           case 5 => th.At(Decided)
           case 6 => th.At(UpgradeOnly)
           case 7 => th.At(Writing)
           case 8 => th.At(Failed)
           case _ => out], [[]], 0)
  }

  lemma AloneStarts()
    ensures Run([Alone(0)], [])
  {
  }

  lemma AloneNodes(i: nat, c: Choice)
    requires i < 9
    requires c == [Go, Go, Go, Look(0, None), Go, Insert(false), Go, Throw, Finish(false, false)][i]
    ensures |Alone(i).threads| == |Alone(i).lists| == 1
    ensures var e := EffectOf(Alone(i), 0, c); e.nodes == Alone(i + 1).nodes && e.list == [] && e.epoch == 0
  {
  }

  lemma AloneThread(i: nat, c: Choice)
    requires i < 9
    requires c == [Go, Go, Go, Look(0, None), Go, Insert(false), Go, Throw, Finish(false, false)][i]
    ensures |Alone(i).threads| == |Alone(i).lists| == 1
    ensures EffectOf(Alone(i), 0, c).local == Alone(i + 1).threads[0]
  {
    if i < 5 {
      AloneWalks(i, c);
    } else {
      AloneEnds(i, c);
    }
  }

  lemma AloneWalks(i: nat, c: Choice)
    requires i < 5 && c == [Go, Go, Go, Look(0, None), Go][i]
    ensures |Alone(i).threads| == |Alone(i).lists| == 1
    ensures EffectOf(Alone(i), 0, c).local == Alone(i + 1).threads[0]
  {
    assert EffectOf(Alone(i), 0, c).local.held == Alone(i + 1).threads[0].held;
  }

  lemma AloneEnds(i: nat, c: Choice)
    requires 5 <= i < 9 && c == [Insert(false), Go, Throw, Finish(false, false)][i - 5]
    ensures |Alone(i).threads| == |Alone(i).lists| == 1
    ensures EffectOf(Alone(i), 0, c).local == Alone(i + 1).threads[0]
  {
  }

  lemma AloneGoes(i: nat, c: Choice)
    requires i < 9
    requires c == [Go, Go, Go, Look(0, None), Go, Insert(false), Go, Throw, Finish(false, false)][i]
    ensures |Alone(i).threads| == |Alone(i).lists| == 1 && Step(Alone(i), 0, c) == Alone(i + 1)
  {
    var s := Alone(i);
    AloneNodes(i, c);
    AloneThread(i, c);
    hide EffectOf;
  }

  /** Writers exclude each other: a locked node has one holder, and only the holder changes its children or version. */
  lemma OnlyTheHolderWrites(states: seq<State>, moves: seq<Move>, i: nat, n: nat)
    requires Run(states, moves) && i < |moves| && n < |states[i].nodes|
    ensures n < |states[i + 1].nodes|
    ensures var a, b := states[i].nodes[n], states[i + 1].nodes[n];
            && (a.kids != b.kids || a.version != b.version ==> a.lockedBy == Some(moves[i].t))
            && (a.obsolete ==> b.obsolete && b.kids == a.kids)
  {
    hide Inv, Step;
    var s, t, c := states[i], moves[i].t, moves[i].c;
    EveryReachableState(states, moves, i);
    StepKeeps(s, t, c);
    NodeOf(s, n);
    StepOfNode(s, t, EffectOf(s, t, c), n);
    StepNodes(s, t, c);
  }

  lemma StepNodes(s: State, t: nat, c: Choice)
    requires t < |s.threads| == |s.lists|
    ensures Step(s, t, c).nodes == EffectOf(s, t, c).nodes
  {
    hide EffectOf;
  }

  lemma StepOfNode(s: State, t: nat, e: Effect, n: nat)
    requires Good(s, t, e) && n < |s.nodes| && NodeOk(s.threads, n, s.nodes[n])
    ensures n < |e.nodes| && NodeStep(t, s.nodes[n], e.nodes[n])
    ensures s.nodes[n].obsolete ==> s.nodes[n].lockedBy.None?
  {
    hide Graph, ThreadOk, ListOk, PairOk, NodeStep;
  }
}
