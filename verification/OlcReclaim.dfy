/** Every node that is given back is given back once. */
module OlcReclaim {
  import opened Wrappers
  import opened Bytes
  import opened DeletionLists
  import opened OlcModel
  import opened OlcInvariant
  import opened OlcSteps
  import opened OlcWrites
  import opened OlcTheorems

  ghost predicate Listed(list: seq<Label<nat>>, x: nat) {
    exists i :: 0 <= i < |list| && x in list[i].entries
  }

  /** Two places of a list that hold the same node are one place. */
  ghost predicate SamePlace(list: seq<Label<nat>>, i: nat, a: nat, j: nat, b: nat) {
    (&& i < |list| && j < |list| && a < |list[i].entries| && b < |list[j].entries|
     && list[i].entries[a] == list[j].entries[b]) ==> (i == j && a == b)
  }

  /** No node stands in a list twice. */
  ghost predicate Once(list: seq<Label<nat>>) {
    forall i: nat, a: nat, j: nat, b: nat :: SamePlace(list, i, a, j, b)
  }

  ghost predicate NotFreed(nodes: seq<Node>, list: seq<Label<nat>>) {
    forall x: nat | Listed(list, x) :: x < |nodes| && nodes[x].stage != Freed
  }

  /** Cut off, or about to be, and not yet in the list. */
  ghost predicate ToBeMarked(th: Local) {
    th.pc == Writing && Past(th, Obsolete) && Pending(th, Mark)
  }

  ghost predicate ThreadLists(nodes: seq<Node>, th: Local, list: seq<Label<nat>>) {
    Once(list) && NotFreed(nodes, list) && (ToBeMarked(th) ==> !Listed(list, th.victim))
  }

  ghost predicate ListsOk(s: State) {
    |s.threads| == |s.lists| && forall t | 0 <= t < |s.lists| :: ThreadLists(s.nodes, s.threads[t], s.lists[t])
  }

  /** The step gives a label back. */
  predicate Frees(s: State, t: nat, c: Choice) {
    && t < |s.threads| && t < |s.lists| && s.threads[t].pc == FreeOld && c.FreeLabel? && c.i < |s.lists[t]|
    && s.lists[t][c.i].epoch < s.threads[t].oldest
  }

  /** The nodes a step gives back, in the order of the calls. */
  function Given(s: State, t: nat, c: Choice): seq<nat> {
    if Frees(s, t, c) then s.lists[t][c.i].entries else []
  }

  // ----- lists

  lemma OneMoreOnce(list: seq<Label<nat>>, x: nat, e: nat)
    requires Once(list) && !Listed(list, x)
    ensures Once(WithEntry(list, x, e)) && forall y :: Listed(WithEntry(list, x, e), y) ==> Listed(list, y) || y == x
  {
    var list' := WithEntry(list, x, e);
    var front := list != [] && |list[0].entries| < LABEL_SIZE;
    forall i: nat, a: nat, j: nat, b: nat ensures SamePlace(list', i, a, j, b) {
      if front {
        assert SamePlace(list, i, a, j, b);
      } else if i > 0 && j > 0 {
        assert SamePlace(list, i - 1, a, j - 1, b);
      }
    }
    forall y | Listed(list', y) ensures Listed(list, y) || y == x {
      var i :| 0 <= i < |list'| && y in list'[i].entries;
      if y != x && front {
        assert y in list[i].entries;
      } else if y != x && i > 0 {
        assert y in list[i - 1].entries;
      }
    }
  }

  lemma InOnePlace(list: seq<Label<nat>>, i: nat, j: nat, y: nat)
    requires Once(list) && i < |list| && j < |list| && y in list[i].entries && y in list[j].entries
    ensures i == j
  {
    var a: nat :| a < |list[i].entries| && list[i].entries[a] == y;
    var b: nat :| b < |list[j].entries| && list[j].entries[b] == y;
    assert SamePlace(list, i, a, j, b);
  }

  lemma FewerOnce(list: seq<Label<nat>>, k: nat)
    requires Once(list) && k < |list|
    ensures var list' := list[..k] + list[k + 1..];
            Once(list') && forall y :: Listed(list', y) ==> Listed(list, y) && y !in list[k].entries
  {
    var list' := list[..k] + list[k + 1..];
    assert forall i | 0 <= i < |list'| :: list'[i] == list[if i < k then i else i + 1];
    forall i: nat, a: nat, j: nat, b: nat ensures SamePlace(list', i, a, j, b) {
      assert SamePlace(list, if i < k then i else i + 1, a, if j < k then j else j + 1, b);
    }
    forall y | Listed(list', y) ensures Listed(list, y) && y !in list[k].entries {
      var i :| 0 <= i < |list'| && y in list'[i].entries;
      var i0 := if i < k then i else i + 1;
      assert y in list[i0].entries;
      if y in list[k].entries {
        InOnePlace(list, i0, k, y);
      }
    }
  }

  // ----- the other threads' lists

  /** What one thread retires, another does not free. */
  lemma OtherLists(s: State, t: nat, e: Effect, u: nat)
    requires Inv(s) && Good(s, t, e) && u < |s.threads| && u != t && ThreadLists(s.nodes, s.threads[u], s.lists[u])
    ensures ThreadLists(e.nodes, s.threads[u], s.lists[u])
  {
    hide Graph, NodeOk, ThreadOk, PairOk, Once, ToBeMarked;
    ThreadOf(s, u);
    forall x: nat | Listed(s.lists[u], x) ensures x < |e.nodes| && e.nodes[x].stage != Freed {
      ListedRetired(s.nodes, s.epoch, u, s.lists[u], x);
      assert NodeStep(t, s.nodes[x], e.nodes[x]);
    }
  }

  // ----- a thread's own list

  lemma ListedRetired(nodes: seq<Node>, epoch: nat, t: nat, list: seq<Label<nat>>, x: nat)
    requires ListOk(nodes, epoch, t, list) && Listed(list, x)
    ensures Retired(nodes, t, x)
  {
  }

  /** A victim that is not obsolete is not in the list. */
  lemma NotListedYet(s: State, t: nat)
    requires Inv(s) && t < |s.threads| && s.threads[t].pc == Writing && Pending(s.threads[t], Obsolete)
    ensures t < |s.lists| && !Listed(s.lists[t], s.threads[t].victim)
  {
    hide Inv, HeldOk, MadeOk, Graph, Locks, PairOk, NodeOk;
    ThreadOf(s, t);
    PosIsPosition(s.threads[t].kind, Obsolete, 0);
    if Listed(s.lists[t], s.threads[t].victim) {
      ListedRetired(s.nodes, s.epoch, t, s.lists[t], s.threads[t].victim);
    }
  }

  /** Only giving back makes a node freed. */
  lemma NewlyFreed(s: State, t: nat, c: Choice, x: nat)
    requires t < |s.threads| == |s.lists| && x < |s.nodes|
    ensures x < |EffectOf(s, t, c).nodes|
    ensures EffectOf(s, t, c).nodes[x].stage == Freed ==> s.nodes[x].stage == Freed || x in Given(s, t, c)
    ensures x in Given(s, t, c) ==> EffectOf(s, t, c).nodes[x].stage == Freed
  {
    hide WalkStep, LockStep, WriteStep, EpochStep;
    var pc := s.threads[t].pc;
    if pc in {UpgradeParent, UpgradeNode, ReleaseParent, UpgradeOnly, ReadLeaf, UpgradeLeaf, Stuck} {
      StageByLock(s, t, x);
    } else if pc == Writing {
      StageByWrite(s, t, c, x);
    } else if pc in {ReadVersion, Ready, CheckNode, Decided, ProbeVersion, ProbeReady, ProbeCheck} {
      StageByWalk(s, t, c);
    } else {
      StageByEpoch(s, t, c, x);
    }
  }

  lemma StageByWalk(s: State, t: nat, c: Choice)
    requires t < |s.threads| == |s.lists|
    ensures WalkStep(s, t, c).nodes == s.nodes
  {
  }

  lemma StageByLock(s: State, t: nat, x: nat)
    requires t < |s.threads| == |s.lists| && x < |s.nodes|
    ensures |LockStep(s, t).nodes| == |s.nodes| && LockStep(s, t).nodes[x].stage == s.nodes[x].stage
  {
  }

  lemma StageByEpoch(s: State, t: nat, c: Choice, x: nat)
    requires t < |s.threads| == |s.lists| && x < |s.nodes|
    ensures |EpochStep(s, t, c).nodes| == |s.nodes|
    ensures EpochStep(s, t, c).nodes[x].stage == (if x in Given(s, t, c) then Freed else s.nodes[x].stage)
  {
  }

  lemma StageByWrite(s: State, t: nat, c: Choice, x: nat)
    requires t < |s.threads| == |s.lists| && s.threads[t].pc == Writing && x < |s.nodes|
    ensures x < |WriteStep(s, t, c).nodes|
    ensures WriteStep(s, t, c).nodes[x].stage == Freed ==> s.nodes[x].stage == Freed
  {
    hide WithEntry, Program, Created;
    RelinkedLength(s, t);
    RelinkedStage(s, t, x);
    hide Relinked;
  }

  lemma RelinkedStage(s: State, t: nat, x: nat)
    requires t < |s.threads| && x < |s.nodes|
    ensures Relinked(s, t)[x].stage == Freed ==> s.nodes[x].stage == Freed
  {
  }

  /** What a step does to its thread's list. */
  lemma ListAfter(s: State, t: nat, c: Choice)
    requires t < |s.threads| == |s.lists|
    ensures var th, e := s.threads[t], EffectOf(s, t, c);
            if th.pc == Writing && th.at < |Program(th.kind)| && Program(th.kind)[th.at] == Mark then
              e.list == WithEntry(s.lists[t], th.victim, th.markEpoch) && e.local == th.(at := th.at + 1)
            else if Frees(s, t, c) then e.list == s.lists[t][..c.i] + s.lists[t][c.i + 1..] && e.local == th
            else e.list == s.lists[t]
  {
    hide WalkStep, LockStep, Program, WithEntry;
    QuietList(s, t, c);
  }

  lemma QuietList(s: State, t: nat, c: Choice)
    requires t < |s.threads| == |s.lists|
    ensures WalkStep(s, t, c).list == s.lists[t] && LockStep(s, t).list == s.lists[t]
  {
  }

  lemma StartsAtZero(s: State, t: nat, c: Choice)
    requires t < |s.threads| == |s.lists| && s.threads[t].pc != Writing && EffectOf(s, t, c).local.pc == Writing
    ensures EffectOf(s, t, c).local.at == 0
  {
    hide WalkStep, LockStep, WriteStep, EpochStep;
    OnlyLocksStart(s, t, c);
  }

  lemma OnlyLocksStart(s: State, t: nat, c: Choice)
    requires t < |s.threads| == |s.lists| && s.threads[t].pc != Writing
    ensures WalkStep(s, t, c).local.pc != Writing && EpochStep(s, t, c).local.pc != Writing
    ensures LockStep(s, t).local.pc == Writing ==> LockStep(s, t).local.at == 0
  {
  }

  lemma WritesOn(s: State, t: nat, c: Choice)
    requires t < |s.threads| == |s.lists| && s.threads[t].pc == Writing && EffectOf(s, t, c).local.pc == Writing
    ensures var th, th' := s.threads[t], EffectOf(s, t, c).local;
            && th'.victim == th.victim && th'.kind == th.kind && th.at < |Program(th.kind)|
            && th'.anchor == th.anchor && th'.ab == th.ab && th'.byte == th.byte
            && th.at <= th'.at <= th.at + 1 && (Program(th.kind)[th.at] != Create ==> th'.at == th.at + 1)
            && (Program(th.kind)[th.at] != Create ==> th'.made == th.made)
  {
    hide WithEntry, Program, Created, Relinked;
  }

  /** A thread that has a victim to mark after a step had it before, or has just made it obsolete. */
  lemma MarkAfter(s: State, t: nat, c: Choice)
    requires t < |s.threads| == |s.lists| && ToBeMarked(EffectOf(s, t, c).local)
    ensures var th, th' := s.threads[t], EffectOf(s, t, c).local;
            && th.pc == Writing && th'.victim == th.victim && (ToBeMarked(th) || Pending(th, Obsolete))
            && th.at < |Program(th.kind)| && Program(th.kind)[th.at] != Mark
  {
    hide EffectOf, Program;
    var th := s.threads[t];
    if th.pc != Writing {
      StartsAtZero(s, t, c);
      assert false;
    }
    WritesOn(s, t, c);
    PosIsPosition(th.kind, Mark, th.at);
  }

  lemma MarkedNow(s: State, t: nat)
    requires t < |s.threads| && s.threads[t].pc == Writing && s.threads[t].at < |Program(s.threads[t].kind)|
    requires Program(s.threads[t].kind)[s.threads[t].at] == Mark
    ensures ToBeMarked(s.threads[t]) && !ToBeMarked(s.threads[t].(at := s.threads[t].at + 1))
    ensures s.threads[t].kind != Plain
  {
  }

  lemma OwnList(s: State, t: nat, c: Choice)
    requires t < |s.threads| == |s.lists| && Inv(s) && Good(s, t, EffectOf(s, t, c))
    requires ThreadLists(s.nodes, s.threads[t], s.lists[t])
    ensures ThreadLists(EffectOf(s, t, c).nodes, EffectOf(s, t, c).local, EffectOf(s, t, c).list)
  {
    hide Inv, Good, EffectOf, WithEntry, Once, Listed, ToBeMarked, Program;
    var th, e := s.threads[t], EffectOf(s, t, c);
    ThreadsAndLists(s, t, e);
    ListAfter(s, t, c);
    if ToBeMarked(e.local) {
      MarkAfter(s, t, c);
      if !ToBeMarked(th) {
        NotListedYet(s, t);
      }
    }
    if th.pc == Writing && th.at < |Program(th.kind)| && Program(th.kind)[th.at] == Mark {
      MarkedNow(s, t);
      VictimStays(s, t);
      OneMoreOnce(s.lists[t], th.victim, th.markEpoch);
    } else if Frees(s, t, c) {
      FewerOnce(s.lists[t], c.i);
      NotWritingNow(th);
    }
    forall x: nat | Listed(e.list, x) ensures x < |e.nodes| && e.nodes[x].stage != Freed {
      NewlyFreed(s, t, c, x);
    }
  }

  lemma ThreadsAndLists(s: State, t: nat, e: Effect)
    requires Inv(s) && Good(s, t, e)
    ensures t < |s.threads| == |s.lists| && |s.nodes| <= |e.nodes|
  {
    hide Graph, NodeOk, ThreadOk, ListOk, PairOk;
  }

  lemma NotWritingNow(th: Local)
    requires th.pc == FreeOld
    ensures !ToBeMarked(th)
  {
  }

  lemma VictimStays(s: State, t: nat)
    requires Inv(s) && t < |s.threads| && s.threads[t].pc == Writing && s.threads[t].kind != Plain
    ensures s.threads[t].victim < |s.nodes| && s.nodes[s.threads[t].victim].stage in {Linked, Unlinked}
  {
    hide Inv, HeldOk, MadeOk, Graph, Locks;
    WritesOf(s, t);
  }

  // ----- every run

  lemma ListsKept(s: State, t: nat, c: Choice)
    requires Inv(s) && ListsOk(s) && t < |s.threads| == |s.lists|
    ensures Inv(Step(s, t, c)) && ListsOk(Step(s, t, c))
  {
    hide Inv, Good, EffectOf, ThreadLists;
    StepKeeps(s, t, c);
    OwnList(s, t, c);
    forall u | 0 <= u < |s.lists| && u != t
      ensures ThreadLists(EffectOf(s, t, c).nodes, s.threads[u], s.lists[u])
    {
      OtherLists(s, t, EffectOf(s, t, c), u);
    }
  }

  lemma {:induction false} ListsReachable(states: seq<State>, moves: seq<Move>, i: nat)
    requires Run(states, moves) && i < |states|
    ensures Inv(states[i]) && ListsOk(states[i])
  {
    hide Inv, Step, ListsOk;
    if i == 0 {
      InitialOk(states[0]);
      InitialLists(states[0]);
    } else {
      ListsReachable(states, moves, i - 1);
      ListsKept(states[i - 1], moves[i - 1].t, moves[i - 1].c);
    }
  }

  lemma InitialLists(s: State)
    requires Initial(s)
    ensures ListsOk(s)
  {
  }

  // ----- what is given back

  /** No node is given back that is linked, held by anybody, or given back already; nor any twice in one call. */
  lemma FreesOnlyGarbage(states: seq<State>, moves: seq<Move>, n: nat, a: nat)
    requires Run(states, moves) && n < |moves| && a < |Given(states[n], moves[n].t, moves[n].c)|
    ensures var s, given := states[n], Given(states[n], moves[n].t, moves[n].c);
            var x := given[a];
            && x < |s.nodes| && s.nodes[x].stage == Unlinked
            && (forall u | 0 <= u < |s.threads| && InOp(s.threads[u].pc) :: x !in s.threads[u].held)
            && (forall b | 0 <= b < |given| && given[b] == x :: a == b)
            && x < |states[n + 1].nodes| && states[n + 1].nodes[x].stage == Freed
  {
    hide Inv, Step, EffectOf, Once;
    var s, t, c := states[n], moves[n].t, moves[n].c;
    var x := Given(s, t, c)[a];
    ListsReachable(states, moves, n);
    EntriesRetired(s, t, c.i, x);
    RetiredIsCutOff(s, t, x);
    assert ThreadLists(s.nodes, s.threads[t], s.lists[t]);
    assert Listed(s.lists[t], x);
    forall u | 0 <= u < |s.threads| && InOp(s.threads[u].pc) ensures x !in s.threads[u].held {
      NobodyHolds(s, t, c.i, u, x);
    }
    forall b | 0 <= b < |Given(s, t, c)| && Given(s, t, c)[b] == x ensures a == b {
      OneEntry(s.lists[t], c.i, a, b);
    }
    NewlyFreed(s, t, c, x);
    StepNodes(s, t, c);
  }

  lemma OneEntry(list: seq<Label<nat>>, i: nat, a: nat, b: nat)
    requires Once(list) && i < |list| && a < |list[i].entries| && b < |list[i].entries|
    requires list[i].entries[a] == list[i].entries[b]
    ensures a == b
  {
    assert SamePlace(list, i, a, i, b);
  }

  lemma {:induction false} StaysFreed(states: seq<State>, moves: seq<Move>, i: nat, j: nat, x: nat)
    requires Run(states, moves) && i <= j < |states| && x < |states[i].nodes| && states[i].nodes[x].stage == Freed
    ensures x < |states[j].nodes| && states[j].nodes[x].stage == Freed
    decreases j
  {
    hide Inv, Step, Good, EffectOf;
    if i < j {
      StaysFreed(states, moves, i, j - 1, x);
      var s, m := states[j - 1], moves[j - 1];
      EveryReachableState(states, moves, j - 1);
      StepKeeps(s, m.t, m.c);
      StepNodes(s, m.t, m.c);
      FreedForGood(s, m.t, EffectOf(s, m.t, m.c), x);
    }
  }

  lemma FreedForGood(s: State, t: nat, e: Effect, x: nat)
    requires Good(s, t, e) && x < |s.nodes| && s.nodes[x].stage == Freed
    ensures x < |e.nodes| && e.nodes[x].stage == Freed
  {
    hide Graph, NodeOk, ThreadOk, ListOk, PairOk;
    assert NodeStep(t, s.nodes[x], e.nodes[x]);
  }

  /** Over a whole run a node is given back at most once. */
  lemma GivenOnce(states: seq<State>, moves: seq<Move>, n: nat, a: nat, m: nat, b: nat)
    requires Run(states, moves) && n < |moves| && m < |moves|
    requires a < |Given(states[n], moves[n].t, moves[n].c)| && b < |Given(states[m], moves[m].t, moves[m].c)|
    requires Given(states[n], moves[n].t, moves[n].c)[a] == Given(states[m], moves[m].t, moves[m].c)[b]
    ensures n == m && a == b
  {
    hide Step, Given;
    var x := Given(states[n], moves[n].t, moves[n].c)[a];
    FreesOnlyGarbage(states, moves, n, a);
    FreesOnlyGarbage(states, moves, m, b);
    if n < m {
      StaysFreed(states, moves, n + 1, m, x);
    } else if m < n {
      StaysFreed(states, moves, m + 1, n, x);
    }
  }
}
