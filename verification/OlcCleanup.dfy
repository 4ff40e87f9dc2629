/** No node that was cut off is forgotten, and a cleanup that is left alone gives back all that no reader can hold. */
module OlcCleanup {
  import opened Wrappers
  import opened Bytes
  import opened DeletionLists
  import opened OlcModel
  import opened OlcInvariant
  import opened OlcSteps
  import opened OlcWrites
  import opened OlcTheorems
  import opened OlcReclaim

  // ----- nothing is forgotten

  /** A node is in the list of the thread that cut it off, or that thread is about to enter it. */
  ghost predicate Waits(s: State, x: nat, n: Node) {
    && n.doomed.Some? && n.doomed.value < |s.threads| && n.doomed.value < |s.lists|
    && (Listed(s.lists[n.doomed.value], x) || Marks(s.threads[n.doomed.value], x))
  }

  ghost predicate Marks(th: Local, x: nat) {
    th.pc == Writing && th.kind != Plain && th.victim == x && Pending(th, Mark)
  }

  /** A leaf is entered before it is cut off. */
  ghost predicate EnteredFirst(th: Local, list: seq<Label<nat>>) {
    th.pc == Writing && th.kind == LeafSplit && Past(th, Mark) && Pending(th, Change) ==> Listed(list, th.victim)
  }

  ghost predicate AllWait(s: State) {
    && |s.threads| == |s.lists|
    && (forall x | 0 <= x < |s.nodes| && s.nodes[x].stage == Unlinked :: Waits(s, x, s.nodes[x]))
    && (forall t | 0 <= t < |s.threads| :: EnteredFirst(s.threads[t], s.lists[t]))
  }

  lemma ListedStays(list: seq<Label<nat>>, x: nat, e: nat, y: nat)
    requires Listed(list, y) || y == x
    ensures Listed(WithEntry(list, x, e), y)
  {
    var list' := WithEntry(list, x, e);
    if y == x {
      assert x in list'[0].entries;
    } else {
      var i :| 0 <= i < |list| && y in list[i].entries;
      if list != [] && |list[0].entries| < LABEL_SIZE {
        assert y in list'[i].entries;
      } else {
        assert y in list'[i + 1].entries;
      }
    }
  }

  lemma ListedUnlessGone(list: seq<Label<nat>>, k: nat, y: nat)
    requires Listed(list, y) && k < |list| && y !in list[k].entries
    ensures Listed(list[..k] + list[k + 1..], y)
  {
    var i :| 0 <= i < |list| && y in list[i].entries;
    var list' := list[..k] + list[k + 1..];
    assert y in list'[if i < k then i else i - 1].entries;
  }

  /** What is in a thread's own list stays there, unless it is given back. */
  lemma OwnListed(s: State, t: nat, c: Choice, x: nat)
    requires t < |s.threads| == |s.lists| && Listed(s.lists[t], x) && x !in Given(s, t, c)
    ensures Listed(EffectOf(s, t, c).list, x)
  {
    hide EffectOf, Listed, WithEntry, Program;
    ListAfter(s, t, c);
    if Frees(s, t, c) {
      ListedUnlessGone(s.lists[t], c.i, x);
    } else if s.threads[t].pc == Writing && s.threads[t].at < |Program(s.threads[t].kind)|
              && Program(s.threads[t].kind)[s.threads[t].at] == Mark {
      ListedStays(s.lists[t], s.threads[t].victim, s.threads[t].markEpoch, x);
    }
  }

  /** A thread about to enter its victim goes on to do so. */
  lemma MarksOn(s: State, t: nat, c: Choice, x: nat)
    requires Inv(s) && t < |s.threads| == |s.lists| && Marks(s.threads[t], x) && x < |s.nodes|
    requires s.nodes[x].stage == Unlinked
    ensures Marks(EffectOf(s, t, c).local, x) || Listed(EffectOf(s, t, c).list, x)
  {
    hide Inv, EffectOf, Listed, WithEntry, Program, MadeOk, HeldOk, Locks;
    var th := s.threads[t];
    WritesOf(s, t);
    PosIsPosition(th.kind, Mark, th.at);
    PosIsPosition(th.kind, Create, th.at);
    Order(th);
    if th.at < |Program(th.kind)| && Program(th.kind)[th.at] == Mark {
      ListAfter(s, t, c);
      ListedStays(s.lists[t], x, th.markEpoch, x);
    } else {
      OtherActs(s, t, c);
    }
  }

  /** Past the allocation, every act leads to the next. */
  lemma OtherActs(s: State, t: nat, c: Choice)
    requires t < |s.threads| == |s.lists| && s.threads[t].pc == Writing
    requires s.threads[t].at < |Program(s.threads[t].kind)|
    requires Program(s.threads[t].kind)[s.threads[t].at] != Create
    ensures var th, th' := s.threads[t], EffectOf(s, t, c).local;
            th' == th.(at := th.at + 1, markEpoch := th'.markEpoch)
  {
    hide Program, WithEntry, Created, Relinked;
  }

  /** Only the step that moves the anchor's pointer cuts off a node: its victim. */
  lemma NewlyCutOff(s: State, t: nat, c: Choice, x: nat)
    requires t < |s.threads| == |s.lists| && x < |s.nodes| && s.nodes[x].stage != Unlinked
    requires x < |EffectOf(s, t, c).nodes| && EffectOf(s, t, c).nodes[x].stage == Unlinked
    ensures var th := s.threads[t];
            && th.pc == Writing && th.at < |Program(th.kind)| && Program(th.kind)[th.at] == Change
            && th.kind != Plain && th.victim == x
            && EffectOf(s, t, c).nodes[x] == Relinked(s, t)[x]
  {
    hide WalkStep, LockStep, WriteStep, EpochStep;
    var pc := s.threads[t].pc;
    if pc in {UpgradeParent, UpgradeNode, ReleaseParent, UpgradeOnly, ReadLeaf, UpgradeLeaf, Stuck} {
      StageByLock(s, t, x);
    } else if pc == Writing {
      CutOffByWrite(s, t, c, x);
    } else if pc in {ReadVersion, Ready, CheckNode, Decided, ProbeVersion, ProbeReady, ProbeCheck} {
      StageByWalk(s, t, c);
    } else {
      StageByEpoch(s, t, c, x);
    }
  }

  lemma CutOffByWrite(s: State, t: nat, c: Choice, x: nat)
    requires t < |s.threads| == |s.lists| && s.threads[t].pc == Writing && x < |s.nodes|
    requires s.nodes[x].stage != Unlinked
    requires x < |WriteStep(s, t, c).nodes| && WriteStep(s, t, c).nodes[x].stage == Unlinked
    ensures var th := s.threads[t];
            && th.at < |Program(th.kind)| && Program(th.kind)[th.at] == Change
            && WriteStep(s, t, c).nodes == Relinked(s, t) && th.kind != Plain && th.victim == x
  {
    hide WithEntry, Program, Created;
    RelinkedLength(s, t);
    RelinkedCut(s, t, x);
    hide Relinked;
  }

  lemma RelinkedCut(s: State, t: nat, x: nat)
    requires t < |s.threads| && x < |s.nodes| && s.nodes[x].stage != Unlinked
    ensures Relinked(s, t)[x].stage == Unlinked ==> s.threads[t].kind != Plain && s.threads[t].victim == x
  {
  }

  /** What is new is private. */
  lemma NewIsPrivate(s: State, t: nat, c: Choice, x: nat)
    requires t < |s.threads| == |s.lists| && |s.nodes| <= x < |EffectOf(s, t, c).nodes|
    ensures EffectOf(s, t, c).nodes[x].stage != Unlinked
  {
    hide WalkStep, LockStep, WriteStep, EpochStep;
    var pc := s.threads[t].pc;
    if pc == Writing {
      NewByWrite(s, t, c, x);
    } else {
      OnlyWritingAdds(s, t, c);
    }
  }

  lemma OnlyWritingAdds(s: State, t: nat, c: Choice)
    requires t < |s.threads| == |s.lists| && s.threads[t].pc != Writing
    ensures |EffectOf(s, t, c).nodes| == |s.nodes|
  {
    hide WithEntry, WriteStep;
  }

  lemma NewByWrite(s: State, t: nat, c: Choice, x: nat)
    requires t < |s.threads| == |s.lists| && s.threads[t].pc == Writing && |s.nodes| <= x < |WriteStep(s, t, c).nodes|
    ensures WriteStep(s, t, c).nodes[x].stage != Unlinked
  {
    hide WithEntry, Program, Created;
    RelinkedLength(s, t);
    if c.New? {
      CreatedPrivate(t, s.threads[t], Get(s.nodes, s.threads[t].victim), |s.nodes|, c.b1, c.b2);
    }
    hide Relinked;
  }

  lemma CreatedPrivate(t: nat, th: Local, victim: Node, f: nat, b1: Byte, b2: Byte)
    ensures forall i | 0 <= i < |Created(t, th, victim, f, b1, b2)| ::
              Created(t, th, victim, f, b1, b2)[i].stage == Private(t)
  {
  }

  /** A victim cut off just now is in its thread's list already, or about to be entered. */
  lemma CutOffWaits(s: State, t: nat, c: Choice, x: nat)
    requires Inv(s) && t < |s.threads| == |s.lists| && EnteredFirst(s.threads[t], s.lists[t])
    requires x < |s.nodes| && s.nodes[x].stage != Unlinked
    requires x < |EffectOf(s, t, c).nodes| && EffectOf(s, t, c).nodes[x].stage == Unlinked
    ensures Waits(Step(s, t, c), x, EffectOf(s, t, c).nodes[x])
  {
    hide Inv, EffectOf, Listed, WithEntry, Program, MadeOk, HeldOk, Locks, Relinked;
    NewlyCutOff(s, t, c, x);
    var th := s.threads[t];
    WritesOf(s, t);
    PosIsPosition(th.kind, Change, th.at);
    RelinkedDoomed(s, t, x);
    OtherActs(s, t, c);
    if th.kind == LeafSplit {
      assert Past(th, Mark) && Pending(th, Change);
      ListAfter(s, t, c);
    }
    StepParts(s, t, c);
  }

  lemma RelinkedDoomed(s: State, t: nat, x: nat)
    requires t < |s.threads| && x < |s.nodes|
    ensures x < |Relinked(s, t)| && Relinked(s, t)[x].doomed == s.nodes[x].doomed
  {
  }

  lemma StepParts(s: State, t: nat, c: Choice)
    requires t < |s.threads| == |s.lists|
    ensures var s', e := Step(s, t, c), EffectOf(s, t, c);
            && s'.nodes == e.nodes && s'.threads == s.threads[t := e.local] && s'.lists == s.lists[t := e.list]
  {
    hide EffectOf;
  }

  /** A node that waits goes on waiting, until it is given back. */
  lemma StillWaits(s: State, t: nat, c: Choice, x: nat)
    requires Inv(s) && ListsOk(s) && t < |s.threads| == |s.lists| && x < |s.nodes| && s.nodes[x].stage == Unlinked
    requires Waits(s, x, s.nodes[x]) && x < |EffectOf(s, t, c).nodes| && EffectOf(s, t, c).nodes[x].stage == Unlinked
    ensures Waits(Step(s, t, c), x, EffectOf(s, t, c).nodes[x])
  {
    hide Inv, EffectOf, Listed, ListsOk, Marks;
    SameDoom(s, t, c, x);
    StepParts(s, t, c);
    if s.nodes[x].doomed.value == t {
      if Listed(s.lists[t], x) {
        NewlyFreed(s, t, c, x);
        OwnListed(s, t, c, x);
      } else {
        MarksOn(s, t, c, x);
      }
    }
  }

  lemma SameDoom(s: State, t: nat, c: Choice, x: nat)
    requires Inv(s) && t < |s.threads| == |s.lists| && x < |s.nodes| && s.nodes[x].stage == Unlinked
    ensures x < |EffectOf(s, t, c).nodes| && EffectOf(s, t, c).nodes[x].doomed == s.nodes[x].doomed
  {
    hide Inv, EffectOf, Good;
    StepKeeps(s, t, c);
    NodeOf(s, x);
    StepOfNode(s, t, EffectOf(s, t, c), x);
  }

  /** The entry of a leaf comes before the leaf is cut off. */
  lemma StillFirst(s: State, t: nat, c: Choice)
    requires t < |s.threads| == |s.lists| && EnteredFirst(s.threads[t], s.lists[t])
    ensures EnteredFirst(EffectOf(s, t, c).local, EffectOf(s, t, c).list)
  {
    hide EffectOf, Listed, WithEntry, Program;
    var th, th' := s.threads[t], EffectOf(s, t, c).local;
    if th'.pc == Writing && th'.kind == LeafSplit && Past(th', Mark) && Pending(th', Change) {
      if th.pc != Writing {
        StartsAtZero(s, t, c);
      }
      WritesOn(s, t, c);
      PosIsPosition(th.kind, Mark, th.at);
      PosIsPosition(th.kind, Create, th.at);
      ListAfter(s, t, c);
      ListedStays(s.lists[t], th.victim, th.markEpoch, th.victim);
    }
  }

  lemma AllWaitKept(s: State, t: nat, c: Choice)
    requires Inv(s) && ListsOk(s) && AllWait(s) && t < |s.threads| == |s.lists|
    ensures AllWait(Step(s, t, c))
  {
    hide Inv, EffectOf, ListsOk, Waits, EnteredFirst;
    StepParts(s, t, c);
    var s' := Step(s, t, c);
    forall x | 0 <= x < |s'.nodes| && s'.nodes[x].stage == Unlinked ensures Waits(s', x, s'.nodes[x]) {
      if x >= |s.nodes| {
        NewIsPrivate(s, t, c, x);
        assert false;
      } else if s.nodes[x].stage == Unlinked {
        StillWaits(s, t, c, x);
      } else {
        CutOffWaits(s, t, c, x);
      }
    }
    StillFirst(s, t, c);
  }

  /** In every reachable state a node that was cut off and not given back is, or is about to be, in a deletion list. */
  lemma {:induction false} NoneForgotten(states: seq<State>, moves: seq<Move>, i: nat)
    requires Run(states, moves) && i < |states|
    ensures AllWait(states[i])
  {
    hide Inv, Step, ListsOk, AllWait;
    if i == 0 {
      NothingCutOff(states[0]);
    } else {
      NoneForgotten(states, moves, i - 1);
      ListsReachable(states, moves, i - 1);
      AllWaitKept(states[i - 1], moves[i - 1].t, moves[i - 1].c);
    }
  }

  lemma NothingCutOff(s: State)
    requires Initial(s)
    ensures AllWait(s)
  {
  }

  // ----- a cleanup

  /** Some steps of thread t. */
  function After(s: State, t: nat, cs: seq<Choice>): (s': State)
    requires t < |s.threads| == |s.lists|
    ensures |s'.threads| == |s'.lists| == |s.threads|
    decreases |cs|
  {
    if cs == [] then s else After(Step(s, t, cs[0]), t, cs[1..])
  }

  lemma {:induction false} AfterBoth(s: State, t: nat, cs: seq<Choice>, ds: seq<Choice>)
    requires t < |s.threads| == |s.lists|
    ensures After(s, t, cs + ds) == After(After(s, t, cs), t, ds)
    decreases |cs|
  {
    hide Step;
    if cs == [] {
      assert cs + ds == ds;
    } else {
      StepLengths(s, t, cs[0]);
      AfterBoth(Step(s, t, cs[0]), t, cs[1..], ds);
      assert (cs + ds)[1..] == cs[1..] + ds;
    }
  }

  lemma StepLengths(s: State, t: nat, c: Choice)
    requires t < |s.threads| == |s.lists|
    ensures |Step(s, t, c).threads| == |Step(s, t, c).lists| == |s.threads|
  {
    hide EffectOf;
  }

  /** The least epoch announced by one of the first n threads; thread t itself does not count. */
  ghost function Oldest(ths: seq<Local>, t: nat, n: nat): (r: nat)
    requires n <= |ths|
    ensures r <= MAX_EPOCH && forall u | 0 <= u < n && u != t :: r <= ths[u].localEpoch
    ensures r == MAX_EPOCH || exists u :: 0 <= u < n && u != t && r == ths[u].localEpoch
  {
    if n == 0 then MAX_EPOCH
    else
      var r := Oldest(ths, t, n - 1);
      if n - 1 != t && ths[n - 1].localEpoch < r then ths[n - 1].localEpoch else r
  }

  /** Nothing but the thread itself and its list is changed by its cleanup, apart from what it gives back. */
  function With(s: State, t: nat, nodes: seq<Node>, th: Local, list: seq<Label<nat>>): State
    requires t < |s.threads| == |s.lists|
  {
    s.(nodes := nodes, threads := s.threads[t := th], lists := s.lists[t := list])
  }

  /** Steps without a choice. */
  function Gos(k: nat): (cs: seq<Choice>)
    ensures |cs| == k
  {
    if k == 0 then [] else [Go] + Gos(k - 1)
  }

  lemma GoOnce(s: State, t: nat, k: nat)
    requires t < |s.threads| == |s.lists| && k > 0
    ensures |Step(s, t, Go).threads| == |Step(s, t, Go).lists| == |s.threads|
    ensures After(s, t, Gos(k)) == After(Step(s, t, Go), t, Gos(k - 1))
  {
    hide Step;
    StepLengths(s, t, Go);
    assert Gos(k)[1..] == Gos(k - 1);
  }

  lemma ScanStep(s: State, t: nat, th: Local)
    requires t < |s.threads| == |s.lists| && th.pc == Scan && th.localEpoch == MAX_EPOCH && th.oldest <= MAX_EPOCH
    ensures var s1 := With(s, t, s.nodes, th, s.lists[t]);
            Step(s1, t, Go) ==
            With(s, t, s.nodes,
                 if th.scanned < |s.threads| then
                   th.(scanned := th.scanned + 1,
                       oldest := if th.scanned != t && s.threads[th.scanned].localEpoch < th.oldest
                                 then s.threads[th.scanned].localEpoch else th.oldest)
                 else th.At(FreeOld), s.lists[t])
  {
    var s1 := With(s, t, s.nodes, th, s.lists[t]);
    var e := EffectOf(s1, t, Go);
    assert s1.threads[t := e.local] == s.threads[t := e.local] && s1.lists[t := e.list] == s.lists[t := s.lists[t]];
  }

  /** The thread after its scan. */
  ghost function Scanned(s: State, t: nat, th: Local): Local {
    th.(pc := FreeOld, scanned := |s.threads|, oldest := Oldest(s.threads, t, |s.threads|))
  }

  ghost predicate Scanning(s: State, t: nat, th: Local) {
    && th.pc == Scan && th.localEpoch == MAX_EPOCH && th.scanned <= |s.threads|
    && th.oldest == Oldest(s.threads, t, th.scanned)
  }

  /** One thread more. */
  lemma ScansNext(s: State, t: nat, th: Local) returns (th': Local)
    requires t < |s.threads| == |s.lists| && Scanning(s, t, th) && th.scanned < |s.threads|
    ensures Scanning(s, t, th') && th'.scanned == th.scanned + 1 && Scanned(s, t, th') == Scanned(s, t, th)
    ensures Step(With(s, t, s.nodes, th, s.lists[t]), t, Go) == With(s, t, s.nodes, th', s.lists[t])
  {
    hide Step, With;
    ScanStep(s, t, th);
    var e := s.threads[th.scanned].localEpoch;
    th' := th.(scanned := th.scanned + 1, oldest := if th.scanned != t && e < th.oldest then e else th.oldest);
  }

  lemma ScanEnds(s: State, t: nat, th: Local)
    requires t < |s.threads| == |s.lists| && Scanning(s, t, th) && th.scanned == |s.threads|
    ensures Step(With(s, t, s.nodes, th, s.lists[t]), t, Go) == With(s, t, s.nodes, Scanned(s, t, th), s.lists[t])
  {
    hide Step, With;
    ScanStep(s, t, th);
  }

  /** The scan goes over the threads that are left. */
  lemma {:induction false} Scans(s: State, t: nat, th: Local)
    requires t < |s.threads| == |s.lists| && Scanning(s, t, th)
    ensures th.scanned <= |s.threads|
    ensures After(With(s, t, s.nodes, th, s.lists[t]), t, Gos(|s.threads| - th.scanned + 1))
            == With(s, t, s.nodes, Scanned(s, t, th), s.lists[t])
    decreases |s.threads| - th.scanned
  {
    hide Step, With, After, Gos, Oldest, Scanned;
    var n := |s.threads|;
    var s1 := With(s, t, s.nodes, th, s.lists[t]);
    Lengths(s, t, s.nodes, th, s.lists[t]);
    GoOnce(s1, t, n - th.scanned + 1);
    if th.scanned < n {
      var th' := ScansNext(s, t, th);
      Scans(s, t, th');
    } else {
      ScanEnds(s, t, th);
      NoSteps(Step(s1, t, Go), t);
    }
  }

  lemma NoSteps(s: State, t: nat)
    requires t < |s.threads| == |s.lists|
    ensures After(s, t, Gos(0)) == s
  {
  }

  lemma Lengths(s: State, t: nat, nodes: seq<Node>, th: Local, list: seq<Label<nat>>)
    requires t < |s.threads| == |s.lists|
    ensures |With(s, t, nodes, th, list).threads| == |With(s, t, nodes, th, list).lists| == |s.threads|
  {
  }

  /** The first label that is older, if there is one. */
  lemma FirstOld(list: seq<Label<nat>>, oldest: nat) returns (i: nat)
    ensures i <= |list| && (forall j | 0 <= j < i :: list[j].epoch >= oldest)
    ensures i < |list| ==> list[i].epoch < oldest
  {
    i := 0;
    while i < |list| && list[i].epoch >= oldest
      invariant i <= |list| && forall j | 0 <= j < i :: list[j].epoch >= oldest
    {
      i := i + 1;
    }
  }

  lemma {:induction false} WithoutFirst(list: seq<Label<nat>>, oldest: nat, i: nat)
    requires i < |list| && (forall j | 0 <= j < i :: list[j].epoch >= oldest) && list[i].epoch < oldest
    ensures var rest := list[..i] + list[i + 1..];
            Staying(list, oldest) == Staying(rest, oldest)
            && Expired(list, oldest) == list[i].entries + Expired(rest, oldest)
  {
    if i == 0 {
      assert list[..i] + list[i + 1..] == list[1..];
    } else {
      WithoutFirst(list[1..], oldest, i - 1);
      TailWithout(list, i);
      YoungFirst(list[0], list[1..][..i - 1] + list[1..][i..], oldest);
    }
  }

  lemma TailWithout(list: seq<Label<nat>>, i: nat)
    requires 0 < i < |list|
    ensures list[..i] + list[i + 1..] == [list[0]] + (list[1..][..i - 1] + list[1..][i..])
    ensures list[1..][i - 1] == list[i]
  {
  }

  lemma YoungFirst(l: Label<nat>, tail: seq<Label<nat>>, oldest: nat)
    requires l.epoch >= oldest
    ensures Staying([l] + tail, oldest) == [l] + Staying(tail, oldest)
    ensures Expired([l] + tail, oldest) == Expired(tail, oldest)
  {
    assert ([l] + tail)[1..] == tail;
  }

  lemma {:induction false} NoneOld(list: seq<Label<nat>>, oldest: nat)
    requires forall j | 0 <= j < |list| :: list[j].epoch >= oldest
    ensures Staying(list, oldest) == list && Expired(list, oldest) == []
  {
    if list != [] {
      NoneOld(list[1..], oldest);
    }
  }

  lemma FreedTwice(nodes: seq<Node>, a: seq<nat>, b: seq<nat>)
    ensures FreedNodes(FreedNodes(nodes, a), b) == FreedNodes(nodes, a + b)
  {
  }

  lemma FreeStep(s: State, t: nat, nodes: seq<Node>, th: Local, list: seq<Label<nat>>, i: nat)
    requires t < |s.threads| == |s.lists| && th.pc == FreeOld && i < |list| && list[i].epoch < th.oldest
    ensures Step(With(s, t, nodes, th, list), t, FreeLabel(i))
            == With(s, t, FreedNodes(nodes, list[i].entries), th, list[..i] + list[i + 1..])
  {
    hide FreedNodes;
    var s1, list' := With(s, t, nodes, th, list), list[..i] + list[i + 1..];
    assert s1.lists[t] == list && EffectOf(s1, t, FreeLabel(i)).list == list';
    assert s1.threads[t := th] == s.threads[t := th] && s1.lists[t := list'] == s.lists[t := list'];
  }

  lemma EndStep(s: State, t: nat, nodes: seq<Node>, th: Local, list: seq<Label<nat>>)
    requires t < |s.threads| == |s.lists| && th.pc == FreeOld
    ensures Step(With(s, t, nodes, th, list), t, Go) == With(s, t, nodes, th.At(Outside), list)
  {
    var s1, th' := With(s, t, nodes, th, list), th.At(Outside);
    assert s1.threads[t := th'] == s.threads[t := th'] && s1.lists[t := list] == s.lists[t := list];
  }

  /** Label by label, all that is older goes. */
  lemma {:induction false} FreesAll(s: State, t: nat, nodes: seq<Node>, th: Local, list: seq<Label<nat>>)
    returns (cs: seq<Choice>)
    requires t < |s.threads| == |s.lists| && th.pc == FreeOld
    ensures After(With(s, t, nodes, th, list), t, cs) ==
            With(s, t, FreedNodes(nodes, Expired(list, th.oldest)), th.At(Outside), Staying(list, th.oldest))
    ensures |cs| <= |list| + 1
    decreases |list|
  {
    hide Step, FreedNodes, Expired, Staying;
    var s1 := With(s, t, nodes, th, list);
    var i := FirstOld(list, th.oldest);
    if i < |list| {
      FreeStep(s, t, nodes, th, list, i);
      var rest := list[..i] + list[i + 1..];
      WithoutFirst(list, th.oldest, i);
      FreedTwice(nodes, list[i].entries, Expired(rest, th.oldest));
      var more := FreesAll(s, t, FreedNodes(nodes, list[i].entries), th, rest);
      cs := [FreeLabel(i)] + more;
      assert cs[1..] == more;
    } else {
      EndStep(s, t, nodes, th, list);
      NoneOld(list, th.oldest);
      NothingFreed(nodes);
      cs := [Go];
      assert After(Step(s1, t, Go), t, cs[1..]) == Step(s1, t, Go);
    }
  }

  lemma NothingFreed(nodes: seq<Node>)
    ensures FreedNodes(nodes, []) == nodes
  {
  }

  lemma FinishStep(s: State, t: nat, bump: bool)
    requires t < |s.threads| == |s.lists| && s.threads[t].pc in {Leave, Failed}
    ensures Step(s, t, Finish(bump, true)) ==
            With(s, t, s.nodes, s.threads[t].(pc := StoreMax, held := {}), s.lists[t])
              .(epoch := if bump then s.epoch + 1 else s.epoch)
  {
  }

  lemma MaxStep(s: State, t: nat, th: Local)
    requires t < |s.threads| == |s.lists| && th.pc == StoreMax
    ensures Step(With(s, t, s.nodes, th, s.lists[t]), t, Go) ==
            With(s, t, s.nodes, th.(pc := Scan, localEpoch := MAX_EPOCH, oldest := MAX_EPOCH, scanned := 0), s.lists[t])
  {
    var s1 := With(s, t, s.nodes, th, s.lists[t]);
    var e := EffectOf(s1, t, Go);
    assert s1.threads[t := e.local] == s.threads[t := e.local] && s1.lists[t := e.list] == s.lists[t := s.lists[t]];
  }

  lemma FinishSteps(s: State, t: nat, bump: bool)
    requires t < |s.threads| == |s.lists| && s.threads[t].pc in {Leave, Failed}
    ensures var s0 := s.(epoch := if bump then s.epoch + 1 else s.epoch);
            After(s, t, [Finish(bump, true), Go]) ==
            With(s0, t, s.nodes, s.threads[t].(pc := Scan, held := {}, localEpoch := MAX_EPOCH, oldest := MAX_EPOCH,
                                               scanned := 0), s.lists[t])
  {
    hide Step;
    var s0 := s.(epoch := if bump then s.epoch + 1 else s.epoch);
    FinishStep(s, t, bump);
    var s1 := With(s0, t, s.nodes, s.threads[t].(pc := StoreMax, held := {}), s.lists[t]);
    MaxStep(s0, t, s.threads[t].(pc := StoreMax, held := {}));
    assert [Finish(bump, true), Go][1..] == [Go] && [Go][1..] == [];
    assert After(s, t, [Finish(bump, true), Go]) == After(s1, t, [Go]) == After(Step(s1, t, Go), t, []);
  }

  /**
   * A thread that leaves with a cleanup and is left alone gives back exactly the entries of its labels older than every
   * epoch another thread has announced, and keeps the others in order.
   */
  lemma CleansUpAlone(s: State, t: nat, bump: bool) returns (cs: seq<Choice>, s': State)
    requires t < |s.threads| == |s.lists| && s.threads[t].pc in {Leave, Failed}
    ensures s' == After(s, t, [Finish(bump, true)] + cs) && |cs| <= |s.threads| + |s.lists[t]| + 3
    ensures var oldest := Oldest(s.threads, t, |s.threads|);
            && s'.nodes == FreedNodes(s.nodes, Expired(s.lists[t], oldest))
            && t < |s'.lists| && s'.lists == s.lists[t := Staying(s.lists[t], oldest)]
            && t < |s'.threads| && s'.threads == s.threads[t := s'.threads[t]]
            && s'.threads[t].pc == Outside && s'.threads[t].localEpoch == MAX_EPOCH
            && s'.epoch == s.epoch + if bump then 1 else 0
  {
    hide Step, FreedNodes, Expired, Staying, After;
    var n := |s.threads|;
    var th := s.threads[t].(pc := Scan, held := {}, localEpoch := MAX_EPOCH, oldest := MAX_EPOCH, scanned := 0);
    var s0 := s.(epoch := if bump then s.epoch + 1 else s.epoch);
    var th' := th.(pc := FreeOld, scanned := n, oldest := Oldest(s.threads, t, n));
    FinishSteps(s, t, bump);
    Scans(s0, t, th);
    var gos := Gos(n + 1);
    var more := FreesAll(s0, t, s.nodes, th', s.lists[t]);
    AfterBoth(s, t, [Finish(bump, true), Go], gos);
    AfterBoth(s, t, [Finish(bump, true), Go] + gos, more);
    cs := [Go] + gos + more;
    assert [Finish(bump, true)] + cs == [Finish(bump, true), Go] + gos + more;
    s' := After(s, t, [Finish(bump, true)] + cs);
  }
}
