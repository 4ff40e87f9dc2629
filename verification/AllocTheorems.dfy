/** What the invariant means for callers: in every interleaving, and over whole runs. */
module AllocTheorems {
  import opened Wrappers
  import opened AllocModel
  import opened AllocInvariant
  import opened AllocSteps

  // ----- one state

  /** Following the links from the head, as many as the count says. */
  function Walk(cells: seq<Cell>, head: nat, count: nat): seq<nat>
    decreases count
  {
    if count == 0 then []
    else [head] + Walk(cells, if head < |cells| && cells[head].Link? then cells[head].next else 0, count - 1)
  }

  lemma {:induction false} WalkIsFree(n: nat, cells: seq<Cell>, free: seq<nat>, head: nat)
    requires Chain(n, cells, free) && (free != [] ==> free[0] == head)
    ensures Walk(cells, head, |free|) == free
    decreases |free|
  {
    if free != [] {
      var rest := free[1..];
      assert Chain(n, cells, rest) by {
        assert forall i | 0 <= i < |rest| :: rest[i] == free[i + 1];
      }
      if rest != [] {
        assert cells[free[0]].next == free[1] == rest[0];
      }
      WalkIsFree(n, cells, rest, cells[head].next);
    }
  }

  /**
   * While nobody holds its lock, a bucket's list has exactly as many distinct slots in range as its count says, and
   * those are the slots that belong to nobody.
   */
  lemma UnlockedBucket(s: State, b: nat, i: nat, j: nat)
    requires Inv(s) && b < |s.buckets| && Even(s.buckets[b].version)
    ensures var k := s.buckets[b];
            var list := Walk(k.cells, k.head, k.count);
            && |list| == k.count && |k.owners| == s.slots
            && (i < |list| ==> list[i] < s.slots) && (i < j < |list| ==> list[i] != list[j])
            && (i < s.slots ==> (k.owners[i] == Nobody <==> i in list))
  {
    var k := s.buckets[b];
    assert BucketOk(s.slots, s.threads, b, k);
    WalkIsFree(s.slots, k.cells, k.free, k.head);
  }

  /** A lock is held by exactly one thread, in the part of its code between lock and unlock. */
  lemma LockedBucket(s: State, b: nat, t: nat)
    requires Inv(s) && b < |s.buckets| && t < |s.threads|
    ensures Holds(s.threads[t]) == Some(b) ==> !Even(s.buckets[b].version) && s.buckets[b].lockedBy == Some(t)
    ensures !Even(s.buckets[b].version) ==> s.buckets[b].lockedBy.Some? && s.buckets[b].lockedBy.value < |s.threads|
                                            && Holds(s.threads[s.buckets[b].lockedBy.value]) == Some(b)
  {
    assert BucketOk(s.slots, s.threads, b, s.buckets[b]) && ThreadOk(s.slots, s.buckets, t, s.threads[t]);
    hide Chain, Partition, Consistent, Optimistic, AllocatingOk, FreeingOk;
  }

  /** A successful upgrade: the head and the successor read before are the current ones. */
  lemma UpgradeIsCurrent(s: State, t: nat)
    requires Inv(s) && GenuineUpgrade(s, t) && t < |s.threads| && s.threads[t].pc == Upgrade
    requires s.threads[t].Chosen() < |s.buckets|
    ensures var th := s.threads[t];
            var k := s.buckets[th.Chosen()];
            Same(k.version, th.ChosenVersion()) ==>
              && th.head == k.head && k.count == |k.free| && ChosenCount(th) == k.count
              && (k.count > 0 ==> th.head < |k.cells| && k.free[0] == th.head && k.cells[th.head] == Link(th.next))
  {
    hide Inv, Same;
    if s.buckets[s.threads[t].Chosen()].version == s.threads[t].ChosenVersion() {
      ReadIsCurrent(s, t);
    }
  }

  // ----- one step

  /** How one step of thread t may change the owner of a slot. */
  ghost predicate OwnerStep(t: nat, pc: Pc, freed: bool, o: Owner, o': Owner) {
    || o' == o
    || (o == Nobody && o' == Thread(t) && pc == SubtractCount)
    || (o == Thread(t) && o' == Caller && pc == CountUp)
    || (o == Caller && o' == Thread(t) && freed)
    || (o == Thread(t) && o' == Nobody && pc == StoreFreed)
  }

  lemma AllocateOwners(s: State, t: nat, garbage: nat, i: nat)
    requires Here(s, t) && Allocating(s.threads[t].pc)
    ensures var e := AllocateStep(s, t, garbage);
            && e.b < |s.buckets| && |e.bucket.owners| == |s.buckets[e.b].owners|
            && (i < |e.bucket.owners| ==>
                  OwnerStep(t, s.threads[t].pc, false, s.buckets[e.b].owners[i], e.bucket.owners[i]))
  {
    hide Inv, Sound, BucketOk, AllocatingOk, FreeingOk, Knows, Same;
    OwnersAfter(s, t, garbage);
    if s.threads[t].pc == SubtractCount {
      PoppedIsFree(s, t);
    } else if s.threads[t].pc == CountUp {
      HandedOut(s, t);
    }
  }

  /** Owners change in two steps of an allocation. */
  lemma OwnersAfter(s: State, t: nat, garbage: nat)
    requires t < |s.threads| && Allocating(s.threads[t].pc)
    requires s.threads[t].bucket1 < |s.buckets| && s.threads[t].bucket2 < |s.buckets|
    ensures var th, e := s.threads[t], AllocateStep(s, t, garbage);
            && e.b < |s.buckets|
            && var owners := s.buckets[e.b].owners;
               && (th.pc in {SubtractCount, CountUp} ==> e.b == th.Chosen())
               && e.bucket.owners == (if th.pc == SubtractCount then SetOwner(owners, th.head, Thread(t))
                                      else if th.pc == CountUp then SetOwner(owners, th.head, Caller) else owners)
  {
    hide Same, SetOwner;
  }

  lemma HandedOut(s: State, t: nat)
    requires Here(s, t) && s.threads[t].pc == CountUp
    ensures Owned(s.buckets[s.threads[t].Chosen()], s.threads[t].head, t)
  {
    hide Inv, Sound, BucketOk, AllocatingOk, FreeingOk;
    Known(s, t);
  }

  lemma FreeOwners(s: State, t: nat, i: nat)
    requires Here(s, t) && !Allocating(s.threads[t].pc)
    ensures var e := FreeStep(s, t);
            && e.b < |s.buckets| && |e.bucket.owners| == |s.buckets[e.b].owners|
            && (i < |e.bucket.owners| ==>
                  OwnerStep(t, s.threads[t].pc, false, s.buckets[e.b].owners[i], e.bucket.owners[i]))
  {
    Known(s, t);
    hide Inv, Sound, BucketOk, AllocatingOk, FreeingOk, AllocateStep;
  }

  lemma EffectOwners(s: State, t: nat, a: Action, i: nat)
    requires Inv(s) && Sound(s, t) && Enabled(s, t, a)
    ensures var e := EffectOf(s, t, a);
            && e.b < |s.buckets| && |e.bucket.owners| == |s.buckets[e.b].owners|
            && (i < |e.bucket.owners| ==>
                  OwnerStep(t, s.threads[t].pc, a == Free(e.b, i), s.buckets[e.b].owners[i], e.bucket.owners[i]))
  {
    hide Inv, Sound, AllocateStep, FreeStep;
    if a.Continue? {
      if Allocating(s.threads[t].pc) {
        AllocateOwners(s, t, a.garbage, i);
      } else {
        FreeOwners(s, t, i);
      }
    }
  }

  /**
   * A slot goes from the list to the thread that hands it out, from there to a caller, from the caller to the thread
   * that takes it back, and from there to the list. So no slot is handed out while somebody has it.
   */
  lemma OwnerChanges(s: State, t: nat, a: Action, b: nat, i: nat)
    requires Inv(s) && Sound(s, t) && Enabled(s, t, a) && b < |s.buckets| && i < |s.buckets[b].owners|
    ensures var s' := Step(s, t, a);
            && |s'.buckets| == |s.buckets| && |s'.buckets[b].owners| == |s.buckets[b].owners|
            && OwnerStep(t, s.threads[t].pc, a == Free(b, i), s.buckets[b].owners[i], s'.buckets[b].owners[i])
  {
    hide Inv, Sound, EffectOf;
    EffectOwners(s, t, a, i);
  }

  lemma PoppedIsFree(s: State, t: nat)
    requires Here(s, t) && s.threads[t].pc == SubtractCount
    ensures var th := s.threads[t];
            var k := s.buckets[th.Chosen()];
            th.head < |k.owners| && k.owners[th.head] == Nobody && k.free != []
  {
    Known(s, t);
    var th := s.threads[t];
    var k := s.buckets[th.Chosen()];
    HeadIsCurrent(s, t, th.Chosen(), k, th);
    assert k.free[0] in k.free;
    hide OwnersOk, Chain, Consistent;
  }

  /**
   * An allocation that fails has locked a bucket without free slots, leaves the table as it was, and gives the lock
   * back. If the versions it compared were equal, it saw both buckets full.
   */
  lemma FullChangesNothing(s: State, t: nat, garbage: nat)
    requires Here(s, t) && s.threads[t].pc == UnlockFull
    ensures var th := s.threads[t];
            var s' := Step(s, t, Continue(garbage));
            var k, k' := s.buckets[th.Chosen()], s'.buckets[th.Chosen()];
            && (th.sure ==> th.seen1 == 0 && th.seen2 == 0) && k.count == 0
            && k'.count == k.count && k'.head == k.head && k'.cells == k.cells && k'.owners == k.owners
            && !Even(k.version) && k'.version == k.version + 1 && s'.threads[t].pc == Idle
  {
    hide BucketOk, Inv, Sound, FreeingOk, AllocatingOk, Knows, Same;
    Known(s, t);
    FullKnown(s, t, Home(s.threads[t]), s.buckets[Home(s.threads[t])], s.threads[t]);
  }

  lemma FullKnown(s: State, t: nat, b: nat, k: Bucket, th: Local)
    requires Knows(s, t, b, k, th) && th.pc == UnlockFull
    ensures b == th.Chosen() && !Even(k.version) && k.count == 0 && (th.sure ==> th.seen1 == 0 && th.seen2 == 0)
  {
    hide BucketOk, FreeingOk;
  }

  /** The pcs of an allocation that has not taken a slot. */
  ghost predicate OnlyLooking(pc: Pc) {
    pc in {LoadVersion1, LoadVersion2, LoadCount1, LoadCount2, LoadHead, LoadLink, Validate, Upgrade, CheckCount,
           UnlockFull}
  }

  /** Locks aside, the table is the same. */
  ghost predicate SameTable(s: State, s': State) {
    && |s'.buckets| == |s.buckets|
    && forall b | 0 <= b < |s.buckets| ::
         var k, k' := s.buckets[b], s'.buckets[b];
         k'.count == k.count && k'.head == k.head && k'.cells == k.cells && k'.free == k.free && k'.owners == k.owners
  }

  lemma LookingChangesNothing(s: State, t: nat, a: Action)
    requires Enabled(s, t, a) && ((OnlyLooking(s.threads[t].pc) && a.Continue?) || a.Allocate?)
    ensures SameTable(s, Step(s, t, a))
  {
    hide FreeStep, Same;
  }

  /** An allocation that looks, or is about to fail, started with a call and has been looking since. */
  lemma LookingBefore(s: State, t: nat, a: Action, u: nat)
    requires Enabled(s, t, a) && u < |s.threads| && |Step(s, t, a).threads| == |s.threads|
    requires OnlyLooking(Step(s, t, a).threads[u].pc)
    ensures OnlyLooking(s.threads[u].pc) || (u == t && a.Allocate?)
  {
  }

  /**
   * A call of allocate that is about to throw has changed nothing: from its first step on, no step of its thread
   * touched count, head, links, objects or owners of any bucket.
   */
  lemma {:induction false} FailedCallChangesNothing(states: seq<State>, moves: seq<Move>, i: nat, t: nat)
    returns (start: nat)
    requires Execution(states, moves) && i < |states| && t < |states[i].threads| && OnlyLooking(states[i].threads[t].pc)
    ensures start < i && moves[start].t == t && moves[start].a.Allocate?
    ensures forall j | start <= j < i && moves[j].t == t && !moves[j].a.Overwrite? ::
              SameTable(states[j], states[j + 1])
  {
    hide Step, Enabled, OnlyLooking, SameTable;
    if i == 0 {
      NotLooking(states[0], t);
      assert false;
    } else {
      var m := moves[i - 1];
      SameThreads(states[i - 1], m.t, m.a);
      LookingBefore(states[i - 1], m.t, m.a, t);
      if OnlyLooking(states[i - 1].threads[t].pc) {
        start := FailedCallChangesNothing(states, moves, i - 1, t);
      } else {
        start := i - 1;
      }
      if m.t == t && !m.a.Overwrite? {
        NotFree(states[i - 1], t, m.a);
        LookingChangesNothing(states[i - 1], t, m.a);
      }
    }
  }

  lemma NotLooking(s: State, t: nat)
    requires Initial(s) && t < |s.threads|
    ensures !OnlyLooking(s.threads[t].pc)
  {
  }

  lemma NotFree(s: State, t: nat, a: Action)
    requires Enabled(s, t, a) && !a.Overwrite? && t < |Step(s, t, a).threads|
    requires OnlyLooking(Step(s, t, a).threads[t].pc)
    ensures (OnlyLooking(s.threads[t].pc) && a.Continue?) || a.Allocate?
  {
  }

  // ----- two choices at one instant

  /** From validation on, an allocation is committed to what it saw then. */
  ghost predicate Committed(pc: Pc) {
    pc in {Upgrade, CheckCount, SubtractCount, StoreHead, Unlock, CountUp, UnlockFull}
  }

  lemma CommittedStep(s: State, t: nat, a: Action, u: nat)
    requires Enabled(s, t, a) && u < |s.threads| && |Step(s, t, a).threads| == |s.threads|
    requires Committed(Step(s, t, a).threads[u].pc)
    ensures var th, th' := s.threads[u], Step(s, t, a).threads[u];
            && th'.bucket1 == th.bucket1 && th'.bucket2 == th.bucket2 && th'.count1 == th.count1
            && th'.count2 == th.count2
            && (if Committed(th.pc) then th'.seen1 == th.seen1 && th'.seen2 == th.seen2
                else th.pc == Validate && th.bucket1 < |s.buckets| && th.bucket2 < |s.buckets|
                     && th'.seen1 == s.buckets[th.bucket1].count && th'.seen2 == s.buckets[th.bucket2].count)
  {
    hide Same, FreeStep, AllocateStep, Committed;
    if u == t && a.Continue? {
      if Allocating(s.threads[t].pc) {
        AllocateCommits(s, t, a.garbage);
      } else {
        FreeCommitsNothing(s, t);
      }
    } else {
      OnlyContinuingCommits(s, t, a, u);
    }
  }

  lemma AllocateCommits(s: State, t: nat, garbage: nat)
    requires Enabled(s, t, Continue(garbage)) && Allocating(s.threads[t].pc)
    ensures var e := AllocateStep(s, t, garbage);
            e.b < |s.buckets| &&
            (Committed(e.local.pc) ==>
               var th := s.threads[t];
               && e.local.bucket1 == th.bucket1 && e.local.bucket2 == th.bucket2 && e.local.count1 == th.count1
               && e.local.count2 == th.count2
               && (if Committed(th.pc) then e.local.seen1 == th.seen1 && e.local.seen2 == th.seen2
                   else th.pc == Validate && e.local.seen1 == s.buckets[th.bucket1].count
                        && e.local.seen2 == s.buckets[th.bucket2].count))
  {
    hide Same;
  }

  lemma OnlyContinuingCommits(s: State, t: nat, a: Action, u: nat)
    requires Enabled(s, t, a) && u < |s.threads| && |Step(s, t, a).threads| == |s.threads|
    requires (u != t || !a.Continue?) && Committed(Step(s, t, a).threads[u].pc)
    ensures var th, th' := s.threads[u], Step(s, t, a).threads[u];
            && Committed(th.pc) && th'.bucket1 == th.bucket1 && th'.bucket2 == th.bucket2
            && th'.count1 == th.count1 && th'.count2 == th.count2 && th'.seen1 == th.seen1 && th'.seen2 == th.seen2
  {
    hide Same, FreeStep, AllocateStep;
  }

  lemma FreeCommitsNothing(s: State, t: nat)
    requires t < |s.threads| && s.threads[t].pc != Idle && !Allocating(s.threads[t].pc)
    requires s.threads[t].bucket1 < |s.buckets|
    ensures !Committed(FreeStep(s, t).local.pc) && FreeStep(s, t).b < |s.buckets|
  {
    hide Same;
  }

  /** What a committed allocation saw are the counts of both buckets in one and the same state of the run. */
  lemma {:induction false} SeenAtOneInstant(states: seq<State>, moves: seq<Move>, i: nat, t: nat) returns (j: nat)
    requires Execution(states, moves) && i < |states| && t < |states[i].threads| && Committed(states[i].threads[t].pc)
    ensures j < i && t < |states[j].threads| && states[j].threads[t].pc == Validate
    ensures var th, th' := states[j].threads[t], states[i].threads[t];
            && th.bucket1 < |states[j].buckets| && th.bucket2 < |states[j].buckets|
            && th'.bucket1 == th.bucket1 && th'.bucket2 == th.bucket2
            && th'.seen1 == states[j].buckets[th.bucket1].count && th'.seen2 == states[j].buckets[th.bucket2].count
  {
    hide Sound, EffectOf, Committed;
    if i == 0 {
      NotYet(states[0], t);
      assert false;
    } else {
      SameThreads(states[i - 1], moves[i - 1].t, moves[i - 1].a);
      CommittedStep(states[i - 1], moves[i - 1].t, moves[i - 1].a, t);
      if Committed(states[i - 1].threads[t].pc) {
        j := SeenAtOneInstant(states, moves, i - 1, t);
      } else {
        j := i - 1;
      }
    }
  }

  lemma NotYet(s: State, t: nat)
    requires Initial(s) && t < |s.threads|
    ensures !Committed(s.threads[t].pc)
  {
  }

  lemma SameThreads(s: State, t: nat, a: Action)
    requires Enabled(s, t, a)
    ensures |Step(s, t, a).threads| == |s.threads|
  {
    hide EffectOf;
  }

  /**
   * Power of two choices: an allocation about to complete took a slot of the bucket that, at one instant of the run,
   * had at least as many free slots as the other, and at least one; one about to fail found both full at that instant.
   */
  lemma TwoChoices(states: seq<State>, moves: seq<Move>, i: nat, t: nat) returns (j: nat)
    requires Run(states, moves) && i < |states| && t < |states[i].threads|
    requires states[i].threads[t].pc in {StoreHead, Unlock, CountUp, UnlockFull}
    ensures j < i
    ensures var th := states[i].threads[t];
            && th.bucket1 < |states[j].buckets| && th.bucket2 < |states[j].buckets|
            && var c1, c2 := states[j].buckets[th.bucket1].count, states[j].buckets[th.bucket2].count;
               && th.Chosen() == (if c1 >= c2 then th.bucket1 else th.bucket2)
               && (if th.pc == UnlockFull then c1 == 0 && c2 == 0 else c1 > 0 || c2 > 0)
  {
    hide Genuine;
    RunsAreSound(states, moves, i);
    EveryReachableState(states, moves, i);
    j := SeenAtOneInstant(states, moves, i, t);
    SureOnceCommitted(states, moves, i, t);
    ChoiceSeen(states[i], t);
  }

  lemma ChoiceSeen(s: State, t: nat)
    requires Inv(s) && t < |s.threads| && s.threads[t].pc in {StoreHead, Unlock, CountUp, UnlockFull}
    requires s.threads[t].sure
    ensures SawCounts(s.threads[t])
    ensures var th := s.threads[t];
            if th.pc == UnlockFull then th.count1 == 0 && th.count2 == 0 else th.count1 > 0 || th.count2 > 0
  {
    hide Optimistic, FreeingOk, BucketOk;
    assert ThreadOk(s.slots, s.buckets, t, s.threads[t]);
    hide Inv;
  }

  /** Where both comparisons are genuine, a committed allocation is sure of what it saw. */
  lemma {:induction false} SureOnceCommitted(states: seq<State>, moves: seq<Move>, i: nat, t: nat)
    requires Run(states, moves) && i < |states| && t < |states[i].threads| && Committed(states[i].threads[t].pc)
    ensures states[i].threads[t].sure
  {
    hide EffectOf, Committed, Genuine;
    if i == 0 {
      NotYet(states[0], t);
      assert false;
    } else {
      var s, m := states[i - 1], moves[i - 1];
      SameThreads(s, m.t, m.a);
      SureStep(s, m.t, m.a, t);
      CommittedStep(s, m.t, m.a, t);
      if Committed(s.threads[t].pc) {
        SureOnceCommitted(states, moves, i - 1, t);
      }
    }
  }

  lemma SureStep(s: State, t: nat, a: Action, u: nat)
    requires Enabled(s, t, a) && Genuine(s, t) && u < |s.threads| && |Step(s, t, a).threads| == |s.threads|
    requires Committed(Step(s, t, a).threads[u].pc)
    ensures !Committed(s.threads[u].pc) || s.threads[u].sure ==> Step(s, t, a).threads[u].sure
  {
    hide Same;
    if u == t {
      var th := s.threads[t];
      assert th.pc == Validate ==> Step(s, t, a).threads[t].sure;
      assert th.pc == Upgrade && th.sure ==> Step(s, t, a).threads[t].sure;
    }
  }

  // ----- counters

  /** A thread's counter, corrected for the slot it has taken or given back without counting yet. */
  function Contribution(th: Local): int {
    th.size + (if th.pc in {StoreHead, Unlock, CountUp} then 1 else 0)
            - (if th.pc in {AddCount, UnlockFreed, CountDown} then 1 else 0)
  }

  function Contributions(ths: seq<Local>): int {
    if ths == [] then 0 else Contributions(ths[..|ths| - 1]) + Contribution(ths[|ths| - 1])
  }

  function Sizes(ths: seq<Local>): int {
    if ths == [] then 0 else Sizes(ths[..|ths| - 1]) + ths[|ths| - 1].size
  }

  function Peaks(ths: seq<Local>): int {
    if ths == [] then 0 else Peaks(ths[..|ths| - 1]) + ths[|ths| - 1].peak
  }

  /** Live slots of all buckets. */
  function LiveSlots(n: nat, bs: seq<Bucket>): int {
    if bs == [] then 0 else LiveSlots(n, bs[..|bs| - 1]) + n - |bs[|bs| - 1].free|
  }

  lemma {:induction false} ContributionsUpdate(ths: seq<Local>, t: nat, th: Local)
    requires t < |ths|
    ensures Contributions(ths[t := th]) == Contributions(ths) - Contribution(ths[t]) + Contribution(th)
  {
    var n := |ths| - 1;
    if t == n {
      assert ths[t := th][..n] == ths[..n];
    } else {
      ContributionsUpdate(ths[..n], t, th);
      assert ths[t := th][..n] == ths[..n][t := th];
    }
  }

  lemma {:induction false} LiveSlotsUpdate(n: nat, bs: seq<Bucket>, b: nat, k: Bucket)
    requires b < |bs|
    ensures LiveSlots(n, bs[b := k]) == LiveSlots(n, bs) + |bs[b].free| - |k.free|
  {
    var m := |bs| - 1;
    if b == m {
      assert bs[b := k][..m] == bs[..m];
    } else {
      LiveSlotsUpdate(n, bs[..m], b, k);
      assert bs[b := k][..m] == bs[..m][b := k];
    }
  }

  lemma AllocateBalance(s: State, t: nat, garbage: nat)
    requires Here(s, t) && Allocating(s.threads[t].pc)
    ensures var e := AllocateStep(s, t, garbage);
            e.b < |s.buckets|
            && Contribution(e.local) - Contribution(s.threads[t]) == |s.buckets[e.b].free| - |e.bucket.free|
  {
    hide Inv, Sound, FreeStep;
    if s.threads[t].pc == SubtractCount {
      PopBalance(s, t, garbage);
    }
  }

  lemma PopBalance(s: State, t: nat, garbage: nat)
    requires Here(s, t) && s.threads[t].pc == SubtractCount
    ensures var e := AllocateStep(s, t, garbage);
            e.b < |s.buckets|
            && Contribution(e.local) - Contribution(s.threads[t]) == |s.buckets[e.b].free| - |e.bucket.free|
  {
    hide Inv, Sound, FreeStep;
    PoppedIsFree(s, t);
  }

  lemma FreeBalance(s: State, t: nat)
    requires Here(s, t) && !Allocating(s.threads[t].pc)
    ensures var e := FreeStep(s, t);
            e.b < |s.buckets|
            && Contribution(e.local) - Contribution(s.threads[t]) == |s.buckets[e.b].free| - |e.bucket.free|
  {
    hide Inv, Sound, AllocateStep;
  }

  /** A step changes the live slots by as much as the contribution of its thread. */
  lemma StepBalance(s: State, t: nat, a: Action)
    requires Inv(s) && Sound(s, t) && Enabled(s, t, a)
    ensures var e := EffectOf(s, t, a);
            && e.b < |s.buckets|
            && Contribution(e.local) - Contribution(s.threads[t]) == |s.buckets[e.b].free| - |e.bucket.free|
  {
    hide Inv, Sound, AllocateStep, FreeStep;
    if a.Continue? {
      if Allocating(s.threads[t].pc) {
        AllocateBalance(s, t, a.garbage);
      } else {
        FreeBalance(s, t);
      }
    }
  }

  ghost predicate Balanced(s: State) {
    Contributions(s.threads) == LiveSlots(s.slots, s.buckets)
  }

  lemma BalanceKept(s: State, t: nat, a: Action)
    requires Inv(s) && Sound(s, t) && Enabled(s, t, a) && Balanced(s)
    ensures Balanced(Step(s, t, a))
  {
    StepBalance(s, t, a);
    hide Inv, Sound, EffectOf, Contribution;
    var e := EffectOf(s, t, a);
    ContributionsUpdate(s.threads, t, e.local);
    LiveSlotsUpdate(s.slots, s.buckets, e.b, e.bucket);
  }

  lemma {:induction false} NothingLive(n: nat, bs: seq<Bucket>, ths: seq<Local>)
    requires forall b | 0 <= b < |bs| :: |bs[b].free| == n
    requires forall t | 0 <= t < |ths| :: ths[t].pc == Idle && ths[t].size == 0
    ensures LiveSlots(n, bs) == 0 && Contributions(ths) == 0
    decreases |bs| + |ths|
  {
    if bs != [] {
      NothingLive(n, bs[..|bs| - 1], ths);
    } else if ths != [] {
      NothingLive(n, bs, ths[..|ths| - 1]);
    }
  }

  lemma {:induction false} AlwaysBalanced(states: seq<State>, moves: seq<Move>, i: nat)
    requires SoundUpTo(states, moves, i)
    ensures Balanced(states[i])
  {
    hide Inv, Sound, Step, Enabled, Balanced;
    if i == 0 {
      StartBalanced(states[0]);
    } else {
      EveryReachableState(states, moves, i - 1);
      AlwaysBalanced(states, moves, i - 1);
      BalanceKept(states[i - 1], moves[i - 1].t, moves[i - 1].a);
    }
  }

  lemma StartBalanced(s: State)
    requires Initial(s)
    ensures Balanced(s)
  {
    NothingLive(s.slots, s.buckets, s.threads);
  }

  ghost predicate Quiescent(s: State) {
    forall t | 0 <= t < |s.threads| :: s.threads[t].pc == Idle
  }

  lemma {:induction false} IdleSizes(ths: seq<Local>)
    requires forall t | 0 <= t < |ths| :: ths[t].pc == Idle
    ensures Contributions(ths) == Sizes(ths)
  {
    if ths != [] {
      IdleSizes(ths[..|ths| - 1]);
    }
  }

  /** Once all operations have completed, the counters of the threads sum to the number of live slots. */
  lemma SizeIsExact(states: seq<State>, moves: seq<Move>, i: nat)
    requires SoundUpTo(states, moves, i) && Quiescent(states[i])
    ensures Sizes(states[i].threads) == LiveSlots(states[i].slots, states[i].buckets)
  {
    AlwaysBalanced(states, moves, i);
    IdleSizes(states[i].threads);
  }

  // ----- peaks

  /** The highest a thread's contribution has been. */
  function Reach(th: Local): int {
    if Contribution(th) > th.peak then Contribution(th) else th.peak
  }

  function Reaches(ths: seq<Local>): int {
    if ths == [] then 0 else Reaches(ths[..|ths| - 1]) + Reach(ths[|ths| - 1])
  }

  lemma {:induction false} ReachesUpdate(ths: seq<Local>, t: nat, th: Local)
    requires t < |ths|
    ensures Reaches(ths[t := th]) == Reaches(ths) - Reach(ths[t]) + Reach(th)
  {
    var n := |ths| - 1;
    if t == n {
      assert ths[t := th][..n] == ths[..n];
    } else {
      ReachesUpdate(ths[..n], t, th);
      assert ths[t := th][..n] == ths[..n][t := th];
    }
  }

  lemma {:induction false} ReachesBound(ths: seq<Local>)
    ensures Contributions(ths) <= Reaches(ths)
  {
    if ths != [] {
      ReachesBound(ths[..|ths| - 1]);
    }
  }

  lemma AllocateReach(s: State, t: nat, garbage: nat)
    requires Here(s, t) && Allocating(s.threads[t].pc) && s.threads[t].size <= s.threads[t].peak
    ensures Reach(s.threads[t]) <= Reach(AllocateStep(s, t, garbage).local)
  {
    hide Inv, Sound, FreeStep;
  }

  lemma FreeReach(s: State, t: nat)
    requires Here(s, t) && !Allocating(s.threads[t].pc) && s.threads[t].size <= s.threads[t].peak
    ensures Reach(s.threads[t]) <= Reach(FreeStep(s, t).local)
  {
    hide Inv, Sound, AllocateStep;
  }

  lemma StepReach(s: State, t: nat, a: Action)
    requires Inv(s) && Sound(s, t) && Enabled(s, t, a)
    ensures Reach(s.threads[t]) <= Reach(EffectOf(s, t, a).local)
  {
    BelowPeak(s, t);
    hide Inv, Sound, AllocateStep, FreeStep;
    if a.Continue? {
      if Allocating(s.threads[t].pc) {
        AllocateReach(s, t, a.garbage);
      } else {
        FreeReach(s, t);
      }
    }
  }

  lemma BelowPeak(s: State, t: nat)
    requires Inv(s) && t < |s.threads|
    ensures s.threads[t].size <= s.threads[t].peak
  {
    assert ThreadOk(s.slots, s.buckets, t, s.threads[t]);
  }

  lemma ReachesGrow(s: State, t: nat, a: Action)
    requires Inv(s) && Sound(s, t) && Enabled(s, t, a)
    ensures Reaches(s.threads) <= Reaches(Step(s, t, a).threads)
  {
    StepReach(s, t, a);
    StepBalance(s, t, a);
    hide Inv, Sound, EffectOf, Reach;
    ReachesUpdate(s.threads, t, EffectOf(s, t, a).local);
  }

  lemma {:induction false} ReachesBoundEarlier(states: seq<State>, moves: seq<Move>, j: nat, i: nat)
    requires SoundUpTo(states, moves, i) && j <= i
    ensures LiveSlots(states[j].slots, states[j].buckets) <= Reaches(states[i].threads)
    decreases i
  {
    hide Inv, Sound, Step, Enabled;
    if j == i {
      AlwaysBalanced(states, moves, i);
      ReachesBound(states[i].threads);
    } else {
      ReachesBoundEarlier(states, moves, j, i - 1);
      EveryReachableState(states, moves, i - 1);
      ReachesGrow(states[i - 1], moves[i - 1].t, moves[i - 1].a);
    }
  }

  lemma {:induction false} IdlePeaks(ths: seq<Local>)
    requires forall t | 0 <= t < |ths| :: ths[t].pc == Idle && ths[t].size <= ths[t].peak
    ensures Reaches(ths) == Peaks(ths)
  {
    if ths != [] {
      IdlePeaks(ths[..|ths| - 1]);
    }
  }

  /** Once all operations have completed, the local peaks sum to at least the most slots ever live at one time. */
  lemma PeakIsBound(states: seq<State>, moves: seq<Move>, j: nat, i: nat)
    requires SoundUpTo(states, moves, i) && j <= i && Quiescent(states[i])
    ensures LiveSlots(states[j].slots, states[j].buckets) <= Peaks(states[i].threads)
  {
    ReachesBoundEarlier(states, moves, j, i);
    EveryReachableState(states, moves, i);
    assert forall t | 0 <= t < |states[i].threads| ::
      ThreadOk(states[i].slots, states[i].buckets, t, states[i].threads[t]);
    IdlePeaks(states[i].threads);
  }
}
