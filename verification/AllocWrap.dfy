/**
 * What comparing eight bits of a version is worth: when a comparison is wrong, what follows, and that it can happen.
 */
module AllocWrap {
  import opened Wrappers
  import opened AllocModel
  import opened AllocInvariant
  import opened AllocSteps
  import opened AllocAlone

  // ----- when

  lemma SameIsFar(v: nat, w: nat)
    requires Same(v, w) && w <= v && v != w
    ensures v >= w + 256
  {
    var q, p := v / 256, w / 256;
    assert v == 256 * q + v % 256 && w == 256 * p + w % 256;
  }

  lemma VersionsRead(s: State, t: nat)
    requires Inv(s) && t < |s.threads| && s.threads[t].pc in {Validate, Upgrade}
    ensures var th := s.threads[t];
            && th.bucket1 < |s.buckets| && th.version1 <= s.buckets[th.bucket1].version
            && th.bucket2 < |s.buckets| && th.version2 <= s.buckets[th.bucket2].version
  {
    hide BucketOk, AllocatingOk, FreeingOk, LinkedTo;
    assert ThreadOk(s.slots, s.buckets, t, s.threads[t]);
  }

  /** A comparison is wrong only if the lock was taken at least 128 times since its version was read. */
  lemma FalseMatchIsFar(s: State, t: nat)
    requires Inv(s) && t < |s.threads| && !Genuine(s, t)
    ensures var th := s.threads[t];
            var far := if th.pc == Validate then th.Other() else th.Chosen();
            var read := if th.pc == Validate then th.OtherVersion() else th.ChosenVersion();
            th.pc in {Validate, Upgrade} && far < |s.buckets| && s.buckets[far].version >= read + 256
  {
    hide Inv, Same;
    var th := s.threads[t];
    VersionsRead(s, t);
    if th.pc == Validate {
      SameIsFar(s.buckets[th.Other()].version, th.OtherVersion());
    } else {
      SameIsFar(s.buckets[th.Chosen()].version, th.ChosenVersion());
    }
  }

  // ----- what follows

  /** Some steps of thread t, and of no other. */
  function Alone(s: State, t: nat, steps: nat): State
    decreases steps
  {
    if steps == 0 || !Enabled(s, t, Continue(0)) then s else Alone(Step(s, t, Continue(0)), t, steps - 1)
  }

  /** A thread has won the lock of a bucket with free slots, whatever the versions. */
  ghost predicate Wins(s: State, t: nat) {
    && Inv(s) && t < |s.threads| && s.threads[t].pc == Upgrade && s.threads[t].Chosen() < |s.buckets|
    && s.threads[t].bucket1 < |s.buckets| && s.threads[t].bucket2 < |s.buckets|
    && Same(s.buckets[s.threads[t].Chosen()].version, s.threads[t].ChosenVersion())
    && s.buckets[s.threads[t].Chosen()].count > 0
  }

  /** What a step does once the lock is won depends on the bucket alone. */
  lemma LockedStep(s: State, t: nat, b: nat, k: Bucket, th: Local)
    requires t < |s.threads| && b < |s.buckets| && th.Chosen() == b && th.bucket1 < |s.buckets|
    requires th.bucket2 < |s.buckets|
    requires k.count > 0 && th.pc in {CheckCount, SubtractCount}
    ensures Enabled(Put(s, t, b, k, th), t, Continue(0))
    ensures th.pc == CheckCount ==> Step(Put(s, t, b, k, th), t, Continue(0)) == Put(s, t, b, k, th.At(SubtractCount))
    ensures th.pc == SubtractCount ==>
              Step(Put(s, t, b, k, th), t, Continue(0))
              == Put(s, t, b, Taken(k, t, th.head).(version := k.version, lockedBy := k.lockedBy), th.At(StoreHead))
  {
    hide Same;
    var e := EffectOf(Put(s, t, b, k, th), t, Continue(0));
    OneMore(s, t, Continue(0), b, k, th, e.bucket, e.local);
  }

  /** The local variables of a thread that has won the lock. */
  function Won(k: Bucket, th: Local): Local {
    th.(pc := CheckCount, sure := th.sure && k.version == th.ChosenVersion())
  }

  lemma WinsLock(s: State, t: nat)
    requires Wins(s, t)
    ensures var th, b := s.threads[t], s.threads[t].Chosen();
            var k := s.buckets[b];
            && Enabled(s, t, Continue(0))
            && Step(s, t, Continue(0))
              == Put(s, t, b, k.(version := k.version + 1, lockedBy := Some(t)), Won(k, th))
  {
    hide Inv, Same;
  }

  lemma StoresHead(s: State, t: nat, b: nat, k: Bucket, th: Local)
    requires t < |s.threads| && b < |s.buckets| && th.Chosen() == b && th.bucket1 < |s.buckets|
    requires th.bucket2 < |s.buckets|
    requires th.pc == StoreHead
    ensures Enabled(Put(s, t, b, k, th), t, Continue(0))
    ensures Step(Put(s, t, b, k, th), t, Continue(0)) == Put(s, t, b, k.(head := th.next), th.At(Unlock))
  {
    hide Same;
    OneMore(s, t, Continue(0), b, k, th, k.(head := th.next), th.At(Unlock));
  }

  lemma TakesSlot(s: State, t: nat)
    requires Wins(s, t)
    ensures var th, b := s.threads[t], s.threads[t].Chosen();
            var x := Won(s.buckets[b], th);
            && Alone(s, t, 3) == Put(s, t, b, Taken(s.buckets[b], t, th.head), x.At(StoreHead))
            && Alone(s, t, 4) == Put(s, t, b, Taken(s.buckets[b], t, th.head).(head := th.next), x.At(Unlock))
  {
    hide Inv, Same, Step, Enabled, Alone;
    var th, b := s.threads[t], s.threads[t].Chosen();
    var k := s.buckets[b];
    var k1, k3 := k.(version := k.version + 1, lockedBy := Some(t)), Taken(k, t, th.head);
    var x := Won(k, th);
    WinsLock(s, t);
    LockedStep(s, t, b, k1, x);
    LockedStep(s, t, b, k1, x.At(SubtractCount));
    StoresHead(s, t, b, k3, x.At(StoreHead));
    FourSteps(s, Put(s, t, b, k1, x), Put(s, t, b, k1, x.At(SubtractCount)),
              Put(s, t, b, k3, x.At(StoreHead)), Put(s, t, b, k3.(head := th.next), x.At(Unlock)), t);
  }

  lemma FourSteps(s0: State, s1: State, s2: State, s3: State, s4: State, t: nat)
    requires Enabled(s0, t, Continue(0)) && Step(s0, t, Continue(0)) == s1
    requires Enabled(s1, t, Continue(0)) && Step(s1, t, Continue(0)) == s2
    requires Enabled(s2, t, Continue(0)) && Step(s2, t, Continue(0)) == s3
    requires Enabled(s3, t, Continue(0)) && Step(s3, t, Continue(0)) == s4
    ensures Alone(s0, t, 3) == s3 && Alone(s0, t, 4) == s4
  {
    hide Step, Enabled;
    assert Alone(s3, t, 1) == s4 && Alone(s2, t, 1) == s3;
    assert Alone(s2, t, 2) == s4 && Alone(s1, t, 2) == s3;
    assert Alone(s1, t, 3) == s4 && Alone(s0, t, 3) == s3;
  }

  /**
   * The condition for taking a slot: whatever was compared before, and whatever the versions, the bucket is in order
   * afterwards if and only if the head and the successor that were read are the current ones.
   */
  lemma TakingIsSound(s: State, t: nat)
    requires Wins(s, t)
    ensures var th, b, s' := s.threads[t], s.threads[t].Chosen(), Alone(s, t, 4);
            && b < |s'.buckets| && t < |s'.threads| && s'.threads[t].pc == Unlock
            && (BucketOk(s.slots, s'.threads, b, s'.buckets[b]) <==> StillCurrent(s.buckets[b], th.head, th.next))
  {
    var th, b := s.threads[t], s.threads[t].Chosen();
    var k := s.buckets[b];
    TakesSlot(s, t);
    WinnerFacts(s, t);
    hide Inv;
    TakenBucket(s.slots, s.threads, t, b, k, th, Won(k, th), Taken(k, t, th.head).(head := th.next));
  }

  lemma WinnerFacts(s: State, t: nat)
    requires Wins(s, t)
    ensures var th, b := s.threads[t], s.threads[t].Chosen();
            && BucketOk(s.slots, s.threads, b, s.buckets[b]) && Even(s.buckets[b].version) && th.head < s.slots
  {
    var th := s.threads[t];
    assert ThreadOk(s.slots, s.buckets, t, th);
    SameParity(s.buckets[th.Chosen()].version, th.ChosenVersion());
    hide BucketOk, Inv, AllocatingOk, FreeingOk, LinkedTo, Same;
  }

  lemma TakenBucket(n: nat, ths: seq<Local>, t: nat, b: nat, k: Bucket, th: Local, x: Local, k': Bucket)
    requires BucketOk(n, ths, b, k) && Even(k.version) && k.count > 0 && t < |ths| && ths[t] == th
    requires th.pc == Upgrade && th.Chosen() == b && th.head < n && x == Won(k, th)
    requires k' == Taken(k, t, th.head).(head := th.next)
    ensures BucketOk(n, ths[t := x.At(Unlock)], b, k') <==> StillCurrent(k, th.head, th.next)
  {
    PopList(n, k.cells, k.free, k.owners, t);
    OthersClaim(n, ths, t, b, k, th, x);
    if StillCurrent(k, th.head, th.next) {
      hide Chain, Partition, OwnersOk;
    } else if th.head != k.free[0] {
      NotTaken(n, k, t, th.head);
      hide Chain, OwnersOk;
    } else {
      hide Partition, OwnersOk;
    }
  }

  lemma OthersClaim(n: nat, ths: seq<Local>, t: nat, b: nat, k: Bucket, th: Local, x: Local)
    requires BucketOk(n, ths, b, k) && t < |ths| && ths[t] == th && th.pc == Upgrade && th.Chosen() == b && th.head < n
    requires x == Won(k, th)
    ensures OwnersOk(ths[t := x.At(Unlock)], b, k.owners[th.head := Thread(t)])
  {
    hide Chain;
  }

  /** The slot at the true head stays free but is no longer in the list. */
  lemma NotTaken(n: nat, k: Bucket, t: nat, head: nat)
    requires Chain(n, k.cells, k.free) && Partition(n, k.owners, k.free) && k.free != [] && head < n
    requires head != k.free[0]
    ensures !Partition(n, k.owners[head := Thread(t)], k.free[1..])
  {
    var f := k.free[0];
    assert f in k.free && k.owners[head := Thread(t)][f] == Nobody;
    assert f !in k.free[1..];
  }

  lemma HeadIsFree(n: nat, ths: seq<Local>, b: nat, k: Bucket)
    requires BucketOk(n, ths, b, k) && Even(k.version) && k.count > 0
    ensures k.head < |k.owners| && k.owners[k.head] == Nobody
  {
    assert k.free[0] in k.free;
  }

  /** A genuine match is enough: nothing was written since, so what was read is current. */
  lemma GenuineIsCurrent(s: State, t: nat)
    requires Wins(s, t) && GenuineUpgrade(s, t)
    ensures var th := s.threads[t]; StillCurrent(s.buckets[th.Chosen()], th.head, th.next)
  {
    hide Inv;
    GenuineIsSound(s, t);
  }

  /** If the slot read as head has an owner, it is handed out again; the match was not genuine. */
  lemma OwnedHeadIsHandedOut(s: State, t: nat)
    requires Wins(s, t)
    requires var th := s.threads[t]; var k := s.buckets[th.Chosen()];
             th.head < |k.owners| && k.owners[th.head] != Nobody
    ensures var th, b, s' := s.threads[t], s.threads[t].Chosen(), Alone(s, t, 3);
            && b < |s'.buckets| && th.head < |s'.buckets[b].owners| && s'.buckets[b].owners[th.head] == Thread(t)
            && !StillCurrent(s.buckets[b], th.head, th.next) && !GenuineUpgrade(s, t)
  {
    TakesSlot(s, t);
    WinnerFacts(s, t);
    HeadIsFree(s.slots, s.threads, s.threads[t].Chosen(), s.buckets[s.threads[t].Chosen()]);
    if GenuineUpgrade(s, t) {
      GenuineIsCurrent(s, t);
    }
    hide Inv, BucketOk, Same, GenuineUpgrade, Alone;
  }

  /**
   * The same for whole executions. Buckets are in order as long as whoever wins the lock of a bucket with free slots
   * has read its head and the successor (EveryReachableState); and the first time somebody has not, his next four steps
   * leave the bucket out of order.
   */
  lemma FirstUnsoundStep(states: seq<State>, moves: seq<Move>, t: nat)
    returns (states': seq<State>, moves': seq<Move>, b: nat)
    requires SoundUpTo(states, moves, |moves|) && !Sound(states[|moves|], t)
    ensures Execution(states', moves') && |moves'| == |moves| + 4 && states' == states + states'[|states|..]
    ensures moves' == moves + [Move(t, GO), Move(t, GO), Move(t, GO), Move(t, GO)]
    ensures var s := states'[|moves'|]; b < |s.buckets| && !BucketOk(s.slots, s.threads, b, s.buckets[b])
  {
    hide Step, Enabled, Inv, BucketOk, Same, Initial, StillCurrent;
    var s := states[|moves|];
    EveryReachableState(states, moves, |moves|);
    UnsoundWins(s, t);
    TakingIsSound(s, t);
    b := s.threads[t].Chosen();
    var s1, s2, s3, s4 := FourOn(s, t);
    states', moves' := states + [s1, s2, s3, s4], moves + [Move(t, GO), Move(t, GO), Move(t, GO), Move(t, GO)];
  }

  lemma UnsoundWins(s: State, t: nat)
    requires Inv(s) && !Sound(s, t)
    ensures Wins(s, t) && !StillCurrent(s.buckets[s.threads[t].Chosen()], s.threads[t].head, s.threads[t].next)
  {
    hide BucketOk, StillCurrent;
    assert ThreadOk(s.slots, s.buckets, t, s.threads[t]);
  }

  lemma FourOn(s: State, t: nat) returns (s1: State, s2: State, s3: State, s4: State)
    requires Wins(s, t)
    ensures Enabled(s, t, GO) && Step(s, t, GO) == s1 && Enabled(s1, t, GO) && Step(s1, t, GO) == s2
    ensures Enabled(s2, t, GO) && Step(s2, t, GO) == s3 && Enabled(s3, t, GO) && Step(s3, t, GO) == s4
    ensures s4 == Alone(s, t, 4) && s4.slots == s.slots
  {
    hide Inv, Same, Step, Enabled;
    var th, b := s.threads[t], s.threads[t].Chosen();
    var k := s.buckets[b];
    var k1, k3, x := k.(version := k.version + 1, lockedBy := Some(t)), Taken(k, t, th.head), Won(k, th);
    WinsLock(s, t);
    LockedStep(s, t, b, k1, x);
    LockedStep(s, t, b, k1, x.At(SubtractCount));
    StoresHead(s, t, b, k3, x.At(StoreHead));
    s1, s2, s3 := Put(s, t, b, k1, x), Put(s, t, b, k1, x.At(SubtractCount)), Put(s, t, b, k3, x.At(StoreHead));
    s4 := Put(s, t, b, k3.(head := th.next), x.At(Unlock));
    FourSteps(s, s1, s2, s3, s4, t);
  }

  // ----- that it can happen

  lemma {:induction false} LeadsOn(s: State, moves: seq<Move>, s1: State, more: seq<Move>, s2: State)
    requires Leads(s, moves, s1) && Leads(s1, more, s2)
    ensures Leads(s, moves + more, s2)
    decreases |moves|
  {
    hide Step, Enabled, Genuine;
    if moves == [] {
      assert moves + more == more;
    } else {
      LeadsOn(Step(s, moves[0].t, moves[0].a), moves[1..], s1, more, s2);
      assert (moves + more)[1..] == moves[1..] + more;
    }
  }

  /** The states along the way. */
  lemma {:induction false} Stations(s: State, moves: seq<Move>, s': State) returns (states: seq<State>)
    requires Leads(s, moves, s')
    ensures |states| == |moves| + 1 && states[0] == s && states[|moves|] == s'
    ensures forall i | 0 <= i < |moves| ::
              && Genuine(states[i], moves[i].t) && Enabled(states[i], moves[i].t, moves[i].a)
              && states[i + 1] == Step(states[i], moves[i].t, moves[i].a)
    decreases |moves|
  {
    hide Step, Enabled, Genuine;
    if moves == [] {
      states := [s];
    } else {
      var rest := Stations(Step(s, moves[0].t, moves[0].a), moves[1..], s');
      states := [s] + rest;
      forall i | 0 <= i < |moves|
        ensures Genuine(states[i], moves[i].t) && Enabled(states[i], moves[i].t, moves[i].a)
        ensures states[i + 1] == Step(states[i], moves[i].t, moves[i].a)
      {
        if i > 0 {
          assert moves[i] == moves[1..][i - 1] && states[i] == rest[i - 1] && states[i + 1] == rest[i];
        }
      }
    }
  }

  /** A table of one bucket with n slots, used by two threads. */
  function Table(n: nat, k: Bucket, first: Local, second: Local): State {
    State(n, [k], [first, second])
  }

  /** Nobody has the lock, and the head of the list is the free slot i, followed by j. */
  ghost predicate HeadIs(n: nat, k: Bucket, i: nat, j: nat) {
    && Unlocked(k) && k.count > 0 && |k.cells| == |k.owners| == n
    && k.head == i < n && k.cells[i] == Link(j)
  }

  /** Thread t has read all it needs to take slot i. */
  function ReadUp(k: Bucket, th: Local, i: nat, j: nat): Local {
    Local(Upgrade, 0, 0, k.version, k.version, k.count, k.count, i, j, k.count, k.count, true, th.size, th.peak)
  }

  const GO := Continue(0)

  const NOTHING: seq<nat> := seq(13, _ => 0)

  /** An idle thread starts an allocation and reads up to the upgrade. */
  lemma ReadsAll(s: State, t: nat, n: nat, k: Bucket, th: Local, i: nat, j: nat) returns (moves: seq<Move>)
    requires t < |s.threads| && s.threads[t] == th && th.pc == Idle && s.buckets == [k] && HeadIs(n, k, i, j)
    ensures Leads(s, moves, Put(s, t, 0, k, ReadUp(k, th, i, j)))
  {
    var s' := Put(s, t, 0, k, ReadUp(k, th, i, j));
    assert Reading(s, th, 0, 0, 0, 7) == ReadUp(k, th, i, j);
    assert Leads(s', Going(t, []), s');
    hide Leads, Reading;
    assert NOTHING[..7] + [] == NOTHING[..7];
    ReadsOn(s, t, th, 0, 0, 0, 0, NOTHING[..7], [], s');
    StartsAllocating(s, t, 0, 0, 0, NOTHING[..7], s');
    moves := [Move(t, Allocate(0, 0))] + Going(t, NOTHING[..7]);
  }

  /** One thread allocates, the other rests. */
  lemma TakesOne(s: State, t: nat, n: nat, k: Bucket, th: Local, i: nat, j: nat) returns (moves: seq<Move>, th': Local)
    requires t < |s.threads| && s.threads[t] == th && th.pc == Idle && s.buckets == [k] && HeadIs(n, k, i, j)
    ensures Leads(s, moves, Put(s, t, 0, Less(k), th')) && th'.pc == Idle
  {
    hide Leads;
    var s' := Allocates(s, t, 0, 0, NOTHING);
    moves, th' := [Move(t, Allocate(0, 0))] + Going(t, NOTHING), s'.threads[t];
  }

  lemma GivesOne(s: State, t: nat, k: Bucket, th: Local, i: nat) returns (moves: seq<Move>, th': Local)
    requires t < |s.threads| && s.threads[t] == th && th.pc == Idle && s.buckets == [k]
    requires Even(k.version) && k.lockedBy == None && i < |k.owners| && k.owners[i] == Caller
    ensures Leads(s, moves, Put(s, t, 0, More(k, i), th')) && th'.pc == Idle
  {
    hide Leads;
    var s' := Frees(s, t, 0, i, NOTHING[..8]);
    moves, th' := [Move(t, Free(0, i))] + Going(t, NOTHING[..8]), s'.threads[t];
  }

  lemma PutPut(s: State, t: nat, k: Bucket, x: Local, k': Bucket, y: Local)
    requires t < |s.threads| && 0 < |s.buckets|
    ensures Put(Put(s, t, 0, k, x), t, 0, k', y) == Put(s, t, 0, k', y)
  {
    assert s.buckets[0 := k][0 := k'] == s.buckets[0 := k'] && s.threads[t := x][t := y] == s.threads[t := y];
  }

  lemma LessThenMore(n: nat, k: Bucket, i: nat, j: nat)
    requires HeadIs(n, k, i, j) && k.owners[i] == Nobody && k.free != [] && k.free[0] == i
    ensures More(Less(k), i) == k.(version := k.version + 4)
  {
    assert [i] + k.free[1..] == k.free;
    assert k.cells[i := Link(j)] == k.cells && k.owners[i := Caller][i := Nobody] == k.owners;
  }

  /** Taking the head slot and giving it back leaves the bucket as it was, four versions later. */
  lemma Cycle(s: State, t: nat, n: nat, k: Bucket, th: Local, i: nat, j: nat) returns (moves: seq<Move>, th': Local)
    requires t < |s.threads| && s.threads[t] == th && th.pc == Idle && s.buckets == [k] && HeadIs(n, k, i, j)
    requires k.owners[i] == Nobody && k.free != [] && k.free[0] == i
    ensures Leads(s, moves, Put(s, t, 0, k.(version := k.version + 4), th')) && th'.pc == Idle
  {
    hide Leads;
    var takes, x := TakesOne(s, t, n, k, th, i, j);
    var s1 := Put(s, t, 0, Less(k), x);
    var gives, y := GivesOne(s1, t, Less(k), x, i);
    LeadsOn(s, takes, s1, gives, Put(s1, t, 0, More(Less(k), i), y));
    LessThenMore(n, k, i, j);
    PutPut(s, t, Less(k), x, k.(version := k.version + 4), y);
    moves, th' := takes + gives, y;
  }

  lemma {:induction false} Cycles(s: State, t: nat, n: nat, k: Bucket, th: Local, i: nat, j: nat, m: nat)
    returns (moves: seq<Move>, th': Local)
    requires t < |s.threads| && s.threads[t] == th && th.pc == Idle && s.buckets == [k] && HeadIs(n, k, i, j)
    requires k.owners[i] == Nobody && k.free != [] && k.free[0] == i
    ensures Leads(s, moves, Put(s, t, 0, k.(version := k.version + 4 * m), th')) && th'.pc == Idle
    decreases m
  {
    hide Step, Enabled, Genuine;
    if m == 0 {
      moves, th' := [], th;
      assert s == Put(s, t, 0, k, th);
    } else {
      var first, x := Cycle(s, t, n, k, th, i, j);
      var k1 := k.(version := k.version + 4);
      var s1 := Put(s, t, 0, k1, x);
      var rest, y := Cycles(s1, t, n, k1, x, i, j, m - 1);
      LeadsOn(s, first, s1, rest, Put(s1, t, 0, k1.(version := k1.version + 4 * (m - 1)), y));
      PutPut(s, t, k1, x, k1.(version := k1.version + 4 * (m - 1)), y);
      moves, th' := first + rest, y;
    }
  }

  // ----- the execution

  function Thread0(): Local {
    Local(Idle, 0, 0, 0, 0, 0, 0, 0, 0, 0, 0, false, 0, 0)
  }

  function NewBucket(n: nat): Bucket {
    Bucket(0, n, 0, seq(n, i requires 0 <= i < n => Link(if i + 1 < n then i + 1 else 0)), seq(n, i => i),
           seq(n, _ => Nobody), None)
  }

  /** The bucket after slots 0 and 1 were handed out, and 63 times slot 2, which came back each time. */
  function LateBucket(n: nat): Bucket
    requires n >= 3
  {
    NewBucket(n).(version := 256, count := n - 2, head := 2, free := NewBucket(n).free[2..],
                  owners := NewBucket(n).owners[0 := Caller][1 := Caller])
  }

  lemma SlotsOneAndTwo(n: nat)
    requires n >= 3
    ensures var k := NewBucket(n);
            && HeadIs(n, k, 0, 1) && HeadIs(n, Less(k), 1, 2)
            && Less(Less(k)) == LateBucket(n).(version := 4)
            && |LateBucket(n).free| > 0 && LateBucket(n).free[0] == 2 && LateBucket(n).owners[2] == Nobody
            && LateBucket(n).cells[2].Link? && HeadIs(n, LateBucket(n).(version := 4), 2, LateBucket(n).cells[2].next)
  {
    assert NewBucket(n).free[1..][1..] == NewBucket(n).free[2..];
  }

  /** Thread 0 is about to upgrade a bucket in which slots 0 and 1 were handed out since it read it. */
  lemma Overtaken(n: nat) returns (moves: seq<Move>, other: Local)
    requires n >= 3
    ensures other.pc == Idle
    ensures Leads(Table(n, NewBucket(n), Thread0(), Thread0()), moves,
                  Table(n, LateBucket(n), ReadUp(NewBucket(n), Thread0(), 0, 1), other))
  {
    hide Leads, HeadIs, Less, NewBucket, LateBucket, ReadUp;
    var k0 := NewBucket(n);
    var k2 := LateBucket(n).(version := 4);
    SlotsOneAndTwo(n);
    var s0, x := Table(n, k0, Thread0(), Thread0()), ReadUp(k0, Thread0(), 0, 1);
    var m0 := ReadsAll(s0, 0, n, k0, Thread0(), 0, 1);
    var s1 := Table(n, k0, x, Thread0());
    assert s1 == Put(s0, 0, 0, k0, x);
    var m1, y := TakesOne(s1, 1, n, k0, Thread0(), 0, 1);
    var s2 := Table(n, Less(k0), x, y);
    assert s2 == Put(s1, 1, 0, Less(k0), y);
    var m2, z := TakesOne(s2, 1, n, Less(k0), y, 1, 2);
    var s3 := Table(n, k2, x, z);
    assert s3 == Put(s2, 1, 0, k2, z);
    var m3, w := Cycles(s3, 1, n, k2, z, 2, LateBucket(n).cells[2].next, 63);
    var s4 := Table(n, LateBucket(n), x, w);
    LateVersion(n, x, z, w);
    LeadsOn(s0, m0, s1, m1, s2);
    LeadsOn(s0, m0 + m1, s2, m2, s3);
    LeadsOn(s0, m0 + m1 + m2, s3, m3, s4);
    moves, other := m0 + m1 + m2 + m3, w;
  }

  lemma LateVersion(n: nat, x: Local, z: Local, w: Local)
    requires n >= 3
    ensures var k2 := LateBucket(n).(version := 4);
            Put(Table(n, k2, x, z), 1, 0, k2.(version := k2.version + 4 * 63), w) == Table(n, LateBucket(n), x, w)
  {
  }

  /** The overtaken thread goes on: lock, look at the count, take slot 0. */
  lemma TakesOwnedSlot(s: State)
    requires Wins(s, 0) && s.threads[0].Chosen() == 0
    ensures var th, k := s.threads[0], s.buckets[0];
            var locked := k.(version := k.version + 1, lockedBy := Some(0));
            var x := Won(k, th);
            var s1, s2 := Put(s, 0, 0, locked, x), Put(s, 0, 0, locked, x.At(SubtractCount));
            && Enabled(s, 0, GO) && Step(s, 0, GO) == s1
            && Enabled(s1, 0, GO) && Step(s1, 0, GO) == s2
            && Enabled(s2, 0, GO) && Step(s2, 0, GO) == Put(s, 0, 0, Taken(k, 0, th.head), x.At(StoreHead))
  {
    hide Inv, Same, Step, Enabled;
    var th, k := s.threads[0], s.buckets[0];
    var locked := k.(version := k.version + 1, lockedBy := Some(0));
    WinsLock(s, 0);
    LockedStep(s, 0, 0, locked, Won(k, th));
    LockedStep(s, 0, 0, locked, Won(k, th).At(SubtractCount));
  }

  lemma ThreeMore(states: seq<State>, moves: seq<Move>, s1: State, s2: State, s3: State)
    returns (states': seq<State>, moves': seq<Move>)
    requires Execution(states, moves) && var s := states[|moves|];
             && Enabled(s, 0, GO) && Step(s, 0, GO) == s1
             && Enabled(s1, 0, GO) && Step(s1, 0, GO) == s2 && Enabled(s2, 0, GO) && Step(s2, 0, GO) == s3
    ensures Execution(states', moves') && states' == states + [s1, s2, s3]
    ensures moves' == moves + [Move(0, GO), Move(0, GO), Move(0, GO)]
  {
    hide Step, Enabled, Initial;
    states', moves' := states + [s1, s2, s3], moves + [Move(0, GO), Move(0, GO), Move(0, GO)];
  }

  /**
   * Eight bits can be too few. For every bucket size from three on there is an execution, of two threads on one bucket,
   * in which every comparison but the last is genuine and whose last step takes slot 0 away from the caller who has it.
   */
  lemma WrapHandsOutTwice(n: nat) returns (states: seq<State>, moves: seq<Move>)
    requires n >= 3
    ensures Execution(states, moves) && |moves| > 3 && states[0].slots == n && |states[0].threads| == 2
    ensures forall i | 0 <= i < |moves| - 3 :: Genuine(states[i], moves[i].t)
    ensures var last := |moves| - 1;
            && moves[last] == Move(0, GO) && |states[last].buckets| == |states[last + 1].buckets| == 1
            && |states[last].buckets[0].owners| == |states[last + 1].buckets[0].owners| == n
            && states[last].buckets[0].owners[0] == Caller && states[last + 1].buckets[0].owners[0] == Thread(0)
  {
    hide Leads, Step, Enabled, Genuine, Inv, Alone;
    var m, other := Overtaken(n);
    var s0 := Table(n, NewBucket(n), Thread0(), Thread0());
    var s := Table(n, LateBucket(n), ReadUp(NewBucket(n), Thread0(), 0, 1), other);
    var ss := Stations(s0, m, s);
    assert Run(ss, m);
    RunsAreSound(ss, m, |m|);
    EveryReachableState(ss, m, |m|);
    assert Wins(s, 0);
    TakesOwnedSlot(s);
    var th, k := s.threads[0], s.buckets[0];
    var locked := k.(version := k.version + 1, lockedBy := Some(0));
    states, moves :=
      ThreeMore(ss, m, Put(s, 0, 0, locked, Won(k, th)), Put(s, 0, 0, locked, Won(k, th).At(SubtractCount)),
                Put(s, 0, 0, Taken(k, 0, 0), Won(k, th).At(StoreHead)));
  }
}
