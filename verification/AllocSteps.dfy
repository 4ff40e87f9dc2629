/** Every step of every thread keeps the invariant, so every reachable state has it. */
module AllocSteps {
  import opened Wrappers
  import opened AllocModel
  import opened AllocInvariant

  // ----- versions

  lemma SameParity(v: nat, w: nat)
    requires Same(v, w)
    ensures Even(v) <==> Even(w)
  {
    LowBits(v);
    LowBits(w);
  }

  lemma LowBits(v: nat)
    ensures v % 2 == v % 256 % 2
  {
    var q, r := v / 256, v % 256;
    assert v == 2 * (128 * q) + r;
    EvenPart(128 * q, r);
  }

  lemma EvenPart(h: nat, r: nat)
    ensures (2 * h + r) % 2 == r % 2
  {
  }

  // ----- what the steps of one thread may rely on

  ghost predicate Here(s: State, t: nat) {
    && Inv(s) && t < |s.threads| && s.threads[t].pc != Idle
    && s.threads[t].bucket1 < |s.buckets| && s.threads[t].bucket2 < |s.buckets|
    && Sound(s, t)
  }

  lemma Facts(s: State, t: nat)
    requires Here(s, t)
    ensures var th := s.threads[t];
            && ThreadOk(s.slots, s.buckets, t, th)
            && BucketOk(s.slots, s.threads, th.bucket1, s.buckets[th.bucket1])
            && BucketOk(s.slots, s.threads, th.bucket2, s.buckets[th.bucket2])
  {
    hide BucketOk, ThreadOk;
  }

  lemma Unchanged(t: nat, k: Bucket)
    ensures Compatible(t, k, k)
  {
  }

  lemma ReadKeepsBucket(n: nat, ths: seq<Local>, t: nat, th': Local, b: nat, k: Bucket)
    requires t < |ths| && BucketOk(n, ths, b, k)
    requires Holds(ths[t]) == Some(b) ==>
               Holds(th') == Some(b) && (Consistent(k, Some(ths[t])) ==> Consistent(k, Some(th')))
    requires Claims(ths[t]).Some? && Claims(ths[t]).value.0 == b ==> Claims(th') == Claims(ths[t])
    ensures BucketOk(n, ths[t := th'], b, k)
  {
    hide Chain, Partition, Agrees, Consistent;
  }

  /** A step that only changes local variables. */
  lemma LocalStep(s: State, t: nat, b: nat, th': Local)
    requires Here(s, t) && b < |s.buckets|
    requires Holds(th') == Holds(s.threads[t]) && Claims(th') == Claims(s.threads[t])
    requires Holds(th').Some? ==>
               && Holds(th') == Some(b)
               && (Consistent(s.buckets[b], Some(s.threads[t])) ==> Consistent(s.buckets[b], Some(th')))
    requires Claims(th').Some? ==> Claims(th').value.0 == b
    requires ThreadOk(s.slots, s.buckets, t, th')
    ensures Good(s, t, Effect(b, s.buckets[b], th'))
  {
    hide ThreadOk, Consistent, Chain, Partition, Agrees;
    Unchanged(t, s.buckets[b]);
    ReadKeepsBucket(s.slots, s.threads, t, th', b, s.buckets[b]);
    assert s.buckets[b := s.buckets[b]] == s.buckets;
  }

  // ----- the optimistic part of an allocation

  /** Pcs at which a thread neither holds a lock nor has a slot in hand. */
  ghost predicate EmptyHanded(pc: Pc) {
    pc in {Idle, LoadVersion1, LoadVersion2, LoadCount1, LoadCount2, LoadHead, LoadLink, Validate, Upgrade}
  }

  lemma HoldsNothing(th: Local)
    requires EmptyHanded(th.pc)
    ensures Holds(th) == None && Claims(th) == None
  {
  }

  /** The step reads, and what the thread then knows is right. */
  ghost predicate Reads(s: State, t: nat, e: Effect) {
    && e.b < |s.buckets| && e.bucket == s.buckets[e.b] && EmptyHanded(e.local.pc)
    && ThreadOk(s.slots, s.buckets, t, e.local)
  }

  lemma OptimisticStep(s: State, t: nat, garbage: nat)
    requires Here(s, t)
    requires s.threads[t].pc in {LoadVersion1, LoadVersion2, LoadCount1, LoadCount2, LoadHead, LoadLink, Validate}
    ensures Good(s, t, AllocateStep(s, t, garbage))
  {
    hide ThreadOk, BucketOk, Inv, Sound, AllocateStep, Good, Holds, Claims;
    var e := AllocateStep(s, t, garbage);
    match s.threads[t].pc {
      case LoadVersion1 => VersionThread(s, t, garbage);
      case LoadVersion2 => VersionThread(s, t, garbage);
      case LoadCount1 => CountThread(s, t, garbage);
      case LoadCount2 => CountThread(s, t, garbage);
      case LoadHead => HeadThread(s, t, garbage);
      case LoadLink => LinkThread(s, t, garbage);
      case Validate => ValidateThread(s, t, garbage);
    }
    HoldsNothing(s.threads[t]);
    HoldsNothing(e.local);
    LocalStep(s, t, e.b, e.local);
  }

  lemma VersionThread(s: State, t: nat, garbage: nat)
    requires Here(s, t) && s.threads[t].pc in {LoadVersion1, LoadVersion2}
    ensures Reads(s, t, AllocateStep(s, t, garbage))
  {
    hide Inv, Sound, BucketOk, LinkedTo;
    Facts(s, t);
  }

  lemma CountThread(s: State, t: nat, garbage: nat)
    requires Here(s, t) && s.threads[t].pc in {LoadCount1, LoadCount2}
    ensures Reads(s, t, AllocateStep(s, t, garbage))
  {
    hide Inv, Sound, BucketOk, LinkedTo;
    Facts(s, t);
  }

  lemma HeadThread(s: State, t: nat, garbage: nat)
    requires Here(s, t) && s.threads[t].pc == LoadHead
    ensures Reads(s, t, AllocateStep(s, t, garbage))
  {
    hide Inv, Sound, BucketOk, LinkedTo, AllocatingOk, FreeingOk, Holds, Claims;
    Facts(s, t);
    var th, th' := s.threads[t], AllocateStep(s, t, garbage).local;
    HeadInRange(s.slots, s.threads, th.Chosen(), s.buckets[th.Chosen()]);
    HoldsNothing(th);
    HoldsNothing(th');
    NothingAllocated(s.buckets[th.Chosen()], s.buckets[th.bucket1], th');
  }

  lemma HeadInRange(n: nat, ths: seq<Local>, b: nat, k: Bucket)
    requires BucketOk(n, ths, b, k)
    ensures k.head < n
  {
  }

  lemma NothingAllocated(k: Bucket, k': Bucket, th: Local)
    requires EmptyHanded(th.pc)
    ensures AllocatingOk(k, th) && FreeingOk(k', th)
  {
  }

  /** The version of the bucket not chosen has not moved, so its count is the one read. */
  lemma ValidateThread(s: State, t: nat, garbage: nat)
    requires Here(s, t) && s.threads[t].pc == Validate
    ensures Reads(s, t, AllocateStep(s, t, garbage))
  {
    hide Inv, Sound, BucketOk, LinkedTo, Same, FreeingOk, AllocatingOk, ThreadOk, Optimistic;
    Facts(s, t);
    var th, th' := s.threads[t], AllocateStep(s, t, garbage).local;
    NotHolding(s.slots, s.buckets, t, th, th');
    ValidateReads(s.slots, s.buckets, th, th');
  }

  lemma NotHolding(n: nat, bs: seq<Bucket>, t: nat, th: Local, th': Local)
    requires ThreadOk(n, bs, t, th) && th.pc == Validate && th'.pc in {Upgrade, LoadVersion1}
    requires th'.bucket1 == th.bucket1 && th'.bucket2 == th.bucket2 && th'.size == th.size && th'.peak == th.peak
    requires th.bucket1 < |bs| && th.bucket2 < |bs|
    ensures Optimistic(n, bs, th) && (Optimistic(n, bs, th') && th'.Chosen() == th.Chosen() ==> ThreadOk(n, bs, t, th'))
  {
    hide Optimistic;
  }

  lemma ValidateReads(n: nat, bs: seq<Bucket>, th: Local, th': Local)
    requires th.bucket1 < |bs| && th.bucket2 < |bs| && Optimistic(n, bs, th) && th.pc == Validate
    requires th' == th.At(LoadVersion1)
             || th' == th.(pc := Upgrade, seen1 := bs[th.bucket1].count, seen2 := bs[th.bucket2].count,
                           sure := bs[th.Other()].version == th.OtherVersion())
    ensures Optimistic(n, bs, th')
  {
    hide LinkedTo;
  }

  /** The head of an unlocked bucket is free, so its bytes hold the link. */
  lemma LinkThread(s: State, t: nat, garbage: nat)
    requires Here(s, t) && s.threads[t].pc == LoadLink
    ensures Reads(s, t, AllocateStep(s, t, garbage))
  {
    hide Inv, Sound, BucketOk, ThreadOk;
    var th := s.threads[t];
    var k := s.buckets[th.Chosen()];
    LinkOk(s, t, if th.head < |k.cells| && k.cells[th.head].Link? then k.cells[th.head].next else garbage);
  }

  lemma LinkOk(s: State, t: nat, link: nat)
    requires Here(s, t) && s.threads[t].pc == LoadLink
    requires var th := s.threads[t];
             var k := s.buckets[th.Chosen()];
             th.head < |k.cells| && k.cells[th.head].Link? ==> link == k.cells[th.head].next
    ensures ThreadOk(s.slots, s.buckets, t, s.threads[t].(pc := Validate, next := link))
  {
    hide Inv, Sound, BucketOk, AllocatingOk, FreeingOk;
    Facts(s, t);
    var th := s.threads[t];
    var k := s.buckets[th.Chosen()];
    NoLocks(s, t, th.(pc := Validate, next := link));
    if Fresh(th.ChosenVersion(), k) {
      FreeHead(s.slots, s.threads, th.Chosen(), k);
    }
  }

  lemma NoLocks(s: State, t: nat, th: Local)
    requires Progress(th.pc) > 0
    ensures forall k :: AllocatingOk(k, th) && FreeingOk(k, th)
    ensures Holds(th) == None && Claims(th) == None
  {
  }

  lemma FreeHead(n: nat, ths: seq<Local>, b: nat, k: Bucket)
    requires BucketOk(n, ths, b, k) && Even(k.version)
    ensures k.count == |k.free|
    ensures k.count > 0 ==>
              k.head < |k.cells| && k.free[0] == k.head && k.cells[k.head].Link? && k.cells[k.head].next < n
  {
  }

  // ----- steps that write

  /** Where a thread past its optimistic reads works. */
  ghost function Home(th: Local): nat {
    if Allocating(th.pc) then th.Chosen() else th.bucket1
  }

  lemma WriterOk(n: nat, bs: seq<Bucket>, b: nat, k': Bucket, t: nat, th': Local)
    requires b < |bs| && th'.bucket1 < |bs| && th'.bucket2 < |bs| && th'.size <= th'.peak
    requires th'.pc != Idle ==> Progress(th'.pc) == 0 && Home(th') == b
    requires AllocatingOk(k', th') && FreeingOk(k', th')
    requires Holds(th').Some? ==> Locked(k', t)
    requires Claims(th').Some? ==> Owned(k', th'.head, t)
    ensures ThreadOk(n, bs[b := k'], t, th')
  {
    hide AllocatingOk, FreeingOk, Locked, Owned;
    var bs' := bs[b := k'];
    assert bs'[b] == k';
    if th'.pc != Idle {
      OnlyHome(bs'[th'.Chosen()], k', th');
      OnlyHome(bs'[th'.bucket1], k', th');
    }
  }

  /** What a thread knows concerns the bucket it works in. */
  lemma OnlyHome(k: Bucket, k': Bucket, th: Local)
    requires k == k' || (Allocating(th.pc) && FreeingOk(k', th)) || (!Allocating(th.pc) && AllocatingOk(k', th))
    ensures Allocating(th.pc) ==> FreeingOk(k, th)
    ensures !Allocating(th.pc) ==> AllocatingOk(k, th)
  {
  }

  lemma WriteGood(s: State, t: nat, b: nat, k': Bucket, th': Local)
    requires Here(s, t) && b < |s.buckets| && Home(s.threads[t]) == b && Progress(s.threads[t].pc) in {0, 7}
    requires Compatible(t, s.buckets[b], k') && BucketOk(s.slots, s.threads[t := th'], b, k')
    requires ThreadOk(s.slots, s.buckets[b := k'], t, th')
    ensures Good(s, t, Effect(b, k', th'))
  {
    hide Compatible, BucketOk, ThreadOk, Inv, Sound;
  }

  /** What a thread past its optimistic reads knows. */
  ghost predicate Knows(s: State, t: nat, b: nat, k: Bucket, th: Local) {
    && t < |s.threads| && th == s.threads[t] && b == Home(th) && b < |s.buckets| && k == s.buckets[b]
    && th.bucket1 < |s.buckets| && th.bucket2 < |s.buckets| && th.size <= th.peak
    && AllocatingOk(k, th) && FreeingOk(k, th)
    && (Holds(th).Some? ==> Locked(k, t) && !Even(k.version))
    && (Claims(th).Some? ==> Owned(k, th.head, t) && th.head < s.slots)
    && BucketOk(s.slots, s.threads, b, k)
  }

  lemma Known(s: State, t: nat)
    requires Here(s, t)
    ensures var th := s.threads[t]; Home(th) < |s.buckets| && Knows(s, t, Home(th), s.buckets[Home(th)], th)
  {
    Facts(s, t);
    var th := s.threads[t];
    hide Optimistic, Consistent, Chain, AllocatingOk, FreeingOk, OwnersOk, Inv, Sound;
    OnlyHome(s.buckets[th.Chosen()], s.buckets[th.Chosen()], th);
    OnlyHome(s.buckets[th.bucket1], s.buckets[th.bucket1], th);
    if Allocating(th.pc) {
      NoFreeing(s.buckets[th.bucket1], s.buckets[th.Chosen()], th);
    } else {
      NoAllocating(s.buckets[th.Chosen()], s.buckets[th.bucket1], th);
    }
  }

  lemma NoFreeing(k: Bucket, k': Bucket, th: Local)
    requires Allocating(th.pc)
    ensures FreeingOk(k', th)
  {
  }

  lemma NoAllocating(k: Bucket, k': Bucket, th: Local)
    requires !Allocating(th.pc)
    ensures AllocatingOk(k', th)
  {
  }

  // ----- locking and unlocking

  /** Nothing but version and holder of the bucket changes. */
  lemma LockBucket(s: State, t: nat, b: nat, k: Bucket, k': Bucket, th': Local)
    requires t < |s.threads| && BucketOk(s.slots, s.threads, b, k) && Even(k.version) && Holds(s.threads[t]) == None
    requires k' == k.(version := k.version + 1, lockedBy := Some(t)) && Holds(th') == Some(b)
    requires th'.pc in {CheckCount, LoadOldHead} && Claims(th') == Claims(s.threads[t])
    ensures Compatible(t, k, k') && BucketOk(s.slots, s.threads[t := th'], b, k')
  {
    hide Chain, Partition;
  }

  lemma UnlockBucket(s: State, t: nat, b: nat, k: Bucket, k': Bucket, th': Local)
    requires t < |s.threads| && BucketOk(s.slots, s.threads, b, k) && Locked(k, t) && Holds(s.threads[t]) == Some(b)
    requires s.threads[t].pc in {Unlock, UnlockFull, UnlockFreed}
    requires k' == k.(version := k.version + 1, lockedBy := None)
    requires th'.pc in {CountUp, CountDown, Idle} && Claims(th') == Claims(s.threads[t])
    ensures Compatible(t, k, k') && BucketOk(s.slots, s.threads[t := th'], b, k')
  {
    hide Chain, Partition;
  }

  /** The upgrade succeeds only if nothing was written since the bucket was read. */
  lemma UpgradeThread(s: State, t: nat, k': Bucket, th': Local)
    requires Here(s, t) && s.threads[t].pc == Upgrade
    requires var th := s.threads[t]; var k := s.buckets[th.Chosen()];
             && Same(k.version, th.ChosenVersion())
             && th' == th.(pc := CheckCount, sure := th.sure && k.version == th.ChosenVersion())
             && k' == k.(version := k.version + 1, lockedBy := Some(t))
    ensures AllocatingOk(k', th') && FreeingOk(k', th')
  {
    Facts(s, t);
    hide Inv, Sound, BucketOk;
  }

  lemma UpgradeVersion(s: State, t: nat)
    requires Here(s, t) && s.threads[t].pc == Upgrade
    ensures var th := s.threads[t];
            Same(s.buckets[th.Chosen()].version, th.ChosenVersion()) ==> Even(s.buckets[th.Chosen()].version)
    ensures var th := s.threads[t]; ThreadOk(s.slots, s.buckets, t, th.At(LoadVersion1))
  {
    hide Inv, Sound, BucketOk, Same, LinkedTo;
    Facts(s, t);
    var th := s.threads[t];
    if Same(s.buckets[th.Chosen()].version, th.ChosenVersion()) {
      SameParity(s.buckets[th.Chosen()].version, th.ChosenVersion());
    }
  }

  lemma UpgradeStep(s: State, t: nat, garbage: nat)
    requires Here(s, t) && s.threads[t].pc == Upgrade
    ensures Good(s, t, AllocateStep(s, t, garbage))
  {
    hide Inv, Sound, Good, Compatible, BucketOk, ThreadOk, AllocatingOk, FreeingOk, Consistent;
    var th := s.threads[t];
    var b := th.Chosen();
    var k := s.buckets[b];
    UpgradeVersion(s, t);
    if Same(k.version, th.ChosenVersion()) {
      var k' := k.(version := k.version + 1, lockedBy := Some(t));
      var th' := th.(pc := CheckCount, sure := th.sure && k.version == th.ChosenVersion());
      UpgradeThread(s, t, k', th');
      Known(s, t);
      LockBucket(s, t, b, k, k', th');
      WriterOk(s.slots, s.buckets, b, k', t, th');
      WriteGood(s, t, b, k', th');
    } else {
      LocalStep(s, t, b, th.At(LoadVersion1));
    }
  }

  lemma CheckStep(s: State, t: nat, garbage: nat)
    requires Here(s, t) && s.threads[t].pc == CheckCount
    ensures Good(s, t, AllocateStep(s, t, garbage))
  {
    hide Inv, Sound, Good, Compatible, BucketOk, ThreadOk;
    var th := s.threads[t];
    var b := th.Chosen();
    Known(s, t);
    var th' := th.At(if s.buckets[b].count == 0 then UnlockFull else SubtractCount);
    WriterOk(s.slots, s.buckets, b, s.buckets[b], t, th');
    assert s.buckets[b := s.buckets[b]] == s.buckets;
    LocalStep(s, t, b, th');
  }

  lemma UnlockStep(s: State, t: nat, garbage: nat)
    requires Here(s, t) && s.threads[t].pc in {Unlock, UnlockFull}
    ensures Good(s, t, AllocateStep(s, t, garbage))
  {
    hide Inv, Sound, Good, Compatible, BucketOk, ThreadOk;
    var th := s.threads[t];
    var b := th.Chosen();
    var k := s.buckets[b];
    Known(s, t);
    var k', th' := k.(version := k.version + 1, lockedBy := None), th.At(if th.pc == Unlock then CountUp else Idle);
    UnlockBucket(s, t, b, k, k', th');
    WriterOk(s.slots, s.buckets, b, k', t, th');
    WriteGood(s, t, b, k', th');
  }

  // ----- handing out a slot

  lemma PopList(n: nat, cells: seq<Cell>, free: seq<nat>, owners: seq<Owner>, t: nat)
    requires Chain(n, cells, free) && Partition(n, owners, free) && free != []
    ensures Chain(n, cells, free[1..]) && free[0] < n && Partition(n, owners[free[0] := Thread(t)], free[1..])
    ensures |free| > 1 ==> cells[free[0]].next == free[1..][0]
    ensures owners[free[0]] == Nobody && cells[free[0]].Link? && cells[free[0]].next < n
  {
    var rest := free[1..];
    assert free[0] in free;
    forall i ensures i in rest <==> i in free && i != free[0] {
      if i in free && i != free[0] {
        var j :| 0 <= j < |free| && free[j] == i;
        assert rest[j - 1] == i;
      }
      if i in rest {
        var j :| 0 <= j < |rest| && rest[j] == i;
        assert free[j + 1] == i;
      }
    }
  }

  lemma PopBucket(s: State, t: nat, b: nat, k: Bucket, th: Local, k': Bucket, th': Local)
    requires Knows(s, t, b, k, th) && th.pc == SubtractCount && th' == th.At(StoreHead) && k.free != []
    requires k' == k.(count := k.count - 1, free := k.free[1..], owners := k.owners[th.head := Thread(t)])
    requires k.free[0] == th.head && th.next < |k.cells| && (|k.free| > 1 ==> k.cells[th.head] == Link(th.next))
    ensures Compatible(t, k, k') && BucketOk(s.slots, s.threads[t := th'], b, k')
  {
    PopList(s.slots, k.cells, k.free, k.owners, t);
    hide Chain, Partition, AllocatingOk, FreeingOk;
  }

  /** The slot at the head of the list, with the link that was read, is still the head. */
  lemma HeadIsCurrent(s: State, t: nat, b: nat, k: Bucket, th: Local)
    requires Knows(s, t, b, k, th) && th.pc == SubtractCount
    ensures k.count > 0 && k.free != [] && k.free[0] == th.head && th.head < |k.owners|
    ensures th.next < |k.cells| && (|k.free| > 1 || th.sure ==> k.cells[th.head] == Link(th.next))
  {
    hide OwnersOk;
  }

  lemma PopStep(s: State, t: nat, garbage: nat)
    requires Here(s, t) && s.threads[t].pc == SubtractCount
    ensures Good(s, t, AllocateStep(s, t, garbage))
  {
    hide Inv, Sound, Good, Compatible, BucketOk, ThreadOk;
    var th := s.threads[t];
    var b := th.Chosen();
    var k := s.buckets[b];
    Known(s, t);
    HeadIsCurrent(s, t, b, k, th);
    var th' := th.At(StoreHead);
    var k' := k.(count := k.count - 1, free := k.free[1..], owners := k.owners[th.head := Thread(t)]);
    PopBucket(s, t, b, k, th, k', th');
    WriterOk(s.slots, s.buckets, b, k', t, th');
    WriteGood(s, t, b, k', th');
  }

  lemma StoreHeadBucket(s: State, t: nat, b: nat, k: Bucket, th: Local, k': Bucket, th': Local)
    requires Knows(s, t, b, k, th) && th.pc == StoreHead && th' == th.At(Unlock) && k' == k.(head := th.next)
    ensures Compatible(t, k, k') && BucketOk(s.slots, s.threads[t := th'], b, k')
  {
    hide Partition, AllocatingOk, FreeingOk;
  }

  lemma StoreHeadStep(s: State, t: nat, garbage: nat)
    requires Here(s, t) && s.threads[t].pc == StoreHead
    ensures Good(s, t, AllocateStep(s, t, garbage))
  {
    hide Inv, Sound, Good, Compatible, BucketOk, ThreadOk;
    var th := s.threads[t];
    var b := th.Chosen();
    var k := s.buckets[b];
    Known(s, t);
    var k', th' := k.(head := th.next), th.At(Unlock);
    StoreHeadBucket(s, t, b, k, th, k', th');
    WriterOk(s.slots, s.buckets, b, k', t, th');
    WriteGood(s, t, b, k', th');
  }

  lemma Reowned(n: nat, owners: seq<Owner>, free: seq<nat>, i: nat, o: Owner)
    requires Partition(n, owners, free) && i < n && owners[i] != Nobody && o != Nobody
    ensures Partition(n, owners[i := o], free)
  {
  }

  lemma HandOutBucket(s: State, t: nat, b: nat, k: Bucket, th: Local, k': Bucket, th': Local)
    requires Knows(s, t, b, k, th) && th.pc == CountUp && th'.pc == Idle && th.head < |k.owners|
    requires k' == k.(owners := k.owners[th.head := Caller])
    ensures Compatible(t, k, k') && BucketOk(s.slots, s.threads[t := th'], b, k')
  {
    Reowned(s.slots, k.owners, k.free, th.head, Caller);
    hide Chain, Partition, AllocatingOk, FreeingOk, Agrees;
  }

  /** The slot goes to the caller; until then it belonged to this thread alone. */
  lemma HandOutStep(s: State, t: nat, garbage: nat)
    requires Here(s, t) && s.threads[t].pc == CountUp
    ensures Good(s, t, AllocateStep(s, t, garbage))
  {
    hide Inv, Sound, Good, Compatible, BucketOk, ThreadOk;
    var th := s.threads[t];
    var b := th.Chosen();
    var k := s.buckets[b];
    Known(s, t);
    var k' := k.(owners := k.owners[th.head := Caller]);
    var th' := th.(pc := Idle, size := th.size + 1, peak := if th.size + 1 > th.peak then th.size + 1 else th.peak);
    HandOutBucket(s, t, b, k, th, k', th');
    WriterOk(s.slots, s.buckets, b, k', t, th');
    WriteGood(s, t, b, k', th');
  }

  // ----- taking a slot back

  lemma FreeLocalStep(s: State, t: nat)
    requires Here(s, t) && s.threads[t].pc in {LoadVersion, LoadOldHead, CountDown}
    ensures Good(s, t, FreeStep(s, t))
  {
    hide Inv, Sound, Good, Compatible, BucketOk, ThreadOk;
    var e := FreeStep(s, t);
    Known(s, t);
    WriterOk(s.slots, s.buckets, e.b, s.buckets[e.b], t, e.local);
    assert s.buckets[e.b := s.buckets[e.b]] == s.buckets;
    LocalStep(s, t, e.b, e.local);
  }

  lemma LockExclusiveStep(s: State, t: nat)
    requires Here(s, t) && s.threads[t].pc == LockExclusive
    ensures Good(s, t, FreeStep(s, t))
  {
    hide Inv, Sound, Good, Compatible, BucketOk, ThreadOk;
    var th := s.threads[t];
    var b := th.bucket1;
    var k := s.buckets[b];
    Known(s, t);
    if Same(k.version, th.version1) {
      SameParity(k.version, th.version1);
      var k', th' := k.(version := k.version + 1, lockedBy := Some(t)), th.At(LoadOldHead);
      LockBucket(s, t, b, k, k', th');
      WriterOk(s.slots, s.buckets, b, k', t, th');
      WriteGood(s, t, b, k', th');
    } else {
      var th' := th.At(LoadVersion);
      WriterOk(s.slots, s.buckets, b, k, t, th');
      assert s.buckets[b := k] == s.buckets;
      LocalStep(s, t, b, th');
    }
  }

  lemma UnlockFreedStep(s: State, t: nat)
    requires Here(s, t) && s.threads[t].pc == UnlockFreed
    ensures Good(s, t, FreeStep(s, t))
  {
    hide Inv, Sound, Good, Compatible, BucketOk, ThreadOk;
    var th := s.threads[t];
    var b := th.bucket1;
    var k := s.buckets[b];
    Known(s, t);
    var k', th' := k.(version := k.version + 1, lockedBy := None), th.At(CountDown);
    UnlockBucket(s, t, b, k, k', th');
    WriterOk(s.slots, s.buckets, b, k', t, th');
    WriteGood(s, t, b, k', th');
  }

  /** Writing to a slot that is not free does not touch the list. */
  lemma ChainKept(n: nat, cells: seq<Cell>, free: seq<nat>, owners: seq<Owner>, i: nat, c: Cell)
    requires Chain(n, cells, free) && Partition(n, owners, free) && i < n && owners[i] != Nobody
    ensures Chain(n, cells[i := c], free)
  {
    assert i !in free;
    assert forall j | 0 <= j < |free| :: free[j] in free;
  }

  lemma SameSizes(n: nat, ths: seq<Local>, b: nat, k: Bucket)
    requires BucketOk(n, ths, b, k)
    ensures |k.cells| == |k.owners| == n
  {
  }

  lemma StoreLinkBucket(s: State, t: nat, b: nat, k: Bucket, th: Local, k': Bucket, th': Local)
    requires Knows(s, t, b, k, th) && th.pc == StoreLink && th' == th.At(StoreFreed) && th.head < |k.cells|
    requires k' == k.(cells := k.cells[th.head := Link(th.next)])
    ensures Compatible(t, k, k') && BucketOk(s.slots, s.threads[t := th'], b, k')
  {
    SameSizes(s.slots, s.threads, b, k);
    ChainKept(s.slots, k.cells, k.free, k.owners, th.head, Link(th.next));
    hide Chain, Partition, AllocatingOk, FreeingOk;
  }

  lemma StoreLinkStep(s: State, t: nat)
    requires Here(s, t) && s.threads[t].pc == StoreLink
    ensures Good(s, t, FreeStep(s, t))
  {
    hide Inv, Sound, Good, Compatible, BucketOk, ThreadOk;
    var th := s.threads[t];
    var b := th.bucket1;
    var k := s.buckets[b];
    Known(s, t);
    SameSizes(s.slots, s.threads, b, k);
    var k', th' := k.(cells := k.cells[th.head := Link(th.next)]), th.At(StoreFreed);
    StoreLinkBucket(s, t, b, k, th, k', th');
    WriterOk(s.slots, s.buckets, b, k', t, th');
    WriteGood(s, t, b, k', th');
  }

  lemma PushChain(n: nat, cells: seq<Cell>, free: seq<nat>, i: nat, next: nat)
    requires Chain(n, cells, free) && i < n && i !in free
    requires cells[i] == Link(next) && next < n && (free != [] ==> next == free[0])
    ensures Chain(n, cells, [i] + free)
  {
    var all := [i] + free;
    assert forall j | 0 < j < |all| :: all[j] == free[j - 1] && all[j] in free;
    forall j | 0 < j < |all| ensures cells[all[j - 1]].next == all[j] {
      if j > 1 {
        assert cells[free[j - 2]].next == free[j - 1];
      }
    }
  }

  lemma PushPartition(n: nat, owners: seq<Owner>, free: seq<nat>, i: nat)
    requires Partition(n, owners, free) && i < n
    ensures Partition(n, owners[i := Nobody], [i] + free)
  {
    var all := [i] + free;
    forall j ensures j in all <==> j == i || j in free {
      if j in free {
        var m :| 0 <= m < |free| && free[m] == j;
        assert all[m + 1] == j;
      }
    }
  }

  lemma PushList(n: nat, cells: seq<Cell>, free: seq<nat>, owners: seq<Owner>, i: nat, next: nat)
    requires Chain(n, cells, free) && Partition(n, owners, free) && i < n && owners[i] != Nobody
    requires cells[i] == Link(next) && next < n && (free != [] ==> next == free[0])
    ensures Chain(n, cells, [i] + free) && Partition(n, owners[i := Nobody], [i] + free)
  {
    assert i !in free;
    PushChain(n, cells, free, i, next);
    PushPartition(n, owners, free, i);
  }

  lemma PushBucket(s: State, t: nat, b: nat, k: Bucket, th: Local, k': Bucket, th': Local)
    requires Knows(s, t, b, k, th) && th.pc == StoreFreed && th' == th.At(AddCount) && th.head < |k.owners|
    requires k' == k.(head := th.head, free := [th.head] + k.free, owners := k.owners[th.head := Nobody])
    ensures Compatible(t, k, k') && BucketOk(s.slots, s.threads[t := th'], b, k')
  {
    SameSizes(s.slots, s.threads, b, k);
    PushList(s.slots, k.cells, k.free, k.owners, th.head, th.next);
    hide Chain, Partition, AllocatingOk, FreeingOk;
  }

  lemma PushStep(s: State, t: nat)
    requires Here(s, t) && s.threads[t].pc == StoreFreed
    ensures Good(s, t, FreeStep(s, t))
  {
    hide Inv, Sound, Good, Compatible, BucketOk, ThreadOk;
    var th := s.threads[t];
    var b := th.bucket1;
    var k := s.buckets[b];
    Known(s, t);
    var k' := k.(head := th.head, free := [th.head] + k.free, owners := k.owners[th.head := Nobody]);
    var th' := th.At(AddCount);
    PushBucket(s, t, b, k, th, k', th');
    WriterOk(s.slots, s.buckets, b, k', t, th');
    WriteGood(s, t, b, k', th');
  }

  lemma AddCountBucket(s: State, t: nat, b: nat, k: Bucket, th: Local, k': Bucket, th': Local)
    requires Knows(s, t, b, k, th) && th.pc == AddCount && th' == th.At(UnlockFreed) && k' == k.(count := k.count + 1)
    ensures Compatible(t, k, k') && BucketOk(s.slots, s.threads[t := th'], b, k')
  {
    hide Chain, Partition, AllocatingOk, FreeingOk;
  }

  lemma AddCountStep(s: State, t: nat)
    requires Here(s, t) && s.threads[t].pc == AddCount
    ensures Good(s, t, FreeStep(s, t))
  {
    hide Inv, Sound, Good, Compatible, BucketOk, ThreadOk;
    var th := s.threads[t];
    var b := th.bucket1;
    var k := s.buckets[b];
    Known(s, t);
    var k', th' := k.(count := k.count + 1), th.At(UnlockFreed);
    AddCountBucket(s, t, b, k, th, k', th');
    WriterOk(s.slots, s.buckets, b, k', t, th');
    WriteGood(s, t, b, k', th');
  }

  // ----- what callers do

  /** An idle thread becomes busy, or nothing but bytes of an object changes. */
  lemma IdleGood(s: State, t: nat, b: nat, k': Bucket, th': Local)
    requires Inv(s) && t < |s.threads| && b < |s.buckets| && s.threads[t].pc == Idle
    requires Compatible(t, s.buckets[b], k') && BucketOk(s.slots, s.threads[t := th'], b, k')
    requires ThreadOk(s.slots, s.buckets[b := k'], t, th')
    ensures Good(s, t, Effect(b, k', th'))
  {
    hide Compatible, BucketOk, ThreadOk, Inv;
  }

  lemma StartAllocate(s: State, t: nat, b1: nat, b2: nat)
    requires Inv(s) && Enabled(s, t, Allocate(b1, b2))
    ensures Good(s, t, EffectOf(s, t, Allocate(b1, b2)))
  {
    hide Good, Compatible, Chain, Partition, Agrees;
    var th := s.threads[t];
    var k, th' := s.buckets[b1], th.(pc := LoadVersion1, bucket1 := b1, bucket2 := b2);
    assert BucketOk(s.slots, s.threads, b1, k) && ThreadOk(s.slots, s.buckets, t, th);
    Unchanged(t, k);
    ReadKeepsBucket(s.slots, s.threads, t, th', b1, k);
    assert s.buckets[b1 := k] == s.buckets;
    IdleGood(s, t, b1, k, th');
  }

  lemma TakeBack(n: nat, ths: seq<Local>, t: nat, b: nat, i: nat, k: Bucket, k': Bucket, th': Local)
    requires t < |ths| && ths[t].pc == Idle && BucketOk(n, ths, b, k) && i < |k.owners| && k.owners[i] == Caller
    requires k' == k.(owners := k.owners[i := Thread(t)]) && th'.pc == LoadVersion && th'.bucket1 == b && th'.head == i
    ensures Compatible(t, k, k') && BucketOk(n, ths[t := th'], b, k')
  {
    Reowned(n, k.owners, k.free, i, Thread(t));
    hide Chain, Partition, Agrees;
  }

  lemma StartFree(s: State, t: nat, b: nat, i: nat)
    requires Inv(s) && Enabled(s, t, Free(b, i))
    ensures Good(s, t, EffectOf(s, t, Free(b, i)))
  {
    hide Good, Compatible, Chain, Partition, BucketOk;
    var th := s.threads[t];
    var k := s.buckets[b];
    var k' := k.(owners := k.owners[i := Thread(t)]);
    var th' := th.(pc := LoadVersion, bucket1 := b, bucket2 := b, head := i);
    assert BucketOk(s.slots, s.threads, b, k) && ThreadOk(s.slots, s.buckets, t, th);
    TakeBack(s.slots, s.threads, t, b, i, k, k', th');
    WriterOk(s.slots, s.buckets, b, k', t, th');
    IdleGood(s, t, b, k', th');
  }

  lemma OverwriteBucket(n: nat, ths: seq<Local>, t: nat, b: nat, i: nat, k: Bucket, k': Bucket)
    requires BucketOk(n, ths, b, k) && i < |k.owners| && i < |k.cells| && k.owners[i] == Caller
    requires k' == k.(cells := k.cells[i := Object])
    ensures Compatible(t, k, k') && BucketOk(n, ths, b, k')
  {
    ChainKept(n, k.cells, k.free, k.owners, i, Object);
    hide Chain, Partition;
  }

  lemma BucketFacts(n: nat, ths: seq<Local>, b: nat, k: Bucket)
    requires BucketOk(n, ths, b, k)
    ensures Chain(n, k.cells, k.free) && Partition(n, k.owners, k.free) && Consistent(k, Holder(ths, k))
    ensures Even(k.version) ==> Agrees(k, k.head)
    ensures k.lockedBy.Some? ==> k.lockedBy.value < |ths|
  {
    hide Chain, Partition, Agrees, OwnersOk;
  }

  lemma StartOverwrite(s: State, t: nat, b: nat, i: nat)
    requires Inv(s) && Enabled(s, t, Overwrite(b, i))
    ensures Good(s, t, EffectOf(s, t, Overwrite(b, i)))
  {
    hide Compatible, Chain, Partition, BucketOk, ThreadOk, Consistent, Agrees;
    var k, th := s.buckets[b], s.threads[t];
    var k' := k.(cells := k.cells[i := Object]);
    assert BucketOk(s.slots, s.threads, b, k) && ThreadOk(s.slots, s.buckets, t, th);
    OverwriteBucket(s.slots, s.threads, t, b, i, k, k');
    OverwriteBucket(s.slots, s.threads, |s.threads|, b, i, k, k');
    assert s.threads[t := th] == s.threads;
    BucketFacts(s.slots, s.threads, b, k);
    OtherThread(s.slots, s.buckets, b, k', |s.threads|, t, th);
  }

  // ----- every step

  lemma ContinueGood(s: State, t: nat, garbage: nat)
    requires Here(s, t)
    ensures Good(s, t, if Allocating(s.threads[t].pc) then AllocateStep(s, t, garbage) else FreeStep(s, t))
  {
    hide Inv, Good, Sound, AllocateStep, FreeStep;
    match s.threads[t].pc
    case LoadVersion1 => OptimisticStep(s, t, garbage);
    case LoadVersion2 => OptimisticStep(s, t, garbage);
    case LoadCount1 => OptimisticStep(s, t, garbage);
    case LoadCount2 => OptimisticStep(s, t, garbage);
    case LoadHead => OptimisticStep(s, t, garbage);
    case LoadLink => OptimisticStep(s, t, garbage);
    case Validate => OptimisticStep(s, t, garbage);
    case Upgrade => UpgradeStep(s, t, garbage);
    case CheckCount => CheckStep(s, t, garbage);
    case SubtractCount => PopStep(s, t, garbage);
    case StoreHead => StoreHeadStep(s, t, garbage);
    case Unlock => UnlockStep(s, t, garbage);
    case CountUp => HandOutStep(s, t, garbage);
    case UnlockFull => UnlockStep(s, t, garbage);
    case LoadVersion => FreeLocalStep(s, t);
    case LockExclusive => LockExclusiveStep(s, t);
    case LoadOldHead => FreeLocalStep(s, t);
    case StoreLink => StoreLinkStep(s, t);
    case StoreFreed => PushStep(s, t);
    case AddCount => AddCountStep(s, t);
    case UnlockFreed => UnlockFreedStep(s, t);
    case CountDown => FreeLocalStep(s, t);
  }

  lemma StepKeeps(s: State, t: nat, a: Action)
    requires Inv(s) && Sound(s, t) && Enabled(s, t, a)
    ensures Good(s, t, EffectOf(s, t, a)) && Inv(Step(s, t, a))
  {
    hide Inv, Good, Sound, AllocateStep, FreeStep;
    match a {
      case Allocate(b1, b2) => StartAllocate(s, t, b1, b2);
      case Free(b, i) => StartFree(s, t, b, i);
      case Overwrite(b, i) => StartOverwrite(s, t, b, i);
      case Continue(garbage) => ContinueGood(s, t, garbage);
    }
    GoodInRange(s, t, EffectOf(s, t, a));
    GoodKeeps(s, t, EffectOf(s, t, a));
  }

  lemma GoodInRange(s: State, t: nat, e: Effect)
    requires Good(s, t, e)
    ensures e.b < |s.buckets| && t < |s.threads|
  {
  }

  lemma InitialOk(s: State)
    requires Initial(s)
    ensures Inv(s)
  {
    forall b | 0 <= b < |s.buckets| ensures BucketOk(s.slots, s.threads, b, s.buckets[b]) {
      var k := s.buckets[b];
      forall i | 0 <= i < s.slots ensures i in k.free {
        assert k.free[i] == i;
      }
    }
  }

  /**
   * An execution in which, for n steps, whoever wins the lock of a bucket with free slots has read its head and the
   * successor.
   */
  ghost predicate SoundUpTo(states: seq<State>, moves: seq<Move>, n: nat) {
    Execution(states, moves) && n <= |moves| && forall i | 0 <= i < n :: Sound(states[i], moves[i].t)
  }

  /** As long as that is so every state is right. */
  lemma {:induction false} EveryReachableState(states: seq<State>, moves: seq<Move>, i: nat)
    requires SoundUpTo(states, moves, i)
    ensures Inv(states[i])
  {
    hide Inv, Sound, Step, Enabled;
    if i == 0 {
      InitialOk(states[0]);
    } else {
      EveryReachableState(states, moves, i - 1);
      StepKeeps(states[i - 1], moves[i - 1].t, moves[i - 1].a);
    }
  }

  /**
   * If the versions are equal and not only their eight bits, nothing was written since, so what was read is current.
   */
  lemma GenuineIsSound(s: State, t: nat)
    requires Inv(s) && GenuineUpgrade(s, t)
    ensures Sound(s, t)
  {
    if t < |s.threads| && s.threads[t].pc == Upgrade && s.threads[t].Chosen() < |s.buckets|
       && Same(s.buckets[s.threads[t].Chosen()].version, s.threads[t].ChosenVersion())
       && s.buckets[s.threads[t].Chosen()].count > 0
    {
      ReadIsCurrent(s, t);
    }
  }

  lemma ReadIsCurrent(s: State, t: nat)
    requires Inv(s) && t < |s.threads| && s.threads[t].pc == Upgrade && s.threads[t].Chosen() < |s.buckets|
    requires s.buckets[s.threads[t].Chosen()].version == s.threads[t].ChosenVersion()
    ensures var th := s.threads[t];
            var k := s.buckets[th.Chosen()];
            && th.head == k.head && ChosenCount(th) == k.count == |k.free|
            && (k.count > 0 ==>
                  && StillCurrent(k, th.head, th.next) && k.free[0] == th.head
                  && th.head < |k.cells| && k.cells[th.head] == Link(th.next))
  {
    hide Inv, Sound, Partition, OwnersOk, Same, AllocatingOk, FreeingOk;
    ThreadHere(s, t);
    var k := s.buckets[s.threads[t].Chosen()];
    PopHead(s.slots, k.cells, k.free);
    hide Chain;
  }

  lemma ThreadHere(s: State, t: nat)
    requires Inv(s) && t < |s.threads| && s.threads[t].Chosen() < |s.buckets|
    ensures ThreadOk(s.slots, s.buckets, t, s.threads[t])
    ensures BucketOk(s.slots, s.threads, s.threads[t].Chosen(), s.buckets[s.threads[t].Chosen()])
  {
    hide ThreadOk, BucketOk;
  }

  lemma PopHead(n: nat, cells: seq<Cell>, free: seq<nat>)
    requires Chain(n, cells, free)
    ensures free != [] ==> free[0] < |cells| && cells[free[0]].Link? && cells[free[0]].next < |cells|
  {
  }

  /** Eight bits suffice for this if they do whenever a lock is won. */
  lemma {:induction false} GenuineRunsAreSound(states: seq<State>, moves: seq<Move>, n: nat)
    requires Execution(states, moves) && n <= |moves|
    requires forall i | 0 <= i < n :: GenuineUpgrade(states[i], moves[i].t)
    ensures SoundUpTo(states, moves, n)
  {
    hide Inv, Sound, Step, Enabled, GenuineUpgrade;
    if n > 0 {
      GenuineRunsAreSound(states, moves, n - 1);
      EveryReachableState(states, moves, n - 1);
      GenuineIsSound(states[n - 1], moves[n - 1].t);
    }
  }

  lemma RunsAreSound(states: seq<State>, moves: seq<Move>, n: nat)
    requires Run(states, moves) && n <= |moves|
    ensures SoundUpTo(states, moves, n)
  {
    hide Enabled, Step;
    GenuineRunsAreSound(states, moves, n);
  }
}
