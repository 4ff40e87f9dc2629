/** What every interleaving of allocations and frees keeps. */
module AllocInvariant {
  import opened Wrappers
  import opened AllocModel

  ghost predicate Even(v: nat) {
    v % 2 == 0
  }

  // ----- buckets

  /** The free slots, in order, are chained through their own bytes. */
  ghost predicate Chain(n: nat, cells: seq<Cell>, free: seq<nat>) {
    && |cells| == n
    && (forall i | 0 <= i < |free| :: free[i] < n && cells[free[i]].Link? && cells[free[i]].next < n)
    && (forall i, j | 0 <= i < j < |free| :: free[i] != free[j])
    && (forall i | 0 < i < |free| :: cells[free[i - 1]].next == free[i])
  }

  /** Free slots, and no others, belong to nobody. */
  ghost predicate Partition(n: nat, owners: seq<Owner>, free: seq<nat>) {
    && |owners| == n
    && forall i | 0 <= i < n :: owners[i] == Nobody <==> i in free
  }

  /** Count and head agree with the free list, which starts at h. */
  ghost predicate Agrees(k: Bucket, h: nat) {
    k.count == |k.free| && (k.free != [] ==> k.free[0] == h)
  }

  /** The bucket a thread has locked. */
  ghost function Holds(th: Local): Option<nat> {
    if th.pc in {CheckCount, SubtractCount, StoreHead, Unlock, UnlockFull} then Some(th.Chosen())
    else if th.pc in {LoadOldHead, StoreLink, StoreFreed, AddCount, UnlockFreed} then Some(th.bucket1)
    else None
  }

  /** The slot a thread is handing out or taking back. */
  ghost function Claims(th: Local): Option<(nat, nat)> {
    if th.pc in {StoreHead, Unlock, CountUp} then Some((th.Chosen(), th.head))
    else if th.pc in {LoadVersion, LockExclusive, LoadOldHead, StoreLink, StoreFreed} then Some((th.bucket1, th.head))
    else None
  }

  /** In the middle of a locked update the head or the count lags behind; otherwise both are right. */
  ghost predicate Consistent(k: Bucket, holder: Option<Local>) {
    match holder
    case Some(th) =>
      if th.pc == StoreHead then Agrees(k, th.next) && th.next < |k.cells|
      else if th.pc == AddCount then |k.free| > 0 && k.free[0] == k.head && k.count == |k.free| - 1
      else Agrees(k, k.head)
    case None => Agrees(k, k.head)
  }

  ghost function Holder(ths: seq<Local>, k: Bucket): Option<Local> {
    if k.lockedBy.Some? && k.lockedBy.value < |ths| then Some(ths[k.lockedBy.value]) else None
  }

  ghost predicate OwnersOk(ths: seq<Local>, b: nat, owners: seq<Owner>) {
    forall i | 0 <= i < |owners| && owners[i].Thread? ::
      owners[i].id < |ths| && Claims(ths[owners[i].id]) == Some((b, i))
  }

  ghost predicate BucketOk(n: nat, ths: seq<Local>, b: nat, k: Bucket) {
    && Chain(n, k.cells, k.free) && Partition(n, k.owners, k.free) && k.head < n
    && (k.lockedBy.None? <==> Even(k.version))
    && (k.lockedBy.Some? ==> k.lockedBy.value < |ths| && Holds(ths[k.lockedBy.value]) == Some(b))
    && OwnersOk(ths, b, k.owners)
    && Consistent(k, Holder(ths, k))
  }

  // ----- threads

  /** A version read while the lock was free; the bucket may have moved on since. */
  ghost predicate Snapshot(v: nat, k: Bucket) {
    Even(v) && v <= k.version
  }

  /** Nothing was written since the version was read. */
  ghost predicate Fresh(v: nat, k: Bucket) {
    k.version == v
  }

  /** What a free head slot leads to. */
  ghost predicate LinkedTo(k: Bucket, head: nat, next: nat) {
    k.count > 0 ==> head < |k.cells| && k.cells[head] == Link(next)
  }

  /** How far the optimistic reads have come. */
  ghost function Progress(pc: Pc): nat {
    match pc
    case LoadVersion2 => 1
    case LoadCount1 => 2
    case LoadCount2 => 3
    case LoadHead => 4
    case LoadLink => 5
    case Validate => 6
    case Upgrade => 7
    case _ => 0
  }

  ghost predicate Optimistic(n: nat, bs: seq<Bucket>, th: Local)
    requires th.bucket1 < |bs| && th.bucket2 < |bs|
  {
    var k1, k2, k := bs[th.bucket1], bs[th.bucket2], bs[th.Chosen()];
    var p := Progress(th.pc);
    && (p >= 1 ==> Snapshot(th.version1, k1))
    && (p >= 2 ==> Snapshot(th.version2, k2))
    && (p >= 3 && Fresh(th.version1, k1) ==> th.count1 == k1.count)
    && (p >= 4 && Fresh(th.version2, k2) ==> th.count2 == k2.count)
    && (p >= 5 ==> th.head < n)
    && (p >= 5 && Fresh(th.ChosenVersion(), k) ==> th.head == k.head)
    && (p >= 6 && Fresh(th.ChosenVersion(), k) ==> LinkedTo(k, th.head, th.next))
    && (p >= 7 && th.sure ==> if th.Second() then th.seen1 == th.count1 else th.seen2 == th.count2)
    && (p >= 7 && Fresh(th.ChosenVersion(), k) ==> if th.Second() then th.seen2 == th.count2 else th.seen1 == th.count1)
  }

  /** The count of the chosen bucket as read. */
  ghost function ChosenCount(th: Local): nat {
    if th.Second() then th.count2 else th.count1
  }

  /** Both counts were right at one common instant. */
  ghost predicate SawCounts(th: Local) {
    th.seen1 == th.count1 && th.seen2 == th.count2
  }

  ghost predicate Owned(k: Bucket, i: nat, t: nat) {
    i < |k.owners| && k.owners[i] == Thread(t)
  }

  ghost predicate Locked(k: Bucket, t: nat) {
    k.lockedBy == Some(t)
  }

  /** What was read before is still the head of the list, and its successor if there is one. */
  ghost predicate StillCurrent(k: Bucket, head: nat, next: nat) {
    && head == k.head && next < |k.cells|
    && (k.count > 1 ==> head < |k.cells| && k.cells[head] == Link(next))
  }

  /** A thread that is about to win the lock of a bucket with free slots has read its head and the successor. */
  ghost predicate Sound(s: State, t: nat) {
    t < |s.threads| && s.threads[t].pc == Upgrade && s.threads[t].Chosen() < |s.buckets| ==>
      var th := s.threads[t];
      var k := s.buckets[th.Chosen()];
      Same(k.version, th.ChosenVersion()) && k.count > 0 ==> StillCurrent(k, th.head, th.next)
  }

  ghost predicate AllocatingOk(k: Bucket, th: Local) {
    && (th.pc in {CheckCount, SubtractCount} ==>
          && (k.count > 0 ==> StillCurrent(k, th.head, th.next))
          && (th.sure ==> SawCounts(th) && LinkedTo(k, th.head, th.next) && k.count == ChosenCount(th)))
    && (th.pc == SubtractCount ==> k.count > 0)
    && (th.pc in {StoreHead, Unlock, CountUp, UnlockFull} && th.sure ==> SawCounts(th))
    && (th.pc in {StoreHead, Unlock, CountUp} && th.sure ==> ChosenCount(th) > 0)
    && (th.pc == UnlockFull ==> k.count == 0 && (th.sure ==> ChosenCount(th) == 0))
  }

  ghost predicate FreeingOk(k: Bucket, th: Local) {
    && (th.pc == LockExclusive ==> Even(th.version1))
    && (th.pc in {StoreLink, StoreFreed} ==> th.next == k.head)
    && (th.pc == StoreFreed ==> th.head < |k.cells| && k.cells[th.head] == Link(th.next))
  }

  ghost predicate ThreadOk(n: nat, bs: seq<Bucket>, t: nat, th: Local) {
    && (th.pc != Idle ==>
          && th.bucket1 < |bs| && th.bucket2 < |bs|
          && Optimistic(n, bs, th) && AllocatingOk(bs[th.Chosen()], th) && FreeingOk(bs[th.bucket1], th)
          && (Holds(th).Some? ==> Locked(bs[Holds(th).value], t))
          && (Claims(th).Some? ==> Owned(bs[Claims(th).value.0], Claims(th).value.1, t)))
    && th.size <= th.peak
  }

  ghost predicate Inv(s: State) {
    && (forall b | 0 <= b < |s.buckets| :: BucketOk(s.slots, s.threads, b, s.buckets[b]))
    && (forall t | 0 <= t < |s.threads| :: ThreadOk(s.slots, s.buckets, t, s.threads[t]))
  }

  // ----- what one thread's step leaves alone

  /** Thread t changes only what is locked by it or belongs to it; versions only grow. */
  ghost predicate Compatible(t: nat, k: Bucket, k': Bucket) {
    && k'.version >= k.version && |k'.cells| == |k.cells| && |k'.owners| == |k.owners|
    && (Even(k.version) && k'.version == k.version ==> k'.count == k.count && k'.head == k.head && k'.free == k.free)
    && (forall u | u != t && k.lockedBy == Some(u) ::
          k'.lockedBy == k.lockedBy && k'.version == k.version && k'.count == k.count && k'.head == k.head
          && k'.free == k.free)
    && (forall i, u | 0 <= i < |k.owners| && u != t :: k.owners[i] == Thread(u) <==> k'.owners[i] == Thread(u))
    && (forall i | 0 <= i < |k.cells| && i < |k.owners| && k'.cells[i] != k.cells[i] ::
          k.owners[i] == Caller || k.owners[i] == Thread(t))
  }

  /** While a bucket stays as it was read, its head slot does too. */
  lemma LinkKept(n: nat, t: nat, k: Bucket, k': Bucket, v: nat, head: nat, next: nat)
    requires Compatible(t, k, k') && Snapshot(v, k) && Fresh(v, k') && head == k.head && LinkedTo(k, head, next)
    requires Chain(n, k.cells, k.free) && Partition(n, k.owners, k.free) && Agrees(k, k.head)
    ensures LinkedTo(k', head, next)
  {
    if k.count > 0 {
      assert k.free[0] in k.free;
    }
  }

  lemma OtherOptimistic(n: nat, bs: seq<Bucket>, b: nat, k': Bucket, t: nat, th: Local)
    requires b < |bs| && Compatible(t, bs[b], k') && th.bucket1 < |bs| && th.bucket2 < |bs| && Optimistic(n, bs, th)
    requires Chain(n, bs[b].cells, bs[b].free) && Partition(n, bs[b].owners, bs[b].free)
    requires Even(bs[b].version) ==> Agrees(bs[b], bs[b].head)
    ensures Optimistic(n, bs[b := k'], th)
  {
    var bs' := bs[b := k'];
    var c := th.Chosen();
    if Progress(th.pc) >= 6 && c == b && Fresh(th.ChosenVersion(), bs'[c]) {
      LinkKept(n, t, bs[b], k', th.ChosenVersion(), th.head, th.next);
    }
    hide Chain, Partition, LinkedTo, Agrees;
  }

  lemma OtherLocked(n: nat, bs: seq<Bucket>, b: nat, k': Bucket, t: nat, u: nat, th: Local)
    requires b < |bs| && Compatible(t, bs[b], k') && u != t && ThreadOk(n, bs, u, th) && th.pc != Idle
    requires Chain(n, bs[b].cells, bs[b].free) && Partition(n, bs[b].owners, bs[b].free)
    requires Locked(bs[b], u) ==> Consistent(bs[b], Some(th))
    ensures AllocatingOk(bs[b := k'][th.Chosen()], th) && FreeingOk(bs[b := k'][th.bucket1], th)
  {
    hide Optimistic;
    var k := bs[b];
    if k.count > 0 && th.pc in {CheckCount, SubtractCount} && th.Chosen() == b {
      assert k.free[0] in k.free;
    }
  }

  lemma OtherThread(n: nat, bs: seq<Bucket>, b: nat, k': Bucket, t: nat, u: nat, th: Local)
    requires b < |bs| && Compatible(t, bs[b], k') && u != t && ThreadOk(n, bs, u, th)
    requires Chain(n, bs[b].cells, bs[b].free) && Partition(n, bs[b].owners, bs[b].free)
    requires Even(bs[b].version) ==> Agrees(bs[b], bs[b].head)
    requires Locked(bs[b], u) ==> Consistent(bs[b], Some(th))
    ensures ThreadOk(n, bs[b := k'], u, th)
  {
    if th.pc != Idle {
      OtherOptimistic(n, bs, b, k', t, th);
      OtherLocked(n, bs, b, k', t, u, th);
    }
    hide Chain, Partition, Optimistic, AllocatingOk, FreeingOk, Consistent;
  }

  /** Elsewhere, a thread's step does not matter. */
  lemma OtherBucket(n: nat, ths: seq<Local>, t: nat, th': Local, c: nat, k: Bucket)
    requires t < |ths| && BucketOk(n, ths, c, k)
    requires Holds(ths[t]) == Some(c) ==> th'.pc == ths[t].pc && Holds(th') == Some(c) && th'.next == ths[t].next
    requires Claims(ths[t]).Some? && Claims(ths[t]).value.0 == c ==> Claims(th') == Claims(ths[t])
    ensures BucketOk(n, ths[t := th'], c, k)
  {
    hide Chain, Partition, Agrees;
  }

  /** A step that satisfies these keeps the invariant. */
  ghost predicate Good(s: State, t: nat, e: Effect) {
    && t < |s.threads| && e.b < |s.buckets|
    && Compatible(t, s.buckets[e.b], e.bucket)
    && BucketOk(s.slots, s.threads[t := e.local], e.b, e.bucket)
    && ThreadOk(s.slots, s.buckets[e.b := e.bucket], t, e.local)
    && (Holds(s.threads[t]).Some? ==> Holds(s.threads[t]) == Some(e.b) || e.local == s.threads[t])
    && (Claims(s.threads[t]).Some? ==> Claims(s.threads[t]).value.0 == e.b || e.local == s.threads[t])
  }

  lemma GoodKeeps(s: State, t: nat, e: Effect)
    requires Inv(s) && Good(s, t, e)
    ensures Inv(s.(buckets := s.buckets[e.b := e.bucket], threads := s.threads[t := e.local]))
  {
    var bs', ths' := s.buckets[e.b := e.bucket], s.threads[t := e.local];
    forall c | 0 <= c < |bs'| ensures BucketOk(s.slots, ths', c, bs'[c]) {
      if c != e.b {
        hide Chain, Partition, Agrees, ThreadOk, Consistent, Compatible, OwnersOk;
        OtherBucket(s.slots, s.threads, t, e.local, c, s.buckets[c]);
      }
    }
    forall u | 0 <= u < |ths'| ensures ThreadOk(s.slots, bs', u, ths'[u]) {
      if u != t {
        hide ThreadOk, Compatible, Chain, Partition, Agrees, OwnersOk;
        assert BucketOk(s.slots, s.threads, e.b, s.buckets[e.b]);
        OtherThread(s.slots, s.buckets, e.b, e.bucket, t, u, s.threads[u]);
      }
    }
  }
}
