/**
 * What a thread does that is left alone: every operation under way ends, and one that begins does just what the
 * sequential allocator does.
 */
module AllocAlone {
  import opened Wrappers
  import opened AllocModel
  import opened AllocInvariant

  // ----- steps of one thread

  /** Thread t has changed bucket b and its own variables. */
  function Put(s: State, t: nat, b: nat, k: Bucket, th: Local): State
    requires t < |s.threads| && b < |s.buckets|
  {
    s.(buckets := s.buckets[b := k], threads := s.threads[t := th])
  }

  lemma OneMore(s: State, t: nat, a: Action, b: nat, k: Bucket, th: Local, k': Bucket, th': Local)
    requires t < |s.threads| && b < |s.buckets| && Enabled(Put(s, t, b, k, th), t, a)
    requires EffectOf(Put(s, t, b, k, th), t, a) == Effect(b, k', th')
    ensures Step(Put(s, t, b, k, th), t, a) == Put(s, t, b, k', th')
  {
    hide EffectOf, Enabled;
    assert s.buckets[b := k][b := k'] == s.buckets[b := k'] && s.threads[t := th][t := th'] == s.threads[t := th'];
  }

  /** A stretch of an execution in which every comparison is genuine. */
  ghost predicate Leads(s: State, moves: seq<Move>, s': State)
    decreases |moves|
  {
    if moves == [] then s == s'
    else
      && Genuine(s, moves[0].t) && Enabled(s, moves[0].t, moves[0].a)
      && Leads(Step(s, moves[0].t, moves[0].a), moves[1..], s')
  }

  lemma {:induction false} AlongStep(s: State, t: nat, a: Action, s1: State, moves: seq<Move>, s2: State)
    requires Genuine(s, t) && Enabled(s, t, a) && Step(s, t, a) == s1 && Leads(s1, moves, s2)
    ensures Leads(s, [Move(t, a)] + moves, s2)
  {
    assert ([Move(t, a)] + moves)[1..] == moves;
  }

  /** Steps of thread t alone; what it reads where an object lies is up to the object. */
  function Going(t: nat, garbage: seq<nat>): (moves: seq<Move>)
    ensures |moves| == |garbage|
  {
    seq(|garbage|, i requires 0 <= i < |garbage| => Move(t, Continue(garbage[i])))
  }

  datatype Point = Point(k: Bucket, th: Local)

  function At(s: State, t: nat, b: nat, p: Point): State
    requires t < |s.threads| && b < |s.buckets|
  {
    Put(s, t, b, p.k, p.th)
  }

  // ----- allocating

  /** Both candidate buckets are there and unlocked, and the head of one with free slots is a link. */
  ghost predicate Open(s: State, b1: nat, b2: nat) {
    && b1 < |s.buckets| && b2 < |s.buckets|
    && forall b | b in {b1, b2} :: Unlocked(s.buckets[b])
  }

  ghost predicate Unlocked(k: Bucket) {
    && Even(k.version) && k.lockedBy == None
    && (k.count > 0 ==> k.head < |k.cells| && k.cells[k.head].Link?)
  }

  /** The candidate with more free slots, the first on a tie. */
  function Better(s: State, b1: nat, b2: nat): nat
    requires b1 < |s.buckets| && b2 < |s.buckets|
  {
    if s.buckets[b1].count >= s.buckets[b2].count then b1 else b2
  }

  /** What the head of a bucket links to. */
  function NextOf(k: Bucket, garbage: nat): nat {
    if k.head < |k.cells| && k.cells[k.head].Link? then k.cells[k.head].next else garbage
  }

  /** Local variables while a thread reads two buckets, by the number of steps taken. */
  function Reading(s: State, th: Local, b1: nat, b2: nat, garbage: nat, m: nat): Local
    requires b1 < |s.buckets| && b2 < |s.buckets|
  {
    var k1, k2, k := s.buckets[b1], s.buckets[b2], s.buckets[Better(s, b1, b2)];
    var a := th.(pc := LoadVersion1, bucket1 := b1, bucket2 := b2);
    var b := a.(pc := LoadVersion2, version1 := k1.version);
    var c := b.(pc := LoadCount1, version2 := k2.version);
    var d := c.(pc := LoadCount2, count1 := k1.count);
    var e := d.(pc := LoadHead, count2 := k2.count);
    var f := e.(pc := LoadLink, head := k.head);
    var g := f.(pc := Validate, next := NextOf(k, garbage));
    if m == 0 then a else if m == 1 then b else if m == 2 then c else if m == 3 then d else if m == 4 then e
    else if m == 5 then f else if m == 6 then g
    else g.(pc := Upgrade, seen1 := k1.count, seen2 := k2.count, sure := true)
  }

  lemma ReadsNext(s: State, t: nat, th: Local, b1: nat, b2: nat, garbage: nat, m: nat, g: nat)
    requires t < |s.threads| && b1 < |s.buckets| && b2 < |s.buckets| && Open(s, b1, b2)
    requires m < 7 && (m == 5 ==> g == garbage)
    ensures var b := Better(s, b1, b2);
            var x, y := Reading(s, th, b1, b2, garbage, m), Reading(s, th, b1, b2, garbage, m + 1);
            && Genuine(Put(s, t, b, s.buckets[b], x), t) && Enabled(Put(s, t, b, s.buckets[b], x), t, Continue(g))
            && Step(Put(s, t, b, s.buckets[b], x), t, Continue(g)) == Put(s, t, b, s.buckets[b], y)
  {
    var b := Better(s, b1, b2);
    var x, y := Reading(s, th, b1, b2, garbage, m), Reading(s, th, b1, b2, garbage, m + 1);
    assert s.buckets[b := s.buckets[b]] == s.buckets;
    var p := Put(s, t, b, s.buckets[b], x);
    assert p.threads[t := y] == s.threads[t := y];
    var e := EffectOf(p, t, Continue(g));
    assert e.local == y && e.bucket == s.buckets[e.b];
    assert s.buckets[e.b := e.bucket] == s.buckets;
  }

  /** Bucket and local variables while a thread takes the head slot; x is ready to lock. */
  function Taking(k: Bucket, t: nat, x: Local, m: nat): Point
    requires k.count > 0
  {
    var locked := k.(version := k.version + 1, lockedBy := Some(t));
    var c := Taken(k, t, x.head);
    var size := x.size + 1;
    if m == 0 then Point(k, x)
    else if m == 1 then Point(locked, x.At(CheckCount))
    else if m == 2 then Point(locked, x.At(SubtractCount))
    else if m == 3 then Point(c, x.At(StoreHead))
    else if m == 4 then Point(c.(head := x.next), x.At(Unlock))
    else if m == 5 then Point(c.(head := x.next, version := k.version + 2, lockedBy := None), x.At(CountUp))
    else Point(c.(head := x.next, version := k.version + 2, lockedBy := None,
                  owners := SetOwner(c.owners, x.head, Caller)),
               x.(pc := Idle, size := size, peak := if size > x.peak then size else x.peak))
  }

  /** The bucket once the thread has taken the slot it read as head. */
  function Taken(k: Bucket, t: nat, head: nat): Bucket
    requires k.count > 0
  {
    k.(version := k.version + 1, lockedBy := Some(t), count := k.count - 1,
       free := if k.free == [] then [] else k.free[1..], owners := SetOwner(k.owners, head, Thread(t)))
  }

  /** Bucket and local variables where there is no free slot. */
  function Refused(k: Bucket, t: nat, x: Local, m: nat): Point {
    var locked := k.(version := k.version + 1, lockedBy := Some(t));
    if m == 0 then Point(k, x)
    else if m == 1 then Point(locked, x.At(CheckCount))
    else if m == 2 then Point(locked, x.At(UnlockFull))
    else Point(k.(version := k.version + 2), x.At(Idle))
  }

  /** A thread about to upgrade a bucket that is as it was read. */
  ghost predicate Poised(s: State, b: nat, x: Local) {
    && x.bucket1 < |s.buckets| && x.bucket2 < |s.buckets| && x.Chosen() == b < |s.buckets| && x.pc == Upgrade && x.sure
    && s.buckets[b].version == x.ChosenVersion() && s.buckets[b].lockedBy == None
  }

  lemma TakesNext(s: State, t: nat, b: nat, x: Local, m: nat, g: nat)
    requires t < |s.threads| && b < |s.buckets| && Poised(s, b, x) && s.buckets[b].count > 0 && m < 6
    ensures var p, q := Taking(s.buckets[b], t, x, m), Taking(s.buckets[b], t, x, m + 1);
            && Genuine(At(s, t, b, p), t) && Enabled(At(s, t, b, p), t, Continue(g))
            && Step(At(s, t, b, p), t, Continue(g)) == At(s, t, b, q)
  {
    var p, q := Taking(s.buckets[b], t, x, m), Taking(s.buckets[b], t, x, m + 1);
    OneMore(s, t, Continue(g), b, p.k, p.th, q.k, q.th);
  }

  lemma RefusedNext(s: State, t: nat, b: nat, x: Local, m: nat, g: nat)
    requires t < |s.threads| && b < |s.buckets| && Poised(s, b, x) && s.buckets[b].count == 0 && m < 3
    ensures var p, q := Refused(s.buckets[b], t, x, m), Refused(s.buckets[b], t, x, m + 1);
            && Genuine(At(s, t, b, p), t) && Enabled(At(s, t, b, p), t, Continue(g))
            && Step(At(s, t, b, p), t, Continue(g)) == At(s, t, b, q)
  {
    var p, q := Refused(s.buckets[b], t, x, m), Refused(s.buckets[b], t, x, m + 1);
    OneMore(s, t, Continue(g), b, p.k, p.th, q.k, q.th);
  }

  lemma {:induction false} TakesOn(s: State, t: nat, b: nat, x: Local, m: nat, gs: seq<nat>)
    requires t < |s.threads| && b < |s.buckets| && Poised(s, b, x) && s.buckets[b].count > 0 && m <= 6 && |gs| == 6 - m
    ensures Leads(At(s, t, b, Taking(s.buckets[b], t, x, m)), Going(t, gs), At(s, t, b, Taking(s.buckets[b], t, x, 6)))
    decreases |gs|
  {
    hide Step, Enabled, Genuine, Taking, At, Poised;
    if gs != [] {
      TakesNext(s, t, b, x, m, gs[0]);
      TakesOn(s, t, b, x, m + 1, gs[1..]);
      assert Going(t, gs) == [Move(t, Continue(gs[0]))] + Going(t, gs[1..]);
      AlongStep(At(s, t, b, Taking(s.buckets[b], t, x, m)), t, Continue(gs[0]),
                At(s, t, b, Taking(s.buckets[b], t, x, m + 1)), Going(t, gs[1..]),
                At(s, t, b, Taking(s.buckets[b], t, x, 6)));
    }
  }

  lemma {:induction false} RefusedOn(s: State, t: nat, b: nat, x: Local, m: nat, gs: seq<nat>)
    requires t < |s.threads| && b < |s.buckets| && Poised(s, b, x) && s.buckets[b].count == 0 && m <= 3 && |gs| == 3 - m
    ensures Leads(At(s, t, b, Refused(s.buckets[b], t, x, m)), Going(t, gs),
                  At(s, t, b, Refused(s.buckets[b], t, x, 3)))
    decreases |gs|
  {
    hide Step, Enabled, Genuine, Refused, At, Poised;
    if gs != [] {
      RefusedNext(s, t, b, x, m, gs[0]);
      RefusedOn(s, t, b, x, m + 1, gs[1..]);
      assert Going(t, gs) == [Move(t, Continue(gs[0]))] + Going(t, gs[1..]);
      AlongStep(At(s, t, b, Refused(s.buckets[b], t, x, m)), t, Continue(gs[0]),
                At(s, t, b, Refused(s.buckets[b], t, x, m + 1)), Going(t, gs[1..]),
                At(s, t, b, Refused(s.buckets[b], t, x, 3)));
    }
  }

  /** From step m of reading up to the upgrade, and from there as more says. */
  lemma {:induction false} ReadsOn(s: State, t: nat, th: Local, b1: nat, b2: nat, garbage: nat, m: nat, gs: seq<nat>,
                                   more: seq<nat>, s': State)
    requires t < |s.threads| && b1 < |s.buckets| && b2 < |s.buckets| && Open(s, b1, b2)
    requires m <= 7 && |gs| == 7 - m && (m <= 5 ==> gs[5 - m] == garbage)
    requires var b := Better(s, b1, b2);
             Leads(Put(s, t, b, s.buckets[b], Reading(s, th, b1, b2, garbage, 7)), Going(t, more), s')
    ensures var b := Better(s, b1, b2);
            Leads(Put(s, t, b, s.buckets[b], Reading(s, th, b1, b2, garbage, m)), Going(t, gs + more), s')
    decreases |gs|
  {
    hide Step, Enabled, Genuine, Reading, Open;
    var b := Better(s, b1, b2);
    if gs == [] {
      assert gs + more == more;
    } else {
      ReadsNext(s, t, th, b1, b2, garbage, m, gs[0]);
      ReadsOn(s, t, th, b1, b2, garbage, m + 1, gs[1..], more, s');
      assert Going(t, gs + more) == [Move(t, Continue(gs[0]))] + Going(t, gs[1..] + more);
      AlongStep(Put(s, t, b, s.buckets[b], Reading(s, th, b1, b2, garbage, m)), t, Continue(gs[0]),
                Put(s, t, b, s.buckets[b], Reading(s, th, b1, b2, garbage, m + 1)), Going(t, gs[1..] + more), s');
    }
  }

  /** The bucket after an allocation of the head slot. */
  function Less(k: Bucket): Bucket
    requires k.count > 0
  {
    k.(version := k.version + 2, head := NextOf(k, 0), count := k.count - 1,
       free := if k.free == [] then [] else k.free[1..], owners := SetOwner(k.owners, k.head, Caller))
  }

  /** The variables of a thread that counts one more slot. */
  ghost predicate CountedUp(th: Local, th': Local) {
    && th'.pc == Idle && th'.size == th.size + 1
    && th'.peak == if th'.size > th.peak then th'.size else th.peak
  }

  lemma StartsAllocating(s: State, t: nat, b1: nat, b2: nat, garbage: nat, gs: seq<nat>, s': State)
    requires t < |s.threads| && s.threads[t].pc == Idle && b1 < |s.buckets| && b2 < |s.buckets|
    requires var b := Better(s, b1, b2);
             Leads(Put(s, t, b, s.buckets[b], Reading(s, s.threads[t], b1, b2, garbage, 0)), Going(t, gs), s')
    ensures Leads(s, [Move(t, Allocate(b1, b2))] + Going(t, gs), s')
  {
    hide Leads;
    var b := Better(s, b1, b2);
    assert s.buckets[b1 := s.buckets[b1]] == s.buckets == s.buckets[b := s.buckets[b]];
    AlongStep(s, t, Allocate(b1, b2),
              Put(s, t, b, s.buckets[b], Reading(s, s.threads[t], b1, b2, garbage, 0)), Going(t, gs), s');
  }

  /**
   * An allocation that runs alone: thirteen steps to the head slot of the candidate with more free slots, the first on
   * a tie; ten where both are full, and the table is as before.
   */
  lemma Allocates(s: State, t: nat, b1: nat, b2: nat, gs: seq<nat>) returns (s': State)
    requires t < |s.threads| && s.threads[t].pc == Idle && Open(s, b1, b2)
    requires |gs| == if s.buckets[Better(s, b1, b2)].count == 0 then 10 else 13
    ensures Leads(s, [Move(t, Allocate(b1, b2))] + Going(t, gs), s') && t < |s'.threads|
    ensures var b, th, th' := Better(s, b1, b2), s.threads[t], s'.threads[t];
            var k := s.buckets[b];
            if k.count == 0 then
              s' == Put(s, t, b, k.(version := k.version + 2), th') && th'.pc == Idle && th'.size == th.size
              && th'.peak == th.peak
            else s' == Put(s, t, b, Less(k), th') && CountedUp(th, th')
  {
    hide Leads, Step, Enabled, Genuine;
    var b, th := Better(s, b1, b2), s.threads[t];
    var k, x := s.buckets[b], Reading(s, th, b1, b2, gs[5], 7);
    assert Poised(s, b, x);
    assert Put(s, t, b, k, x) == At(s, t, b, Point(k, x));
    assert gs == gs[..7] + gs[7..];
    if k.count == 0 {
      RefusedOn(s, t, b, x, 0, gs[7..]);
      s' := At(s, t, b, Refused(k, t, x, 3));
    } else {
      TakesOn(s, t, b, x, 0, gs[7..]);
      s' := At(s, t, b, Taking(k, t, x, 6));
      LessIsTaken(k, t);
    }
    ReadsOn(s, t, th, b1, b2, gs[5], 0, gs[..7], gs[7..], s');
    StartsAllocating(s, t, b1, b2, gs[5], gs, s');
  }

  lemma LessIsTaken(k: Bucket, t: nat)
    requires k.count > 0 && k.head < |k.cells| && k.cells[k.head].Link?
    ensures var c := Taken(k, t, k.head);
            Less(k) == c.(head := NextOf(k, 0), version := k.version + 2, lockedBy := None,
                          owners := SetOwner(c.owners, k.head, Caller)).(lockedBy := k.lockedBy)
  {
    assert SetOwner(SetOwner(k.owners, k.head, Thread(t)), k.head, Caller) == SetOwner(k.owners, k.head, Caller);
  }

  /**
   * The same from any state in order in which neither candidate is locked: the caller gets the first free slot of the
   * better candidate, or both are full and nothing changes but that candidate's version.
   */
  lemma AllocatesAlone(s: State, t: nat, b1: nat, b2: nat, gs: seq<nat>) returns (s': State)
    requires Inv(s) && t < |s.threads| && s.threads[t].pc == Idle && b1 < |s.buckets| && b2 < |s.buckets|
    requires s.buckets[b1].lockedBy == None && s.buckets[b2].lockedBy == None
    requires |gs| == if s.buckets[b1].count == 0 && s.buckets[b2].count == 0 then 10 else 13
    ensures Leads(s, [Move(t, Allocate(b1, b2))] + Going(t, gs), s')
    ensures t < |s'.threads| && s'.threads == s.threads[t := s'.threads[t]] && s'.threads[t].pc == Idle
    ensures |s'.buckets| == |s.buckets|
    ensures var c1, c2, th, th' := s.buckets[b1].count, s.buckets[b2].count, s.threads[t], s'.threads[t];
            var b := if c1 >= c2 then b1 else b2;
            var k, k' := s.buckets[b], s'.buckets[b];
            && s'.buckets == s.buckets[b := k'] && k'.lockedBy == None && k'.version == k.version + 2
            && k'.cells == k.cells
            && if c1 == 0 && c2 == 0 then
                 k' == k.(version := k.version + 2) && th'.size == th.size && th'.peak == th.peak
               else
                 && k.free != [] && k.free[0] < |k.owners| && k.owners[k.free[0]] == Nobody
                 && k'.owners == k.owners[k.free[0] := Caller] && k'.free == k.free[1..] && k'.count == k.count - 1
                 && CountedUp(th, th')
  {
    hide Leads, Inv;
    InOrder(s, b1);
    InOrder(s, b2);
    s' := Allocates(s, t, b1, b2, gs);
  }

  lemma InOrder(s: State, b: nat)
    requires Inv(s) && b < |s.buckets| && s.buckets[b].lockedBy == None
    ensures var k := s.buckets[b];
            && Unlocked(k) && k.count == |k.free|
            && (k.count > 0 ==> k.free[0] == k.head < |k.owners| && k.owners[k.head] == Nobody)
  {
    var k := s.buckets[b];
    assert BucketOk(s.slots, s.threads, b, k);
    if k.count > 0 {
      assert k.free[0] in k.free;
    }
  }

  // ----- freeing

  /** Bucket and local variables while a thread gives slot i back, by the number of steps taken. */
  function Giving(k: Bucket, t: nat, th: Local, b: nat, i: nat, m: nat): Point {
    var own := k.(owners := SetOwner(k.owners, i, Thread(t)));
    var x := th.(pc := LoadVersion, bucket1 := b, bucket2 := b, head := i);
    var y := x.(pc := LockExclusive, version1 := k.version);
    var locked := own.(version := k.version + 1, lockedBy := Some(t));
    var linked := locked.(cells := SetCell(k.cells, i, Link(k.head)));
    var pushed := linked.(head := i, free := [i] + k.free, owners := SetOwner(own.owners, i, Nobody));
    var z := y.(next := k.head);
    if m == 0 then Point(own, x)
    else if m == 1 then Point(own, y)
    else if m == 2 then Point(locked, y.At(LoadOldHead))
    else if m == 3 then Point(locked, z.At(StoreLink))
    else if m == 4 then Point(linked, z.At(StoreFreed))
    else if m == 5 then Point(pushed, z.At(AddCount))
    else if m == 6 then Point(pushed.(count := k.count + 1), z.At(UnlockFreed))
    else if m == 7 then Point(pushed.(count := k.count + 1, version := k.version + 2, lockedBy := None),
                              z.At(CountDown))
    else Point(pushed.(count := k.count + 1, version := k.version + 2, lockedBy := None),
               z.(pc := Idle, size := z.size - 1))
  }

  lemma GivesNext(s: State, t: nat, th: Local, b: nat, i: nat, m: nat, g: nat)
    requires t < |s.threads| && b < |s.buckets| && Even(s.buckets[b].version) && s.buckets[b].lockedBy == None && m < 8
    ensures var p, q := Giving(s.buckets[b], t, th, b, i, m), Giving(s.buckets[b], t, th, b, i, m + 1);
            && Genuine(At(s, t, b, p), t) && Enabled(At(s, t, b, p), t, Continue(g))
            && Step(At(s, t, b, p), t, Continue(g)) == At(s, t, b, q)
  {
    var p, q := Giving(s.buckets[b], t, th, b, i, m), Giving(s.buckets[b], t, th, b, i, m + 1);
    OneMore(s, t, Continue(g), b, p.k, p.th, q.k, q.th);
  }

  lemma {:induction false} GivesOn(s: State, t: nat, th: Local, b: nat, i: nat, m: nat, gs: seq<nat>)
    requires t < |s.threads| && b < |s.buckets| && Even(s.buckets[b].version) && s.buckets[b].lockedBy == None
    requires m <= 8 && |gs| == 8 - m
    ensures Leads(At(s, t, b, Giving(s.buckets[b], t, th, b, i, m)), Going(t, gs),
                  At(s, t, b, Giving(s.buckets[b], t, th, b, i, 8)))
    decreases |gs|
  {
    hide Step, Enabled, Genuine, Giving, At;
    if gs != [] {
      GivesNext(s, t, th, b, i, m, gs[0]);
      GivesOn(s, t, th, b, i, m + 1, gs[1..]);
      assert Going(t, gs) == [Move(t, Continue(gs[0]))] + Going(t, gs[1..]);
      AlongStep(At(s, t, b, Giving(s.buckets[b], t, th, b, i, m)), t, Continue(gs[0]),
                At(s, t, b, Giving(s.buckets[b], t, th, b, i, m + 1)), Going(t, gs[1..]),
                At(s, t, b, Giving(s.buckets[b], t, th, b, i, 8)));
    }
  }

  /** The bucket after slot i was given back. */
  function More(k: Bucket, i: nat): Bucket {
    k.(version := k.version + 2, head := i, count := k.count + 1, free := [i] + k.free,
       cells := SetCell(k.cells, i, Link(k.head)), owners := SetOwner(k.owners, i, Nobody))
  }

  lemma Frees(s: State, t: nat, b: nat, i: nat, gs: seq<nat>) returns (s': State)
    requires t < |s.threads| && s.threads[t].pc == Idle && b < |s.buckets| && |gs| == 8
    requires Even(s.buckets[b].version) && s.buckets[b].lockedBy == None
    requires i < |s.buckets[b].owners| && s.buckets[b].owners[i] == Caller
    ensures Leads(s, [Move(t, Free(b, i))] + Going(t, gs), s') && t < |s'.threads|
    ensures s' == Put(s, t, b, More(s.buckets[b], i), s'.threads[t])
    ensures s'.threads[t].pc == Idle && s'.threads[t].size == s.threads[t].size - 1
            && s'.threads[t].peak == s.threads[t].peak
  {
    hide Leads;
    var k, th := s.buckets[b], s.threads[t];
    GivesOn(s, t, th, b, i, 0, gs);
    var p0, p := Giving(k, t, th, b, i, 0), Giving(k, t, th, b, i, 8);
    s' := At(s, t, b, p);
    assert s == Put(s, t, b, k, th);
    OneMore(s, t, Free(b, i), b, k, th, p0.k, p0.th);
    AlongStep(s, t, Free(b, i), At(s, t, b, p0), Going(t, gs), s');
    assert p.k == More(k, i) by {
      assert SetOwner(SetOwner(k.owners, i, Thread(t)), i, Nobody) == SetOwner(k.owners, i, Nobody);
    }
  }

  /** A free that runs alone on an unlocked bucket: eight steps, and the slot is the first free one. */
  lemma FreesAlone(s: State, t: nat, b: nat, i: nat, gs: seq<nat>) returns (s': State)
    requires Inv(s) && t < |s.threads| && s.threads[t].pc == Idle && b < |s.buckets| && |gs| == 8
    requires s.buckets[b].lockedBy == None && i < |s.buckets[b].owners| && s.buckets[b].owners[i] == Caller
    ensures Leads(s, [Move(t, Free(b, i))] + Going(t, gs), s')
    ensures t < |s'.threads| && s'.threads == s.threads[t := s'.threads[t]] && s'.threads[t].pc == Idle
    ensures s'.threads[t].size == s.threads[t].size - 1 && s'.threads[t].peak == s.threads[t].peak
    ensures |s'.buckets| == |s.buckets| && s'.buckets == s.buckets[b := s'.buckets[b]]
    ensures var k, k' := s.buckets[b], s'.buckets[b];
            && k'.lockedBy == None && k'.version == k.version + 2 && k'.count == k.count + 1
            && k'.head == i && k'.free == [i] + k.free && k'.owners == k.owners[i := Nobody]
            && i < |k.cells| && k'.cells == k.cells[i := Link(k.head)]
  {
    hide Leads, Inv;
    InOrder(s, b);
    InBucket(s, b);
    s' := Frees(s, t, b, i, gs);
  }

  lemma InBucket(s: State, b: nat)
    requires Inv(s) && b < |s.buckets|
    ensures |s.buckets[b].cells| == |s.buckets[b].owners|
  {
    assert BucketOk(s.slots, s.threads, b, s.buckets[b]);
  }

  // ----- every operation ends

  /** The thread does not hold a lock yet. */
  predicate BeforeLock(pc: Pc) {
    pc in {LoadVersion1, LoadVersion2, LoadCount1, LoadCount2, LoadHead, LoadLink, Validate, Upgrade,
           LoadVersion, LockExclusive}
  }

  /** How many steps an operation has left if all it has read is current. */
  function Left(pc: Pc): nat {
    match pc
    case Idle => 0
    case LoadVersion1 => 13
    case LoadVersion2 => 12
    case LoadCount1 => 11
    case LoadCount2 => 10
    case LoadHead => 9
    case LoadLink => 8
    case Validate => 7
    case Upgrade => 6
    case CheckCount => 5
    case SubtractCount => 4
    case StoreHead => 3
    case Unlock => 2
    case CountUp => 1
    case UnlockFull => 1
    case LoadVersion => 8
    case LockExclusive => 7
    case LoadOldHead => 6
    case StoreLink => 5
    case StoreFreed => 4
    case AddCount => 3
    case UnlockFreed => 2
    case CountDown => 1
  }

  /** A version it has read is not the bucket's any more. */
  ghost predicate Stale(s: State, th: Local)
    requires th.bucket1 < |s.buckets| && th.bucket2 < |s.buckets|
  {
    || (th.pc in {LoadCount1, LoadCount2, LoadHead, LoadLink, Validate, Upgrade, LoadVersion2, LockExclusive}
        && th.version1 != s.buckets[th.bucket1].version)
    || (th.pc in {LoadCount1, LoadCount2, LoadHead, LoadLink, Validate, Upgrade}
        && th.version2 != s.buckets[th.bucket2].version)
  }

  /** An operation is under way in thread t, and nobody holds a lock it will need. */
  ghost predicate Undisturbed(s: State, t: nat) {
    && t < |s.threads| && s.threads[t].bucket1 < |s.buckets| && s.threads[t].bucket2 < |s.buckets|
    && (BeforeLock(s.threads[t].pc) ==>
          Even(s.buckets[s.threads[t].bucket1].version) && Even(s.buckets[s.threads[t].bucket2].version))
  }

  /** Twice the steps of an operation if some version is stale: it may have to start again, once. */
  ghost function StepsLeft(s: State, t: nat): nat
    requires Undisturbed(s, t)
  {
    Left(s.threads[t].pc) + if Stale(s, s.threads[t]) then 13 else 0
  }

  /** Until it has a lock, a thread changes no bucket; if it starts again, all it reads then is current. */
  lemma LooksOn(s: State, t: nat, g: nat)
    requires Undisturbed(s, t) && BeforeLock(s.threads[t].pc)
    ensures var e, th := EffectOf(s, t, Continue(g)), s.threads[t];
            && e.b < |s.buckets| && e.local.bucket1 == th.bucket1 && e.local.bucket2 == th.bucket2
            && (BeforeLock(e.local.pc) ==>
                  e.bucket == s.buckets[e.b]
                  && Left(e.local.pc) + (if Stale(s, e.local) then 13 else 0) < StepsLeft(s, t))
            && (!BeforeLock(e.local.pc) ==> Left(e.local.pc) < Left(th.pc))
  {
  }

  lemma WorksOn(s: State, t: nat, g: nat)
    requires Undisturbed(s, t) && !BeforeLock(s.threads[t].pc) && s.threads[t].pc != Idle
    ensures var e, th := EffectOf(s, t, Continue(g)), s.threads[t];
            && e.b < |s.buckets| && e.local.bucket1 == th.bucket1 && e.local.bucket2 == th.bucket2
            && !BeforeLock(e.local.pc) && Left(e.local.pc) < Left(th.pc)
  {
    hide Stale;
  }

  lemma OneStepLess(s: State, t: nat, g: nat)
    requires Undisturbed(s, t) && s.threads[t].pc != Idle
    ensures Enabled(s, t, Continue(g)) && Undisturbed(Step(s, t, Continue(g)), t)
    ensures StepsLeft(Step(s, t, Continue(g)), t) < StepsLeft(s, t)
  {
    hide EffectOf, Left;
    if BeforeLock(s.threads[t].pc) {
      LooksOn(s, t, g);
      var e := EffectOf(s, t, Continue(g));
      assert s.buckets[e.b := s.buckets[e.b]] == s.buckets;
    } else {
      WorksOn(s, t, g);
    }
  }

  /** The thread goes on by itself until it is idle. */
  function GoesOn(s: State, t: nat, gs: seq<nat>): State
    decreases |gs|
  {
    if gs == [] || !Enabled(s, t, Continue(gs[0])) then s else GoesOn(Step(s, t, Continue(gs[0])), t, gs[1..])
  }

  /** Any operation, wherever it stands and however old its reads are, ends within 26 steps if it is left alone. */
  lemma {:induction false} EndsAlone(s: State, t: nat, gs: seq<nat>)
    requires Undisturbed(s, t) && |gs| >= StepsLeft(s, t)
    ensures StepsLeft(s, t) <= 26
    ensures var s' := GoesOn(s, t, gs); t < |s'.threads| && s'.threads[t].pc == Idle
    decreases |gs|
  {
    hide Step, Stale;
    if s.threads[t].pc != Idle && gs != [] {
      OneStepLess(s, t, gs[0]);
      EndsAlone(Step(s, t, Continue(gs[0])), t, gs[1..]);
    }
  }

  /** In a state in order it is enough that the buckets of the operation are not locked. */
  lemma UnlockedIsUndisturbed(s: State, t: nat)
    requires Inv(s) && t < |s.threads| && s.threads[t].pc != Idle
    requires BeforeLock(s.threads[t].pc) ==>
               forall b | 0 <= b < |s.buckets| && b in {s.threads[t].bucket1, s.threads[t].bucket2} ::
                 s.buckets[b].lockedBy == None
    ensures Undisturbed(s, t)
  {
    hide Chain, Partition, Optimistic, AllocatingOk, FreeingOk;
    assert ThreadOk(s.slots, s.buckets, t, s.threads[t]);
  }
}
