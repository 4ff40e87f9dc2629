/**
 * The allocator under concurrency: any number of threads, each taking one atomic load, store or compare-and-swap at a
 * time. A bucket's lock is its version, even when free; the program compares only the last eight bits of it.
 */
module AllocModel {
  import opened Wrappers

  /** The bytes of a slot, read as a free-list link; an object's bytes can be read as anything. */
  datatype Cell = Link(next: nat) | Object

  /** Who a slot belongs to: the free list, a caller, or the thread that is handing it out or taking it back. */
  datatype Owner = Nobody | Caller | Thread(id: nat)

  /** A bucket; the last three fields only serve the proof. */
  datatype Bucket = Bucket(version: nat, count: nat, head: nat, cells: seq<Cell>,
                           free: seq<nat>, owners: seq<Owner>, lockedBy: Option<nat>)

  /** What a thread does next. */
  datatype Pc =
    | Idle
    // allocate
    | LoadVersion1 | LoadVersion2 | LoadCount1 | LoadCount2 | LoadHead | LoadLink | Validate | Upgrade
    | CheckCount | SubtractCount | StoreHead | Unlock | CountUp | UnlockFull
    // free
    | LoadVersion | LockExclusive | LoadOldHead | StoreLink | StoreFreed | AddCount | UnlockFreed | CountDown

  /**
   * A thread and its local variables. A free uses bucket1, version1, head for the slot, and next for the old head.
   * The counts seen at the moment of validation, seen1 and seen2, only serve the proof; so does sure, which says that
   * the versions compared so far were equal and not only their eight bits.
   */
  datatype Local = Local(pc: Pc, bucket1: nat, bucket2: nat, version1: nat, version2: nat, count1: nat, count2: nat,
                         head: nat, next: nat, seen1: nat, seen2: nat, sure: bool, size: int, peak: int)
  {
    predicate Second() {
      count1 < count2
    }

    function Chosen(): nat {
      if Second() then bucket2 else bucket1
    }

    function ChosenVersion(): nat {
      if Second() then version2 else version1
    }

    function Other(): nat {
      if Second() then bucket1 else bucket2
    }

    function OtherVersion(): nat {
      if Second() then version1 else version2
    }

    function At(pc: Pc): Local {
      this.(pc := pc)
    }
  }

  datatype State = State(slots: nat, buckets: seq<Bucket>, threads: seq<Local>)

  /** What the scheduler and the callers may choose. */
  datatype Action =
    | Allocate(b1: nat, b2: nat)
    | Free(b: nat, slot: nat)
    | Continue(garbage: nat)
    | Overwrite(b: nat, slot: nat)

  predicate Same(v: nat, w: nat) {
    v % 256 == w % 256
  }

  /** A caller starts an operation only in an idle thread, frees only what it was given, and writes only there. */
  predicate Enabled(s: State, t: nat, a: Action) {
    && t < |s.threads|
    && match a
       case Allocate(b1, b2) => s.threads[t].pc == Idle && b1 < |s.buckets| && b2 < |s.buckets|
       case Free(b, i) =>
         s.threads[t].pc == Idle && b < |s.buckets| && i < |s.buckets[b].owners| && s.buckets[b].owners[i] == Caller
       case Continue(_) =>
         s.threads[t].pc != Idle && s.threads[t].bucket1 < |s.buckets| && s.threads[t].bucket2 < |s.buckets|
       case Overwrite(b, i) =>
         b < |s.buckets| && i < |s.buckets[b].owners| && i < |s.buckets[b].cells| && s.buckets[b].owners[i] == Caller
  }

  /** One atomic step changes one thread and at most one bucket. */
  datatype Effect = Effect(b: nat, bucket: Bucket, local: Local)

  function SetOwner(owners: seq<Owner>, i: nat, o: Owner): seq<Owner> {
    if i < |owners| then owners[i := o] else owners
  }

  function SetCell(cells: seq<Cell>, i: nat, c: Cell): seq<Cell> {
    if i < |cells| then cells[i := c] else cells
  }

  function EffectOf(s: State, t: nat, a: Action): Effect
    requires Enabled(s, t, a)
  {
    var th := s.threads[t];
    match a
    case Allocate(b1, b2) => Effect(b1, s.buckets[b1], th.(pc := LoadVersion1, bucket1 := b1, bucket2 := b2))
    case Free(b, i) =>
      var bk := s.buckets[b];
      Effect(b, bk.(owners := SetOwner(bk.owners, i, Thread(t))),
             th.(pc := LoadVersion, bucket1 := b, bucket2 := b, head := i))
    case Overwrite(b, i) =>
      var bk := s.buckets[b];
      Effect(b, bk.(cells := SetCell(bk.cells, i, Object)), th)
    case Continue(garbage) => if Allocating(th.pc) then AllocateStep(s, t, garbage) else FreeStep(s, t)
  }

  predicate Allocating(pc: Pc) {
    pc in {LoadVersion1, LoadVersion2, LoadCount1, LoadCount2, LoadHead, LoadLink, Validate, Upgrade,
           CheckCount, SubtractCount, StoreHead, Unlock, CountUp, UnlockFull}
  }

  /** Allocation: read optimistically, validate, upgrade, and only then write. */
  function AllocateStep(s: State, t: nat, garbage: nat): Effect
    requires t < |s.threads| && Allocating(s.threads[t].pc)
    requires s.threads[t].bucket1 < |s.buckets| && s.threads[t].bucket2 < |s.buckets|
  {
    var th := s.threads[t];
    var b1, b2, b := th.bucket1, th.bucket2, th.Chosen();
    var k1, k2, k := s.buckets[b1], s.buckets[b2], s.buckets[b];
    match th.pc
    case LoadVersion1 => Effect(b1, k1,
                                if k1.version % 2 == 1 then th else th.(pc := LoadVersion2, version1 := k1.version))
    case LoadVersion2 => Effect(b2, k2,
                                if k2.version % 2 == 1 then th else th.(pc := LoadCount1, version2 := k2.version))
    case LoadCount1 => Effect(b1, k1, th.(pc := LoadCount2, count1 := k1.count))
    case LoadCount2 => Effect(b2, k2, th.(pc := LoadHead, count2 := k2.count))
    case LoadHead => Effect(b, k, th.(pc := LoadLink, head := k.head))
    case LoadLink =>
      var link := if th.head < |k.cells| && k.cells[th.head].Link? then k.cells[th.head].next else garbage;
      Effect(b, k, th.(pc := Validate, next := link))
    case Validate =>
      if Same(s.buckets[th.Other()].version, th.OtherVersion()) then
        Effect(b, k, th.(pc := Upgrade, seen1 := k1.count, seen2 := k2.count,
                         sure := s.buckets[th.Other()].version == th.OtherVersion()))
      else Effect(b, k, th.At(LoadVersion1))
    case Upgrade =>
      if Same(k.version, th.ChosenVersion()) then
        Effect(b, k.(version := k.version + 1, lockedBy := Some(t)),
               th.(pc := CheckCount, sure := th.sure && k.version == th.ChosenVersion()))
      else Effect(b, k, th.At(LoadVersion1))
    case CheckCount => Effect(b, k, th.At(if k.count == 0 then UnlockFull else SubtractCount))
    case SubtractCount =>
      Effect(b, k.(count := if k.count > 0 then k.count - 1 else 0, free := if k.free == [] then [] else k.free[1..],
                   owners := SetOwner(k.owners, th.head, Thread(t))), th.At(StoreHead))
    case StoreHead => Effect(b, k.(head := th.next), th.At(Unlock))
    case Unlock => Effect(b, k.(version := k.version + 1, lockedBy := None), th.At(CountUp))
    case CountUp =>
      Effect(b, k.(owners := SetOwner(k.owners, th.head, Caller)),
             th.(pc := Idle, size := th.size + 1, peak := if th.size + 1 > th.peak then th.size + 1 else th.peak))
    case UnlockFull => Effect(b, k.(version := k.version + 1, lockedBy := None), th.At(Idle))
  }

  /** Freeing: lock, link the slot in front of the list, unlock. */
  function FreeStep(s: State, t: nat): Effect
    requires t < |s.threads| && s.threads[t].pc != Idle && !Allocating(s.threads[t].pc)
    requires s.threads[t].bucket1 < |s.buckets|
  {
    var th := s.threads[t];
    var b := th.bucket1;
    var k := s.buckets[b];
    match th.pc
    case LoadVersion => Effect(b, k, if k.version % 2 == 1 then th else th.(pc := LockExclusive, version1 := k.version))
    case LockExclusive =>
      if Same(k.version, th.version1) then
        Effect(b, k.(version := k.version + 1, lockedBy := Some(t)), th.At(LoadOldHead))
      else Effect(b, k, th.At(LoadVersion))
    case LoadOldHead => Effect(b, k, th.(pc := StoreLink, next := k.head))
    case StoreLink => Effect(b, k.(cells := SetCell(k.cells, th.head, Link(th.next))), th.At(StoreFreed))
    case StoreFreed =>
      Effect(b, k.(head := th.head, free := [th.head] + k.free, owners := SetOwner(k.owners, th.head, Nobody)),
             th.At(AddCount))
    case AddCount => Effect(b, k.(count := k.count + 1), th.At(UnlockFreed))
    case UnlockFreed => Effect(b, k.(version := k.version + 1, lockedBy := None), th.At(CountDown))
    case CountDown => Effect(b, k, th.(pc := Idle, size := th.size - 1))
  }

  function Step(s: State, t: nat, a: Action): State
    requires Enabled(s, t, a)
  {
    var e := EffectOf(s, t, a);
    if e.b < |s.buckets| then s.(buckets := s.buckets[e.b := e.bucket], threads := s.threads[t := e.local]) else s
  }

  // ----- runs

  /** All slots free, all locks free, all threads idle. */
  predicate Initial(s: State) {
    && s.slots > 0
    && (forall b | 0 <= b < |s.buckets| ::
          var k := s.buckets[b];
          && k.version == 0 && k.lockedBy == None && k.count == |k.free| == s.slots && k.head == 0
          && k.cells == seq(s.slots, i requires 0 <= i < s.slots => Link(if i + 1 < s.slots then i + 1 else 0))
          && k.free == seq(s.slots, i => i) && k.owners == seq(s.slots, _ => Nobody))
    && (forall t | 0 <= t < |s.threads| :: s.threads[t].pc == Idle && s.threads[t].size == 0 && s.threads[t].peak == 0)
  }

  /** When the eight bits thread t is about to compare in order to win a lock are equal, so are the versions. */
  predicate GenuineUpgrade(s: State, t: nat) {
    t < |s.threads| ==>
      var th := s.threads[t];
      th.pc == Upgrade && th.Chosen() < |s.buckets| && Same(s.buckets[th.Chosen()].version, th.ChosenVersion()) ==>
        s.buckets[th.Chosen()].version == th.ChosenVersion()
  }

  /** The same for both comparisons of an allocation. */
  predicate Genuine(s: State, t: nat) {
    && GenuineUpgrade(s, t)
    && (t < |s.threads| ==>
          var th := s.threads[t];
          th.pc == Validate && th.Other() < |s.buckets| && Same(s.buckets[th.Other()].version, th.OtherVersion()) ==>
            s.buckets[th.Other()].version == th.OtherVersion())
  }

  datatype Move = Move(t: nat, a: Action)

  /** The states any run goes through. */
  predicate Execution(states: seq<State>, moves: seq<Move>) {
    && |states| == |moves| + 1 && Initial(states[0])
    && forall i | 0 <= i < |moves| ::
         && Enabled(states[i], moves[i].t, moves[i].a)
         && states[i + 1] == Step(states[i], moves[i].t, moves[i].a)
  }

  /** A run in which no comparison of eight bits takes a later version for the one read. */
  predicate Run(states: seq<State>, moves: seq<Move>) {
    && Execution(states, moves)
    && forall i | 0 <= i < |moves| :: Genuine(states[i], moves[i].t)
  }
}
