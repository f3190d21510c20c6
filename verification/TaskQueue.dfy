/** The bounded task queue of ts_queue.c: the ring buffer as a class, one critical section per method. */
module TaskQueue {

  const QUEUE_MAX_SIZE: nat := 100

  type Slot = i: nat | i < QUEUE_MAX_SIZE

  /** The queued items, oldest first: `count` slots read from `head` with wraparound. */
  function Ring<T>(buffer: seq<T>, head: nat, count: nat): (items: seq<T>)
    requires |buffer| == QUEUE_MAX_SIZE
  {
    seq(count, i requires 0 <= i => buffer[(head + i) % QUEUE_MAX_SIZE])
  }

  /** Storing in the free slot after the last item appends to the ring. */
  lemma RingStore<T>(buffer: seq<T>, head: nat, count: nat, x: T)
    requires |buffer| == QUEUE_MAX_SIZE && count < QUEUE_MAX_SIZE
    ensures var b := buffer[(head + count) % QUEUE_MAX_SIZE := x];
            && Ring(b, head, count) == Ring(buffer, head, count)
            && Ring(b, head, count + 1) == Ring(buffer, head, count) + [x]
  {
    var b := buffer[(head + count) % QUEUE_MAX_SIZE := x];
    assert Ring(b, head, count) == Ring(buffer, head, count);
    assert Ring(b, head, count + 1) == Ring(b, head, count) + [x];
  }

  /** Advancing `head` drops the oldest item. */
  lemma RingAdvance<T>(buffer: seq<T>, head: nat, count: nat)
    requires |buffer| == QUEUE_MAX_SIZE && 0 < count && head < QUEUE_MAX_SIZE
    ensures Ring(buffer, head, count)
            == [buffer[head]] + Ring(buffer, (head + 1) % QUEUE_MAX_SIZE, count - 1)
  {
    var rest := Ring(buffer, (head + 1) % QUEUE_MAX_SIZE, count - 1);
    assert Ring(buffer, head, count)[1..] == rest;
  }

  /** What one pass through the critical section of `queue_read` can end in. */
  datatype ReadOutcome<T> = Item(value: T) | Closed | MustWait

  class TaskQueue<T(0)> {
    const buffer: array<T>
    var head: nat
    var tail: nat
    var count: nat
    var shutdown: bool

    ghost predicate Valid()
      reads this
    {
      && buffer.Length == QUEUE_MAX_SIZE
      && head < QUEUE_MAX_SIZE
      && count <= QUEUE_MAX_SIZE
      && tail == (head + count) % QUEUE_MAX_SIZE
    }

    ghost function Contents(): (items: seq<T>)
      requires Valid()
      reads this, buffer
    {
      Ring(buffer[..], head, count)
    }

    constructor ()
      ensures Valid() && fresh(buffer) && Contents() == [] && !shutdown
    {
      buffer := new T[QUEUE_MAX_SIZE];
      head, tail, count, shutdown := 0, 0, 0, false;
    }

    /** `written` is false exactly when the caller must sleep on `not_full` and retry. */
    method Write(x: T) returns (written: bool)
      requires Valid()
      modifies this, buffer
      ensures Valid() && shutdown == old(shutdown)
      ensures written <==> |old(Contents())| < QUEUE_MAX_SIZE
      ensures Contents() == if written then old(Contents()) + [x] else old(Contents())
    {
      if count == QUEUE_MAX_SIZE {
        return false;
      }
      RingStore(buffer[..], head, count, x);
      ghost var before := buffer[..];
      buffer[tail] := x;
      assert buffer[..] == before[tail := x];
      tail := (tail + 1) % QUEUE_MAX_SIZE;
      count := count + 1;
      written := true;
    }

    /** A reader sleeps only on an empty open queue and is told the end only on an empty closed one. */
    method Read() returns (r: ReadOutcome<T>)
      requires Valid()
      modifies this
      ensures Valid() && shutdown == old(shutdown)
      ensures r.MustWait? <==> old(Contents()) == [] && !shutdown
      ensures r.Closed? <==> old(Contents()) == [] && shutdown
      ensures old(Contents()) == if r.Item? then [r.value] + Contents() else Contents()
    {
      if count == 0 {
        return if shutdown then Closed else MustWait;
      }
      RingAdvance(buffer[..], head, count);
      r := Item(buffer[head]);
      head := (head + 1) % QUEUE_MAX_SIZE;
      count := count - 1;
    }

    method Shutdown()
      requires Valid()
      modifies this
      ensures Valid() && shutdown && Contents() == old(Contents())
    {
      shutdown := true;
    }
  }
}

/** Any number of threads in queue_write, queue_read and queue_shutdown, one statement at a time. */
module QueueProtocol {
  import opened TaskQueue

  /** The statement a thread executes next. `Sleep` and `Woken` are inside pthread_cond_wait. */
  datatype Pc<T> =
    | Idle
    | WriteEnter(x: T) | WriteTest(x: T) | WriteSleep(x: T) | WriteWoken(x: T)
    | WriteStore(x: T) | WriteAdvance(x: T) | WriteCount(x: T) | WriteSignal
    | ReadEnter | ReadTest | ReadSleep | ReadWoken
    | ReadDecide | ReadLoad | ReadAdvance(x: T) | ReadCount(x: T) | ReadSignal(x: T)
    | StopEnter | StopSet | StopWakeReaders | StopWakeWriters
    | Leave | LeaveWith(x: T) | LeaveEmpty

  datatype Mutex = Free | HeldBy(tid: nat)

  /** The fields of ts_queue_t; `written` and `read` record the items counted in and out so far. */
  datatype Queue<T> = Queue(buffer: seq<T>, head: Slot, tail: Slot, count: int, shutdown: bool,
                            written: seq<T>, read: seq<T>)

  datatype State<T> = State(q: Queue<T>, lock: Mutex, pcs: map<nat, Pc<T>>)

  /** What the scheduler decides: which thread moves, and what the move leaves open. */
  datatype Choice<T> =
    | StartWrite(x: T) | StartRead | StartStop
    | Go
    | Wake(whom: set<nat>)

  datatype Move<T> = Move(tid: nat, choice: Choice<T>)

  ghost function Readers<T>(pcs: map<nat, Pc<T>>): (asleep: set<nat>) {
    set t | t in pcs && pcs[t].ReadSleep?
  }

  ghost function Writers<T>(pcs: map<nat, Pc<T>>): (asleep: set<nat>) {
    set t | t in pcs && pcs[t].WriteSleep?
  }

  ghost function WokenReaders<T>(pcs: map<nat, Pc<T>>): (woken: set<nat>) {
    set t | t in pcs && pcs[t].ReadWoken?
  }

  ghost function WokenWriters<T>(pcs: map<nat, Pc<T>>): (woken: set<nat>) {
    set t | t in pcs && pcs[t].WriteWoken?
  }

  ghost function AwakeAll<T>(pcs: map<nat, Pc<T>>, whom: set<nat>): map<nat, Pc<T>> {
    map t | t in pcs ::
      if t in whom && pcs[t].ReadSleep? then ReadWoken
      else if t in whom && pcs[t].WriteSleep? then WriteWoken(pcs[t].x)
      else pcs[t]
  }

  /** pthread_cond_signal wakes at least one of the threads asleep, if there is any. */
  ghost predicate Signals(whom: set<nat>, asleep: set<nat>) {
    whom <= asleep && (asleep != {} ==> whom != {})
  }

  /** The statements that wait for the mutex. */
  ghost predicate Acquires<T>(pc: Pc<T>) {
    pc.WriteEnter? || pc.WriteWoken? || pc.ReadEnter? || pc.ReadWoken? || pc.StopEnter?
  }

  /** The statements executed with the mutex held. */
  ghost predicate Inside<T>(pc: Pc<T>) {
    !Acquires(pc) && !pc.Idle? && !pc.WriteSleep? && !pc.ReadSleep?
  }

  ghost predicate Enabled<T>(s: State<T>, m: Move<T>) {
    m.tid in s.pcs &&
    match s.pcs[m.tid]
    case Idle => m.choice.StartWrite? || m.choice.StartRead? || m.choice.StartStop?
    case WriteSignal => m.choice.Wake? && Signals(m.choice.whom, Readers(s.pcs))
    case ReadSignal(_) => m.choice.Wake? && Signals(m.choice.whom, Writers(s.pcs))
    case StopWakeReaders => m.choice == Wake(Readers(s.pcs))
    case StopWakeWriters => m.choice == Wake(Writers(s.pcs))
    case pc => m.choice.Go? && (Acquires(pc) ==> s.lock.Free?)
  }

  /** Control flow: where a thread at `pc` goes. A sleeping thread may wake for no reason. */
  ghost function Then<T>(q: Queue<T>, pc: Pc<T>, c: Choice<T>): (pc': Pc<T>) {
    match pc
    case Idle => if c.StartWrite? then WriteEnter(c.x) else if c.StartRead? then ReadEnter else StopEnter
    case WriteEnter(x) => WriteTest(x)
    case WriteTest(x) => if q.count == QUEUE_MAX_SIZE then WriteSleep(x) else WriteStore(x)
    case WriteSleep(x) => WriteWoken(x)
    case WriteWoken(x) => WriteTest(x)
    case WriteStore(x) => WriteAdvance(x)
    case WriteAdvance(x) => WriteCount(x)
    case WriteCount(x) => WriteSignal
    case WriteSignal => Leave
    case ReadEnter => ReadTest
    case ReadTest => if q.count == 0 && !q.shutdown then ReadSleep else ReadDecide
    case ReadSleep => ReadWoken
    case ReadWoken => ReadTest
    case ReadDecide => if q.count == 0 && q.shutdown then LeaveEmpty else ReadLoad
    case ReadLoad => if q.head < |q.buffer| then ReadAdvance(q.buffer[q.head]) else pc
    case ReadAdvance(x) => ReadCount(x)
    case ReadCount(x) => ReadSignal(x)
    case ReadSignal(x) => LeaveWith(x)
    case StopEnter => StopSet
    case StopSet => StopWakeReaders
    case StopWakeReaders => StopWakeWriters
    case StopWakeWriters => Leave
    case _ => Idle
  }

  /** Data flow: what the statement at `pc` does to the queue's fields. */
  ghost function Effect<T>(q: Queue<T>, pc: Pc<T>): (q': Queue<T>) {
    match pc
    case WriteStore(x) => if q.tail < |q.buffer| then q.(buffer := q.buffer[q.tail := x]) else q
    case WriteAdvance(x) => q.(tail := (q.tail + 1) % QUEUE_MAX_SIZE)
    case WriteCount(x) => q.(count := q.count + 1, written := q.written + [x])
    case ReadAdvance(x) => q.(head := (q.head + 1) % QUEUE_MAX_SIZE)
    case ReadCount(x) => q.(count := q.count - 1, read := q.read + [x])
    case StopSet => q.(shutdown := true)
    case _ => q
  }

  ghost function Next<T>(s: State<T>, m: Move<T>): (s': State<T>)
    requires Enabled(s, m)
  {
    var pc := s.pcs[m.tid];
    var pc' := Then(s.q, pc, m.choice);
    State(Effect(s.q, pc),
          if Acquires(pc) then HeldBy(m.tid) else if Inside(pc) && !Inside(pc') then Free else s.lock,
          (if m.choice.Wake? then AwakeAll(s.pcs, m.choice.whom) else s.pcs)[m.tid := pc'])
  }

  ghost predicate Init<T>(s: State<T>) {
    && |s.q.buffer| == QUEUE_MAX_SIZE
    && s.q.head == s.q.tail == s.q.count == 0 && !s.q.shutdown
    && s.q.written == s.q.read == []
    && s.lock.Free?
    && forall t :: t in s.pcs ==> s.pcs[t].Idle?
  }

  // ---- The invariant ----------------------------------------------------------------------

  ghost function Holder<T>(s: State<T>): Pc<T> {
    if s.lock.HeldBy? && s.lock.tid in s.pcs then s.pcs[s.lock.tid] else Idle
  }

  ghost predicate Exclusive<T>(s: State<T>) {
    && (s.lock.HeldBy? ==> s.lock.tid in s.pcs)
    && forall t :: t in s.pcs ==> (Inside(s.pcs[t]) <==> s.lock == HeldBy(t))
  }

  /** Shape of the ring while `pc` holds the mutex, half-finished updates included. */
  ghost predicate RingShape<T>(q: Queue<T>, pc: Pc<T>) {
    && |q.buffer| == QUEUE_MAX_SIZE
    && 0 <= q.count <= QUEUE_MAX_SIZE
    && q.tail == (q.head + q.count + (if pc.WriteCount? then 1 else if pc.ReadCount? then -1 else 0))
                 % QUEUE_MAX_SIZE
    && (pc.WriteStore? || pc.WriteAdvance? || pc.WriteCount? ==> q.count < QUEUE_MAX_SIZE)
    && (pc.WriteAdvance? || pc.WriteCount? ==> q.buffer[(q.head + q.count) % QUEUE_MAX_SIZE] == pc.x)
    && (pc.ReadLoad? || pc.ReadAdvance? || pc.ReadCount? ==> 0 < q.count)
    && (pc.ReadDecide? ==> 0 < q.count || q.shutdown)
    && (pc.ReadAdvance? ==> pc.x == q.buffer[q.head])
    && (pc.LeaveEmpty? ==> q.count == 0 && q.shutdown)
  }

  /** The queued items; a reader that has moved `head` but not `count` still owes one. */
  ghost function Queued<T>(q: Queue<T>, pc: Pc<T>): (items: seq<T>)
    requires RingShape(q, pc)
  {
    if pc.ReadCount? then [pc.x] + Ring(q.buffer, q.head, q.count - 1)
    else Ring(q.buffer, q.head, q.count)
  }

  ghost predicate Fifo<T>(q: Queue<T>, pc: Pc<T>)
  {
    && RingShape(q, pc)
    && q.written == q.read + Queued(q, pc)
    && (pc.ReadSignal? || pc.LeaveWith? ==> q.read != [] && q.read[|q.read| - 1] == pc.x)
  }

  /** 1 while the mutex holder is a reader about to take an item or a writer about to signal. */
  ghost function ReaderCredit<T>(pc: Pc<T>): nat {
    if pc.ReadTest? || pc.ReadDecide? || pc.ReadLoad? || pc.ReadAdvance? || pc.ReadCount? || pc.WriteSignal?
    then 1 else 0
  }

  /** 1 while the mutex holder is a writer about to fill a slot or a reader about to signal. */
  ghost function WriterCredit<T>(pc: Pc<T>): nat {
    if pc.WriteTest? || pc.WriteStore? || pc.WriteAdvance? || pc.WriteCount? || pc.ReadSignal?
    then 1 else 0
  }

  ghost predicate ReadersServed<T>(s: State<T>) {
    Readers(s.pcs) != {} ==> s.q.count <= |WokenReaders(s.pcs)| + ReaderCredit(Holder(s))
  }

  ghost predicate ReadersReleased<T>(s: State<T>) {
    s.q.shutdown && !Holder(s).StopWakeReaders? ==> Readers(s.pcs) == {}
  }

  ghost predicate WritersServed<T>(s: State<T>) {
    Writers(s.pcs) != {} ==>
      QUEUE_MAX_SIZE - s.q.count <= |WokenWriters(s.pcs)| + WriterCredit(Holder(s))
  }

  ghost predicate Inv<T>(s: State<T>) {
    Exclusive(s) && Fifo(s.q, Holder(s)) && ReadersServed(s) && WritersServed(s) && ReadersReleased(s)
  }

  lemma StoreFifo<T>(q: Queue<T>, x: T)
    requires Fifo(q, WriteStore(x))
    ensures Fifo(Effect(q, WriteStore(x)), WriteAdvance(x))
  {
    hide Ring;
    RingStore(q.buffer, q.head, q.count, x);
  }

  lemma WrapSucc(a: nat)
    ensures (a % QUEUE_MAX_SIZE + 1) % QUEUE_MAX_SIZE == (a + 1) % QUEUE_MAX_SIZE
  {
  }

  /** Moving `head` on while the count still includes the item read leaves the end of the ring in place. */
  lemma WrapAdvance(head: Slot, count: nat)
    requires 0 < count
    ensures ((head + 1) % QUEUE_MAX_SIZE + count - 1) % QUEUE_MAX_SIZE == (head + count) % QUEUE_MAX_SIZE
  {
    if head == QUEUE_MAX_SIZE - 1 {
      assert head + count == (count - 1) + QUEUE_MAX_SIZE;
    }
  }

  lemma TailFifo<T>(q: Queue<T>, x: T)
    requires Fifo(q, WriteAdvance(x))
    ensures Fifo(Effect(q, WriteAdvance(x)), WriteCount(x))
  {
    hide Ring;
    WrapSucc(q.head + q.count);
    assert Effect(q, WriteAdvance(x)).tail == (q.head + q.count + 1) % QUEUE_MAX_SIZE;
  }

  lemma CountFifo<T>(q: Queue<T>, x: T)
    requires Fifo(q, WriteCount(x))
    ensures Fifo(Effect(q, WriteCount(x)), WriteSignal)
  {
    hide Ring;
    RingStore(q.buffer, q.head, q.count, x);
    assert q.buffer[(q.head + q.count) % QUEUE_MAX_SIZE := x] == q.buffer;
  }

  lemma AdvanceFifo<T>(q: Queue<T>, x: T)
    requires Fifo(q, ReadAdvance(x))
    ensures Fifo(Effect(q, ReadAdvance(x)), ReadCount(x))
  {
    hide Ring;
    RingAdvance(q.buffer, q.head, q.count);
    WrapAdvance(q.head, q.count);
  }

  lemma TakeFifo<T>(q: Queue<T>, x: T)
    requires Fifo(q, ReadCount(x))
    ensures Fifo(Effect(q, ReadCount(x)), ReadSignal(x))
  {
    hide Ring;
  }

  /** The statements that leave the ring alone. */
  lemma PlainFifo<T>(q: Queue<T>, pc: Pc<T>, c: Choice<T>)
    requires Inside(pc) && Fifo(q, pc)
    requires !pc.WriteStore? && !pc.WriteAdvance? && !pc.WriteCount? && !pc.ReadAdvance? && !pc.ReadCount?
    ensures Fifo(Effect(q, pc), Then(q, pc, c))
  {
    hide Ring;
  }

  /** A statement under the mutex keeps the FIFO law, whoever else is asleep or waiting. */
  lemma StatementFifo<T>(q: Queue<T>, pc: Pc<T>, c: Choice<T>)
    requires Inside(pc) && Fifo(q, pc)
    ensures Fifo(Effect(q, pc), Then(q, pc, c))
  {
    hide Fifo;
    if pc.WriteStore? {
      StoreFifo(q, pc.x);
    } else if pc.WriteAdvance? {
      TailFifo(q, pc.x);
    } else if pc.WriteCount? {
      CountFifo(q, pc.x);
    } else if pc.ReadAdvance? {
      AdvanceFifo(q, pc.x);
    } else if pc.ReadCount? {
      TakeFifo(q, pc.x);
    } else {
      PlainFifo(q, pc, c);
    }
  }

  /** Only the mutex holder's statement can touch the queue or change who holds the mutex. */
  lemma NextHolder<T>(s: State<T>, m: Move<T>)
    requires Exclusive(s) && Enabled(s, m)
    ensures Exclusive(Next(s, m))
    ensures var pc := s.pcs[m.tid]; var pc' := Then(s.q, pc, m.choice);
            && Next(s, m).pcs[m.tid] == pc'
            && (Inside(pc) ==> Holder(s) == pc && Holder(Next(s, m)) == if Inside(pc') then pc' else Idle)
            && (Acquires(pc) ==> Holder(s).Idle? && Holder(Next(s, m)) == pc')
            && (!Inside(pc) && !Acquires(pc) ==> Holder(Next(s, m)) == Holder(s))
  {
  }

  lemma NextFifo<T>(s: State<T>, m: Move<T>)
    requires Exclusive(s) && Fifo(s.q, Holder(s)) && Enabled(s, m)
    ensures Fifo(Next(s, m).q, Holder(Next(s, m)))
  {
    hide Readers, Writers, AwakeAll, Signals, Ring, Exclusive;
    var pc, pc' := s.pcs[m.tid], Then(s.q, s.pcs[m.tid], m.choice);
    NextHolder(s, m);
    if Inside(pc) {
      StatementFifo(s.q, pc, m.choice);
      assert !Inside(pc') ==> Fifo(Effect(s.q, pc), Idle) by { hide Effect; }
    } else {
      assert Effect(s.q, pc) == s.q;
    }
  }

  function Bit(b: bool): nat {
    if b then 1 else 0
  }

  lemma GotoReaders<T>(pcs: map<nat, Pc<T>>, t: nat, pc: Pc<T>)
    requires t in pcs
    ensures Readers(pcs[t := pc]) == if pc.ReadSleep? then Readers(pcs) + {t} else Readers(pcs) - {t}
  {
  }

  lemma GotoWokenReaders<T>(pcs: map<nat, Pc<T>>, t: nat, pc: Pc<T>)
    requires t in pcs
    ensures |WokenReaders(pcs[t := pc])| == |WokenReaders(pcs)| - Bit(pcs[t].ReadWoken?) + Bit(pc.ReadWoken?)
  {
    var others := WokenReaders(pcs) - {t};
    if pc.ReadWoken? {
      assert WokenReaders(pcs[t := pc]) == others + {t};
    } else {
      assert WokenReaders(pcs[t := pc]) == others;
    }
    if pcs[t].ReadWoken? {
      assert WokenReaders(pcs) == others + {t};
    } else {
      assert WokenReaders(pcs) == others;
    }
  }

  lemma GotoWriters<T>(pcs: map<nat, Pc<T>>, t: nat, pc: Pc<T>)
    requires t in pcs
    ensures Writers(pcs[t := pc]) == if pc.WriteSleep? then Writers(pcs) + {t} else Writers(pcs) - {t}
  {
  }

  lemma GotoWokenWriters<T>(pcs: map<nat, Pc<T>>, t: nat, pc: Pc<T>)
    requires t in pcs
    ensures |WokenWriters(pcs[t := pc])| == |WokenWriters(pcs)| - Bit(pcs[t].WriteWoken?) + Bit(pc.WriteWoken?)
  {
    var others := WokenWriters(pcs) - {t};
    if pc.WriteWoken? {
      assert WokenWriters(pcs[t := pc]) == others + {t};
    } else {
      assert WokenWriters(pcs[t := pc]) == others;
    }
    if pcs[t].WriteWoken? {
      assert WokenWriters(pcs) == others + {t};
    } else {
      assert WokenWriters(pcs) == others;
    }
  }

  lemma WakeReaders<T>(pcs: map<nat, Pc<T>>, whom: set<nat>)
    ensures Readers(AwakeAll(pcs, whom)) == Readers(pcs) - whom
  {
  }

  lemma WakeWokenReaders<T>(pcs: map<nat, Pc<T>>, whom: set<nat>)
    ensures |WokenReaders(AwakeAll(pcs, whom))| == |WokenReaders(pcs)| + |whom * Readers(pcs)|
  {
    assert WokenReaders(AwakeAll(pcs, whom)) == WokenReaders(pcs) + whom * Readers(pcs);
    assert WokenReaders(pcs) * (whom * Readers(pcs)) == {};
  }

  lemma WakeWriters<T>(pcs: map<nat, Pc<T>>, whom: set<nat>)
    ensures Writers(AwakeAll(pcs, whom)) == Writers(pcs) - whom
  {
  }

  lemma WakeWokenWriters<T>(pcs: map<nat, Pc<T>>, whom: set<nat>)
    ensures |WokenWriters(AwakeAll(pcs, whom))| == |WokenWriters(pcs)| + |whom * Writers(pcs)|
  {
    assert WokenWriters(AwakeAll(pcs, whom)) == WokenWriters(pcs) + whom * Writers(pcs);
    assert WokenWriters(pcs) * (whom * Writers(pcs)) == {};
  }

  lemma ReaderBalance<T>(q: Queue<T>, pc: Pc<T>, c: Choice<T>, h: Pc<T>, h': Pc<T>,
                         asleep: bool, woken: nat, woke: nat)
    requires Inside(pc) ==> h == pc && ReaderCredit(h') == ReaderCredit(Then(q, pc, c))
    requires Acquires(pc) ==> h.Idle? && h' == Then(q, pc, c)
    requires !Inside(pc) && !Acquires(pc) ==> h' == h
    requires asleep ==> q.count <= woken + ReaderCredit(h)
    requires pc.WriteSignal? && asleep ==> 0 < woke
    ensures var pc' := Then(q, pc, c);
            asleep || pc'.ReadSleep? ==>
              Effect(q, pc).count <= woken + woke - Bit(pc.ReadWoken?) + Bit(pc'.ReadWoken?) + ReaderCredit(h')
  {
  }

  lemma ReaderSetsAfter<T>(s: State<T>, m: Move<T>)
    requires Enabled(s, m)
    ensures var pc := s.pcs[m.tid]; var pc' := Then(s.q, pc, m.choice);
            var woken := if m.choice.Wake? then |m.choice.whom * Readers(s.pcs)| else 0;
            && (Readers(Next(s, m).pcs) != {} ==> Readers(s.pcs) != {} || pc'.ReadSleep?)
            && |WokenReaders(Next(s, m).pcs)|
               == |WokenReaders(s.pcs)| + woken - Bit(pc.ReadWoken?) + Bit(pc'.ReadWoken?)
            && (pc.WriteSignal? && Readers(s.pcs) != {} ==> 0 < woken)
  {
    hide Then, Effect;
    var pc := s.pcs[m.tid];
    var pc' := Then(s.q, pc, m.choice);
    if m.choice.Wake? {
      WakeReaders(s.pcs, m.choice.whom);
      WakeWokenReaders(s.pcs, m.choice.whom);
      GotoReaders(AwakeAll(s.pcs, m.choice.whom), m.tid, pc');
      GotoWokenReaders(AwakeAll(s.pcs, m.choice.whom), m.tid, pc');
      assert pc.WriteSignal? ==> m.choice.whom * Readers(s.pcs) == m.choice.whom;
    } else {
      GotoReaders(s.pcs, m.tid, pc');
      GotoWokenReaders(s.pcs, m.tid, pc');
    }
  }

  lemma NextReadersServed<T>(s: State<T>, m: Move<T>)
    requires Exclusive(s) && ReadersServed(s) && Enabled(s, m)
    ensures ReadersServed(Next(s, m))
  {
    hide Then, Effect, AwakeAll, Readers, WokenReaders, Exclusive, Signals;
    var pc := s.pcs[m.tid];
    ReaderSetsAfter(s, m);
    NextHolder(s, m);
    ReaderBalance(s.q, pc, m.choice, Holder(s), Holder(Next(s, m)), Readers(s.pcs) != {}, |WokenReaders(s.pcs)|,
                  if m.choice.Wake? then |m.choice.whom * Readers(s.pcs)| else 0);
  }

  lemma NextReadersReleased<T>(s: State<T>, m: Move<T>)
    requires Exclusive(s) && ReadersReleased(s) && Enabled(s, m)
    ensures ReadersReleased(Next(s, m))
  {
    NextHolder(s, m);
    if m.choice.Wake? {
      WakeReaders(s.pcs, m.choice.whom);
      GotoReaders(AwakeAll(s.pcs, m.choice.whom), m.tid, Then(s.q, s.pcs[m.tid], m.choice));
    } else {
      GotoReaders(s.pcs, m.tid, Then(s.q, s.pcs[m.tid], m.choice));
    }
  }

  lemma WriterBalance<T>(q: Queue<T>, pc: Pc<T>, c: Choice<T>, h: Pc<T>, h': Pc<T>,
                         asleep: bool, woken: nat, woke: nat)
    requires Inside(pc) ==> h == pc && WriterCredit(h') == WriterCredit(Then(q, pc, c))
    requires Acquires(pc) ==> h.Idle? && h' == Then(q, pc, c)
    requires !Inside(pc) && !Acquires(pc) ==> h' == h
    requires asleep ==> QUEUE_MAX_SIZE - q.count <= woken + WriterCredit(h)
    requires pc.ReadSignal? && asleep ==> 0 < woke
    ensures var pc' := Then(q, pc, c);
            asleep || pc'.WriteSleep? ==>
              QUEUE_MAX_SIZE - Effect(q, pc).count
              <= woken + woke - Bit(pc.WriteWoken?) + Bit(pc'.WriteWoken?) + WriterCredit(h')
  {
  }

  lemma WriterSetsAfter<T>(s: State<T>, m: Move<T>)
    requires Enabled(s, m)
    ensures var pc := s.pcs[m.tid]; var pc' := Then(s.q, pc, m.choice);
            var woken := if m.choice.Wake? then |m.choice.whom * Writers(s.pcs)| else 0;
            && (Writers(Next(s, m).pcs) != {} ==> Writers(s.pcs) != {} || pc'.WriteSleep?)
            && |WokenWriters(Next(s, m).pcs)|
               == |WokenWriters(s.pcs)| + woken - Bit(pc.WriteWoken?) + Bit(pc'.WriteWoken?)
            && (pc.ReadSignal? && Writers(s.pcs) != {} ==> 0 < woken)
  {
    hide Then, Effect;
    var pc := s.pcs[m.tid];
    var pc' := Then(s.q, pc, m.choice);
    if m.choice.Wake? {
      WakeWriters(s.pcs, m.choice.whom);
      WakeWokenWriters(s.pcs, m.choice.whom);
      GotoWriters(AwakeAll(s.pcs, m.choice.whom), m.tid, pc');
      GotoWokenWriters(AwakeAll(s.pcs, m.choice.whom), m.tid, pc');
      assert pc.ReadSignal? ==> m.choice.whom * Writers(s.pcs) == m.choice.whom;
    } else {
      GotoWriters(s.pcs, m.tid, pc');
      GotoWokenWriters(s.pcs, m.tid, pc');
    }
  }

  lemma NextWritersServed<T>(s: State<T>, m: Move<T>)
    requires Exclusive(s) && WritersServed(s) && Enabled(s, m)
    ensures WritersServed(Next(s, m))
  {
    hide Then, Effect, AwakeAll, Writers, WokenWriters, Exclusive, Signals;
    var pc := s.pcs[m.tid];
    WriterSetsAfter(s, m);
    NextHolder(s, m);
    WriterBalance(s.q, pc, m.choice, Holder(s), Holder(Next(s, m)), Writers(s.pcs) != {}, |WokenWriters(s.pcs)|,
                  if m.choice.Wake? then |m.choice.whom * Writers(s.pcs)| else 0);
  }

  // ---- Whole runs -------------------------------------------------------------------------

  /** Every move of the schedule is one its thread may make at that point. */
  ghost predicate Legal<T>(s: State<T>, schedule: seq<Move<T>>)
    decreases |schedule|
  {
    schedule == [] || (Enabled(s, schedule[0]) && Legal(Next(s, schedule[0]), schedule[1..]))
  }

  ghost function After<T>(s: State<T>, schedule: seq<Move<T>>): (end: State<T>)
    requires Legal(s, schedule)
    decreases |schedule|
  {
    if schedule == [] then s else After(Next(s, schedule[0]), schedule[1..])
  }

  lemma {:induction false} RunInv<T>(s: State<T>, schedule: seq<Move<T>>)
    requires Inv(s) && Legal(s, schedule)
    ensures Inv(After(s, schedule))
    decreases |schedule|
  {
    if schedule != [] {
      var m := schedule[0];
      NextHolder(s, m);
      NextFifo(s, m);
      NextReadersServed(s, m);
      NextWritersServed(s, m);
      NextReadersReleased(s, m);
      RunInv(Next(s, m), schedule[1..]);
    }
  }

  lemma ReachableInv<T>(s: State<T>, schedule: seq<Move<T>>)
    requires Init(s) && Legal(s, schedule)
    ensures Inv(After(s, schedule))
  {
    assert Readers(s.pcs) == {} && Writers(s.pcs) == {};
    RunInv(s, schedule);
  }

  /** In every run the items written are the items read followed by the ring, wherever the threads stand. */
  lemma QueueIsFifo<T>(s: State<T>, schedule: seq<Move<T>>)
    requires Init(s) && Legal(s, schedule)
    ensures var e := After(s, schedule); var q := e.q;
            && RingShape(q, Holder(e))
            && q.written == q.read + Queued(q, Holder(e))
            && (e.lock.Free? ==> q.tail == (q.head + q.count) % QUEUE_MAX_SIZE
                                 && q.written == q.read + Ring(q.buffer, q.head, q.count))
  {
    ReachableInv(s, schedule);
  }

  /** queue_read returns an item only in queue order, and 0 only when everything written was read. */
  lemma ReadResults<T>(s: State<T>, schedule: seq<Move<T>>, t: nat)
    requires Init(s) && Legal(s, schedule) && t in After(s, schedule).pcs
    ensures var q := After(s, schedule).q; var pc := After(s, schedule).pcs[t];
            && (pc.LeaveEmpty? ==> q.shutdown && q.read == q.written)
            && (pc.LeaveWith? ==> 0 < |q.read| <= |q.written| && q.written[|q.read| - 1] == pc.x)
  {
    ReachableInv(s, schedule);
    assert Inside(After(s, schedule).pcs[t]) ==> Holder(After(s, schedule)) == After(s, schedule).pcs[t];
  }

  /** No wakeup is lost: sleepers are outnumbered by threads already on their way to what they wait for. */
  lemma NoLostWakeup<T>(s: State<T>, schedule: seq<Move<T>>)
    requires Init(s) && Legal(s, schedule) && After(s, schedule).lock.Free?
    ensures var e := After(s, schedule);
            && (Readers(e.pcs) != {} ==> e.q.count <= |WokenReaders(e.pcs)|)
            && (Writers(e.pcs) != {} ==> QUEUE_MAX_SIZE - e.q.count <= |WokenWriters(e.pcs)|)
            && (e.q.shutdown ==> Readers(e.pcs) == {})
  {
    ReachableInv(s, schedule);
  }
}
