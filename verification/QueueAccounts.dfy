/**
  The accounts of the queue over every run: each call of queue_write, queue_read and queue_shutdown in
  the schedule is still under way or has done what it is for.
 */
module QueueAccounts {
  import opened TaskQueue
  import opened QueueProtocol

  /** The items of the calls of queue_write in the schedule. */
  function Offered<T>(schedule: seq<Move<T>>): seq<T> {
    if schedule == [] then []
    else (if schedule[0].choice.StartWrite? then [schedule[0].choice.x] else []) + Offered(schedule[1..])
  }

  /** How many calls of queue_read, or of queue_shutdown, the schedule holds. */
  function Calls<T>(reading: bool, schedule: seq<Move<T>>): nat {
    if schedule == [] then 0
    else
      var c := schedule[0].choice;
      (if (reading && c.StartRead?) || (!reading && c.StartStop?) then 1 else 0) + Calls(reading, schedule[1..])
  }

  /** The items that calls of queue_read have returned with. */
  ghost function Returned<T>(s: State<T>, schedule: seq<Move<T>>): seq<T>
    requires Legal(s, schedule)
    decreases |schedule|
  {
    if schedule == [] then []
    else
      var pc := s.pcs[schedule[0].tid];
      (if pc.LeaveWith? then [pc.x] else []) + Returned(Next(s, schedule[0]), schedule[1..])
  }

  /** How many calls of queue_read have returned 0. */
  ghost function Refused<T>(s: State<T>, schedule: seq<Move<T>>): nat
    requires Legal(s, schedule)
    decreases |schedule|
  {
    if schedule == [] then 0
    else (if s.pcs[schedule[0].tid].LeaveEmpty? then 1 else 0) + Refused(Next(s, schedule[0]), schedule[1..])
  }

  // ---- What the threads hold ---------------------------------------------------------------

  /** The item a thread still has to store, or has taken and still has to return. */
  ghost function Held<T>(writing: bool, pc: Pc<T>): seq<T> {
    if writing then
      match pc
      case WriteEnter(x) => [x]
      case WriteTest(x) => [x]
      case WriteSleep(x) => [x]
      case WriteWoken(x) => [x]
      case WriteStore(x) => [x]
      case WriteAdvance(x) => [x]
      case WriteCount(x) => [x]
      case _ => []
    else
      match pc
      case ReadSignal(x) => [x]
      case LeaveWith(x) => [x]
      case _ => []
  }

  /** 1 for a thread inside queue_read, or one that has called queue_shutdown and not set the flag. */
  ghost function Busy<T>(reading: bool, pc: Pc<T>): nat {
    if reading then
      if pc.ReadEnter? || pc.ReadTest? || pc.ReadSleep? || pc.ReadWoken? || pc.ReadDecide? || pc.ReadLoad?
         || pc.ReadAdvance? || pc.ReadCount? || pc.ReadSignal? || pc.LeaveWith? || pc.LeaveEmpty? then 1 else 0
    else if pc.StopEnter? || pc.StopSet? then 1 else 0
  }

  /** Over the threads numbered below `n`. */
  ghost function HeldBy<T>(writing: bool, pcs: map<nat, Pc<T>>, n: nat): multiset<T> {
    if n == 0 then multiset{}
    else HeldBy(writing, pcs, n - 1) + (if n - 1 in pcs then multiset(Held(writing, pcs[n - 1])) else multiset{})
  }

  ghost function BusyBelow<T>(reading: bool, pcs: map<nat, Pc<T>>, n: nat): nat {
    if n == 0 then 0
    else BusyBelow(reading, pcs, n - 1) + (if n - 1 in pcs then Busy(reading, pcs[n - 1]) else 0)
  }

  lemma {:induction false} HeldGoto<T>(writing: bool, pcs: map<nat, Pc<T>>, pcs': map<nat, Pc<T>>, t: nat, n: nat)
    requires t in pcs && pcs'.Keys == pcs.Keys
    requires forall u :: u in pcs && u != t ==> Held(writing, pcs'[u]) == Held(writing, pcs[u])
    ensures HeldBy(writing, pcs', n) + (if t < n then multiset(Held(writing, pcs[t])) else multiset{})
         == HeldBy(writing, pcs, n) + (if t < n then multiset(Held(writing, pcs'[t])) else multiset{})
  {
    hide Held;
    if n > 0 {
      HeldGoto(writing, pcs, pcs', t, n - 1);
      var a, a' := HeldBy(writing, pcs, n - 1), HeldBy(writing, pcs', n - 1);
      if t < n - 1 {
        var mine := if n - 1 in pcs then multiset(Held(writing, pcs[n - 1])) else multiset{};
        Swap(a, a', multiset(Held(writing, pcs[t])), multiset(Held(writing, pcs'[t])), mine);
      } else {
        assert a' + multiset{} == a' && a + multiset{} == a;
      }
    }
  }

  lemma Swap<T>(a: multiset<T>, a': multiset<T>, h: multiset<T>, h': multiset<T>, mine: multiset<T>)
    requires a' + h == a + h'
    ensures a' + mine + h == a + mine + h'
  {
    assert a' + mine + h == (a' + h) + mine;
    assert a + mine + h' == (a + h') + mine;
  }

  lemma {:induction false} BusyGoto<T>(reading: bool, pcs: map<nat, Pc<T>>, pcs': map<nat, Pc<T>>, t: nat, n: nat)
    requires t in pcs && pcs'.Keys == pcs.Keys
    requires forall u :: u in pcs && u != t ==> Busy(reading, pcs'[u]) == Busy(reading, pcs[u])
    ensures BusyBelow(reading, pcs', n) + (if t < n then Busy(reading, pcs[t]) else 0)
         == BusyBelow(reading, pcs, n) + (if t < n then Busy(reading, pcs'[t]) else 0)
  {
    hide Busy;
    if n > 0 {
      BusyGoto(reading, pcs, pcs', t, n - 1);
    }
  }

  // ---- One statement -----------------------------------------------------------------------

  ghost predicate Below<T>(s: State<T>, n: nat) {
    forall t :: t in s.pcs ==> t < n
  }

  lemma NextHeld<T>(writing: bool, s: State<T>, m: Move<T>, n: nat)
    requires Enabled(s, m) && Below(s, n)
    ensures var s' := Next(s, m); var pc := s.pcs[m.tid];
            && Below(s', n)
            && HeldBy(writing, s'.pcs, n) + multiset(Held(writing, pc))
               == HeldBy(writing, s.pcs, n) + multiset(Held(writing, s'.pcs[m.tid]))
  {
    HeldGoto(writing, s.pcs, Next(s, m).pcs, m.tid, n);
  }

  lemma NextBusy<T>(reading: bool, s: State<T>, m: Move<T>, n: nat)
    requires Enabled(s, m) && Below(s, n)
    ensures var s' := Next(s, m); var pc := s.pcs[m.tid];
            && Below(s', n)
            && BusyBelow(reading, s'.pcs, n) + Busy(reading, pc)
               == BusyBelow(reading, s.pcs, n) + Busy(reading, s'.pcs[m.tid])
  {
    BusyGoto(reading, s.pcs, Next(s, m).pcs, m.tid, n);
  }

  function Chosen<T>(c: Choice<T>): seq<T> {
    if c.StartWrite? then [c.x] else []
  }

  function Handed<T>(pc: Pc<T>): seq<T> {
    if pc.LeaveWith? then [pc.x] else []
  }

  /** A statement takes up an item, stores the one it holds, or leaves things as they are. */
  lemma StatementStores<T>(q: Queue<T>, pc: Pc<T>, c: Choice<T>)
    requires pc.Idle? || !c.StartWrite?
    ensures var was, now, q' := Held(true, pc), Held(true, Then(q, pc, c)), Effect(q, pc);
            || (was == [] && now == Chosen(c) && q'.written == q.written)
            || (Chosen(c) == [] && now == [] && q'.written == q.written + was)
            || (Chosen(c) == [] && now == was && q'.written == q.written)
  {
  }

  /** A statement takes an item, returns with the one it holds, or leaves things as they are. */
  lemma StatementTakes<T>(q: Queue<T>, pc: Pc<T>, c: Choice<T>)
    ensures var was, now, q' := Held(false, pc), Held(false, Then(q, pc, c)), Effect(q, pc);
            || (was == Handed(pc) == [] && q'.read == q.read + now)
            || (now == [] && was == Handed(pc) && q'.read == q.read)
            || (Handed(pc) == [] && now == was && q'.read == q.read)
  {
  }

  lemma StoreBalance<T>(was: seq<T>, now: seq<T>, chosen: seq<T>, w: seq<T>, w': seq<T>,
                        h: multiset<T>, h': multiset<T>)
    requires h' + multiset(was) == h + multiset(now)
    requires (was == [] && now == chosen && w' == w) || (chosen == now == [] && w' == w + was)
          || (chosen == [] && now == was && w' == w)
    ensures multiset(w') + h' == multiset(chosen) + multiset(w) + h
  {
    if was == [] && now == chosen && w' == w {
      assert h' == h + multiset(chosen);
    } else if chosen == now == [] && w' == w + was {
      assert multiset(w') == multiset(w) + multiset(was) && h' + multiset(was) == h;
    } else {
      Cancel(h, h', multiset(was));
    }
  }

  lemma TakeBalance<T>(was: seq<T>, now: seq<T>, handed: seq<T>, r: seq<T>, r': seq<T>, h: multiset<T>, h': multiset<T>)
    requires h' + multiset(was) == h + multiset(now)
    requires (was == handed == [] && r' == r + now) || (now == [] && was == handed && r' == r)
          || (handed == [] && now == was && r' == r)
    ensures multiset(r') + h == multiset(handed) + multiset(r) + h'
  {
    if was == handed == [] && r' == r + now {
      assert multiset(r') == multiset(r) + multiset(now) && h' == h + multiset(now);
    } else if now == [] && was == handed && r' == r {
      assert h' + multiset(handed) == h;
    } else {
      Cancel(h, h', multiset(was));
    }
  }

  lemma Cancel<T>(a: multiset<T>, b: multiset<T>, c: multiset<T>)
    requires b + c == a + c
    ensures a == b
  {
    assert a == (a + c) - c && b == (b + c) - c;
  }

  /** Over all threads: what was offered is written or still held by a writer. */
  lemma NextStores<T>(s: State<T>, m: Move<T>, n: nat)
    requires Enabled(s, m) && Below(s, n)
    ensures multiset(Next(s, m).q.written) + HeldBy(true, Next(s, m).pcs, n)
         == multiset(Chosen(m.choice)) + multiset(s.q.written) + HeldBy(true, s.pcs, n)
  {
    hide HeldBy, Held, AwakeAll, Below, Readers, Writers;
    var s', pc := Next(s, m), s.pcs[m.tid];
    NextHeld(true, s, m, n);
    StatementStores(s.q, pc, m.choice);
    hide Then, Effect;
    StoreBalance(Held(true, pc), Held(true, s'.pcs[m.tid]), Chosen(m.choice), s.q.written, s'.q.written,
                 HeldBy(true, s.pcs, n), HeldBy(true, s'.pcs, n));
  }

  /** Over all threads: what was read has been returned or is still held by a reader. */
  lemma NextTakes<T>(s: State<T>, m: Move<T>, n: nat)
    requires Enabled(s, m) && Below(s, n)
    ensures multiset(Next(s, m).q.read) + HeldBy(false, s.pcs, n)
         == multiset(Handed(s.pcs[m.tid])) + multiset(s.q.read) + HeldBy(false, Next(s, m).pcs, n)
  {
    hide HeldBy, Held, AwakeAll, Below, Readers, Writers;
    var s', pc := Next(s, m), s.pcs[m.tid];
    NextHeld(false, s, m, n);
    StatementTakes(s.q, pc, m.choice);
    hide Then, Effect;
    TakeBalance(Held(false, pc), Held(false, s'.pcs[m.tid]), Handed(pc), s.q.read, s'.q.read,
                HeldBy(false, s.pcs, n), HeldBy(false, s'.pcs, n));
  }

  lemma StatementKeepsCalls<T>(s: State<T>, m: Move<T>)
    requires Enabled(s, m) && (s.pcs[m.tid].ReadLoad? ==> s.q.head < |s.q.buffer|)
    ensures var s' := Next(s, m); var pc := s.pcs[m.tid]; var pc' := s'.pcs[m.tid];
            && Busy(true, pc') + (if pc.LeaveWith? || pc.LeaveEmpty? then 1 else 0)
               == Busy(true, pc) + (if m.choice.StartRead? then 1 else 0)
            && (s'.q.shutdown <==> s.q.shutdown || pc.StopSet?)
            && Busy(false, pc') + (if pc.StopSet? then 1 else 0)
               == Busy(false, pc) + (if m.choice.StartStop? then 1 else 0)
  {
    hide AwakeAll, Readers, Writers;
  }

  // ---- Every run ---------------------------------------------------------------------------

  lemma {:induction false} RunStores<T>(s: State<T>, schedule: seq<Move<T>>, n: nat)
    requires Legal(s, schedule) && Below(s, n)
    ensures var e := After(s, schedule);
            multiset(e.q.written) + HeldBy(true, e.pcs, n)
            == multiset(Offered(schedule)) + multiset(s.q.written) + HeldBy(true, s.pcs, n)
    decreases |schedule|
  {
    if schedule != [] {
      hide HeldBy, Enabled, Next, Below;
      var m, rest := schedule[0], schedule[1..];
      var s', e, c := Next(s, m), After(s, schedule), Chosen(m.choice);
      NextHeld(true, s, m, n);
      NextStores(s, m, n);
      RunStores(s', rest, n);
      assert Offered(schedule) == c + Offered(rest);
      hide Offered, After, Legal;
      StoreChain(s.q.written, s'.q.written, e.q.written, c, Offered(rest),
                 HeldBy(true, s.pcs, n), HeldBy(true, s'.pcs, n), HeldBy(true, e.pcs, n));
    }
  }

  lemma {:induction false} RunTakes<T>(s: State<T>, schedule: seq<Move<T>>, n: nat)
    requires Legal(s, schedule) && Below(s, n)
    ensures var e := After(s, schedule);
            multiset(e.q.read) + HeldBy(false, s.pcs, n)
            == multiset(Returned(s, schedule)) + multiset(s.q.read) + HeldBy(false, e.pcs, n)
    decreases |schedule|
  {
    if schedule != [] {
      hide HeldBy, Enabled, Next, Below;
      var m, rest := schedule[0], schedule[1..];
      NextHeld(false, s, m, n);
      NextTakes(s, m, n);
      RunTakes(Next(s, m), rest, n);
      var s', e, h := Next(s, m), After(s, schedule), Handed(s.pcs[m.tid]);
      assert Returned(s, schedule) == h + Returned(s', rest);
      hide Returned, After, Legal;
      TakeChain(s.q.read, s'.q.read, e.q.read, h, Returned(s', rest),
                HeldBy(false, s.pcs, n), HeldBy(false, s'.pcs, n), HeldBy(false, e.pcs, n));
    }
  }

  lemma StoreChain<T>(w0: seq<T>, w1: seq<T>, w2: seq<T>, a: seq<T>, b: seq<T>,
                      h0: multiset<T>, h1: multiset<T>, h2: multiset<T>)
    requires multiset(w1) + h1 == multiset(a) + multiset(w0) + h0
    requires multiset(w2) + h2 == multiset(b) + multiset(w1) + h1
    ensures multiset(w2) + h2 == multiset(a + b) + multiset(w0) + h0
  {
    assert multiset(a + b) == multiset(a) + multiset(b);
    assert multiset(b) + (multiset(w1) + h1) == multiset(w2) + h2;
  }

  lemma TakeChain<T>(r0: seq<T>, r1: seq<T>, r2: seq<T>, a: seq<T>, b: seq<T>,
                     h0: multiset<T>, h1: multiset<T>, h2: multiset<T>)
    requires multiset(r1) + h0 == multiset(a) + multiset(r0) + h1
    requires multiset(r2) + h1 == multiset(b) + multiset(r1) + h2
    ensures multiset(r2) + h0 == multiset(a + b) + multiset(r0) + h2
  {
    assert multiset(a + b) == multiset(a) + multiset(b);
    var left, right := multiset(r2) + h0, multiset(a + b) + multiset(r0) + h2;
    assert left + h1 == (multiset(r2) + h1) + h0;
    assert right + h1 == multiset(b) + h2 + (multiset(a) + multiset(r0) + h1);
    Cancel(left, right, h1);
  }

  lemma {:induction false} NobodyBusy<T>(s: State<T>, n: nat)
    requires Init(s)
    ensures HeldBy(true, s.pcs, n) == HeldBy(false, s.pcs, n) == multiset{}
    ensures BusyBelow(true, s.pcs, n) == BusyBelow(false, s.pcs, n) == 0
  {
    if n > 0 {
      NobodyBusy(s, n - 1);
    }
  }

  /**
    In every run, each item given to queue_write has been written or is still in the hands of its writer:
    no call returns without having written its item, however full the queue was.
   */
  lemma EveryWriteLands<T>(s: State<T>, schedule: seq<Move<T>>, n: nat)
    requires Init(s) && Legal(s, schedule) && Below(s, n)
    ensures var e := After(s, schedule); multiset(Offered(schedule)) == multiset(e.q.written) + HeldBy(true, e.pcs, n)
  {
    hide Legal, After, HeldBy, Below;
    NobodyBusy(s, n);
    RunStores(s, schedule, n);
  }

  /** In every run, each item read has been returned by a call of queue_read or is still in the hands of its reader. */
  lemma EveryReadReturns<T>(s: State<T>, schedule: seq<Move<T>>, n: nat)
    requires Init(s) && Legal(s, schedule) && Below(s, n)
    ensures var e := After(s, schedule); multiset(e.q.read) == multiset(Returned(s, schedule)) + HeldBy(false, e.pcs, n)
  {
    hide Legal, After, HeldBy, Below, Returned;
    NobodyBusy(s, n);
    RunTakes(s, schedule, n);
    var e := After(s, schedule);
    assert multiset(e.q.read) + multiset{} == multiset(e.q.read);
    assert multiset(s.q.read) == multiset{};
  }

  lemma {:induction false} RunCalls<T>(s: State<T>, schedule: seq<Move<T>>, n: nat)
    requires Inv(s) && Legal(s, schedule) && Below(s, n)
    ensures var e := After(s, schedule);
            && |Returned(s, schedule)| + Refused(s, schedule) + BusyBelow(true, e.pcs, n)
               == Calls(true, schedule) + BusyBelow(true, s.pcs, n)
            && BusyBelow(false, e.pcs, n) <= Calls(false, schedule) + BusyBelow(false, s.pcs, n)
            && (e.q.shutdown <==>
                (s.q.shutdown || BusyBelow(false, e.pcs, n) < Calls(false, schedule) + BusyBelow(false, s.pcs, n)))
    decreases |schedule|
  {
    if schedule != [] {
      hide BusyBelow, Busy, Enabled, Next, Below, Inv;
      var m, rest := schedule[0], schedule[1..];
      NextInv(s, m);
      LoadInBounds(s, m);
      NextBusy(true, s, m, n);
      NextBusy(false, s, m, n);
      StatementKeepsCalls(s, m);
      RunCalls(Next(s, m), rest, n);
    }
  }

  lemma NextInv<T>(s: State<T>, m: Move<T>)
    requires Inv(s) && Enabled(s, m)
    ensures Inv(Next(s, m))
  {
    hide Enabled, Next, Exclusive, Fifo, ReadersServed, WritersServed, ReadersReleased, Holder;
    NextHolder(s, m);
    NextFifo(s, m);
    NextReadersServed(s, m);
    NextWritersServed(s, m);
    NextReadersReleased(s, m);
  }

  lemma LoadInBounds<T>(s: State<T>, m: Move<T>)
    requires Inv(s) && Enabled(s, m)
    ensures s.pcs[m.tid].ReadLoad? ==> s.q.head < |s.q.buffer|
  {
  }

  /**
    In every run, each call of queue_read has returned an item, has returned 0, or is still under way; and
    the queue is shut down exactly when some call of queue_shutdown has got past setting the flag.
   */
  lemma EveryCallEnds<T>(s: State<T>, schedule: seq<Move<T>>, n: nat)
    requires Init(s) && Legal(s, schedule) && Below(s, n)
    ensures var e := After(s, schedule);
            && Calls(true, schedule) == |Returned(s, schedule)| + Refused(s, schedule) + BusyBelow(true, e.pcs, n)
            && (e.q.shutdown <==> BusyBelow(false, e.pcs, n) < Calls(false, schedule))
  {
    assert Inv(s) by { ReachableInv(s, []); }
    hide Legal, After, BusyBelow, Below, Returned, Refused, Inv;
    NobodyBusy(s, n);
    RunCalls(s, schedule, n);
  }

  // ---- Shutting down -----------------------------------------------------------------------

  /** How often thread `t` calls queue_shutdown. */
  function Stops<T>(schedule: seq<Move<T>>, t: nat): nat {
    if schedule == [] then 0
    else (if schedule[0].tid == t && schedule[0].choice.StartStop? then 1 else 0) + Stops(schedule[1..], t)
  }

  /** The thread is at its broadcast to the writers, or to the readers. */
  predicate Broadcasts<T>(writers: bool, pc: Pc<T>) {
    if writers then pc.StopWakeWriters? else pc.StopWakeReaders?
  }

  /** How often thread `t` has broadcast. */
  ghost function Broadcasted<T>(writers: bool, s: State<T>, schedule: seq<Move<T>>, t: nat): nat
    requires Legal(s, schedule)
    decreases |schedule|
  {
    if schedule == [] then 0
    else
      (if schedule[0].tid == t && Broadcasts(writers, s.pcs[t]) then 1 else 0)
      + Broadcasted(writers, Next(s, schedule[0]), schedule[1..], t)
  }

  /** 1 for a thread inside queue_shutdown that has not made the broadcast. */
  function Stopping<T>(writers: bool, pc: Pc<T>): nat {
    if pc.StopEnter? || pc.StopSet? || pc.StopWakeReaders? || (writers && pc.StopWakeWriters?) then 1 else 0
  }

  lemma NextStopping<T>(writers: bool, s: State<T>, m: Move<T>, t: nat)
    requires Enabled(s, m) && t in s.pcs
    ensures var s' := Next(s, m);
            && t in s'.pcs
            && Stopping(writers, s'.pcs[t]) + (if m.tid == t && Broadcasts(writers, s.pcs[t]) then 1 else 0)
               == Stopping(writers, s.pcs[t]) + (if m.tid == t && m.choice.StartStop? then 1 else 0)
  {
    hide Readers, Writers;
  }

  lemma {:induction false} RunStopping<T>(writers: bool, s: State<T>, schedule: seq<Move<T>>, t: nat)
    requires Legal(s, schedule) && t in s.pcs
    ensures var e := After(s, schedule);
            && t in e.pcs
            && Stopping(writers, e.pcs[t]) + Broadcasted(writers, s, schedule, t)
               == Stopping(writers, s.pcs[t]) + Stops(schedule, t)
    decreases |schedule|
  {
    if schedule != [] {
      hide Stopping, Enabled, Next;
      NextStopping(writers, s, schedule[0], t);
      RunStopping(writers, Next(s, schedule[0]), schedule[1..], t);
    }
  }

  /** A broadcast leaves no thread asleep on its condition. */
  lemma BroadcastWakes<T>(s: State<T>, m: Move<T>)
    requires Enabled(s, m)
    ensures s.pcs[m.tid].StopWakeReaders? ==> Readers(Next(s, m).pcs) == {}
    ensures s.pcs[m.tid].StopWakeWriters? ==> Writers(Next(s, m).pcs) == {}
  {
  }

  /** In every run each call of queue_shutdown has made both its broadcasts or is still on its way to them. */
  lemma EveryStopWakes<T>(s: State<T>, schedule: seq<Move<T>>, t: nat)
    requires Init(s) && Legal(s, schedule) && t in s.pcs
    ensures var e := After(s, schedule);
            && t in e.pcs
            && Stops(schedule, t) == Broadcasted(false, s, schedule, t) + Stopping(false, e.pcs[t])
            && Stops(schedule, t) == Broadcasted(true, s, schedule, t) + Stopping(true, e.pcs[t])
  {
    RunStopping(false, s, schedule, t);
    RunStopping(true, s, schedule, t);
  }
}
