/**
  The locking protocol over the schedule: where a hostname leads, what a lookup locks, what a sweep
  removes, and which descriptors are open.
 */
module RemovalRuns {
  import opened Removal

  /** The state before move number `i`. */
  ghost function At(s: State, schedule: seq<Move>, i: nat): State
    requires Legal(s, schedule) && i <= |schedule|
    decreases i
  {
    if i == 0 then s else At(Next(s, schedule[0]), schedule[1..], i - 1)
  }

  // ---- Hostnames ---------------------------------------------------------------------------

  /** The move names client `c`, the one then listed under the descriptor, `h`. */
  predicate Names(s: State, m: Move, h: string, c: nat) {
    && m.tid in s.pcs && s.pcs[m.tid].Idle? && m.choice.Name? && m.choice.name == h
    && Fd(m.choice.fd) in s.table && s.table[Fd(m.choice.fd)] == c
  }

  ghost predicate NamesAny(s: State, m: Move, h: string) {
    exists c :: Names(s, m, h, c)
  }

  /** The move takes client `c` out of the table. */
  predicate Unlinks(s: State, m: Move, c: nat) {
    && m.tid in s.pcs && s.pcs[m.tid].RemoveEnter?
    && Fd(s.pcs[m.tid].fd) in s.table && s.table[Fd(s.pcs[m.tid].fd)] == c
  }

  predicate LeadsTo(s: State, h: string, c: nat) {
    Host(h) in s.table && s.table[Host(h)] == c
  }

  /** No move from number `i` on gives the name to anybody or unlinks the client. */
  ghost predicate Untouched(s: State, schedule: seq<Move>, i: nat, h: string, c: nat)
    requires Legal(s, schedule)
  {
    forall j: nat :: i <= j < |schedule| ==>
      !NamesAny(At(s, schedule, j), schedule[j], h) && !Unlinks(At(s, schedule, j), schedule[j], c)
  }

  /** Move `i` named the client `h`; nobody got the name and the client was not unlinked since. */
  ghost predicate Bears(s: State, schedule: seq<Move>, i: nat, h: string, c: nat)
    requires Legal(s, schedule)
  {
    && i < |schedule| && Names(At(s, schedule, i), schedule[i], h, c)
    && Untouched(s, schedule, i + 1, h, c)
  }

  /** How one move changes where a hostname leads. */
  lemma NextHostname(s: State, m: Move, h: string, c: nat)
    requires Inv(s) && Enabled(s, m)
    ensures LeadsTo(Next(s, m), h, c) <==>
            Names(s, m, h, c) || (LeadsTo(s, h, c) && !NamesAny(s, m, h) && !Unlinks(s, m, c))
  {
    hide Locks, Mutexes, Pointers, Stages, Descriptors, FreedOnce;
    if m.choice.Name? && s.pcs[m.tid].Idle? && m.choice.name == h {
      assert Names(s, m, h, s.table[Fd(m.choice.fd)]);
    }
  }

  lemma UntouchedFirst(s: State, schedule: seq<Move>, i: nat, h: string, c: nat)
    requires Legal(s, schedule) && schedule != []
    ensures Untouched(s, schedule, i + 1, h, c) <==> Untouched(Next(s, schedule[0]), schedule[1..], i, h, c)
    ensures Untouched(s, schedule, 0, h, c) <==>
            !NamesAny(s, schedule[0], h) && !Unlinks(s, schedule[0], c)
            && Untouched(Next(s, schedule[0]), schedule[1..], 0, h, c)
  {
    hide NamesAny, Unlinks, Enabled, Next;
    var s', rest := Next(s, schedule[0]), schedule[1..];
    forall j: nat | j < |rest|
      ensures At(s, schedule, j + 1) == At(s', rest, j) && schedule[j + 1] == rest[j]
    {
    }
    if Untouched(s, schedule, i + 1, h, c) {
      forall j: nat | i <= j < |rest|
        ensures !NamesAny(At(s', rest, j), rest[j], h) && !Unlinks(At(s', rest, j), rest[j], c)
      {
        assert !NamesAny(At(s, schedule, j + 1), schedule[j + 1], h);
      }
    }
    if Untouched(s', rest, i, h, c) {
      forall j: nat | i + 1 <= j < |schedule|
        ensures !NamesAny(At(s, schedule, j), schedule[j], h) && !Unlinks(At(s, schedule, j), schedule[j], c)
      {
        assert !NamesAny(At(s', rest, j - 1), rest[j - 1], h);
      }
    }
  }

  lemma BearsFirst(s: State, schedule: seq<Move>, i: nat, h: string, c: nat)
    requires Legal(s, schedule) && schedule != []
    ensures Bears(s, schedule, i + 1, h, c) <==> Bears(Next(s, schedule[0]), schedule[1..], i, h, c)
    ensures Bears(s, schedule, 0, h, c) <==>
            Names(s, schedule[0], h, c) && Untouched(Next(s, schedule[0]), schedule[1..], 0, h, c)
  {
    hide Untouched, Names, Enabled, Next;
    UntouchedFirst(s, schedule, i + 1, h, c);
    UntouchedFirst(s, schedule, 0, h, c);
  }

  lemma BearsCons(s: State, schedule: seq<Move>, h: string, c: nat)
    requires Legal(s, schedule) && schedule != []
    ensures (exists i: nat :: Bears(s, schedule, i, h, c)) <==>
            || (Names(s, schedule[0], h, c) && Untouched(Next(s, schedule[0]), schedule[1..], 0, h, c))
            || (exists i: nat :: Bears(Next(s, schedule[0]), schedule[1..], i, h, c))
  {
    hide Bears, Untouched, Names, Enabled, Next;
    var s', rest := Next(s, schedule[0]), schedule[1..];
    BearsFirst(s, schedule, 0, h, c);
    if exists i: nat :: Bears(s', rest, i, h, c) {
      var i: nat :| Bears(s', rest, i, h, c);
      BearsFirst(s, schedule, i, h, c);
      assert Bears(s, schedule, i + 1, h, c);
    }
    if exists i: nat :: Bears(s, schedule, i, h, c) {
      var i: nat :| Bears(s, schedule, i, h, c);
      if i > 0 {
        BearsFirst(s, schedule, i - 1, h, c);
        assert Bears(s', rest, i - 1, h, c);
      }
    }
  }

  lemma {:induction false} RunHostname(s: State, schedule: seq<Move>, h: string, c: nat)
    requires Inv(s) && Legal(s, schedule)
    ensures LeadsTo(After(s, schedule), h, c) <==>
            (exists i: nat :: Bears(s, schedule, i, h, c)) || (LeadsTo(s, h, c) && Untouched(s, schedule, 0, h, c))
    decreases |schedule|
  {
    if schedule == [] {
      assert forall i: nat :: !Bears(s, schedule, i, h, c);
    } else {
      hide Bears, Untouched, Names, Enabled, Next, LeadsTo, Unlinks, NamesAny, Inv;
      NextInv(s, schedule[0]);
      NextHostname(s, schedule[0], h, c);
      RunHostname(Next(s, schedule[0]), schedule[1..], h, c);
      UntouchedFirst(s, schedule, 0, h, c);
      BearsCons(s, schedule, h, c);
    }
  }

  /**
    In every interleaving a hostname leads to a client if and only if the client was the last to be given
    that name and has not been unlinked since: removing an old connection leaves a newer one its name.
   */
  lemma HostnameFollowsSchedule(s: State, schedule: seq<Move>, h: string, c: nat)
    requires Init(s) && Legal(s, schedule)
    ensures (Host(h) in After(s, schedule).table && After(s, schedule).table[Host(h)] == c) <==>
            exists i: nat :: Bears(s, schedule, i, h, c)
  {
    hide Legal, After, Bears, Untouched;
    RunHostname(s, schedule, h, c);
  }

  // ---- Lookups -----------------------------------------------------------------------------

  /**
    A lookup goes on to wait for the mutex of the client its key leads to, takes it and keeps it while it
    uses that client; it comes back with nothing only if the key leads nowhere.
   */
  lemma LookupLocks(s: State, m: Move)
    requires Enabled(s, m)
    ensures var pc, s' := s.pcs[m.tid], Next(s, m); var pc' := s'.pcs[m.tid];
            && (pc.Idle? && m.choice.Find? ==> pc' == FindEnter(m.choice.key))
            && (pc.FindEnter? ==> pc' == if pc.key in s.table then FindLock(s.table[pc.key]) else FindMiss)
            && (pc.FindLock? ==> pc' == FindLeave(pc.c) && pc.c in s'.owner && s'.owner[pc.c] == m.tid)
            && (pc.FindLeave? ==>
                  pc' == Use(pc.c) && pc.c in s'.owner && s'.owner[pc.c] == m.tid && m.tid !in s'.readers)
            && (pc.Use? ==> pc'.Idle? && pc.c !in s'.owner)
  {
  }

  // ---- Calls -------------------------------------------------------------------------------

  /** What a thread may be asked for besides removing. */
  datatype Task = Adding | Finding | Sweeping

  predicate Asks(task: Task, m: Move, t: nat) {
    m.tid == t &&
    match task
    case Adding => m.choice.Accept?
    case Finding => m.choice.Find?
    case Sweeping => m.choice.Sweep?
  }

  /** The move ends the task: the client is added, used or not found, or the walk over the table is over. */
  predicate Ends(task: Task, s: State, m: Move, t: nat) {
    m.tid == t && t in s.pcs &&
    match task
    case Adding => s.pcs[t].AddLeave?
    case Finding => s.pcs[t].FindMiss? || s.pcs[t].Use?
    case Sweeping => m.choice.Done?
  }

  function Engaged(task: Task, pc: Pc): nat {
    var engaged :=
      match task
      case Adding => pc.AddEnter? || pc.AddLeave?
      case Finding => pc.FindEnter? || pc.FindMiss? || pc.FindLock? || pc.FindLeave? || pc.Use?
      case Sweeping => pc.SweepEnter? || pc.SweepWalk? || pc.SweepLock? || pc.SweepCheck?;
    if engaged then 1 else 0
  }

  function Asked(task: Task, schedule: seq<Move>, t: nat): nat {
    if schedule == [] then 0 else (if Asks(task, schedule[0], t) then 1 else 0) + Asked(task, schedule[1..], t)
  }

  ghost function Ended(task: Task, s: State, schedule: seq<Move>, t: nat): nat
    requires Legal(s, schedule)
    decreases |schedule|
  {
    if schedule == [] then 0
    else (if Ends(task, s, schedule[0], t) then 1 else 0) + Ended(task, Next(s, schedule[0]), schedule[1..], t)
  }

  lemma NextEngaged(task: Task, s: State, m: Move, t: nat)
    requires Enabled(s, m) && t in s.pcs
    ensures t in Next(s, m).pcs
    ensures Engaged(task, Next(s, m).pcs[t]) + (if Ends(task, s, m, t) then 1 else 0)
         == Engaged(task, s.pcs[t]) + (if Asks(task, m, t) then 1 else 0)
  {
    hide Table, Heap;
  }

  lemma {:induction false} RunEngaged(task: Task, s: State, schedule: seq<Move>, t: nat)
    requires Legal(s, schedule) && t in s.pcs
    ensures t in After(s, schedule).pcs
    ensures Engaged(task, After(s, schedule).pcs[t]) + Ended(task, s, schedule, t)
         == Engaged(task, s.pcs[t]) + Asked(task, schedule, t)
    decreases |schedule|
  {
    if schedule != [] {
      hide Engaged, Ends, Asks, Enabled, Next;
      NextEngaged(task, s, schedule[0], t);
      RunEngaged(task, Next(s, schedule[0]), schedule[1..], t);
    }
  }

  /** In every interleaving each client to add, lookup and sweep asked of a thread has ended or is under way. */
  lemma EveryTaskEnds(task: Task, s: State, schedule: seq<Move>, t: nat)
    requires Init(s) && Legal(s, schedule) && t in s.pcs
    ensures t in After(s, schedule).pcs
    ensures Asked(task, schedule, t) == Ended(task, s, schedule, t) + Engaged(task, After(s, schedule).pcs[t])
  {
    RunEngaged(task, s, schedule, t);
  }

  // ---- What a thread has to remove ---------------------------------------------------------

  /** What the move gives thread `t` to remove: a descriptor it is asked for, or one it finds expired. */
  function Condemns(s: State, m: Move, t: nat): seq<nat> {
    if m.tid != t || t !in s.pcs then []
    else if s.pcs[t].Idle? && m.choice.Remove? then [m.choice.fd]
    else if s.pcs[t].SweepCheck? && m.choice.Judge? && m.choice.expired then [s.Client(s.pcs[t].c).fd]
    else []
  }

  /** The descriptor thread `t` takes out of the table, or finds gone. */
  function Executes(s: State, m: Move, t: nat): seq<nat> {
    if m.tid == t && t in s.pcs && s.pcs[t].RemoveEnter? then [s.pcs[t].fd] else []
  }

  ghost function Condemned(s: State, schedule: seq<Move>, t: nat): seq<nat>
    requires Legal(s, schedule)
    decreases |schedule|
  {
    if schedule == [] then [] else Condemns(s, schedule[0], t) + Condemned(Next(s, schedule[0]), schedule[1..], t)
  }

  ghost function Executed(s: State, schedule: seq<Move>, t: nat): seq<nat>
    requires Legal(s, schedule)
    decreases |schedule|
  {
    if schedule == [] then [] else Executes(s, schedule[0], t) + Executed(Next(s, schedule[0]), schedule[1..], t)
  }

  /** What the thread still has to remove. */
  function Owed(pc: Pc): seq<nat> {
    if pc.RemoveEnter? then [pc.fd] + pc.rest
    else if pc.SweepWalk? || pc.SweepLock? || pc.SweepCheck? || pc.RemoveMiss? || pc.RemoveLeave? || pc.RemoveLock?
            || pc.RemoveClose? || pc.RemoveFree? then pc.rest
    else []
  }

  /** A removal under way leaves the key of its descriptor out of the table. */
  lemma ExecutesRemoves(s: State, m: Move, fd: nat)
    requires Enabled(s, m) && Executes(s, m, m.tid) == [fd]
    ensures Fd(fd) !in Next(s, m).table
  {
  }

  lemma NextOwed(s: State, m: Move, t: nat)
    requires Enabled(s, m) && t in s.pcs
    ensures t in Next(s, m).pcs
    ensures Owed(s.pcs[t]) + Condemns(s, m, t) == Executes(s, m, t) + Owed(Next(s, m).pcs[t])
  {
    hide Table, Heap;
    if m.tid == t {
      MoveOwed(s, m);
    }
  }

  lemma MoveOwed(s: State, m: Move)
    requires Enabled(s, m)
    ensures var pc := s.pcs[m.tid];
            Owed(pc) + Condemns(s, m, m.tid) == Executes(s, m, m.tid) + Owed(Then(s, pc, m.choice))
  {
    var pc := s.pcs[m.tid];
    if pc.RemoveMiss? || pc.RemoveFree? || pc.SweepWalk? {
      assert pc.rest != [] ==> [pc.rest[0]] + pc.rest[1..] == pc.rest;
    }
  }

  lemma Chain(o: seq<nat>, o': seq<nat>, e: seq<nat>, a: seq<nat>, c: seq<nat>, x: seq<nat>, y: seq<nat>)
    requires o + a == x + o' && o' + c == y + e
    ensures o + (a + c) == (x + y) + e
  {
    assert o + (a + c) == (o + a) + c == (x + o') + c == x + (o' + c) == x + (y + e) == (x + y) + e;
  }

  lemma {:induction false} RunOwed(s: State, schedule: seq<Move>, t: nat)
    requires Legal(s, schedule) && t in s.pcs
    ensures t in After(s, schedule).pcs
    ensures Owed(s.pcs[t]) + Condemned(s, schedule, t) == Executed(s, schedule, t) + Owed(After(s, schedule).pcs[t])
    decreases |schedule|
  {
    if schedule == [] {
      assert Owed(s.pcs[t]) + [] == [] + Owed(s.pcs[t]);
    } else {
      hide Owed, Next, Enabled, Condemns, Executes;
      var m, s', rest := schedule[0], Next(s, schedule[0]), schedule[1..];
      NextOwed(s, m, t);
      RunOwed(s', rest, t);
      Chain(Owed(s.pcs[t]), Owed(s'.pcs[t]), Owed(After(s', rest).pcs[t]), Condemns(s, m, t), Condemned(s', rest, t),
            Executes(s, m, t), Executed(s', rest, t));
    }
  }

  /**
    In every interleaving each thread removes exactly the descriptors it was asked to remove or found
    expired in a sweep, in that order; what it has not removed yet it still has on its list.
   */
  lemma CondemnedAreRemoved(s: State, schedule: seq<Move>, t: nat)
    requires Init(s) && Legal(s, schedule) && t in s.pcs
    ensures t in After(s, schedule).pcs
    ensures Condemned(s, schedule, t) == Executed(s, schedule, t) + Owed(After(s, schedule).pcs[t])
  {
    assert Owed(s.pcs[t]) == [];
    hide Legal, After, Condemned, Executed, Owed, Init;
    RunOwed(s, schedule, t);
    assert [] + Condemned(s, schedule, t) == Condemned(s, schedule, t);
  }

  // ---- Descriptors -------------------------------------------------------------------------

  /** An open descriptor is that of a client that has not been closed. */
  ghost predicate OpenOwned(s: State) {
    forall n :: n in s.open ==> Owned(s, n)
  }

  ghost predicate Owned(s: State, n: nat) {
    exists c :: c in s.heap && s.heap[c].fd == n && !Closed(s, c)
  }

  /** Only the move that closes a client's descriptor makes it closed. */
  lemma NextClosed(s: State, m: Move, c: nat)
    requires Inv(s) && Enabled(s, m) && c in s.heap && !Closed(s, c)
    requires !(s.pcs[m.tid].RemoveClose? && s.pcs[m.tid].c == c)
    ensures var s' := Next(s, m); c in s'.heap && s'.heap[c].fd == s.heap[c].fd && !Closed(s', c)
  {
    hide Locks, Mutexes, Descriptors, FreedOnce;
    var s', pc := Next(s, m), s.pcs[m.tid];
    assert Refers(pc, c) ==> Justified(s, m.tid, pc, c);
    if s.heap[c].stage.Unlinked? {
      var r := s.heap[c].stage.remover;
      assert r in s.pcs && Removing(s.pcs[r], c) && !s.pcs[r].RemoveFree?;
      assert s'.heap[c].stage == s.heap[c].stage;
      assert r != m.tid ==> s'.pcs[r] == s.pcs[r];
    }
  }

  lemma NextOwned(s: State, m: Move, n: nat)
    requires Inv(s) && Enabled(s, m) && (n in s.open ==> Owned(s, n)) && n in Next(s, m).open
    ensures Owned(Next(s, m), n)
  {
    var s', pc := Next(s, m), s.pcs[m.tid];
    hide Inv;
    if pc.Idle? && m.choice.Accept? && m.choice.fd == n {
      assert m.choice.c in s'.heap && s'.heap[m.choice.c].fd == n && !Closed(s', m.choice.c);
    } else {
      var c :| c in s.heap && s.heap[c].fd == n && !Closed(s, c);
      NextClosed(s, m, c);
    }
  }

  lemma {:induction false} RunOwned(s: State, schedule: seq<Move>)
    requires Inv(s) && OpenOwned(s) && Legal(s, schedule)
    ensures OpenOwned(After(s, schedule))
    decreases |schedule|
  {
    if schedule != [] {
      hide Inv, Owned, Enabled, Next;
      NextInv(s, schedule[0]);
      forall n | n in Next(s, schedule[0]).open
        ensures Owned(Next(s, schedule[0]), n)
      {
        NextOwned(s, schedule[0], n);
      }
      RunOwned(Next(s, schedule[0]), schedule[1..]);
    }
  }

  /** In every interleaving the open descriptors are exactly those of the clients not closed yet, one each. */
  lemma OpenExactly(s: State, schedule: seq<Move>, n: nat)
    requires Init(s) && Legal(s, schedule)
    ensures var e := After(s, schedule);
            && (n in e.open <==> exists c :: c in e.heap && e.heap[c].fd == n && !Closed(e, c))
            && (forall c, d :: c in e.heap && d in e.heap && c != d && !Closed(e, c) && !Closed(e, d)
                  ==> e.heap[c].fd != e.heap[d].fd)
  {
    hide Legal, After, Closed, Locks, Mutexes, Pointers, Stages, Indexes, FreedOnce;
    assert Inv(s) by { StartInv(s); }
    ReachableInv(s, schedule);
    RunOwned(s, schedule);
    assert n in After(s, schedule).open ==> Owned(After(s, schedule), n);
  }

  lemma StartInv(s: State)
    requires Init(s)
    ensures Inv(s)
  {
  }
}
