/**
  The locking protocol of client_manager.c: any number of threads that accept, look up, sweep and
  remove clients, interleaved one lock operation at a time. `writer` and `readers` are the holders
  of `clients_rwlock`; `owner` gives the holder of each client's own mutex.
 */
module Removal {

  /** A key of the clients table: "fd:N" or a hostname (which never starts with "fd:"). */
  datatype Key = Fd(n: nat) | Host(name: string)

  /**
    Where a thread stands. R and W: it holds the read or write lock; M: it holds the mutex of client
    `c`. A thread takes and gives back locks as it moves between these places; what it reads or
    writes under a lock belongs to the step that takes the lock. `rest` lists descriptors that a
    sweep has collected and still has to remove.
   */
  datatype Pc =
    | Idle
    | AddEnter(c: nat)                          // waits for W
    | AddLeave                                  // W
    | FindEnter(key: Key)                       // waits for R
    | FindMiss                                  // R
    | FindLock(c: nat)                          // R, waits for M
    | FindLeave(c: nat)                         // R and M
    | Use(c: nat)                               // M
    | SweepEnter                                // waits for R
    | SweepWalk(rest: seq<nat>)                 // R
    | SweepLock(c: nat, rest: seq<nat>)         // R, waits for M
    | SweepCheck(c: nat, rest: seq<nat>)        // R and M
    | RemoveEnter(fd: nat, rest: seq<nat>)      // waits for W
    | RemoveMiss(rest: seq<nat>)                // W
    | RemoveLeave(c: nat, rest: seq<nat>)       // W, has unlinked c
    | RemoveLock(c: nat, rest: seq<nat>)        // waits for M
    | RemoveClose(c: nat, rest: seq<nat>)       // M, about to close the descriptor
    | RemoveFree(c: nat, rest: seq<nat>)        // about to destroy the mutex and free c

  /** The life of a client object, recorded for the proof: no step consults it. */
  datatype Stage = Fresh(adder: nat) | Linked | Unlinked(remover: nat) | Freed

  datatype Object = Object(fd: nat, host: string, stage: Stage)

  datatype State = State(
    table: map<Key, nat>, heap: map<nat, Object>,
    writer: set<nat>, readers: set<nat>, owner: map<nat, nat>,
    open: set<nat>, pcs: map<nat, Pc>, frees: seq<nat>)
  {
    function Client(c: nat): Object {
      if c in heap then heap[c] else Object(0, "", Freed)
    }
  }

  datatype Choice =
    | Accept(c: nat, fd: nat) | Find(key: Key) | Sweep | Remove(fd: nat) | Name(fd: nat, name: string)
    | Go
    | Visit(fd: nat) | Done
    | Judge(expired: bool)

  datatype Move = Move(tid: nat, choice: Choice)

  predicate HoldsRead(pc: Pc) {
    pc.FindMiss? || pc.FindLock? || pc.FindLeave? || pc.SweepWalk? || pc.SweepLock? || pc.SweepCheck?
  }

  predicate HoldsWrite(pc: Pc) {
    pc.AddLeave? || pc.RemoveMiss? || pc.RemoveLeave?
  }

  function Mutex(pc: Pc): set<nat> {
    if pc.FindLeave? || pc.Use? || pc.SweepCheck? || pc.RemoveClose? then {pc.c} else {}
  }

  /** The thread has a pointer to client `c`: it may lock, use, close or free it next. */
  predicate Refers(pc: Pc, c: nat) {
    (pc.AddEnter? || pc.FindLock? || pc.FindLeave? || pc.Use? || pc.SweepLock? || pc.SweepCheck?
     || pc.RemoveLeave? || pc.RemoveLock? || pc.RemoveClose? || pc.RemoveFree?) && pc.c == c
  }

  function Resume(rest: seq<nat>): Pc {
    if rest == [] then Idle else RemoveEnter(rest[0], rest[1..])
  }

  predicate Enabled(s: State, m: Move) {
    m.tid in s.pcs &&
    match s.pcs[m.tid]
    case Idle =>
      (match m.choice
       case Accept(c, fd) => c !in s.heap && fd !in s.open
       case Find(_) => true
       case Sweep => true
       case Remove(_) => true
       case Name(fd, name) =>      // client_set_hostname, taken as one step
         && s.writer == {} && s.readers == {} && name != "" && Fd(fd) in s.table
         && s.table[Fd(fd)] !in s.owner && s.Client(s.table[Fd(fd)]).host == ""
       case _ => false)
    case AddEnter(_) => m.choice.Go? && s.writer == {} && s.readers == {}
    case RemoveEnter(_, _) => m.choice.Go? && s.writer == {} && s.readers == {}
    case FindEnter(_) => m.choice.Go? && s.writer == {}
    case SweepEnter => m.choice.Go? && s.writer == {}
    case FindLock(c) => m.choice.Go? && c !in s.owner
    case SweepLock(c, _) => m.choice.Go? && c !in s.owner
    case RemoveLock(c, _) => m.choice.Go? && c !in s.owner
    case SweepWalk(_) => m.choice.Done? || (m.choice.Visit? && Fd(m.choice.fd) in s.table)
    case SweepCheck(_, _) => m.choice.Judge?
    case _ => m.choice.Go?
  }

  /** Control flow. */
  function Then(s: State, pc: Pc, choice: Choice): Pc {
    match pc
    case Idle =>
      (match choice
       case Accept(c, _) => AddEnter(c)
       case Find(key) => FindEnter(key)
       case Sweep => SweepEnter
       case Remove(fd) => RemoveEnter(fd, [])
       case _ => Idle)
    case AddEnter(_) => AddLeave
    case AddLeave => Idle
    case FindEnter(key) => if key in s.table then FindLock(s.table[key]) else FindMiss
    case FindMiss => Idle
    case FindLock(c) => FindLeave(c)
    case FindLeave(c) => Use(c)
    case Use(c) => Idle
    case SweepEnter => SweepWalk([])
    case SweepWalk(rest) =>
      if choice.Visit? && Fd(choice.fd) in s.table then SweepLock(s.table[Fd(choice.fd)], rest) else Resume(rest)
    case SweepLock(c, rest) => SweepCheck(c, rest)
    case SweepCheck(c, rest) => SweepWalk(if choice.Judge? && choice.expired then rest + [s.Client(c).fd] else rest)
    case RemoveEnter(fd, rest) => if Fd(fd) in s.table then RemoveLeave(s.table[Fd(fd)], rest) else RemoveMiss(rest)
    case RemoveMiss(rest) => Resume(rest)
    case RemoveLeave(c, rest) => RemoveLock(c, rest)
    case RemoveLock(c, rest) => RemoveClose(c, rest)
    case RemoveClose(c, rest) => RemoveFree(c, rest)
    case RemoveFree(_, rest) => Resume(rest)
  }

  /** client_add sets "fd:N"; client_remove deletes it, and the hostname only if it still leads to this client. */
  function Table(s: State, pc: Pc, choice: Choice): map<Key, nat> {
    if pc.Idle? && choice.Name? && Fd(choice.fd) in s.table then
      s.table[Host(choice.name) := s.table[Fd(choice.fd)]]
    else if pc.AddEnter? then
      s.table[Fd(s.Client(pc.c).fd) := pc.c]
    else if pc.RemoveEnter? && Fd(pc.fd) in s.table then
      var c := s.table[Fd(pc.fd)];
      var name := Host(s.Client(c).host);
      s.table - {Fd(pc.fd)} - (if name.name != "" && name in s.table && s.table[name] == c then {name} else {})
    else
      s.table
  }

  function Heap(s: State, t: nat, pc: Pc, choice: Choice): map<nat, Object> {
    if pc.Idle? && choice.Accept? then
      s.heap[choice.c := Object(choice.fd, "", Fresh(t))]
    else if pc.Idle? && choice.Name? && Fd(choice.fd) in s.table then
      var c := s.table[Fd(choice.fd)];
      s.heap[c := s.Client(c).(host := choice.name)]
    else if pc.AddEnter? then
      s.heap[pc.c := s.Client(pc.c).(stage := Linked)]
    else if pc.RemoveEnter? && Fd(pc.fd) in s.table then
      var c := s.table[Fd(pc.fd)];
      s.heap[c := s.Client(c).(stage := Unlinked(t))]
    else if pc.RemoveFree? then
      s.heap[pc.c := s.Client(pc.c).(stage := Freed)]
    else
      s.heap
  }

  function Next(s: State, m: Move): (s': State)
    requires Enabled(s, m)
  {
    var t := m.tid;
    var pc := s.pcs[t];
    var pc' := Then(s, pc, m.choice);
    State(Table(s, pc, m.choice),
          Heap(s, t, pc, m.choice),
          if HoldsWrite(pc') then s.writer + {t} else s.writer - {t},
          if HoldsRead(pc') then s.readers + {t} else s.readers - {t},
          (s.owner - Mutex(pc)) + (map c | c in Mutex(pc') :: t),
          if pc.Idle? && m.choice.Accept? then s.open + {m.choice.fd}
          else if pc.RemoveClose? then s.open - {s.Client(pc.c).fd}
          else s.open,
          s.pcs[t := pc'],
          if pc.RemoveFree? then s.frees + [pc.c] else s.frees)
  }

  predicate Init(s: State) {
    && s.table == map[] && s.heap == map[] && s.owner == map[]
    && s.writer == s.readers == s.open == {} && s.frees == []
    && forall t :: t in s.pcs ==> s.pcs[t].Idle?
  }

  // ---- The invariant ----------------------------------------------------------------------

  ghost predicate Locks(s: State) {
    && (forall t :: t in s.readers <==> t in s.pcs && HoldsRead(s.pcs[t]))
    && (forall t :: t in s.writer <==> t in s.pcs && HoldsWrite(s.pcs[t]))
    && (s.writer == {} || s.readers == {})
    && (forall t, u :: t in s.writer && u in s.writer ==> t == u)
  }

  ghost predicate Mutexes(s: State) {
    && (forall c :: c in s.owner ==> s.owner[c] in s.pcs && c in Mutex(s.pcs[s.owner[c]]))
    && (forall t, c :: t in s.pcs && c in Mutex(s.pcs[t]) ==> c in s.owner && s.owner[c] == t)
  }

  /** Thread `t` is the one that took `c` out of the table. */
  ghost predicate Removing(pc: Pc, c: nat) {
    (pc.RemoveLeave? || pc.RemoveLock? || pc.RemoveClose? || pc.RemoveFree?) && pc.c == c
  }

  /** Unlinked, and its remover does not hold the mutex yet: a last user may still be inside. */
  ghost predicate Draining(s: State, c: nat) {
    && c in s.heap && s.heap[c].stage.Unlinked? && s.heap[c].stage.remover in s.pcs
    && (s.pcs[s.heap[c].stage.remover].RemoveLeave? || s.pcs[s.heap[c].stage.remover].RemoveLock?)
  }

  /** Its descriptor has been given back to the system. */
  ghost predicate Closed(s: State, c: nat) {
    c in s.heap ==>
      || s.heap[c].stage.Freed?
      || (s.heap[c].stage.Unlinked? && s.heap[c].stage.remover in s.pcs && s.pcs[s.heap[c].stage.remover].RemoveFree?)
  }

  /** What holding a pointer to `c` at `pc` entails. */
  ghost predicate Justified(s: State, t: nat, pc: Pc, c: nat) {
    && c in s.heap
    && var stage := s.heap[c].stage;
       if pc.AddEnter? then stage == Fresh(t)
       else if pc.Use? then stage.Linked? || Draining(s, c)
       else if Removing(pc, c) then stage == Unlinked(t)
       else stage.Linked?
  }

  ghost predicate Pointers(s: State) {
    forall t, c :: t in s.pcs && Refers(s.pcs[t], c) ==> Justified(s, t, s.pcs[t], c)
  }

  ghost predicate Stages(s: State) {
    && (forall c :: c in s.heap && s.heap[c].stage.Fresh? ==>
          s.heap[c].stage.adder in s.pcs && s.pcs[s.heap[c].stage.adder] == AddEnter(c))
    && (forall c :: c in s.heap && s.heap[c].stage.Unlinked? ==>
          s.heap[c].stage.remover in s.pcs && Removing(s.pcs[s.heap[c].stage.remover], c))
  }

  /** The two indexes: "fd:N" leads to exactly the linked clients, a hostname to a linked client so named. */
  ghost predicate Indexes(s: State) {
    && (forall k :: k in s.table ==> s.table[k] in s.heap && s.heap[s.table[k]].stage.Linked?)
    && (forall n :: Fd(n) in s.table ==> s.heap[s.table[Fd(n)]].fd == n)
    && (forall h :: Host(h) in s.table ==> s.heap[s.table[Host(h)]].host == h && h != "")
    && (forall c :: c in s.heap && s.heap[c].stage.Linked? ==>
          Fd(s.heap[c].fd) in s.table && s.table[Fd(s.heap[c].fd)] == c)
  }

  ghost predicate Descriptors(s: State) {
    && (forall c :: c in s.heap && !Closed(s, c) ==> s.heap[c].fd in s.open)
    && (forall c, d :: c in s.heap && d in s.heap && c != d && !Closed(s, c) && !Closed(s, d)
          ==> s.heap[c].fd != s.heap[d].fd)
  }

  ghost predicate Distinct(ids: seq<nat>) {
    forall i, j :: 0 <= i < j < |ids| ==> ids[i] != ids[j]
  }

  ghost predicate FreedOnce(s: State) {
    && Distinct(s.frees)
    && (forall c :: c in s.frees <==> c in s.heap && s.heap[c].stage.Freed?)
  }

  ghost predicate Objects(s: State) {
    Pointers(s) && Stages(s) && Indexes(s) && Descriptors(s) && FreedOnce(s)
  }

  ghost predicate Inv(s: State) {
    Locks(s) && Mutexes(s) && Objects(s)
  }

  lemma NextLocks(s: State, m: Move)
    requires Locks(s) && Enabled(s, m)
    ensures Locks(Next(s, m))
  {
  }

  lemma MutexStep(s: State, s': State, t: nat, pc': Pc)
    requires Mutexes(s) && t in s.pcs && s'.pcs == s.pcs[t := pc']
    requires s'.owner == (s.owner - Mutex(s.pcs[t])) + (map c | c in Mutex(pc') :: t)
    requires forall c :: c in Mutex(pc') ==> c in Mutex(s.pcs[t]) || c !in s.owner
    ensures Mutexes(s')
  {
    forall u, c | u in s'.pcs && c in Mutex(s'.pcs[u])
      ensures c in s'.owner && s'.owner[c] == u
    {
      assert u != t ==> c in s.owner && s.owner[c] == u;
    }
    forall c | c in s'.owner
      ensures s'.owner[c] in s'.pcs && c in Mutex(s'.pcs[s'.owner[c]])
    {
      assert c in Mutex(pc') || (c in s.owner && c !in Mutex(s.pcs[t]));
    }
  }

  lemma NextMutexes(s: State, m: Move)
    requires Mutexes(s) && Enabled(s, m)
    ensures Mutexes(Next(s, m))
  {
    MutexStep(s, Next(s, m), m.tid, Then(s, s.pcs[m.tid], m.choice));
  }

  // Steps that only move their thread: from `s` to `s'`, thread `t` goes to `pc'`.

  ghost predicate Quiet(s: State, s': State, t: nat, pc': Pc) {
    && t in s.pcs && s'.pcs == s.pcs[t := pc'] && s'.heap == s.heap && s'.table == s.table
    && !s.pcs[t].AddEnter? && !pc'.AddEnter?
    && (forall c :: Removing(s.pcs[t], c) <==> Removing(pc', c))
    && (forall c :: Refers(pc', c) ==> Refers(s.pcs[t], c) || (c in s.heap && s.heap[c].stage.Linked?))
    && (pc'.Use? ==> s.pcs[t].FindLeave?)
    && (s.pcs[t].Use? ==> !(exists c :: Refers(pc', c)))
    && (pc'.RemoveClose? ==> s.pcs[t].RemoveLock? && pc'.c !in s.owner)
    && (pc'.RemoveLeave? || pc'.RemoveLock? ==> s.pcs[t].RemoveLeave?)
    && (s.pcs[t].RemoveFree? ==> pc'.RemoveFree?)
    && (pc'.RemoveFree? ==> s.pcs[t].RemoveClose?)
  }

  lemma QuietPointers(s: State, s': State, t: nat, pc': Pc)
    requires Quiet(s, s', t, pc') && Mutexes(s) && Pointers(s) && Stages(s)
    ensures Pointers(s')
  {
    forall u, c | u in s'.pcs && Refers(s'.pcs[u], c)
      ensures Justified(s', u, s'.pcs[u], c)
    {
      if u == t {
        assert Refers(s.pcs[t], c) ==> Justified(s, t, s.pcs[t], c);
      } else {
        assert Justified(s, u, s.pcs[u], c);
        assert c in Mutex(s.pcs[u]) ==> c in s.owner;
      }
    }
  }

  lemma QuietObjects(s: State, s': State, t: nat, pc': Pc)
    requires Quiet(s, s', t, pc') && Mutexes(s) && Objects(s) && s'.frees == s.frees
    requires s'.open == if pc'.RemoveFree? then s.open - {s.Client(pc'.c).fd} else s.open
    ensures Objects(s')
  {
    QuietPointers(s, s', t, pc');
    assert Removing(s.pcs[t], if pc'.RemoveFree? then pc'.c else 0) ==> pc'.RemoveFree? ==> !Closed(s, pc'.c);
    forall c | c in s'.heap && !Closed(s', c)
      ensures !Closed(s, c) && s'.heap[c].fd in s'.open
    {
      if pc'.RemoveFree? {
        assert Refers(s.pcs[t], pc'.c);
        assert Justified(s, t, s.pcs[t], pc'.c);
      }
    }
  }

  // Steps that change one object: `c` becomes `o`, and its thread goes from `s.pcs[t]` to `pc'`.

  ghost predicate Edits(s: State, s': State, t: nat, pc': Pc, c: nat, o: Object) {
    t in s.pcs && s'.pcs == s.pcs[t := pc'] && s'.heap == s.heap[c := o]
  }

  lemma EditPointers(s: State, s': State, t: nat, pc': Pc, c: nat, o: Object)
    requires Edits(s, s', t, pc', c, o) && Pointers(s) && Stages(s)
    requires forall d :: Refers(pc', d) ==> Justified(s', t, pc', d)
    requires forall u :: u in s.pcs && u != t && Refers(s.pcs[u], c) ==> Justified(s', u, s.pcs[u], c)
    requires forall d :: d != c ==> !Removing(s.pcs[t], d)
    ensures Pointers(s')
  {
    forall u, d | u in s'.pcs && Refers(s'.pcs[u], d)
      ensures Justified(s', u, s'.pcs[u], d)
    {
      assert u != t ==> Justified(s, u, s.pcs[u], d);
    }
  }

  lemma EditStages(s: State, s': State, t: nat, pc': Pc, c: nat, o: Object)
    requires Edits(s, s', t, pc', c, o) && Stages(s)
    requires forall d :: d != c ==> !Removing(s.pcs[t], d) && s.pcs[t] != AddEnter(d)
    requires o.stage.Fresh? ==> o.stage.adder == t && pc' == AddEnter(c)
    requires o.stage.Unlinked? ==> o.stage.remover == t && Removing(pc', c)
    ensures Stages(s')
  {
  }

  lemma EditFreedOnce(s: State, s': State, c: nat, o: Object)
    requires FreedOnce(s) && s'.heap == s.heap[c := o] && c !in s.frees
    requires s'.frees == if o.stage.Freed? then s.frees + [c] else s.frees
    ensures FreedOnce(s')
  {
  }

  lemma EditDescriptors(s: State, s': State, t: nat, pc': Pc, c: nat, o: Object)
    requires Edits(s, s', t, pc', c, o) && Stages(s) && Descriptors(s) && s'.open == s.open
    requires c in s.heap && o.fd == s.heap[c].fd && (Closed(s, c) ==> o.stage.Freed?)
    requires !pc'.RemoveFree? && forall d :: d != c ==> !Removing(s.pcs[t], d)
    ensures Descriptors(s')
  {
    forall d | d in s.heap && !Closed(s', d)
      ensures !Closed(s, d) && s'.heap[d].fd == s.heap[d].fd
    {
    }
  }

  lemma AcceptObjects(s: State, s': State, t: nat, c: nat, fd: nat)
    requires Objects(s) && t in s.pcs && s.pcs[t].Idle? && c !in s.heap && fd !in s.open
    requires Edits(s, s', t, AddEnter(c), c, Object(fd, "", Fresh(t)))
    requires s'.table == s.table && s'.open == s.open + {fd} && s'.frees == s.frees
    ensures Objects(s')
  {
    hide Stages, Distinct;
    assert forall u :: u in s.pcs && Refers(s.pcs[u], c) ==> Justified(s, u, s.pcs[u], c);
    var o := Object(fd, "", Fresh(t));
    EditPointers(s, s', t, AddEnter(c), c, o);
    EditStages(s, s', t, AddEnter(c), c, o);
    EditFreedOnce(s, s', c, o);
    assert forall d :: d in s.heap ==> (Closed(s', d) <==> Closed(s, d));
    assert !Closed(s', c) && s'.heap[c].fd == fd;
  }

  lemma NameIndexes(s: State, s': State, fd: nat, name: string)
    requires Indexes(s) && Fd(fd) in s.table && name != "" && s.Client(s.table[Fd(fd)]).host == ""
    requires var c := s.table[Fd(fd)];
             s'.heap == s.heap[c := s.Client(c).(host := name)] && s'.table == s.table[Host(name) := c]
    ensures Indexes(s')
  {
  }

  lemma NameObjects(s: State, s': State, t: nat, fd: nat, name: string)
    requires Objects(s) && t in s.pcs && s.pcs[t].Idle? && Fd(fd) in s.table && name != ""
    requires s.Client(s.table[Fd(fd)]).host == ""
    requires Edits(s, s', t, Idle, s.table[Fd(fd)], s.Client(s.table[Fd(fd)]).(host := name))
    requires s'.table == s.table[Host(name) := s.table[Fd(fd)]] && s'.open == s.open && s'.frees == s.frees
    ensures Objects(s')
  {
    var c := s.table[Fd(fd)];
    NameIndexes(s, s', fd, name);
    forall u | u in s.pcs && Refers(s.pcs[u], c)
      ensures Justified(s', u, s.pcs[u], c)
    {
      assert Justified(s, u, s.pcs[u], c);
    }
    var o := s.Client(c).(host := name);
    EditPointers(s, s', t, Idle, c, o);
    EditStages(s, s', t, Idle, c, o);
    EditFreedOnce(s, s', c, o);
    EditDescriptors(s, s', t, Idle, c, o);
  }

  lemma AddIndexes(s: State, s': State, c: nat)
    requires Indexes(s) && c in s.heap && s.heap[c].stage.Fresh? && Fd(s.heap[c].fd) !in s.table
    requires s'.heap == s.heap[c := s.heap[c].(stage := Linked)] && s'.table == s.table[Fd(s.heap[c].fd) := c]
    ensures Indexes(s')
  {
  }

  /** client_add never overwrites an entry: its descriptor is open, so nobody else is listed under it. */
  lemma AddIsNew(s: State, t: nat, c: nat)
    requires Objects(s) && t in s.pcs && s.pcs[t] == AddEnter(c)
    ensures c in s.heap && s.heap[c].stage == Fresh(t) && Fd(s.heap[c].fd) !in s.table
  {
    assert Justified(s, t, s.pcs[t], c);
    assert !Closed(s, c);
    assert forall d :: d in s.heap && s.heap[d].stage.Linked? ==> !Closed(s, d);
  }

  lemma AddObjects(s: State, s': State, t: nat, c: nat)
    requires Objects(s) && t in s.pcs && s.pcs[t] == AddEnter(c)
    requires Edits(s, s', t, AddLeave, c, s.Client(c).(stage := Linked))
    requires s'.table == s.table[Fd(s.Client(c).fd) := c] && s'.open == s.open && s'.frees == s.frees
    ensures Objects(s')
  {
    AddIsNew(s, t, c);
    AddIndexes(s, s', c);
    forall u | u in s.pcs && u != t && Refers(s.pcs[u], c)
      ensures Justified(s', u, s.pcs[u], c)
    {
      assert Justified(s, u, s.pcs[u], c);
    }
    var o := s.Client(c).(stage := Linked);
    EditPointers(s, s', t, AddLeave, c, o);
    EditStages(s, s', t, AddLeave, c, o);
    EditFreedOnce(s, s', c, o);
    EditDescriptors(s, s', t, AddLeave, c, o);
  }

  lemma RemoveIndexes(s: State, s': State, t: nat, pc: Pc)
    requires Indexes(s) && pc.RemoveEnter? && Fd(pc.fd) in s.table
    requires var c := s.table[Fd(pc.fd)];
             s'.heap == s.heap[c := s.Client(c).(stage := Unlinked(t))] && s'.table == Table(s, pc, Go)
    ensures Indexes(s')
  {
    var c := s.table[Fd(pc.fd)];
    forall k | k in s'.table
      ensures k in s.table && s'.table[k] == s.table[k] != c
    {
      assert k.Fd? ==> s.heap[s.table[k]].fd == k.n;
      assert k.Host? ==> s.heap[s.table[k]].host == k.name;
    }
  }

  lemma RemoveObjects(s: State, s': State, t: nat, pc: Pc)
    requires Locks(s) && s.readers == {} && Objects(s)
    requires t in s.pcs && s.pcs[t] == pc && pc.RemoveEnter? && Fd(pc.fd) in s.table
    requires var c := s.table[Fd(pc.fd)];
             Edits(s, s', t, RemoveLeave(c, pc.rest), c, s.Client(c).(stage := Unlinked(t)))
    requires s'.table == Table(s, pc, Go) && s'.open == s.open && s'.frees == s.frees
    ensures Objects(s')
  {
    hide Stages, Descriptors, Distinct;
    var c := s.table[Fd(pc.fd)];
    RemoveIndexes(s, s', t, pc);
    forall u | u in s.pcs && u != t && Refers(s.pcs[u], c)
      ensures Justified(s', u, s.pcs[u], c)
    {
      assert Justified(s, u, s.pcs[u], c);
      assert u !in s.readers;
    }
    var o := s.Client(c).(stage := Unlinked(t));
    EditPointers(s, s', t, RemoveLeave(c, pc.rest), c, o);
    EditStages(s, s', t, RemoveLeave(c, pc.rest), c, o);
    EditFreedOnce(s, s', c, o);
    EditDescriptors(s, s', t, RemoveLeave(c, pc.rest), c, o);
  }

  /** The heart of it: at the free nobody else has a pointer, and the object is still allocated. */
  lemma FreeIsAlone(s: State, t: nat, c: nat)
    requires Mutexes(s) && Objects(s) && t in s.pcs && s.pcs[t].RemoveFree? && s.pcs[t].c == c
    ensures c in s.heap && s.heap[c].stage == Unlinked(t) && c !in s.owner && c !in s.frees
    ensures forall u :: u in s.pcs && u != t ==> !Refers(s.pcs[u], c)
    ensures forall k :: k in s.table ==> s.table[k] != c
  {
    assert Justified(s, t, s.pcs[t], c);
    assert forall u :: u in s.pcs && Refers(s.pcs[u], c) ==> Justified(s, u, s.pcs[u], c);
    assert forall u :: u in s.pcs && c in Mutex(s.pcs[u]) ==> Refers(s.pcs[u], c);
  }

  lemma FreeObjects(s: State, s': State, t: nat, c: nat, pc': Pc)
    requires Mutexes(s) && Objects(s) && t in s.pcs && s.pcs[t].RemoveFree? && s.pcs[t].c == c
    requires pc'.Idle? || pc'.RemoveEnter?
    requires Edits(s, s', t, pc', c, s.Client(c).(stage := Freed))
    requires s'.table == s.table && s'.open == s.open && s'.frees == s.frees + [c]
    ensures Objects(s')
  {
    hide Pointers, Stages, Descriptors, Mutexes, Justified, Distinct;
    FreeIsAlone(s, t, c);
    var o := s.Client(c).(stage := Freed);
    EditPointers(s, s', t, pc', c, o);
    EditStages(s, s', t, pc', c, o);
    EditFreedOnce(s, s', c, o);
    EditDescriptors(s, s', t, pc', c, o);
  }

  lemma NextQuiet(s: State, m: Move)
    requires Inv(s) && Enabled(s, m)
    requires var pc := s.pcs[m.tid];
             && !(pc.Idle? && (m.choice.Accept? || m.choice.Name?)) && !pc.AddEnter? && !pc.RemoveFree?
             && !(pc.RemoveEnter? && Fd(pc.fd) in s.table)
    ensures Objects(Next(s, m))
  {
    hide Pointers, Stages, Descriptors, FreedOnce, Locks, Mutexes, Justified, Closed;
    QuietObjects(s, Next(s, m), m.tid, Then(s, s.pcs[m.tid], m.choice));
  }

  lemma NextInv(s: State, m: Move)
    requires Inv(s) && Enabled(s, m)
    ensures Inv(Next(s, m))
  {
    hide Pointers, Stages, Indexes, Descriptors, FreedOnce, Mutexes, Refers;
    NextLocks(s, m);
    NextMutexes(s, m);
    var t, pc, choice, s' := m.tid, s.pcs[m.tid], m.choice, Next(s, m);
    if pc.Idle? && choice.Accept? {
      AcceptObjects(s, s', t, choice.c, choice.fd);
    } else if pc.Idle? && choice.Name? {
      NameObjects(s, s', t, choice.fd, choice.name);
    } else if pc.AddEnter? {
      AddObjects(s, s', t, pc.c);
    } else if pc.RemoveEnter? && Fd(pc.fd) in s.table {
      RemoveObjects(s, s', t, pc);
    } else if pc.RemoveFree? {
      FreeObjects(s, s', t, pc.c, Resume(pc.rest));
    } else {
      NextQuiet(s, m);
    }
  }

  // ---- Whole runs -------------------------------------------------------------------------

  /** Every move of the schedule is one its thread may make at that point. */
  ghost predicate Legal(s: State, schedule: seq<Move>)
    decreases |schedule|
  {
    schedule == [] || (Enabled(s, schedule[0]) && Legal(Next(s, schedule[0]), schedule[1..]))
  }

  ghost function After(s: State, schedule: seq<Move>): (end: State)
    requires Legal(s, schedule)
    decreases |schedule|
  {
    if schedule == [] then s else After(Next(s, schedule[0]), schedule[1..])
  }

  lemma {:induction false} RunInv(s: State, schedule: seq<Move>)
    requires Inv(s) && Legal(s, schedule)
    ensures Inv(After(s, schedule)) && s.frees <= After(s, schedule).frees
    decreases |schedule|
  {
    hide Enabled, Then, Table, Heap, Inv;
    if schedule != [] {
      NextInv(s, schedule[0]);
      RunInv(Next(s, schedule[0]), schedule[1..]);
    }
  }

  lemma ReachableInv(s: State, schedule: seq<Move>)
    requires Init(s) && Legal(s, schedule)
    ensures Inv(After(s, schedule))
  {
    RunInv(s, schedule);
  }

  /**
    Removal is safe: whenever a thread of any run is about to free a client, nobody holds its mutex,
    nobody else has a pointer to it, no key leads to it, and it has not been freed before.
   */
  lemma RemovalIsSafe(s: State, schedule: seq<Move>, t: nat)
    requires Init(s) && Legal(s, schedule)
    requires t in After(s, schedule).pcs && After(s, schedule).pcs[t].RemoveFree?
    ensures var e := After(s, schedule); var c := e.pcs[t].c;
            && c in e.heap && c !in e.frees && c !in e.owner
            && (forall u :: u in e.pcs && u != t ==> !Refers(e.pcs[u], c))
            && (forall k :: k in e.table ==> e.table[k] != c)
  {
    hide Enabled, Next, Then, Table, Heap, Locks, Mutexes, Pointers, Stages, Indexes, Descriptors;
    ReachableInv(s, schedule);
    FreeIsAlone(After(s, schedule), t, After(s, schedule).pcs[t].c);
  }

  lemma FreedIsGone(e: State, c: nat)
    requires Mutexes(e) && Pointers(e) && Indexes(e) && FreedOnce(e) && c in e.frees
    ensures forall u :: u in e.pcs ==> !Refers(e.pcs[u], c)
    ensures forall k :: k in e.table ==> e.table[k] != c
    ensures c !in e.owner
  {
    assert forall u :: u in e.pcs && Refers(e.pcs[u], c) ==> Justified(e, u, e.pcs[u], c);
    assert forall u :: u in e.pcs && c in Mutex(e.pcs[u]) ==> Refers(e.pcs[u], c);
  }

  /** Once freed, never reached again: at every later point no thread, key or mutex leads to the client. */
  lemma FreedIsUnreachable(s: State, schedule: seq<Move>, later: seq<Move>, c: nat)
    requires Init(s) && Legal(s, schedule) && c in After(s, schedule).frees
    requires Legal(After(s, schedule), later)
    ensures var e := After(After(s, schedule), later);
            && Distinct(e.frees) && c in e.frees
            && (forall u :: u in e.pcs ==> !Refers(e.pcs[u], c))
            && (forall k :: k in e.table ==> e.table[k] != c)
            && c !in e.owner
  {
    hide Enabled, Next, Then, Table, Heap, Locks, Mutexes, Pointers, Stages, Indexes, Descriptors;
    ReachableInv(s, schedule);
    RunInv(After(s, schedule), later);
    FreedIsGone(After(After(s, schedule), later), c);
  }

  function Bit(b: bool): nat {
    if b then 1 else 0
  }

  lemma FateFromStage(e: State, c: nat)
    requires Pointers(e) && Stages(e) && Indexes(e) && FreedOnce(e) && c in e.heap
    ensures (exists t :: t in e.pcs && e.pcs[t] == AddEnter(c)) <==> e.heap[c].stage.Fresh?
    ensures (Fd(e.heap[c].fd) in e.table && e.table[Fd(e.heap[c].fd)] == c) <==> e.heap[c].stage.Linked?
    ensures (exists t :: t in e.pcs && Removing(e.pcs[t], c)) <==> e.heap[c].stage.Unlinked?
    ensures c in e.frees <==> e.heap[c].stage.Freed?
    ensures forall t, u :: t in e.pcs && u in e.pcs && Removing(e.pcs[t], c) && Removing(e.pcs[u], c) ==> t == u
  {
    assert forall t :: t in e.pcs && Removing(e.pcs[t], c) ==> Refers(e.pcs[t], c);
    assert forall t :: t in e.pcs && Refers(e.pcs[t], c) ==> Justified(e, t, e.pcs[t], c);
    assert forall t :: t in e.pcs && e.pcs[t] == AddEnter(c) ==> Refers(e.pcs[t], c);
  }

  /** No client is lost or removed twice: each is being added, listed under its descriptor, being removed, or freed. */
  lemma OneFate(s: State, schedule: seq<Move>, c: nat)
    requires Init(s) && Legal(s, schedule) && c in After(s, schedule).heap
    ensures var e := After(s, schedule);
            && Bit(exists t :: t in e.pcs && e.pcs[t] == AddEnter(c))
               + Bit(Fd(e.heap[c].fd) in e.table && e.table[Fd(e.heap[c].fd)] == c)
               + Bit(exists t :: t in e.pcs && Removing(e.pcs[t], c))
               + Bit(c in e.frees) == 1
            && (forall t, u :: t in e.pcs && u in e.pcs && Removing(e.pcs[t], c) && Removing(e.pcs[u], c) ==> t == u)
  {
    hide Enabled, Next, Then, Table, Heap, Locks, Mutexes, Pointers, Stages, Indexes, Descriptors;
    ReachableInv(s, schedule);
    FateFromStage(After(s, schedule), c);
  }

  /** In every run: both indexes lead to live clients, and client_add finds its own key unused. */
  lemma IndexesAgree(s: State, schedule: seq<Move>)
    requires Init(s) && Legal(s, schedule)
    ensures var e := After(s, schedule);
            && (forall k :: k in e.table ==> e.table[k] in e.heap && e.table[k] !in e.frees)
            && (forall n :: Fd(n) in e.table ==> e.heap[e.table[Fd(n)]].fd == n && n in e.open)
            && (forall h :: Host(h) in e.table ==>
                  var c := e.table[Host(h)];
                  e.heap[c].host == h && Fd(e.heap[c].fd) in e.table && e.table[Fd(e.heap[c].fd)] == c)
            && (forall t :: t in e.pcs && e.pcs[t].AddEnter? ==>
                  e.pcs[t].c in e.heap && Fd(e.heap[e.pcs[t].c].fd) !in e.table)
  {
    hide Enabled, Next, Then, Table, Heap, Locks, Mutexes, Pointers, Stages;
    ReachableInv(s, schedule);
    var e := After(s, schedule);
    forall t | t in e.pcs && e.pcs[t].AddEnter?
      ensures e.pcs[t].c in e.heap && Fd(e.heap[e.pcs[t].c].fd) !in e.table
    {
      AddIsNew(e, t, e.pcs[t].c);
    }
    assert forall c :: c in e.heap && e.heap[c].stage.Linked? ==> !Closed(e, c);
  }
}
