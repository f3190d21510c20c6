/**
  The broker as one step machine: the event loop of main.c, the workers of worker.c, the sweeper and
  the console. A worker's task, one removal of the sweep and a console command are single steps.
 */
module Broker {
  import opened Dispatch
  import opened PubSub
  import opened Registry
  import opened Strings
  import Commands
  import LineBuffer
  import Rbac
  import TaskQueue

  const TIMEOUT: int := 60

  datatype Task = Vault(fd: nat) | Lobby(fd: nat)

  /** The clients: the registry, who is authenticated, and what each has sent of an unfinished line. */
  datatype People = People(registry: Registry<nat>, next: nat, auth: set<nat>, buffers: map<nat, string>)

  /** Descriptors armed in epoll (lobby ones negated), tasks queued and tasks being handled, open lobby sockets. */
  datatype Net = Net(armed: set<int>, queue: seq<Task>, handled: multiset<Task>, lobby: set<nat>)

  datatype State = State(people: People, net: Net, desk: Desk, sweeping: seq<nat>)

  const EMPTY: State :=
    State(People(Registry(map[], map[]), 0, {}, map[]), Net({}, [], multiset{}, {}), Desk([], []), [])

  // ---- Steps -------------------------------------------------------------------------------

  /** What SSL_accept and the identity check report. */
  datatype Handshake = Pending | Failed | Rejected | Trusted(name: string)

  /** What SSL_read reports. */
  datatype Input = WantRead | Ended | Data(chunk: string)

  datatype Move =
    | AcceptVault(fd: nat, now: int)
    | AcceptLobby(fd: nat)
    | Ready(ev: int)
    | Take
    | Finish(task: Task, handshake: Handshake, input: Input, now: int)
    | Collect(now: int, fds: seq<nat>)
    | SweepNext
    | ConsoleSubscribe(host: string, topic: string)
    | ConsoleUnsubscribe(host: string, topic: string)
    | ConsolePublish(topic: string, payload: string)
    | ConsoleSet(host: string, key: string, value: string)

  predicate Known(p: People, fd: nat) {
    FdKey(fd) in p.registry.table && p.registry.table[FdKey(fd)] in p.registry.records
  }

  function Owner(p: People, fd: nat): nat
    requires Known(p, fd)
  {
    p.registry.table[FdKey(fd)]
  }

  function Enroll(p: People, fd: nat, now: int): People {
    People(Add(p.registry, p.next, fd, now), p.next + 1, p.auth, p.buffers[p.next := ""])
  }

  function Authenticate(p: People, fd: nat, name: string): People
    requires Known(p, fd)
  {
    p.(registry := SetHostname(p.registry, fd, name), auth := p.auth + {Owner(p, fd)})
  }

  function Receive(p: People, fd: nat, rest: string, now: int): People
    requires Known(p, fd)
  {
    p.(registry := Touch(p.registry, fd, now), buffers := p.buffers[Owner(p, fd) := rest])
  }

  /** client_remove, and what closing the socket does to epoll. */
  function Discard(s: State, fd: nat): State {
    if !Known(s.people, fd) then s
    else
      var p, id := s.people, Owner(s.people, fd);
      s.(people := People(Remove(p.registry, fd), p.next, p.auth - {id}, p.buffers - {id}),
         net := s.net.(armed := s.net.armed - {fd}))
  }

  /** pubsub_unsubscribe_all and then client_remove. */
  function Drop(s: State, fd: nat): State {
    Discard(s.(desk := Play(s.desk, Dropped(fd))), fd)
  }

  function Arm(s: State, fd: nat): State {
    s.(net := s.net.(armed := s.net.armed + {fd}))
  }

  /** Lobby sockets stand in epoll under their negated descriptor. */
  function Negated(fd: nat): int {
    0 - fd
  }

  function TaskOf(ev: int): Task {
    if ev < 0 then Lobby(-ev) else Vault(ev)
  }

  function Buffered(p: People, id: nat): string {
    if id in p.buffers then p.buffers[id] else ""
  }

  ghost function Converse(rules: Rules, s: State, fd: nat, chunk: string, now: int): State
    requires Known(s.people, fd)
  {
    var id := Owner(s.people, fd);
    var d := LineBuffer.Drain(LineBuffer.Append(Buffered(s.people, id), chunk));
    var p := Receive(s.people, fd, d.rest, now);
    s.(people := p, desk := Serve(rules, Caller(p.registry, id, fd, p.registry.records[id].host), s.desk, d.lines))
  }

  function Trust(s: State, fd: nat, name: string): State
    requires Known(s.people, fd)
  {
    s.(people := Authenticate(s.people, fd, name),
       desk := Play(s.desk, Verified(Owner(s.people, fd), fd, name)))
  }

  ghost function Handle(rules: Rules, s: State, fd: nat, handshake: Handshake, input: Input, now: int): State {
    if !Known(s.people, fd) then s
    else if Owner(s.people, fd) !in s.people.auth then
      match handshake
      case Pending => Arm(s, fd)
      case Failed => Discard(s, fd)
      case Rejected => Discard(s, fd)
      case Trusted(name) => Arm(Trust(s, fd, name), fd)
    else
      match input
      case WantRead => Arm(s, fd)
      case Ended => Drop(s, fd)
      case Data(chunk) => Arm(Converse(rules, s, fd, chunk, now), fd)
  }

  function Release(s: State, task: Task): State {
    s.(net := s.net.(handled := s.net.handled - multiset{task}))
  }

  /** The client the console's hostname leads to. */
  function Addressee(p: People, host: string): (r: seq<nat>)
    ensures forall id :: id in r ==> id in p.registry.records
  {
    var h := Rbac.Cut(host, 127);
    if h in p.registry.table && p.registry.table[h] in p.registry.records then [p.registry.table[h]] else []
  }

  function ConsoleEvent(p: People, host: string, topic: string, subscribe: bool): seq<Event> {
    var ids, t := Addressee(p, host), Rbac.Cut(topic, Commands.TOPIC_WIDTH);
    if ids == [] then []
    else
      var rec := p.registry.records[ids[0]];
      [if subscribe then Subscribed(ids[0], rec.fd, rec.host, t, Console) else Unsubscribed(rec.fd, t)]
  }

  /** The console stores a value for any host under any key: no permission is asked. */
  function ConsoleValue(host: string, key: string, value: string): Event {
    StateSet(Rbac.Cut(host, 127), Rbac.Cut(key, Commands.TOPIC_WIDTH), value, Console)
  }

  predicate Free(s: State, fd: nat) {
    fd > 0 && FdKey(fd) !in s.people.registry.table && fd !in s.net.lobby
  }

  ghost predicate Enabled(s: State, m: Move) {
    match m
    case AcceptVault(fd, _) => Free(s, fd)
    case AcceptLobby(fd) => Free(s, fd)
    case Ready(ev) => ev in s.net.armed && |s.net.queue| < TaskQueue.QUEUE_MAX_SIZE
    case Take => s.net.queue != []
    case Finish(task, handshake, input, _) =>
      && task in s.net.handled
      && (handshake.Trusted? ==> GoodHost(handshake.name))
      && (input.Data? ==> 0 < |input.chunk| <= 1023)
    case Collect(now, fds) => s.sweeping == [] && Collects(s.people.registry, now, TIMEOUT, fds)
    case SweepNext => s.sweeping != []
    case ConsoleSubscribe(_, _) => true
    case ConsoleUnsubscribe(_, _) => true
    case ConsolePublish(_, _) => true
    case ConsoleSet(_, _, _) => true
  }

  ghost function Next(rules: Rules, s: State, m: Move): State
    requires Enabled(s, m)
  {
    match m
    case AcceptVault(fd, now) => Arm(s.(people := Enroll(s.people, fd, now)), fd)
    case AcceptLobby(fd) => s.(net := s.net.(armed := s.net.armed + {Negated(fd)}, lobby := s.net.lobby + {fd}))
    case Ready(ev) => s.(net := s.net.(armed := s.net.armed - {ev}, queue := s.net.queue + [TaskOf(ev)]))
    case Take => s.(net := s.net.(queue := s.net.queue[1..], handled := s.net.handled + multiset{s.net.queue[0]}))
    case Finish(task, handshake, input, now) =>
      var s1 := Release(s, task);
      if task.Vault? then Handle(rules, s1, task.fd, handshake, input, now)
      else s1.(net := s1.net.(lobby := s1.net.lobby - {task.fd}, armed := s1.net.armed - {Negated(task.fd)}))
    case Collect(_, fds) => s.(sweeping := fds)
    case SweepNext => Drop(s, s.sweeping[0]).(sweeping := s.sweeping[1..])
    case ConsoleSubscribe(host, topic) => s.(desk := PlayAll(s.desk, ConsoleEvent(s.people, host, topic, true)))
    case ConsoleUnsubscribe(host, topic) => s.(desk := PlayAll(s.desk, ConsoleEvent(s.people, host, topic, false)))
    case ConsolePublish(topic, payload) =>
      s.(desk := PlayAll(s.desk, Broadcast(s.people.registry, s.desk, topic, payload, Console)))
    case ConsoleSet(host, key, value) => s.(desk := Play(s.desk, ConsoleValue(host, key, value)))
  }

  /** Every move of the schedule is possible when its turn comes. */
  ghost predicate Legal(rules: Rules, s: State, moves: seq<Move>)
    decreases |moves|
  {
    moves == [] || (Enabled(s, moves[0]) && Legal(rules, Next(rules, s, moves[0]), moves[1..]))
  }

  ghost function Outcome(rules: Rules, s: State, moves: seq<Move>): State
    requires Legal(rules, s, moves)
    decreases |moves|
  {
    if moves == [] then s else Outcome(rules, Next(rules, s, moves[0]), moves[1..])
  }

  // ---- The clients -------------------------------------------------------------------------

  /** Both indexes agree; only an authenticated client has a name; descriptors are positive and not lobby sockets. */
  ghost predicate PeopleInv(p: People, lobby: set<nat>) {
    && Consistent(p.registry)
    && p.auth <= p.registry.records.Keys == p.buffers.Keys
    && (forall id :: id in p.registry.records ==> RecordInv(p, id, lobby))
    && (forall fd :: fd in lobby ==> fd > 0)
  }

  predicate RecordInv(p: People, id: nat, lobby: set<nat>)
    requires id in p.registry.records
  {
    var rec := p.registry.records[id];
    && id < p.next && rec.fd > 0 && rec.fd !in lobby
    && (if id in p.auth then GoodHost(rec.host) else rec.host == "")
  }

  lemma EnrollKeeps(p: People, lobby: set<nat>, fd: nat, now: int)
    requires PeopleInv(p, lobby) && fd > 0 && fd !in lobby && FdKey(fd) !in p.registry.table
    ensures PeopleInv(Enroll(p, fd, now), lobby)
  {
    hide Consistent, FdKey;
    AddConsistent(p.registry, p.next, fd, now);
  }

  lemma AuthenticateKeeps(p: People, lobby: set<nat>, fd: nat, name: string)
    requires PeopleInv(p, lobby) && Known(p, fd) && Owner(p, fd) !in p.auth && GoodHost(name)
    ensures PeopleInv(Authenticate(p, fd, name), lobby)
  {
    hide Consistent, FdKey, GoodHost;
    SetHostnameConsistent(p.registry, fd, name);
  }

  lemma ReceiveKeeps(p: People, lobby: set<nat>, fd: nat, rest: string, now: int)
    requires PeopleInv(p, lobby) && Known(p, fd)
    ensures PeopleInv(Receive(p, fd, rest, now), lobby)
  {
    hide Consistent, FdKey, GoodHost;
    TouchConsistent(p.registry, fd, now);
  }

  lemma DiscardKeeps(s: State, fd: nat)
    requires PeopleInv(s.people, s.net.lobby)
    ensures PeopleInv(Discard(s, fd).people, s.net.lobby)
  {
    hide Consistent, FdKey, GoodHost;
    RemoveConsistent(s.people.registry, fd);
  }

  // ---- The desk ----------------------------------------------------------------------------

  ghost predicate Orderly(rules: Rules, s: State) {
    DeskInv(rules, s.people.registry, s.people.auth, s.desk)
  }

  lemma EnrollDesk(rules: Rules, s: State, fd: nat, now: int)
    requires PeopleInv(s.people, s.net.lobby) && Orderly(rules, s) && FdKey(fd) !in s.people.registry.table
    ensures Orderly(rules, s.(people := Enroll(s.people, fd, now)))
  {
    hide Consistent, FdKey, Subscribers, GoodHost, Sound, AllEntitled, After, Calls;
    var p := Enroll(s.people, fd, now);
    assert forall x: int :: Undisturbed(s.people.registry, s.people.auth, p.registry, p.auth, x);
    Carry(rules, s.people.registry, s.people.auth, p.registry, p.auth, s.desk);
  }

  lemma ReceiveDesk(rules: Rules, s: State, fd: nat, rest: string, now: int)
    requires Orderly(rules, s) && Known(s.people, fd)
    ensures Orderly(rules, s.(people := Receive(s.people, fd, rest, now)))
  {
    hide Consistent, FdKey, Subscribers, GoodHost, Sound, AllEntitled, After, Calls;
    var p := Receive(s.people, fd, rest, now);
    assert forall x: int :: Undisturbed(s.people.registry, s.people.auth, p.registry, p.auth, x);
    Carry(rules, s.people.registry, s.people.auth, p.registry, p.auth, s.desk);
  }

  /** Authenticating a client disturbs nobody else. */
  lemma TrustOthers(s: State, fd: nat, name: string, x: int)
    requires PeopleInv(s.people, s.net.lobby)
    requires Known(s.people, fd) && Owner(s.people, fd) !in s.people.auth && GoodHost(name)
    ensures var p := Authenticate(s.people, fd, name);
            Undisturbed(s.people.registry, s.people.auth, p.registry, p.auth, x)
  {
    hide Consistent, FdKey;
    FdKeyOwner(s.people.registry, fd);
  }

  lemma TrustDesk(rules: Rules, s: State, fd: nat, name: string)
    requires PeopleInv(s.people, s.net.lobby) && Orderly(rules, s)
    requires Known(s.people, fd) && Owner(s.people, fd) !in s.people.auth && GoodHost(name)
    ensures Orderly(rules, Trust(s, fd, name))
  {
    hide Consistent, FdKey, Subscribers, Sound, AllEntitled, After, Calls;
    var id, p := Owner(s.people, fd), Authenticate(s.people, fd, name);
    PlayKeeps(rules, s.people.registry, s.people.auth, s.desk, Verified(id, fd, name));
    FdKeyOwner(s.people.registry, fd);
    assert forall x: int :: Undisturbed(s.people.registry, s.people.auth, p.registry, p.auth, x);
    Carry(rules, s.people.registry, s.people.auth, p.registry, p.auth, Trust(s, fd, name).desk);
  }

  /** Removing a client disturbs nobody else. */
  lemma DiscardOthers(s: State, fd: nat, x: int)
    requires PeopleInv(s.people, s.net.lobby) && Known(s.people, fd)
    requires x != fd || Owner(s.people, fd) !in s.people.auth
    ensures var p := Discard(s, fd).people; Undisturbed(s.people.registry, s.people.auth, p.registry, p.auth, x)
  {
    hide Consistent, FdKey;
    RemoveIsRestrict(s.people.registry, fd);
    FdKeyOwner(s.people.registry, fd);
  }

  lemma DiscardDesk(rules: Rules, s: State, fd: nat)
    requires PeopleInv(s.people, s.net.lobby) && Orderly(rules, s) && Known(s.people, fd)
    requires Owner(s.people, fd) !in s.people.auth || forall topic :: fd !in Subscribers(s.desk.topics, topic)
    ensures Orderly(rules, Discard(s, fd))
  {
    hide Consistent, FdKey, Subscribers, GoodHost, Sound, AllEntitled, After, Calls, Undisturbed;
    var p := Discard(s, fd).people;
    RemoveIsRestrict(s.people.registry, fd);
    forall x, topic | x in Subscribers(s.desk.topics, topic)
      ensures Undisturbed(s.people.registry, s.people.auth, p.registry, p.auth, x)
    {
      DiscardOthers(s, fd, x);
    }
    Carry(rules, s.people.registry, s.people.auth, p.registry, p.auth, s.desk);
  }

  lemma DropDesk(rules: Rules, s: State, fd: nat)
    requires PeopleInv(s.people, s.net.lobby) && Orderly(rules, s)
    ensures Orderly(rules, Drop(s, fd))
  {
    hide Consistent, FdKey, Subscribers, GoodHost, Sound, AllEntitled, AllVerified, After, Calls;
    PlayKeeps(rules, s.people.registry, s.people.auth, s.desk, Dropped(fd));
    var s1 := s.(desk := Play(s.desk, Dropped(fd)));
    AfterWellFormed(Calls(s.desk.trace));
    forall topic
      ensures fd !in Subscribers(s1.desk.topics, topic)
    {
      if fd in Subscribers(s1.desk.topics, topic) {
        PlayEffect(s.desk, Dropped(fd), fd, topic);
      }
    }
    if Known(s.people, fd) {
      DiscardDesk(rules, s1, fd);
    }
  }

  ghost predicate Inv(rules: Rules, s: State) {
    PeopleInv(s.people, s.net.lobby) && Orderly(rules, s)
  }

  /** The registered, authenticated owner of a descriptor is the caller its commands are run for. */
  lemma CallerServes(p: People, lobby: set<nat>, fd: nat)
    requires PeopleInv(p, lobby) && Known(p, fd) && Owner(p, fd) in p.auth
    ensures var id := Owner(p, fd); Serves(p.registry, p.auth, Caller(p.registry, id, fd, p.registry.records[id].host))
  {
    hide Consistent, FdKey;
    FdKeyOwner(p.registry, fd);
  }

  lemma ConverseDesk(rules: Rules, s: State, fd: nat, chunk: string, now: int)
    requires Inv(rules, s) && Known(s.people, fd) && Owner(s.people, fd) in s.people.auth
    ensures Orderly(rules, Converse(rules, s, fd, chunk, now))
  {
    hide PeopleInv, DeskInv, FdKey, Serves, Serve, LineBuffer.Append;
    var id := Owner(s.people, fd);
    var d := LineBuffer.Drain(LineBuffer.Append(Buffered(s.people, id), chunk));
    var p := Receive(s.people, fd, d.rest, now);
    ReceiveKeeps(s.people, s.net.lobby, fd, d.rest, now);
    ReceiveDesk(rules, s, fd, d.rest, now);
    CallerServes(p, s.net.lobby, fd);
    ServeKeeps(rules, Caller(p.registry, id, fd, p.registry.records[id].host), p.auth, s.desk, d.lines);
  }

  lemma HandlePeople(rules: Rules, s: State, fd: nat, handshake: Handshake, input: Input, now: int)
    requires PeopleInv(s.people, s.net.lobby) && (handshake.Trusted? ==> GoodHost(handshake.name))
    ensures var s' := Handle(rules, s, fd, handshake, input, now);
            PeopleInv(s'.people, s.net.lobby) && s'.net.lobby == s.net.lobby
  {
    hide PeopleInv, FdKey, Authenticate, Receive, Play, GoodHost, Serve, LineBuffer.Append;
    if Known(s.people, fd) {
      if Owner(s.people, fd) !in s.people.auth {
        match handshake
        case Pending =>
        case Failed => DiscardKeeps(s, fd);
        case Rejected => DiscardKeeps(s, fd);
        case Trusted(name) => AuthenticateKeeps(s.people, s.net.lobby, fd, name);
      } else {
        match input
        case WantRead =>
        case Ended => DropPeople(s, fd);
        case Data(chunk) =>
          var d := LineBuffer.Drain(LineBuffer.Append(Buffered(s.people, Owner(s.people, fd)), chunk));
          ReceiveKeeps(s.people, s.net.lobby, fd, d.rest, now);
      }
    }
  }

  lemma HandleDesk(rules: Rules, s: State, fd: nat, handshake: Handshake, input: Input, now: int)
    requires Inv(rules, s) && (handshake.Trusted? ==> GoodHost(handshake.name))
    ensures Orderly(rules, Handle(rules, s, fd, handshake, input, now))
  {
    hide PeopleInv, DeskInv, FdKey, Converse, Authenticate, Play, GoodHost;
    if Known(s.people, fd) {
      if Owner(s.people, fd) !in s.people.auth {
        match handshake
        case Pending =>
        case Failed => DiscardDesk(rules, s, fd);
        case Rejected => DiscardDesk(rules, s, fd);
        case Trusted(name) => TrustDesk(rules, s, fd, name);
      } else {
        match input
        case WantRead =>
        case Ended => DropDesk(rules, s, fd);
        case Data(chunk) => ConverseDesk(rules, s, fd, chunk, now);
      }
    }
  }

  lemma DropPeople(s: State, fd: nat)
    requires PeopleInv(s.people, s.net.lobby)
    ensures PeopleInv(Drop(s, fd).people, s.net.lobby) && Drop(s, fd).net.lobby == s.net.lobby
  {
    hide PeopleInv, FdKey, Play;
    DiscardKeeps(s.(desk := Play(s.desk, Dropped(fd))), fd);
  }

  /** A hostname leads to an authenticated client, registered under its own descriptor. */
  lemma AddresseePresent(p: People, lobby: set<nat>, host: string)
    requires PeopleInv(p, lobby) && !("fd:" <= host) && Addressee(p, host) != []
    ensures var id := Addressee(p, host)[0];
            id in p.auth && Present(p.registry, p.auth, p.registry.records[id].fd)
            && p.registry.table[FdKey(p.registry.records[id].fd)] == id
  {
    hide FdKey, GoodHost;
    var h, id := Rbac.Cut(host, 127), Addressee(p, host)[0];
    assert !("fd:" <= h);
    assert RecordInv(p, id, lobby);
  }

  /** The name leads to nobody, to an authenticated client, or to a topic with no room. */
  predicate Harmless(s: State, m: Move) {
    m.ConsoleSubscribe? ==>
      var ids := Addressee(s.people, m.host);
      ids == [] || ids[0] in s.people.auth || !Room(s.desk.topics, Rbac.Cut(m.topic, Commands.TOPIC_WIDTH))
  }

  lemma RecordPresent(p: People, lobby: set<nat>, id: nat)
    requires PeopleInv(p, lobby) && id in p.registry.records
    ensures var fd := p.registry.records[id].fd;
            && FdKey(fd) in p.registry.table && p.registry.table[FdKey(fd)] == id
            && (Present(p.registry, p.auth, fd) <==> id in p.auth)
  {
    hide FdKey;
  }

  lemma ConsoleDesk(rules: Rules, s: State, host: string, topic: string, subscribe: bool)
    requires Inv(rules, s) && (subscribe ==> Harmless(s, ConsoleSubscribe(host, topic)))
    ensures Orderly(rules, s.(desk := PlayAll(s.desk, ConsoleEvent(s.people, host, topic, subscribe))))
  {
    hide PeopleInv, DeskInv, FdKey, Play, Room, Present;
    var events := ConsoleEvent(s.people, host, topic, subscribe);
    if events != [] {
      var id := Addressee(s.people, host)[0];
      RecordPresent(s.people, s.net.lobby, id);
      assert events == [events[0]];
      PlayKeeps(rules, s.people.registry, s.people.auth, s.desk, events[0]);
      PlayOne(s.desk, events[0]);
    }
  }

  lemma LobbyOpens(p: People, lobby: set<nat>, fd: nat)
    requires PeopleInv(p, lobby) && fd > 0 && FdKey(fd) !in p.registry.table
    ensures PeopleInv(p, lobby + {fd})
  {
    hide FdKey, GoodHost;
  }

  lemma NextPeople(rules: Rules, s: State, m: Move)
    requires PeopleInv(s.people, s.net.lobby) && Enabled(s, m)
    ensures var s' := Next(rules, s, m); PeopleInv(s'.people, s'.net.lobby)
  {
    hide PeopleInv, FdKey, Handle, Enroll, Drop, PlayAll, ConsoleEvent, Collects, GoodHost, Broadcast;
    match m
    case AcceptVault(fd, now) => EnrollKeeps(s.people, s.net.lobby, fd, now);
    case AcceptLobby(fd) => LobbyOpens(s.people, s.net.lobby, fd);
    case Finish(task, handshake, input, now) =>
      if task.Vault? {
        HandlePeople(rules, Release(s, task), task.fd, handshake, input, now);
      } else {
        LobbyCloses(s.people, s.net.lobby, task.fd);
      }
    case SweepNext => DropPeople(s, s.sweeping[0]);
    case _ =>
  }

  lemma NextOrderly(rules: Rules, s: State, m: Move)
    requires Inv(rules, s) && Enabled(s, m) && Harmless(s, m)
    ensures Orderly(rules, Next(rules, s, m))
  {
    hide PeopleInv, DeskInv, FdKey, Handle, Enroll, Drop, PlayAll, ConsoleEvent, Collects, GoodHost, Broadcast,
         Harmless;
    match m
    case AcceptVault(fd, now) => EnrollDesk(rules, s, fd, now);
    case Finish(task, handshake, input, now) =>
      if task.Vault? {
        HandleDesk(rules, Release(s, task), task.fd, handshake, input, now);
      }
    case SweepNext => DropDesk(rules, s, s.sweeping[0]);
    case ConsoleSubscribe(host, topic) => ConsoleDesk(rules, s, host, topic, true);
    case ConsoleUnsubscribe(host, topic) => ConsoleDesk(rules, s, host, topic, false);
    case ConsolePublish(topic, payload) =>
      BroadcastKeeps(rules, s.people.registry, s.people.auth, s.desk, topic, payload, Console);
    case ConsoleSet(host, key, value) =>
      PlayKeeps(rules, s.people.registry, s.people.auth, s.desk, ConsoleValue(host, key, value));
    case _ =>
  }

  lemma LobbyCloses(p: People, lobby: set<nat>, fd: nat)
    requires PeopleInv(p, lobby)
    ensures PeopleInv(p, lobby - {fd})
  {
    hide FdKey, GoodHost, Consistent;
  }

  lemma {:induction false} RunPeople(rules: Rules, s: State, moves: seq<Move>)
    requires PeopleInv(s.people, s.net.lobby) && Legal(rules, s, moves)
    ensures var s' := Outcome(rules, s, moves); PeopleInv(s'.people, s'.net.lobby)
    decreases |moves|
  {
    hide PeopleInv, Enabled, Next;
    if moves != [] {
      NextPeople(rules, s, moves[0]);
      RunPeople(rules, Next(rules, s, moves[0]), moves[1..]);
    }
  }

  ghost predicate AllHarmless(rules: Rules, s: State, moves: seq<Move>)
    requires Legal(rules, s, moves)
    decreases |moves|
  {
    moves != [] ==> Harmless(s, moves[0]) && AllHarmless(rules, Next(rules, s, moves[0]), moves[1..])
  }

  lemma {:induction false} RunInv(rules: Rules, s: State, moves: seq<Move>)
    requires Inv(rules, s) && Legal(rules, s, moves) && AllHarmless(rules, s, moves)
    ensures Inv(rules, Outcome(rules, s, moves))
    decreases |moves|
  {
    hide PeopleInv, Orderly, Enabled, Next, Harmless;
    if moves != [] {
      NextPeople(rules, s, moves[0]);
      NextOrderly(rules, s, moves[0]);
      RunInv(rules, Next(rules, s, moves[0]), moves[1..]);
    }
  }

  lemma EmptyInv(rules: Rules)
    ensures Inv(rules, EMPTY)
  {
  }

  // ---- Every run ---------------------------------------------------------------------------

  /** In every run of harmless steps, a subscribed descriptor is that of a registered, authenticated client. */
  lemma SubscribersAuthenticated(rules: Rules, moves: seq<Move>, fd: int, topic: string)
    requires Legal(rules, EMPTY, moves) && AllHarmless(rules, EMPTY, moves)
    ensures var s := Outcome(rules, EMPTY, moves);
            fd in Subscribers(s.desk.topics, topic) ==>
              fd > 0 && Known(s.people, fd) && Owner(s.people, fd) in s.people.auth
              && s.people.registry.records[Owner(s.people, fd)].fd == fd
  {
    EmptyInv(rules);
    RunInv(rules, EMPTY, moves);
    hide Legal, Outcome, Subscribers, Granted, Sound, FdKey, After, Calls, Consistent, GoodHost;
    var s := Outcome(rules, EMPTY, moves);
    if fd in Subscribers(s.desk.topics, topic) {
      assert Entitled(rules, s.people.registry, s.people.auth, s.desk.trace, fd, topic);
    }
  }

  /** In every run of harmless steps, a connection on a reused descriptor starts with no subscription. */
  lemma ReuseStartsClean(rules: Rules, moves: seq<Move>, fd: nat, now: int, topic: string)
    requires Legal(rules, EMPTY, moves) && AllHarmless(rules, EMPTY, moves)
    requires Enabled(Outcome(rules, EMPTY, moves), AcceptVault(fd, now))
    ensures var s := Next(rules, Outcome(rules, EMPTY, moves), AcceptVault(fd, now));
            Known(s.people, fd) && Owner(s.people, fd) !in s.people.auth && fd !in Subscribers(s.desk.topics, topic)
  {
    SubscribersAuthenticated(rules, moves, fd, topic);
    EmptyInv(rules);
    RunInv(rules, EMPTY, moves);
    hide Legal, Outcome, Subscribers, DeskInv, FdKey, Consistent, GoodHost;
  }

  /**
    In every run of harmless steps, a publication is written once to each subscriber of the topic, in the
    order of the list; every one of them is a registered, authenticated connection.
   */
  lemma PublishReaches(rules: Rules, moves: seq<Move>, topic: string, payload: string, origin: Origin)
    requires Legal(rules, EMPTY, moves) && AllHarmless(rules, EMPTY, moves)
    ensures var s := Outcome(rules, EMPTY, moves); var subs := Subscribers(s.desk.topics, topic);
            var out := Broadcast(s.people.registry, s.desk, topic, payload, origin);
            && |out| == |subs| && Distinct(subs)
            && (forall i :: 0 <= i < |subs| ==>
                  && Present(s.people.registry, s.people.auth, subs[i])
                  && out[i] == SendOf(s.people.registry, subs[i], topic, payload, origin))
  {
    EmptyInv(rules);
    RunInv(rules, EMPTY, moves);
    hide Legal, Outcome, Subscribers, DeskInv, FdKey, PeopleInv, SendOf, Broadcast, Distinct;
    var s := Outcome(rules, EMPTY, moves);
    BroadcastExact(rules, s.people.registry, s.people.auth, s.desk, topic, payload, origin);
    SubscribersRegistered(rules, s.people.registry, s.people.auth, s.desk, topic);
  }

  /**
    In every run of harmless steps, each message was written to a connection that had passed verification under its
    hostname and whose latest event on that topic was a subscription, by its own permitted command or
    by the console; an agent's message was permitted and on the audit log before it was written.
   */
  lemma DeliveryProvenance(rules: Rules, moves: seq<Move>, k: nat)
    requires Legal(rules, EMPTY, moves) && AllHarmless(rules, EMPTY, moves)
    requires k < |Outcome(rules, EMPTY, moves).desk.trace| && Outcome(rules, EMPTY, moves).desk.trace[k].Sent?
    ensures var trace := Outcome(rules, EMPTY, moves).desk.trace; var e := trace[k]; var before := trace[..k];
            && Verified(e.id, e.fd, e.host) in before
            && (exists j: nat :: GrantedAt(rules, before, j, e.id, e.fd, e.host, e.topic))
            && (e.origin.Agent? ==>
                  && (exists id, fd :: Verified(id, fd, e.origin.host) in before)
                  && Rbac.MayPublish(rules.config, e.origin.host, e.topic)
                  && Logged(e.origin.host, e.topic, e.payload) in before)
  {
    EmptyInv(rules);
    RunInv(rules, EMPTY, moves);
    hide Legal, Outcome, AllEntitled, AllVerified, After, Calls, PeopleInv, GrantedAt, Rbac.MayPublish;
    var trace := Outcome(rules, EMPTY, moves).desk.trace;
    assert Rightful(rules, trace[..k], trace[k]);
  }
}

/** The one-shot token: who may take a connection's next input. */
module BrokerTokens {
  import opened Broker
  import opened Dispatch
  import opened Registry
  import PubSub

  function EventOf(task: Task): int {
    if task.Vault? then task.fd else Negated(task.fd)
  }

  /** The connection exists: registered for a vault socket, open for a lobby socket. */
  predicate Open(s: State, task: Task) {
    if task.Vault? then FdKey(task.fd) in s.people.registry.table else task.fd in s.net.lobby
  }

  function InFlight(s: State, task: Task): nat {
    multiset(s.net.queue)[task] + s.net.handled[task]
  }

  /** How many ways the connection's next input can reach a worker. */
  function Tokens(s: State, task: Task): nat {
    (if EventOf(task) in s.net.armed then 1 else 0) + InFlight(s, task)
  }

  predicate Heard(s: State, task: Task) {
    Open(s, task) ==> Tokens(s, task) >= 1
  }

  predicate Exclusive(s: State, task: Task) {
    Tokens(s, task) == if Open(s, task) then 1 else 0
  }

  // ---- Which connections exist after a step ------------------------------------------------

  lemma OpenDiscard(s: State, fd: nat, x: nat)
    requires PeopleInv(s.people, s.net.lobby)
    ensures Open(Discard(s, fd), Vault(x)) <==> Open(s, Vault(x)) && x != fd
  {
    hide FdKey, GoodHost;
    if Known(s.people, fd) {
      RemoveIsRestrict(s.people.registry, fd);
      FdKeyOwner(s.people.registry, fd);
      if FdKey(x) in s.people.registry.table {
        FdKeyOwner(s.people.registry, x);
      }
    }
  }

  lemma OpenEnroll(s: State, fd: nat, now: int, x: nat)
    ensures Open(s.(people := Enroll(s.people, fd, now)), Vault(x)) <==> Open(s, Vault(x)) || x == fd
  {
    hide FdKey;
    if FdKey(x) == FdKey(fd) {
      FdKeyInjective(x, fd);
    }
  }

  lemma OpenTrust(s: State, fd: nat, name: string, x: nat)
    requires Known(s.people, fd) && GoodHost(name)
    ensures Open(Trust(s, fd, name), Vault(x)) <==> Open(s, Vault(x))
  {
    assert "fd:" <= FdKey(x);
  }

  /** A worker's task ends with the connection armed again, or gone. */
  lemma HandleNet(rules: Rules, s: State, fd: nat, handshake: Handshake, input: Input, now: int, x: nat)
    requires PeopleInv(s.people, s.net.lobby) && (handshake.Trusted? ==> GoodHost(handshake.name))
    ensures var s' := Handle(rules, s, fd, handshake, input, now);
            && s'.net.queue == s.net.queue && s'.net.handled == s.net.handled && s'.net.lobby == s.net.lobby
            && (if !Known(s.people, fd) then s'.net.armed == s.net.armed && (Open(s', Vault(x)) <==> Open(s, Vault(x)))
                else if s'.net.armed == s.net.armed + {fd as int} then Open(s', Vault(x)) <==> Open(s, Vault(x))
                else
                  && s'.net.armed == s.net.armed - {fd as int}
                  && (Open(s', Vault(x)) <==> Open(s, Vault(x)) && x != fd))
  {
    hide FdKey, GoodHost, PeopleInv, Serve, PubSub.UnsubscribeAll;
    if Known(s.people, fd) {
      OpenDiscard(s, fd, x);
      OpenDiscard(s.(desk := Play(s.desk, Dropped(fd))), fd, x);
      if handshake.Trusted? {
        OpenTrust(s, fd, handshake.name, x);
      }
    }
  }

  // ---- One step ----------------------------------------------------------------------------

  lemma KnownIsOpen(p: People, lobby: set<nat>, fd: nat)
    requires PeopleInv(p, lobby)
    ensures Known(p, fd) <==> FdKey(fd) in p.registry.table
    ensures Known(p, fd) ==> fd > 0
  {
    hide FdKey, GoodHost;
    if Known(p, fd) {
      FdKeyOwner(p.registry, fd);
      assert RecordInv(p, Owner(p, fd), lobby);
    }
  }

  lemma FinishTokens(rules: Rules, s: State, m: Move, task: Task)
    requires PeopleInv(s.people, s.net.lobby) && m.Finish? && Enabled(s, m)
    ensures Heard(s, task) ==> Heard(Next(rules, s, m), task)
    ensures Exclusive(s, task) ==> Exclusive(Next(rules, s, m), task)
  {
    hide FdKey, GoodHost, Consistent, Handle, PeopleInv, Next, Heard, Exclusive, Enabled;
    if m.task.Vault? {
      FinishVault(rules, s, m, task);
    } else {
      FinishLobby(rules, s, m, task);
    }
  }

  lemma FinishVault(rules: Rules, s: State, m: Move, task: Task)
    requires PeopleInv(s.people, s.net.lobby) && m.Finish? && Enabled(s, m) && m.task.Vault?
    ensures Heard(s, task) ==> Heard(Next(rules, s, m), task)
    ensures Exclusive(s, task) ==> Exclusive(Next(rules, s, m), task)
  {
    hide FdKey, GoodHost, Consistent, Handle, PeopleInv;
    KnownIsOpen(s.people, s.net.lobby, m.task.fd);
    HandleNet(rules, Release(s, m.task), m.task.fd, m.handshake, m.input, m.now, task.fd);
  }

  lemma FinishLobby(rules: Rules, s: State, m: Move, task: Task)
    requires PeopleInv(s.people, s.net.lobby) && m.Finish? && Enabled(s, m) && m.task.Lobby?
    ensures Heard(s, task) ==> Heard(Next(rules, s, m), task)
    ensures Exclusive(s, task) ==> Exclusive(Next(rules, s, m), task)
  {
    hide FdKey, GoodHost, Consistent, Handle, PeopleInv;
    KnownIsOpen(s.people, s.net.lobby, m.task.fd);
  }

  lemma AcceptTokens(rules: Rules, s: State, m: Move, task: Task)
    requires Enabled(s, m) && (m.AcceptVault? || m.AcceptLobby?)
    ensures Heard(s, task) ==> Heard(Next(rules, s, m), task)
    ensures Exclusive(s, task) ==> Exclusive(Next(rules, s, m), task)
  {
    hide FdKey, Enroll;
    if m.AcceptVault? {
      OpenEnroll(s, m.fd, m.now, task.fd);
    }
  }

  lemma QueueTokens(q: seq<Task>, t: Task)
    ensures multiset(q + [t]) == multiset(q) + multiset{t}
    ensures q != [] ==> multiset(q) == multiset{q[0]} + multiset(q[1..])
  {
    if q != [] {
      assert q == [q[0]] + q[1..];
    }
  }

  lemma ReadyTokens(rules: Rules, s: State, ev: int, task: Task)
    requires PeopleInv(s.people, s.net.lobby) && Enabled(s, Ready(ev))
    ensures Heard(s, task) ==> Heard(Next(rules, s, Ready(ev)), task)
    ensures Exclusive(s, task) ==> Exclusive(Next(rules, s, Ready(ev)), task)
  {
    hide FdKey, Consistent, RecordInv;
    QueueTokens(s.net.queue, TaskOf(ev));
    KnownIsOpen(s.people, s.net.lobby, task.fd);
  }

  lemma TakeTokens(rules: Rules, s: State, task: Task)
    requires Enabled(s, Take)
    ensures Tokens(Next(rules, s, Take), task) == Tokens(s, task)
    ensures Open(Next(rules, s, Take), task) == Open(s, task)
  {
    hide FdKey;
    QueueTokens(s.net.queue, s.net.queue[0]);
  }

  /** Removing a connection takes its token away, unless the token is a task in flight. */
  lemma SweepTokens(rules: Rules, s: State, task: Task)
    requires PeopleInv(s.people, s.net.lobby) && Enabled(s, SweepNext)
    ensures Heard(s, task) ==> Heard(Next(rules, s, SweepNext), task)
    ensures Exclusive(s, task) ==>
              (Exclusive(Next(rules, s, SweepNext), task) <==> task != Vault(s.sweeping[0]) || InFlight(s, task) == 0)
  {
    hide FdKey, Consistent, RecordInv, PubSub.UnsubscribeAll;
    var fd := s.sweeping[0];
    OpenDiscard(s.(desk := Play(s.desk, Dropped(fd))), fd, task.fd);
    KnownIsOpen(s.people, s.net.lobby, fd);
  }

  /** The sweep does not remove a connection that has a task queued or in a worker's hands. */
  ghost predicate Patient(s: State, m: Move)
    requires Enabled(s, m)
  {
    m.SweepNext? ==> InFlight(s, Vault(s.sweeping[0])) == 0
  }

  lemma NextHeard(rules: Rules, s: State, m: Move, task: Task)
    requires PeopleInv(s.people, s.net.lobby) && Enabled(s, m) && Heard(s, task)
    ensures Heard(Next(rules, s, m), task)
  {
    hide Heard, Exclusive, PeopleInv, FdKey;
    if m.AcceptVault? || m.AcceptLobby? {
      AcceptTokens(rules, s, m, task);
    } else if m.Ready? {
      ReadyTokens(rules, s, m.ev, task);
    } else if m.Take? {
      assert Heard(Next(rules, s, m), task) by { TakeHeard(rules, s, task); }
    } else if m.Finish? {
      FinishTokens(rules, s, m, task);
    } else if m.SweepNext? {
      SweepTokens(rules, s, task);
    } else {
      SameTokens(s, Next(rules, s, m), task);
    }
  }

  lemma TakeHeard(rules: Rules, s: State, task: Task)
    requires Enabled(s, Take)
    ensures Heard(Next(rules, s, Take), task) == Heard(s, task)
    ensures Exclusive(Next(rules, s, Take), task) == Exclusive(s, task)
  {
    hide Tokens, Open, Next;
    TakeTokens(rules, s, task);
  }

  lemma SameTokens(s: State, s': State, task: Task)
    requires s'.net == s.net && s'.people == s.people
    ensures Heard(s', task) == Heard(s, task) && Exclusive(s', task) == Exclusive(s, task)
  {
  }

  /** A step keeps the token unique exactly when the sweep is patient. */
  lemma NextExclusive(rules: Rules, s: State, m: Move)
    requires PeopleInv(s.people, s.net.lobby) && Enabled(s, m) && forall task :: Exclusive(s, task)
    ensures (forall task :: Exclusive(Next(rules, s, m), task)) <==> Patient(s, m)
  {
    hide Heard, Exclusive, PeopleInv, FdKey, Next, InFlight;
    if m.SweepNext? {
      forall task
        ensures Exclusive(Next(rules, s, m), task) <==> task != Vault(s.sweeping[0]) || InFlight(s, task) == 0
      {
        SweepTokens(rules, s, task);
      }
      assert Exclusive(Next(rules, s, m), Vault(s.sweeping[0])) <==> InFlight(s, Vault(s.sweeping[0])) == 0;
    } else {
      forall task
        ensures Exclusive(Next(rules, s, m), task)
      {
        NextOther(rules, s, m, task);
      }
    }
  }

  lemma NextOther(rules: Rules, s: State, m: Move, task: Task)
    requires PeopleInv(s.people, s.net.lobby) && Enabled(s, m) && !m.SweepNext? && Exclusive(s, task)
    ensures Exclusive(Next(rules, s, m), task)
  {
    hide Heard, Exclusive, PeopleInv, FdKey;
    if m.AcceptVault? || m.AcceptLobby? {
      AcceptTokens(rules, s, m, task);
    } else if m.Ready? {
      ReadyTokens(rules, s, m.ev, task);
    } else if m.Take? {
      TakeHeard(rules, s, task);
    } else if m.Finish? {
      FinishTokens(rules, s, m, task);
    } else {
      SameTokens(s, Next(rules, s, m), task);
    }
  }

  // ---- Every run ---------------------------------------------------------------------------

  ghost predicate AllPatient(rules: Rules, s: State, moves: seq<Move>)
    requires Legal(rules, s, moves)
    decreases |moves|
  {
    moves != [] ==> Patient(s, moves[0]) && AllPatient(rules, Next(rules, s, moves[0]), moves[1..])
  }

  /** In every state of the run, each existing connection has exactly one token and no other has any. */
  ghost predicate AlwaysExclusive(rules: Rules, s: State, moves: seq<Move>)
    requires Legal(rules, s, moves)
    decreases |moves|
  {
    && (forall task :: Exclusive(s, task))
    && (moves != [] ==> AlwaysExclusive(rules, Next(rules, s, moves[0]), moves[1..]))
  }

  lemma {:induction false} RunHeard(rules: Rules, s: State, moves: seq<Move>, task: Task)
    requires PeopleInv(s.people, s.net.lobby) && Heard(s, task) && Legal(rules, s, moves)
    ensures Heard(Outcome(rules, s, moves), task)
    decreases |moves|
  {
    hide PeopleInv, Heard, Enabled, Next;
    if moves != [] {
      NextPeople(rules, s, moves[0]);
      NextHeard(rules, s, moves[0], task);
      RunHeard(rules, Next(rules, s, moves[0]), moves[1..], task);
    }
  }

  /** In every run, every existing connection is armed, queued or being handled: none goes deaf. */
  lemma NeverDeaf(rules: Rules, moves: seq<Move>, task: Task)
    requires Legal(rules, EMPTY, moves)
    ensures var s := Outcome(rules, EMPTY, moves);
            Open(s, task) ==> EventOf(task) in s.net.armed || task in s.net.queue || task in s.net.handled
  {
    EmptyInv(rules);
    RunHeard(rules, EMPTY, moves, task);
    hide Legal, Outcome, FdKey;
  }

  lemma {:induction false} RunExclusive(rules: Rules, s: State, moves: seq<Move>)
    requires PeopleInv(s.people, s.net.lobby) && Legal(rules, s, moves) && forall task :: Exclusive(s, task)
    ensures AlwaysExclusive(rules, s, moves) <==> AllPatient(rules, s, moves)
    decreases |moves|
  {
    hide PeopleInv, Exclusive, Enabled, Next, Patient;
    if moves != [] {
      var s' := Next(rules, s, moves[0]);
      NextPeople(rules, s, moves[0]);
      NextExclusive(rules, s, moves[0]);
      if forall task :: Exclusive(s', task) {
        RunExclusive(rules, s', moves[1..]);
      }
    }
  }

  /**
    A run keeps exactly one of armed, queued and handled for each existing connection throughout if
    and only if its sweeps never remove a connection with a task in flight.
   */
  lemma OneShotToken(rules: Rules, moves: seq<Move>)
    requires Legal(rules, EMPTY, moves)
    ensures AlwaysExclusive(rules, EMPTY, moves) <==> AllPatient(rules, EMPTY, moves)
  {
    EmptyInv(rules);
    RunExclusive(rules, EMPTY, moves);
  }
}
