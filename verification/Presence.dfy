/**
  Whose descriptors are subscribed, whatever the console is told: the exact condition on a run for
  every subscribed descriptor to have an authenticated owner in every state.
 */
module Presence {
  import opened Broker
  import opened Dispatch
  import opened PubSub
  import opened Registry
  import Commands
  import LineBuffer
  import Rbac

  ghost predicate Seated(r: Registry<nat>, auth: set<nat>, d: Desk) {
    forall fd, topic :: fd in Subscribers(d.topics, topic) ==> Present(r, auth, fd)
  }

  /** Every subscribed descriptor is that of a registered, authenticated client. */
  ghost predicate AllPresent(s: State) {
    Seated(s.people.registry, s.people.auth, s.desk)
  }

  ghost predicate Settled(s: State) {
    PeopleInv(s.people, s.net.lobby) && Tabled(s.desk) && AllPresent(s)
  }

  // ---- Events ------------------------------------------------------------------------------

  /** The event subscribes nobody but a present client, under a name that fits. */
  predicate Tame(r: Registry<nat>, auth: set<nat>, e: Event) {
    e.Subscribed? ==> |e.topic| <= PubSub.NAME_MAX && Present(r, auth, e.fd)
  }

  lemma PlaySeated(r: Registry<nat>, auth: set<nat>, d: Desk, e: Event)
    requires Tabled(d) && Seated(r, auth, d) && Tame(r, auth, e)
    ensures Tabled(Play(d, e)) && Seated(r, auth, Play(d, e))
  {
    hide Tabled, Subscribers, WellFormed, Present, Play;
    PlayTabled(d, e);
    forall fd, topic | fd in Subscribers(Play(d, e).topics, topic)
      ensures Present(r, auth, fd)
    {
      PlayEffect(d, e, fd, topic);
    }
  }

  predicate AllTame(r: Registry<nat>, auth: set<nat>, events: seq<Event>) {
    forall i :: 0 <= i < |events| ==> Tame(r, auth, events[i])
  }

  lemma {:induction false} PlayAllSeated(r: Registry<nat>, auth: set<nat>, d: Desk, events: seq<Event>)
    requires Tabled(d) && Seated(r, auth, d) && AllTame(r, auth, events)
    ensures Tabled(PlayAll(d, events)) && Seated(r, auth, PlayAll(d, events))
    decreases |events|
  {
    hide Tabled, Seated, Tame, Play;
    if events != [] {
      PlaySeated(r, auth, d, events[0]);
      PlayAllSeated(r, auth, Play(d, events[0]), events[1..]);
    }
  }

  lemma BroadcastTame(r: Registry<nat>, auth: set<nat>, d: Desk, topic: string, payload: string, origin: Origin)
    ensures AllTame(r, auth, Broadcast(r, d, topic, payload, origin))
  {
    hide Publish, Present;
  }

  lemma EffectsTame(rules: Rules, c: Caller, auth: set<nat>, d: Desk, cmd: Commands.Command)
    requires Serves(c.registry, auth, c) && |cmd.topic| <= PubSub.NAME_MAX
    ensures AllTame(c.registry, auth, Effects(rules, c, d, cmd))
  {
    hide Broadcast, FdKey, Rbac.MaySet, Rbac.MayPublish, Rbac.MaySubscribe;
    BroadcastTame(c.registry, auth, d, cmd.topic, cmd.payload, Agent(c.host));
  }

  lemma {:induction false} ServeSeated(rules: Rules, c: Caller, auth: set<nat>, d: Desk, lines: seq<string>)
    requires Serves(c.registry, auth, c) && Tabled(d) && Seated(c.registry, auth, d)
    ensures Tabled(Serve(rules, c, d, lines)) && Seated(c.registry, auth, Serve(rules, c, d, lines))
    decreases |lines|
  {
    hide Tabled, Seated, Serves, Effects, PlayAll, AllTame, Commands.Scan, Commands.Chomp;
    if lines != [] {
      var cmd := Commands.Scan(Commands.Chomp(lines[0]));
      EffectsTame(rules, c, auth, d, cmd);
      PlayAllSeated(c.registry, auth, d, Effects(rules, c, d, cmd));
      ServeSeated(rules, c, auth, Obey(rules, c, d, lines[0]), lines[1..]);
    }
  }

  // ---- Changes of the registry -------------------------------------------------------------

  lemma SeatedCarry(s: State, s': State)
    requires AllPresent(s) && s'.desk.topics == s.desk.topics
    requires forall x, topic :: x in Subscribers(s.desk.topics, topic) ==>
               Undisturbed(s.people.registry, s.people.auth, s'.people.registry, s'.people.auth, x)
    ensures AllPresent(s')
  {
    hide Subscribers, FdKey;
    forall x, topic | x in Subscribers(s'.desk.topics, topic)
      ensures Present(s'.people.registry, s'.people.auth, x)
    {
      assert x in Subscribers(s.desk.topics, topic);
      assert Undisturbed(s.people.registry, s.people.auth, s'.people.registry, s'.people.auth, x);
    }
  }

  lemma EnrollSettled(s: State, fd: nat, now: int)
    requires Settled(s) && FdKey(fd) !in s.people.registry.table
    ensures AllPresent(s.(people := Enroll(s.people, fd, now)))
  {
    hide Consistent, FdKey, Subscribers, GoodHost, Tabled;
    var p := Enroll(s.people, fd, now);
    assert forall x: int :: Undisturbed(s.people.registry, s.people.auth, p.registry, p.auth, x);
    SeatedCarry(s, s.(people := p));
  }

  lemma TrustSettled(s: State, fd: nat, name: string)
    requires Settled(s) && Known(s.people, fd) && Owner(s.people, fd) !in s.people.auth && GoodHost(name)
    ensures Tabled(Trust(s, fd, name).desk) && AllPresent(Trust(s, fd, name))
  {
    hide FdKey, Subscribers, Tabled, PeopleInv, Undisturbed, GoodHost, Authenticate;
    PlayTabled(s.desk, Verified(Owner(s.people, fd), fd, name));
    var p := Authenticate(s.people, fd, name);
    forall x, topic | x in Subscribers(s.desk.topics, topic)
      ensures Undisturbed(s.people.registry, s.people.auth, p.registry, p.auth, x)
    {
      TrustOthers(s, fd, name, x);
    }
    SeatedCarry(s, Trust(s, fd, name));
  }

  lemma DiscardSettled(s: State, fd: nat)
    requires Settled(s) && Known(s.people, fd)
    requires Owner(s.people, fd) !in s.people.auth || forall topic :: fd !in Subscribers(s.desk.topics, topic)
    ensures AllPresent(Discard(s, fd))
  {
    hide Consistent, FdKey, Subscribers, Tabled, PeopleInv, Undisturbed;
    var p := Discard(s, fd).people;
    forall x, topic | x in Subscribers(s.desk.topics, topic)
      ensures Undisturbed(s.people.registry, s.people.auth, p.registry, p.auth, x)
    {
      DiscardOthers(s, fd, x);
    }
    SeatedCarry(s, Discard(s, fd));
  }

  lemma DropSettled(s: State, fd: nat)
    requires Settled(s)
    ensures Tabled(Drop(s, fd).desk) && AllPresent(Drop(s, fd))
  {
    hide FdKey, Subscribers, Tabled, PeopleInv, Play, Present;
    var s1 := s.(desk := Play(s.desk, Dropped(fd)));
    PlaySeated(s.people.registry, s.people.auth, s.desk, Dropped(fd));
    PlayTabled(s.desk, Dropped(fd));
    forall topic
      ensures fd !in Subscribers(s1.desk.topics, topic)
    {
      if fd in Subscribers(s1.desk.topics, topic) {
        PlayEffect(s.desk, Dropped(fd), fd, topic);
      }
    }
    if Known(s.people, fd) {
      DiscardSettled(s1, fd);
    }
  }

  lemma ConverseSettled(rules: Rules, s: State, fd: nat, chunk: string, now: int)
    requires Settled(s) && Known(s.people, fd) && Owner(s.people, fd) in s.people.auth
    ensures var s' := Converse(rules, s, fd, chunk, now); Tabled(s'.desk) && AllPresent(s')
  {
    hide PeopleInv, Tabled, FdKey, Serves, Serve, LineBuffer.Append, Subscribers;
    var id := Owner(s.people, fd);
    var d := LineBuffer.Drain(LineBuffer.Append(Buffered(s.people, id), chunk));
    var p := Receive(s.people, fd, d.rest, now);
    assert forall x: int :: Undisturbed(s.people.registry, s.people.auth, p.registry, p.auth, x);
    SeatedCarry(s, s.(people := p));
    ReceiveKeeps(s.people, s.net.lobby, fd, d.rest, now);
    CallerServes(p, s.net.lobby, fd);
    hide Seated;
    ServeSeated(rules, Caller(p.registry, id, fd, p.registry.records[id].host), p.auth, s.desk, d.lines);
  }

  lemma HandleSettled(rules: Rules, s: State, fd: nat, handshake: Handshake, input: Input, now: int)
    requires Settled(s) && (handshake.Trusted? ==> GoodHost(handshake.name))
    ensures var s' := Handle(rules, s, fd, handshake, input, now); Tabled(s'.desk) && AllPresent(s')
  {
    hide PeopleInv, Tabled, Seated, FdKey, Converse, Authenticate, Play, GoodHost;
    if Known(s.people, fd) {
      if Owner(s.people, fd) !in s.people.auth {
        match handshake
        case Pending =>
        case Failed => DiscardSettled(s, fd);
        case Rejected => DiscardSettled(s, fd);
        case Trusted(name) => TrustSettled(s, fd, name);
      } else {
        match input
        case WantRead =>
        case Ended => DropSettled(s, fd);
        case Data(chunk) => ConverseSettled(rules, s, fd, chunk, now);
      }
    }
  }

  // ---- A console command that names a descriptor key ---------------------------------------

  lemma SubscribePresent(r: Registry<nat>, auth: set<nat>, d: Desk, e: Event)
    requires WellFormed(d.topics) && Seated(r, auth, d) && e.Subscribed? && |e.topic| <= PubSub.NAME_MAX
    ensures Seated(r, auth, Play(d, e)) <==> Present(r, auth, e.fd) || !Room(d.topics, e.topic)
  {
    hide FdKey, Subscribers, WellFormed, Room, Subscribe, Find, Present;
    forall x, topic | x in Subscribers(Play(d, e).topics, topic)
      ensures Present(r, auth, x) || (x == e.fd && Room(d.topics, e.topic))
    {
      SubscribeEffect(d.topics, e.fd, e.topic, topic);
    }
    SubscribeEffect(d.topics, e.fd, e.topic, e.topic);
    if !Present(r, auth, e.fd) && Room(d.topics, e.topic) {
      assert e.fd in Subscribers(Play(d, e).topics, e.topic);
    }
  }

  /**
    A console SUBSCRIBE leaves every subscribed descriptor with an authenticated owner exactly when the
    name it is given leads to nobody, to an authenticated client, or to a topic with no room.
   */
  lemma ConsoleSubscribeExact(rules: Rules, s: State, host: string, topic: string)
    requires Settled(s)
    ensures var m := ConsoleSubscribe(host, topic);
            && Tabled(Next(rules, s, m).desk)
            && (AllPresent(Next(rules, s, m)) <==> Harmless(s, m))
  {
    hide FdKey, Seated, Tabled, PeopleInv, Room, WellFormed, Present, Play;
    var ids, t := Addressee(s.people, host), Rbac.Cut(topic, Commands.TOPIC_WIDTH);
    if ids != [] {
      var rec := s.people.registry.records[ids[0]];
      var e := Subscribed(ids[0], rec.fd, rec.host, t, Console);
      assert ConsoleEvent(s.people, host, topic, true) == [e];
      PlayOne(s.desk, e);
      PlayTabled(s.desk, e);
      RecordPresent(s.people, s.net.lobby, ids[0]);
      SubscribePresent(s.people.registry, s.people.auth, s.desk, e);
    }
  }

  // ---- Every run ---------------------------------------------------------------------------

  /** A step from a settled state leaves every subscriber present exactly when it is harmless. */
  lemma NextPresent(rules: Rules, s: State, m: Move)
    requires Settled(s) && Enabled(s, m)
    ensures Tabled(Next(rules, s, m).desk)
    ensures AllPresent(Next(rules, s, m)) <==> Harmless(s, m)
  {
    hide PeopleInv, Tabled, Seated, FdKey, Handle, Enroll, Drop, PlayAll, ConsoleEvent, Collects, GoodHost,
         Broadcast, Room, Play, Tame;
    var r, auth := s.people.registry, s.people.auth;
    match m
    case AcceptVault(fd, now) => EnrollSettled(s, fd, now);
    case Finish(task, handshake, input, now) =>
      if task.Vault? {
        HandleSettled(rules, Release(s, task), task.fd, handshake, input, now);
      }
    case SweepNext => DropSettled(s, s.sweeping[0]);
    case ConsoleSubscribe(host, topic) => ConsoleSubscribeExact(rules, s, host, topic);
    case ConsoleUnsubscribe(host, topic) => UnsubscribeTame(s.people, host, topic);
      PlayAllSeated(r, auth, s.desk, ConsoleEvent(s.people, host, topic, false));
    case ConsolePublish(topic, payload) => BroadcastTame(r, auth, s.desk, topic, payload, Console);
      PlayAllSeated(r, auth, s.desk, Broadcast(r, s.desk, topic, payload, Console));
    case ConsoleSet(host, key, value) => SilentTame(r, auth, ConsoleValue(host, key, value));
      PlaySeated(r, auth, s.desk, ConsoleValue(host, key, value));
    case _ =>
  }

  lemma UnsubscribeTame(p: People, host: string, topic: string)
    ensures AllTame(p.registry, p.auth, ConsoleEvent(p, host, topic, false))
  {
    hide Present;
  }

  lemma SilentTame(r: Registry<nat>, auth: set<nat>, e: Event)
    requires !e.Subscribed?
    ensures Tame(r, auth, e)
  {
  }

  /** The console names clients by hostname, not by a descriptor key. */
  predicate ByName(m: Move) {
    m.ConsoleSubscribe? ==> !("fd:" <= m.host)
  }

  /** A console command that names a hostname is harmless. */
  lemma NameIsHarmless(s: State, m: Move)
    requires PeopleInv(s.people, s.net.lobby) && ByName(m)
    ensures Harmless(s, m)
  {
    hide PeopleInv, FdKey, Room;
    if m.ConsoleSubscribe? && Addressee(s.people, m.host) != [] {
      AddresseePresent(s.people, s.net.lobby, m.host);
    }
  }

  /** In every state of the run, every subscribed descriptor has a registered, authenticated owner. */
  ghost predicate AlwaysPresent(rules: Rules, s: State, moves: seq<Move>)
    requires Legal(rules, s, moves)
    decreases |moves|
  {
    AllPresent(s) && (moves != [] ==> AlwaysPresent(rules, Next(rules, s, moves[0]), moves[1..]))
  }

  lemma {:induction false} RunPresent(rules: Rules, s: State, moves: seq<Move>)
    requires Settled(s) && Legal(rules, s, moves)
    ensures AlwaysPresent(rules, s, moves) <==> AllHarmless(rules, s, moves)
    decreases |moves|
  {
    hide PeopleInv, Tabled, AllPresent, Harmless, Enabled, Next;
    if moves != [] {
      NextPeople(rules, s, moves[0]);
      NextPresent(rules, s, moves[0]);
      if Harmless(s, moves[0]) {
        RunPresent(rules, Next(rules, s, moves[0]), moves[1..]);
      } else {
        assert !AllPresent(Next(rules, s, moves[0]));
      }
    }
  }

  /**
    Every subscribed descriptor has a registered, authenticated owner in every state of a run if and
    only if each console SUBSCRIBE in it leads to nobody, to an authenticated client, or to a topic
    with no room. A hostname always does; a descriptor key need not.
   */
  lemma SubscriptionsExact(rules: Rules, moves: seq<Move>)
    requires Legal(rules, EMPTY, moves)
    ensures AlwaysPresent(rules, EMPTY, moves) <==> AllHarmless(rules, EMPTY, moves)
  {
    EmptyInv(rules);
    assert Settled(EMPTY);
    hide Legal, Settled, AlwaysPresent, AllHarmless;
    RunPresent(rules, EMPTY, moves);
  }

  // ---- Rightful subscriptions --------------------------------------------------------------

  /** In every state of the run, every subscriber is entitled: present, and rightfully subscribed itself. */
  ghost predicate AlwaysEntitled(rules: Rules, s: State, moves: seq<Move>)
    requires Legal(rules, s, moves)
    decreases |moves|
  {
    && AllEntitled(rules, s.people.registry, s.people.auth, s.desk)
    && (moves != [] ==> AlwaysEntitled(rules, Next(rules, s, moves[0]), moves[1..]))
  }

  lemma EntitledIsPresent(rules: Rules, s: State)
    requires AllEntitled(rules, s.people.registry, s.people.auth, s.desk)
    ensures AllPresent(s)
  {
    hide Subscribers, Granted, FdKey;
    forall fd, topic | fd in Subscribers(s.desk.topics, topic)
      ensures Present(s.people.registry, s.people.auth, fd)
    {
      assert Entitled(rules, s.people.registry, s.people.auth, s.desk.trace, fd, topic);
    }
  }

  lemma InvSettled(rules: Rules, s: State)
    requires Inv(rules, s)
    ensures Settled(s) && AllEntitled(rules, s.people.registry, s.people.auth, s.desk)
  {
    hide PeopleInv, Tabled, Sound, AllVerified, AllEntitled, Seated;
    EntitledIsPresent(rules, s);
  }

  lemma {:induction false} RunEntitled(rules: Rules, s: State, moves: seq<Move>)
    requires Inv(rules, s) && Legal(rules, s, moves)
    ensures AlwaysEntitled(rules, s, moves) <==> AllHarmless(rules, s, moves)
    decreases |moves|
  {
    hide PeopleInv, Orderly, Settled, AllPresent, AllEntitled, Harmless, Enabled, Next;
    InvSettled(rules, s);
    if moves != [] {
      var m, s' := moves[0], Next(rules, s, moves[0]);
      if Harmless(s, m) {
        NextPeople(rules, s, m);
        NextOrderly(rules, s, m);
        RunEntitled(rules, s', moves[1..]);
      } else {
        NextPresent(rules, s, m);
        if AllEntitled(rules, s'.people.registry, s'.people.auth, s'.desk) {
          EntitledIsPresent(rules, s');
        }
      }
    }
  }

  /**
    Every subscriber is entitled in every state of a run, its latest event on the topic a rightful
    subscription of that very connection, if and only if each console SUBSCRIBE is harmless.
   */
  lemma EntitlementExact(rules: Rules, moves: seq<Move>)
    requires Legal(rules, EMPTY, moves)
    ensures AlwaysEntitled(rules, EMPTY, moves) <==> AllHarmless(rules, EMPTY, moves)
  {
    hide Legal, AlwaysEntitled, AllHarmless, Inv;
    EmptyInv(rules);
    RunEntitled(rules, EMPTY, moves);
  }

  predicate AllByName(moves: seq<Move>) {
    forall i :: 0 <= i < |moves| ==> ByName(moves[i])
  }

  /** A run whose console names hostnames is harmless throughout. */
  lemma {:induction false} NamesAreHarmless(rules: Rules, s: State, moves: seq<Move>)
    requires PeopleInv(s.people, s.net.lobby) && Legal(rules, s, moves) && AllByName(moves)
    ensures AllHarmless(rules, s, moves)
    decreases |moves|
  {
    hide PeopleInv, Enabled, Next, Harmless, ByName;
    if moves != [] {
      NameIsHarmless(s, moves[0]);
      NextPeople(rules, s, moves[0]);
      NamesAreHarmless(rules, Next(rules, s, moves[0]), moves[1..]);
    }
  }
}
