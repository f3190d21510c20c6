/**
  What the record shows in every run, whatever the console is told: every agent had the right to what
  it caused, and the tables follow from the recorded calls.
 */
module Audit {
  import opened Broker
  import opened Dispatch
  import opened PubSub
  import opened Registry
  import Commands
  import LineBuffer
  import Rbac

  /** The event was permitted; with `strict`, moreover, a subscription is for a verified connection. */
  ghost predicate Allowed(strict: bool, rules: Rules, before: seq<Event>, e: Event) {
    && Permitted(rules, before, e)
    && (strict && e.Subscribed? ==> Verified(e.id, e.fd, e.host) in before)
  }

  ghost predicate AllAllowed(strict: bool, rules: Rules, trace: seq<Event>) {
    forall k :: 0 <= k < |trace| ==> Allowed(strict, rules, trace[..k], trace[k])
  }

  /** Nobody was verified under an empty hostname. */
  predicate AllNamed(trace: seq<Event>) {
    forall k :: 0 <= k < |trace| && trace[k].Verified? ==> trace[k].host != ""
  }

  ghost predicate Ledger(strict: bool, rules: Rules, r: Registry<nat>, auth: set<nat>, d: Desk) {
    && Tabled(d) && AllAllowed(strict, rules, d.trace) && AllVerified(r, auth, d.trace) && AllNamed(d.trace)
  }

  // ---- Events ------------------------------------------------------------------------------

  predicate Fitting(e: Event) {
    && (e.Subscribed? ==> |e.topic| <= PubSub.NAME_MAX)
    && (e.Verified? ==> e.host != "")
  }

  lemma AllowedNext(strict: bool, rules: Rules, trace: seq<Event>, e: Event)
    requires AllAllowed(strict, rules, trace) && Allowed(strict, rules, trace, e)
    ensures AllAllowed(strict, rules, trace + [e])
  {
    hide Allowed;
    var t := trace + [e];
    forall k | 0 <= k < |t|
      ensures Allowed(strict, rules, t[..k], t[k])
    {
      assert t[..k] == trace[..k];
    }
  }

  lemma PlayLedger(strict: bool, rules: Rules, r: Registry<nat>, auth: set<nat>, d: Desk, e: Event)
    requires Ledger(strict, rules, r, auth, d) && Allowed(strict, rules, d.trace, e) && Fitting(e)
    ensures Ledger(strict, rules, r, auth, Play(d, e))
  {
    hide Tabled, AllAllowed, Allowed, WellFormed, Subscribe, Unsubscribe, UnsubscribeAll;
    PlayTabled(d, e);
    AllowedNext(strict, rules, d.trace, e);
  }

  /** Messages of one publication. */
  predicate Copies(events: seq<Event>, topic: string, payload: string, origin: Origin) {
    forall i :: 0 <= i < |events| ==>
      && events[i].Sent? && events[i].topic == topic && events[i].payload == payload
      && events[i].origin == origin
  }

  lemma {:induction false} CopiesLedger(strict: bool, rules: Rules, r: Registry<nat>, auth: set<nat>, d: Desk,
                                        events: seq<Event>, topic: string, payload: string, origin: Origin)
    requires Ledger(strict, rules, r, auth, d) && Copies(events, topic, payload, origin)
    requires MaySend(rules, d.trace, topic, payload, origin)
    ensures Ledger(strict, rules, r, auth, PlayAll(d, events))
    decreases |events|
  {
    hide Ledger, MaySend;
    if events != [] {
      PlayLedger(strict, rules, r, auth, d, events[0]);
      MaySendLater(rules, d.trace, events[0], topic, payload, origin);
      CopiesLedger(strict, rules, r, auth, Play(d, events[0]), events[1..], topic, payload, origin);
    }
  }

  lemma BroadcastCopies(r: Registry<nat>, d: Desk, topic: string, payload: string, origin: Origin)
    ensures Copies(Broadcast(r, d, topic, payload, origin), topic, payload, origin)
  {
    hide Publish, FdKey;
  }

  lemma LedgerTrusted(strict: bool, rules: Rules, c: Caller, auth: set<nat>, d: Desk)
    requires Ledger(strict, rules, c.registry, auth, d) && Serves(c.registry, auth, c)
    ensures Verified(c.id, c.fd, c.host) in d.trace && Dispatch.Trusted(d.trace, c.host)
  {
    hide Tabled, AllAllowed, FdKey;
    assert Verified(c.id, c.registry.records[c.id].fd, c.host) in d.trace;
  }

  lemma PublishLedger(strict: bool, rules: Rules, c: Caller, auth: set<nat>, d: Desk, cmd: Commands.Command)
    requires Ledger(strict, rules, c.registry, auth, d) && Serves(c.registry, auth, c)
    requires Rbac.MayPublish(rules.config, c.host, cmd.topic)
    ensures var log := [Logged(c.host, cmd.topic, cmd.payload)];
            Ledger(strict, rules, c.registry, auth,
                   PlayAll(d, log + Broadcast(c.registry, d, cmd.topic, cmd.payload, Agent(c.host))))
  {
    hide Ledger, Rbac.MayPublish, Broadcast, Serves, Copies;
    var log := Logged(c.host, cmd.topic, cmd.payload);
    var more := Broadcast(c.registry, d, cmd.topic, cmd.payload, Agent(c.host));
    LedgerTrusted(strict, rules, c, auth, d);
    PlayLedger(strict, rules, c.registry, auth, d, log);
    assert Verified(c.id, c.fd, c.host) in d.trace + [log];
    assert MaySend(rules, d.trace + [log], cmd.topic, cmd.payload, Agent(c.host));
    BroadcastCopies(c.registry, d, cmd.topic, cmd.payload, Agent(c.host));
    assert ([log] + more)[1..] == more;
    CopiesLedger(strict, rules, c.registry, auth, Play(d, log), more, cmd.topic, cmd.payload, Agent(c.host));
  }

  lemma SubscribeLedger(strict: bool, rules: Rules, c: Caller, auth: set<nat>, d: Desk, cmd: Commands.Command)
    requires Ledger(strict, rules, c.registry, auth, d) && Serves(c.registry, auth, c)
    requires Rbac.MaySubscribe(rules.config, c.host, cmd.topic) && |cmd.topic| <= PubSub.NAME_MAX
    ensures Ledger(strict, rules, c.registry, auth,
                   PlayAll(d, [Logged(c.host, cmd.topic, cmd.payload),
                               Subscribed(c.id, c.fd, c.host, cmd.topic, Agent(c.host))]))
  {
    hide Ledger, Rbac.MaySubscribe, Serves, Subscribe, PlayAll;
    var log := Logged(c.host, cmd.topic, cmd.payload);
    var sub := Subscribed(c.id, c.fd, c.host, cmd.topic, Agent(c.host));
    LedgerTrusted(strict, rules, c, auth, d);
    PlayLedger(strict, rules, c.registry, auth, d, log);
    assert Verified(c.id, c.fd, c.host) in d.trace + [log] && log in d.trace + [log];
    PlayLedger(strict, rules, c.registry, auth, Play(d, log), sub);
    PlayTwo(d, log, sub);
  }

  lemma ObeyLedger(strict: bool, rules: Rules, c: Caller, auth: set<nat>, d: Desk, line: string)
    requires Ledger(strict, rules, c.registry, auth, d) && Serves(c.registry, auth, c)
    ensures Ledger(strict, rules, c.registry, auth, Obey(rules, c, d, line))
  {
    hide Ledger, Rbac.MaySubscribe, Rbac.MayPublish, Rbac.MaySet, Serves, Broadcast, Commands.Scan, Commands.Chomp,
         Play;
    LedgerTrusted(strict, rules, c, auth, d);
    var cmd := Commands.Scan(Commands.Chomp(line));
    var events := Effects(rules, c, d, cmd);
    if |events| == 1 && !(cmd.items == 3 && cmd.name == "PUBLISH") {
      PlayLedger(strict, rules, c.registry, auth, d, events[0]);
      PlayOne(d, events[0]);
      assert events == [events[0]];
    } else if cmd.items == 3 && cmd.name == "PUBLISH" && Rbac.MayPublish(rules.config, c.host, cmd.topic) {
      PublishLedger(strict, rules, c, auth, d, cmd);
    } else if cmd.items >= 2 && cmd.name == "SUBSCRIBE" && Rbac.MaySubscribe(rules.config, c.host, cmd.topic) {
      SubscribeLedger(strict, rules, c, auth, d, cmd);
    }
  }

  lemma {:induction false} ServeLedger(strict: bool, rules: Rules, c: Caller, auth: set<nat>, d: Desk,
                                       lines: seq<string>)
    requires Ledger(strict, rules, c.registry, auth, d) && Serves(c.registry, auth, c)
    ensures Ledger(strict, rules, c.registry, auth, Serve(rules, c, d, lines))
    decreases |lines|
  {
    hide Ledger, Serves, Obey;
    if lines != [] {
      ObeyLedger(strict, rules, c, auth, d, lines[0]);
      ServeLedger(strict, rules, c, auth, Obey(rules, c, d, lines[0]), lines[1..]);
    }
  }

  // ---- Steps -------------------------------------------------------------------------------

  ghost predicate Kept(strict: bool, rules: Rules, s: State) {
    Ledger(strict, rules, s.people.registry, s.people.auth, s.desk)
  }

  /** The console's name leads to nobody or to an authenticated client. */
  predicate Leads(s: State, m: Move) {
    m.ConsoleSubscribe? ==> var ids := Addressee(s.people, m.host); ids == [] || ids[0] in s.people.auth
  }

  lemma EnrollKept(strict: bool, rules: Rules, s: State, fd: nat, now: int)
    requires PeopleInv(s.people, s.net.lobby) && Kept(strict, rules, s)
    ensures Kept(strict, rules, s.(people := Enroll(s.people, fd, now)))
  {
    hide Tabled, AllAllowed, AllNamed, Consistent, FdKey, GoodHost;
  }

  lemma TrustKept(strict: bool, rules: Rules, s: State, fd: nat, name: string)
    requires PeopleInv(s.people, s.net.lobby) && Kept(strict, rules, s) && Known(s.people, fd) && GoodHost(name)
    requires Owner(s.people, fd) !in s.people.auth
    ensures Kept(strict, rules, Trust(s, fd, name))
  {
    hide Tabled, AllAllowed, AllNamed, Consistent, FdKey, RecordInv;
    FdKeyOwner(s.people.registry, fd);
    PlayLedger(strict, rules, s.people.registry, s.people.auth, s.desk, Verified(Owner(s.people, fd), fd, name));
  }

  lemma DiscardKept(strict: bool, rules: Rules, s: State, fd: nat)
    requires PeopleInv(s.people, s.net.lobby) && Kept(strict, rules, s)
    ensures Kept(strict, rules, Discard(s, fd))
  {
    hide Tabled, AllAllowed, AllNamed, Consistent, FdKey, RecordInv;
    if Known(s.people, fd) {
      RemoveIsRestrict(s.people.registry, fd);
    }
  }

  lemma DropKept(strict: bool, rules: Rules, s: State, fd: nat)
    requires PeopleInv(s.people, s.net.lobby) && Kept(strict, rules, s)
    ensures Kept(strict, rules, Drop(s, fd))
  {
    hide PeopleInv, Ledger, Play, FdKey, Discard;
    PlayLedger(strict, rules, s.people.registry, s.people.auth, s.desk, Dropped(fd));
    DiscardKept(strict, rules, s.(desk := Play(s.desk, Dropped(fd))), fd);
  }

  lemma ReceiveKept(strict: bool, rules: Rules, s: State, fd: nat, rest: string, now: int)
    requires Kept(strict, rules, s) && Known(s.people, fd)
    ensures Kept(strict, rules, s.(people := Receive(s.people, fd, rest, now)))
  {
    hide Tabled, AllAllowed, AllNamed, FdKey;
  }

  lemma ConverseKept(strict: bool, rules: Rules, s: State, fd: nat, chunk: string, now: int)
    requires PeopleInv(s.people, s.net.lobby) && Kept(strict, rules, s)
    requires Known(s.people, fd) && Owner(s.people, fd) in s.people.auth
    ensures Kept(strict, rules, Converse(rules, s, fd, chunk, now))
  {
    hide PeopleInv, Ledger, FdKey, Serves, Serve, LineBuffer.Append;
    var id := Owner(s.people, fd);
    var d := LineBuffer.Drain(LineBuffer.Append(Buffered(s.people, id), chunk));
    var p := Receive(s.people, fd, d.rest, now);
    ReceiveKeeps(s.people, s.net.lobby, fd, d.rest, now);
    ReceiveKept(strict, rules, s, fd, d.rest, now);
    CallerServes(p, s.net.lobby, fd);
    ServeLedger(strict, rules, Caller(p.registry, id, fd, p.registry.records[id].host), p.auth, s.desk, d.lines);
  }

  lemma HandleKept(strict: bool, rules: Rules, s: State, fd: nat, handshake: Handshake, input: Input, now: int)
    requires PeopleInv(s.people, s.net.lobby) && Kept(strict, rules, s)
    requires handshake.Trusted? ==> GoodHost(handshake.name)
    ensures Kept(strict, rules, Handle(rules, s, fd, handshake, input, now))
  {
    hide PeopleInv, Ledger, FdKey, Converse, Authenticate, Play, GoodHost;
    if Known(s.people, fd) {
      if Owner(s.people, fd) !in s.people.auth {
        match handshake
        case Pending =>
        case Failed => DiscardKept(strict, rules, s, fd);
        case Rejected => DiscardKept(strict, rules, s, fd);
        case Trusted(name) => TrustKept(strict, rules, s, fd, name);
      } else {
        match input
        case WantRead =>
        case Ended => DropKept(strict, rules, s, fd);
        case Data(chunk) => ConverseKept(strict, rules, s, fd, chunk, now);
      }
    }
  }

  lemma ConsoleKept(strict: bool, rules: Rules, s: State, host: string, topic: string, subscribe: bool)
    requires PeopleInv(s.people, s.net.lobby) && Kept(strict, rules, s)
    requires strict && subscribe ==> Leads(s, ConsoleSubscribe(host, topic))
    ensures Kept(strict, rules, s.(desk := PlayAll(s.desk, ConsoleEvent(s.people, host, topic, subscribe))))
  {
    hide Tabled, AllAllowed, AllNamed, FdKey, PeopleInv, Play;
    var events := ConsoleEvent(s.people, host, topic, subscribe);
    if events != [] {
      PlayLedger(strict, rules, s.people.registry, s.people.auth, s.desk, events[0]);
      assert events == [events[0]];
      PlayOne(s.desk, events[0]);
    }
  }

  /** Every step keeps the ledger; the strict one, unless the console leads to an unauthenticated client. */
  lemma NextKept(strict: bool, rules: Rules, s: State, m: Move)
    requires PeopleInv(s.people, s.net.lobby) && Kept(strict, rules, s) && Enabled(s, m) && (strict ==> Leads(s, m))
    ensures Kept(strict, rules, Next(rules, s, m))
  {
    hide PeopleInv, Ledger, FdKey, Handle, Enroll, Drop, PlayAll, Play, ConsoleEvent, Collects, GoodHost, Broadcast,
         Leads, Copies;
    var r, auth := s.people.registry, s.people.auth;
    match m
    case AcceptVault(fd, now) => EnrollKept(strict, rules, s, fd, now);
    case Finish(task, handshake, input, now) =>
      if task.Vault? {
        HandleKept(strict, rules, Release(s, task), task.fd, handshake, input, now);
      }
    case SweepNext => DropKept(strict, rules, s, s.sweeping[0]);
    case ConsoleSubscribe(host, topic) => ConsoleKept(strict, rules, s, host, topic, true);
    case ConsoleUnsubscribe(host, topic) => ConsoleKept(strict, rules, s, host, topic, false);
    case ConsolePublish(topic, payload) =>
      BroadcastCopies(r, s.desk, topic, payload, Console);
      CopiesLedger(strict, rules, r, auth, s.desk, Broadcast(r, s.desk, topic, payload, Console),
                   topic, payload, Console);
    case ConsoleSet(host, key, value) =>
      PlayLedger(strict, rules, r, auth, s.desk, ConsoleValue(host, key, value));
    case _ =>
  }

  // ---- Every run ---------------------------------------------------------------------------

  lemma EmptyKept(strict: bool, rules: Rules)
    ensures Kept(strict, rules, EMPTY)
  {
  }

  lemma {:induction false} RunKept(rules: Rules, s: State, moves: seq<Move>)
    requires PeopleInv(s.people, s.net.lobby) && Kept(false, rules, s) && Legal(rules, s, moves)
    ensures Kept(false, rules, Outcome(rules, s, moves))
    decreases |moves|
  {
    hide PeopleInv, Kept, Enabled, Next;
    if moves != [] {
      NextPeople(rules, s, moves[0]);
      NextKept(false, rules, s, moves[0]);
      RunKept(rules, Next(rules, s, moves[0]), moves[1..]);
    }
  }

  lemma ReachedKept(rules: Rules, moves: seq<Move>)
    requires Legal(rules, EMPTY, moves)
    ensures Kept(false, rules, Outcome(rules, EMPTY, moves))
  {
    hide Legal, Outcome, Kept;
    EmptyInv(rules);
    EmptyKept(false, rules);
    RunKept(rules, EMPTY, moves);
  }

  /**
    In every run, whatever the console does: a message, stored value or subscription that does not come
    from the console comes from a verified agent with permission. The message was on the audit log
    before, the value is for the agent's own hostname, the subscription for its own verified connection.
   */
  lemma AgentsPermitted(rules: Rules, moves: seq<Move>, k: nat)
    requires Legal(rules, EMPTY, moves) && k < |Outcome(rules, EMPTY, moves).desk.trace|
    ensures var trace := Outcome(rules, EMPTY, moves).desk.trace; var e := trace[k]; var before := trace[..k];
            && (e.Sent? && e.origin != Console ==>
                  && (exists id, fd :: Verified(id, fd, e.origin.host) in before)
                  && Rbac.MayPublish(rules.config, e.origin.host, e.topic)
                  && Logged(e.origin.host, e.topic, e.payload) in before)
            && (e.StateSet? && e.origin != Console ==>
                  && e.origin == Agent(e.host) && Rbac.MaySet(rules.config, e.host, e.key)
                  && exists id, fd :: Verified(id, fd, e.host) in before)
            && (e.Subscribed? && e.origin != Console ==>
                  && e.origin == Agent(e.host) && Rbac.MaySubscribe(rules.config, e.host, e.topic)
                  && Verified(e.id, e.fd, e.host) in before && exists p :: Logged(e.host, e.topic, p) in before)
  {
    hide Legal, Outcome, Tabled, AllVerified, AllNamed, Rbac.MayPublish, Rbac.MaySet, Rbac.MaySubscribe;
    ReachedKept(rules, moves);
    var trace := Outcome(rules, EMPTY, moves).desk.trace;
    assert Allowed(false, rules, trace[..k], trace[k]);
  }

  /**
    In every run, whatever the console does: the tables are what the recorded calls make of them, and a
    publication is written once to each registered subscriber, in the order of the list, and to nobody
    else; the subscribers are those whose subscription is live in the recorded calls.
   */
  lemma PublishOnce(rules: Rules, moves: seq<Move>, topic: string, payload: string)
    requires Legal(rules, EMPTY, moves)
    ensures var s := Outcome(rules, EMPTY, moves); var calls := Calls(s.desk.trace);
            var subs, here := Subscribers(s.desk.topics, topic), Registered(s.people.registry);
            var out := Publish(s.desk.topics, here, topic, payload);
            && s.desk.topics == After(calls) && WellFormed(s.desk.topics) && Distinct(subs)
            && |out| == Rank(subs, here, |subs|)
            && (forall p :: 0 <= p < |subs| && subs[p] in here ==>
                  Rank(subs, here, p) < |out| && out[Rank(subs, here, p)] == Delivery(subs[p], Format(topic, payload)))
            && (forall fd: int :: fd in subs <==> exists i: nat :: Live(calls, i, fd, topic))
  {
    ReachedKept(rules, moves);
    var s := Outcome(rules, EMPTY, moves);
    hide Legal, Outcome, AllAllowed, AllVerified, AllNamed;
    TabledLists(s.desk, Calls(s.desk.trace), topic);
    DeliverExact(Subscribers(s.desk.topics, topic), Registered(s.people.registry), Format(topic, payload));
  }

  lemma TabledLists(d: Desk, calls: seq<Call>, topic: string)
    requires Tabled(d) && calls == Calls(d.trace)
    ensures WellFormed(d.topics) && Distinct(Subscribers(d.topics, topic))
    ensures forall fd: int :: fd in Subscribers(d.topics, topic) <==> exists i: nat :: Live(calls, i, fd, topic)
  {
    AfterWellFormed(calls);
    SubscribersWellFormed(d.topics, topic);
    forall fd: int
      ensures fd in Subscribers(d.topics, topic) <==> exists i: nat :: Live(calls, i, fd, topic)
    {
      SubscribedIff(calls, fd, topic);
    }
  }

  // ---- Subscriptions of verified connections -----------------------------------------------

  predicate VerifiedAt(trace: seq<Event>, k: nat)
    requires k < |trace|
  {
    trace[k].Subscribed? ==> Verified(trace[k].id, trace[k].fd, trace[k].host) in trace[..k]
  }

  /** Each recorded subscription was made for a connection verified before it. */
  ghost predicate SubscribersVerified(trace: seq<Event>) {
    forall k :: 0 <= k < |trace| ==> VerifiedAt(trace, k)
  }

  lemma StrictIsVerified(rules: Rules, s: State)
    requires Kept(false, rules, s)
    ensures Kept(true, rules, s) <==> SubscribersVerified(s.desk.trace)
  {
    hide Tabled, AllVerified, AllNamed, Permitted;
    var trace := s.desk.trace;
    if SubscribersVerified(trace) {
      forall k | 0 <= k < |trace|
        ensures Allowed(true, rules, trace[..k], trace[k])
      {
        assert VerifiedAt(trace, k) && Allowed(false, rules, trace[..k], trace[k]);
      }
    }
    if Kept(true, rules, s) {
      forall k | 0 <= k < |trace|
        ensures VerifiedAt(trace, k)
      {
        assert Allowed(true, rules, trace[..k], trace[k]);
      }
    }
  }

  /** The record only grows. */
  lemma {:induction false} ServeGrows(rules: Rules, c: Caller, d: Desk, lines: seq<string>)
    ensures d.trace <= Serve(rules, c, d, lines).trace
    decreases |lines|
  {
    hide Effects, PlayAll;
    if lines != [] {
      var cmd := Commands.Scan(Commands.Chomp(lines[0]));
      PlayAllTrace(d, Effects(rules, c, d, cmd));
      ServeGrows(rules, c, Obey(rules, c, d, lines[0]), lines[1..]);
    }
  }

  lemma HandleGrows(rules: Rules, s: State, fd: nat, handshake: Handshake, input: Input, now: int)
    ensures s.desk.trace <= Handle(rules, s, fd, handshake, input, now).desk.trace
  {
    hide FdKey, Serve, LineBuffer.Append;
    if Known(s.people, fd) && input.Data? {
      var id := Owner(s.people, fd);
      var d := LineBuffer.Drain(LineBuffer.Append(Buffered(s.people, id), input.chunk));
      var p := Receive(s.people, fd, d.rest, now);
      ServeGrows(rules, Caller(p.registry, id, fd, p.registry.records[id].host), s.desk, d.lines);
    }
  }

  lemma NextGrows(rules: Rules, s: State, m: Move)
    requires Enabled(s, m)
    ensures s.desk.trace <= Next(rules, s, m).desk.trace
  {
    hide FdKey, Handle, Enroll, PlayAll, ConsoleEvent, Collects, GoodHost, Broadcast;
    match m
    case Finish(task, handshake, input, now) =>
      if task.Vault? {
        HandleGrows(rules, Release(s, task), task.fd, handshake, input, now);
      }
    case ConsoleSubscribe(host, topic) => PlayAllTrace(s.desk, ConsoleEvent(s.people, host, topic, true));
    case ConsoleUnsubscribe(host, topic) => PlayAllTrace(s.desk, ConsoleEvent(s.people, host, topic, false));
    case ConsolePublish(topic, payload) =>
      PlayAllTrace(s.desk, Broadcast(s.people.registry, s.desk, topic, payload, Console));
    case _ =>
  }

  lemma {:induction false} RunGrows(rules: Rules, s: State, moves: seq<Move>)
    requires Legal(rules, s, moves)
    ensures s.desk.trace <= Outcome(rules, s, moves).desk.trace
    decreases |moves|
  {
    hide Enabled, Next;
    if moves != [] {
      NextGrows(rules, s, moves[0]);
      RunGrows(rules, Next(rules, s, moves[0]), moves[1..]);
    }
  }

  lemma VerifiedPrefix(trace: seq<Event>, longer: seq<Event>)
    requires trace <= longer && SubscribersVerified(longer)
    ensures SubscribersVerified(trace)
  {
    forall k | 0 <= k < |trace|
      ensures VerifiedAt(trace, k)
    {
      assert VerifiedAt(longer, k) && trace[k] == longer[k] && trace[..k] == longer[..k];
    }
  }

  /** A console SUBSCRIBE that leads to an unauthenticated client is recorded for an unverified connection. */
  lemma MisleadingIsUnverified(rules: Rules, s: State, m: Move)
    requires PeopleInv(s.people, s.net.lobby) && Kept(false, rules, s) && Enabled(s, m) && !Leads(s, m)
    ensures !SubscribersVerified(Next(rules, s, m).desk.trace)
  {
    hide Tabled, AllAllowed, AllVerified, Consistent, FdKey, GoodHost, Subscribe;
    var id := Addressee(s.people, m.host)[0];
    var rec := s.people.registry.records[id];
    assert RecordInv(s.people, id, s.net.lobby);
    var e := Subscribed(id, rec.fd, "", Rbac.Cut(m.topic, Commands.TOPIC_WIDTH), Console);
    assert ConsoleEvent(s.people, m.host, m.topic, true) == [e];
    PlayOne(s.desk, e);
    var trace := s.desk.trace + [e];
    assert trace[..|s.desk.trace|] == s.desk.trace;
    assert !VerifiedAt(trace, |s.desk.trace|);
  }

  ghost predicate AllLead(rules: Rules, s: State, moves: seq<Move>)
    requires Legal(rules, s, moves)
    decreases |moves|
  {
    moves != [] ==> Leads(s, moves[0]) && AllLead(rules, Next(rules, s, moves[0]), moves[1..])
  }

  lemma {:induction false} RunVerified(rules: Rules, s: State, moves: seq<Move>)
    requires PeopleInv(s.people, s.net.lobby) && Kept(true, rules, s) && Kept(false, rules, s) && Legal(rules, s, moves)
    ensures SubscribersVerified(Outcome(rules, s, moves).desk.trace) <==> AllLead(rules, s, moves)
    decreases |moves|
  {
    hide PeopleInv, Kept, Enabled, Next, Leads, SubscribersVerified;
    StrictIsVerified(rules, s);
    if moves != [] {
      var s' := Next(rules, s, moves[0]);
      NextPeople(rules, s, moves[0]);
      NextKept(false, rules, s, moves[0]);
      if Leads(s, moves[0]) {
        NextKept(true, rules, s, moves[0]);
        RunVerified(rules, s', moves[1..]);
      } else {
        MisleadingIsUnverified(rules, s, moves[0]);
        RunGrows(rules, s', moves[1..]);
        if SubscribersVerified(Outcome(rules, s', moves[1..]).desk.trace) {
          VerifiedPrefix(s'.desk.trace, Outcome(rules, s', moves[1..]).desk.trace);
        }
      }
    }
  }

  /**
    Each subscription of a run was made for a connection verified before it if and only if each console
    SUBSCRIBE led to nobody or to an authenticated client.
   */
  lemma SubscriptionsVerified(rules: Rules, moves: seq<Move>)
    requires Legal(rules, EMPTY, moves)
    ensures SubscribersVerified(Outcome(rules, EMPTY, moves).desk.trace) <==> AllLead(rules, EMPTY, moves)
  {
    hide Legal, Outcome, Kept, PeopleInv, SubscribersVerified, AllLead;
    EmptyInv(rules);
    EmptyKept(true, rules);
    EmptyKept(false, rules);
    RunVerified(rules, EMPTY, moves);
  }
}
