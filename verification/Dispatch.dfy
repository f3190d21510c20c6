/**
  What the broker's commands do to the subscription tables, and the record of it: every accepted
  subscription, withdrawal, audit entry, stored value and message written, in order.
 */
module Dispatch {
  import opened Commands
  import opened PubSub
  import opened Registry
  import opened Rbac

  /** Who asked: the administrator's console, or the agent of that hostname. */
  datatype Origin = Console | Agent(host: string)

  datatype Event =
    | Verified(id: nat, fd: int, host: string)
    | Subscribed(id: nat, fd: int, host: string, topic: string, origin: Origin)
    | Unsubscribed(fd: int, topic: string)
    | Dropped(fd: int)
    | Logged(host: string, topic: string, payload: string)
    | StateSet(host: string, key: string, value: string, origin: Origin)
    | Sent(id: nat, fd: int, host: string, topic: string, payload: string, origin: Origin)

  datatype Desk = Desk(topics: seq<Topic>, trace: seq<Event>)

  /** The permissions in force; how rbac_can_unsubscribe decides is left open. */
  datatype Rules = Rules(config: Config, mayUnsubscribe: (string, string) -> bool)

  function Play(d: Desk, e: Event): Desk {
    Desk(match e
         case Subscribed(_, fd, _, topic, _) => Subscribe(d.topics, fd, topic)
         case Unsubscribed(fd, topic) => Unsubscribe(d.topics, fd, topic)
         case Dropped(fd) => UnsubscribeAll(d.topics, fd)
         case _ => d.topics,
         d.trace + [e])
  }

  function PlayAll(d: Desk, events: seq<Event>): Desk
    decreases |events|
  {
    if events == [] then d else PlayAll(Play(d, events[0]), events[1..])
  }

  lemma PlayOne(d: Desk, e: Event)
    ensures PlayAll(d, [e]) == Play(d, e)
  {
    assert PlayAll(Play(d, e), [e][1..]) == Play(d, e);
  }

  lemma PlayTwo(d: Desk, e: Event, f: Event)
    ensures PlayAll(d, [e, f]) == Play(Play(d, e), f)
  {
    assert [e, f][1..] == [f];
    PlayOne(Play(d, e), f);
  }

  lemma {:induction false} PlayAllTrace(d: Desk, events: seq<Event>)
    ensures PlayAll(d, events).trace == d.trace + events
    decreases |events|
  {
    if events != [] {
      PlayAllTrace(Play(d, events[0]), events[1..]);
      assert d.trace + [events[0]] + events[1..] == d.trace + events;
    }
  }

  /** Messages, audit entries and stored values leave the topics alone. */
  lemma {:induction false} PlayAllSilent(d: Desk, events: seq<Event>)
    requires forall i :: 0 <= i < |events| ==> events[i].Sent? || events[i].Logged? || events[i].StateSet?
    ensures PlayAll(d, events).topics == d.topics
    decreases |events|
  {
    if events != [] {
      PlayAllSilent(Play(d, events[0]), events[1..]);
    }
  }

  /** The connection a worker serves: its descriptor and name, with the registry as it stands. */
  datatype Caller = Caller(registry: Registry<nat>, id: nat, fd: int, host: string)

  function Registered(r: Registry<nat>): set<int> {
    set id | id in r.records :: r.records[id].fd
  }

  function Sends(r: Registry<nat>, out: seq<Delivery>, topic: string, payload: string, origin: Origin): seq<Event> {
    seq(|out|, i requires 0 <= i < |out| => SendOf(r, out[i].fd, topic, payload, origin))
  }

  function SendOf(r: Registry<nat>, fd: int, topic: string, payload: string, origin: Origin): Event {
    if fd >= 0 && FdKey(fd) in r.table && r.table[FdKey(fd)] in r.records
    then Sent(r.table[FdKey(fd)], fd, r.records[r.table[FdKey(fd)]].host, topic, payload, origin)
    else Sent(0, fd, "", topic, payload, origin)
  }

  function Broadcast(r: Registry<nat>, d: Desk, topic: string, payload: string, origin: Origin): seq<Event> {
    Sends(r, Publish(d.topics, Registered(r), topic, payload), topic, payload, origin)
  }

  /** The events one command causes, after its permission check. */
  ghost function Effects(rules: Rules, c: Caller, d: Desk, cmd: Command): seq<Event> {
    if cmd.items == 3 && cmd.name == "SET" then
      if MaySet(rules.config, c.host, cmd.topic) then [StateSet(c.host, cmd.topic, cmd.payload, Agent(c.host))] else []
    else if cmd.items == 2 && cmd.name == "GET" then
      [Logged(c.host, cmd.topic, cmd.payload)]
    else if cmd.items >= 1 && (cmd.name == "PING" || cmd.name == "PONG") then []
    else if cmd.items >= 2 && cmd.name == "SUBSCRIBE" then
      if MaySubscribe(rules.config, c.host, cmd.topic) then
        [Logged(c.host, cmd.topic, cmd.payload), Subscribed(c.id, c.fd, c.host, cmd.topic, Agent(c.host))]
      else []
    else if cmd.items >= 2 && cmd.name == "UNSUBSCRIBE" then
      if rules.mayUnsubscribe(c.host, cmd.topic) then [Unsubscribed(c.fd, cmd.topic)] else []
    else if cmd.items == 3 && cmd.name == "PUBLISH" then
      if MayPublish(rules.config, c.host, cmd.topic) then
        [Logged(c.host, cmd.topic, cmd.payload)] + Broadcast(c.registry, d, cmd.topic, cmd.payload, Agent(c.host))
      else []
    else []
  }

  /** One extracted line: cut at a carriage return, skipped when empty. */
  ghost function Obey(rules: Rules, c: Caller, d: Desk, line: string): Desk {
    var text := Chomp(line);
    if text == "" then d else PlayAll(d, Effects(rules, c, d, Scan(text)))
  }

  ghost function Serve(rules: Rules, c: Caller, d: Desk, lines: seq<string>): Desk
    decreases |lines|
  {
    if lines == [] then d else Serve(rules, c, Obey(rules, c, d, lines[0]), lines[1..])
  }

  // ---- Provenance --------------------------------------------------------------------------

  /** The event gives connection `id`, named `host`, a subscription it may have. */
  ghost predicate Grants(rules: Rules, e: Event, id: nat, fd: int, host: string, topic: string) {
    && e.Subscribed? && e.id == id && e.fd == fd && e.host == host && e.topic == topic
    && (e.origin.Console? || (e.origin == Agent(host) && MaySubscribe(rules.config, host, topic)))
  }

  predicate Revokes(e: Event, fd: int, topic: string) {
    e == Unsubscribed(fd, topic) || e == Dropped(fd)
  }

  /** The latest event about `fd` and `topic` is a rightful subscription by this very connection. */
  ghost predicate Granted(rules: Rules, trace: seq<Event>, id: nat, fd: int, host: string, topic: string) {
    exists j: nat :: GrantedAt(rules, trace, j, id, fd, host, topic)
  }

  ghost predicate GrantedAt(rules: Rules, trace: seq<Event>, j: nat, id: nat, fd: int, host: string, topic: string) {
    && j < |trace| && Grants(rules, trace[j], id, fd, host, topic)
    && forall i :: j < i < |trace| ==> !Revokes(trace[i], fd, topic)
  }

  /** Some connection has passed verification under this hostname. */
  ghost predicate Trusted(before: seq<Event>, host: string) {
    exists id, fd :: Verified(id, fd, host) in before
  }

  /** An agent publishes only under a verified hostname, with permission, and after its audit entry. */
  ghost predicate MaySend(rules: Rules, before: seq<Event>, topic: string, payload: string, origin: Origin) {
    origin.Agent? ==>
      && Trusted(before, origin.host) && MayPublish(rules.config, origin.host, topic)
      && Logged(origin.host, topic, payload) in before
  }

  /** What must have gone before an event for the one who caused it to have had the right to. */
  ghost predicate Permitted(rules: Rules, before: seq<Event>, e: Event) {
    match e
    case Sent(_, _, _, topic, payload, origin) => MaySend(rules, before, topic, payload, origin)
    case StateSet(host, key, value, origin) =>
      origin.Agent? ==> origin.host == host && MaySet(rules.config, host, key) && Trusted(before, host)
    case Subscribed(id, fd, host, topic, origin) =>
      origin.Agent? ==>
        && origin.host == host && MaySubscribe(rules.config, host, topic)
        && Verified(id, fd, host) in before && exists p :: Logged(host, topic, p) in before
    case _ => true
  }

  /** What must have gone before a message for its receiver to have the right to it. */
  ghost predicate Deserved(rules: Rules, before: seq<Event>, e: Event) {
    e.Sent? ==> Verified(e.id, e.fd, e.host) in before && Granted(rules, before, e.id, e.fd, e.host, e.topic)
  }

  ghost predicate Rightful(rules: Rules, before: seq<Event>, e: Event) {
    Permitted(rules, before, e) && Deserved(rules, before, e)
  }

  ghost predicate Sound(rules: Rules, trace: seq<Event>) {
    forall k :: 0 <= k < |trace| ==> Rightful(rules, trace[..k], trace[k])
  }

  // ---- The calls on the subscription tables ------------------------------------------------

  function CallOf(e: Event): seq<Call> {
    match e
    case Subscribed(_, fd, _, topic, _) => [Sub(fd, topic)]
    case Unsubscribed(fd, topic) => [Unsub(fd, topic)]
    case Dropped(fd) => [UnsubAll(fd)]
    case _ => []
  }

  function Calls(trace: seq<Event>): seq<Call> {
    if trace == [] then [] else Calls(trace[..|trace| - 1]) + CallOf(trace[|trace| - 1])
  }

  // ---- The invariant -----------------------------------------------------------------------

  /** `fd` belongs to a registered, authenticated client that was rightfully subscribed to `topic`. */
  ghost predicate Entitled(rules: Rules, r: Registry<nat>, auth: set<nat>, trace: seq<Event>, fd: int, topic: string) {
    && Present(r, auth, fd)
    && Granted(rules, trace, r.table[FdKey(fd)], fd, r.records[r.table[FdKey(fd)]].host, topic)
  }

  predicate Present(r: Registry<nat>, auth: set<nat>, fd: int) {
    && fd >= 0 && FdKey(fd) in r.table && r.table[FdKey(fd)] in auth
    && r.table[FdKey(fd)] in r.records && r.records[r.table[FdKey(fd)]].fd == fd
  }

  /** The tables are what the recorded calls make of them. */
  ghost predicate Tabled(d: Desk) {
    ShortNames(Calls(d.trace)) && d.topics == After(Calls(d.trace))
  }

  ghost predicate DeskInv(rules: Rules, r: Registry<nat>, auth: set<nat>, d: Desk) {
    && Tabled(d) && Sound(rules, d.trace)
    && AllVerified(r, auth, d.trace) && AllEntitled(rules, r, auth, d)
  }

  ghost predicate AllVerified(r: Registry<nat>, auth: set<nat>, trace: seq<Event>) {
    forall id :: id in auth ==> id in r.records && Verified(id, r.records[id].fd, r.records[id].host) in trace
  }

  ghost predicate AllEntitled(rules: Rules, r: Registry<nat>, auth: set<nat>, d: Desk) {
    forall fd, topic :: fd in Subscribers(d.topics, topic) ==> Entitled(rules, r, auth, d.trace, fd, topic)
  }

  /** What the callers guarantee about an event when it happens. */
  ghost predicate Proper(rules: Rules, r: Registry<nat>, auth: set<nat>, d: Desk, e: Event) {
    && Rightful(rules, d.trace, e)
    && (e.Subscribed? ==>
          && |e.topic| <= PubSub.NAME_MAX
          && (Room(d.topics, e.topic) ==>
                Present(r, auth, e.fd) && r.table[FdKey(e.fd)] == e.id && r.records[e.id].host == e.host))
  }

  lemma GrantedNext(rules: Rules, trace: seq<Event>, e: Event, id: nat, fd: int, host: string, topic: string)
    requires Grants(rules, e, id, fd, host, topic)
          || (Granted(rules, trace, id, fd, host, topic) && !Revokes(e, fd, topic))
    ensures Granted(rules, trace + [e], id, fd, host, topic)
  {
    if Grants(rules, e, id, fd, host, topic) {
      assert GrantedAt(rules, trace + [e], |trace|, id, fd, host, topic);
    } else {
      var j: nat :| GrantedAt(rules, trace, j, id, fd, host, topic);
      assert GrantedAt(rules, trace + [e], j, id, fd, host, topic);
    }
  }

  lemma SoundNext(rules: Rules, trace: seq<Event>, e: Event)
    requires Sound(rules, trace) && Rightful(rules, trace, e)
    ensures Sound(rules, trace + [e])
  {
    hide Rightful;
    var t := trace + [e];
    forall k | 0 <= k < |t|
      ensures Rightful(rules, t[..k], t[k])
    {
      assert t[..k] == trace[..k];
    }
  }

  lemma CallsNext(d: Desk, e: Event)
    requires d.topics == After(Calls(d.trace))
    ensures Calls(d.trace + [e]) == Calls(d.trace) + CallOf(e)
    ensures Play(d, e).topics == After(Calls(d.trace + [e]))
  {
    hide Subscribe, Unsubscribe, UnsubscribeAll;
    var t := d.trace + [e];
    assert t[..|t| - 1] == d.trace;
    var calls := Calls(t);
    if CallOf(e) == [] {
      assert calls == Calls(d.trace);
    } else {
      assert calls[..|calls| - 1] == Calls(d.trace) && calls[|calls| - 1] == CallOf(e)[0];
    }
  }

  /** How one event changes who is subscribed to a topic. */
  lemma PlayEffect(d: Desk, e: Event, fd: int, topic: string)
    requires WellFormed(d.topics) && (e.Subscribed? ==> |e.topic| <= PubSub.NAME_MAX)
    requires fd in Subscribers(Play(d, e).topics, topic)
    ensures (e.Subscribed? && e.fd == fd && e.topic == topic && Room(d.topics, topic))
         || (fd in Subscribers(d.topics, topic) && !Revokes(e, fd, topic))
  {
    SubscribersWellFormed(d.topics, topic);
    hide WellFormed, Find, Subscribe, Unsubscribe, UnsubscribeAll, Distinct, Room;
    match e
    case Subscribed(_, fd', _, n, _) => SubscribeEffect(d.topics, fd', n, topic);
    case Unsubscribed(fd', n) => UnsubscribeEffect(d.topics, fd', n, topic);
      RemovedKeeps(Subscribers(d.topics, topic), fd');
    case Dropped(fd') => UnsubscribeAllEffect(d.topics, fd', topic);
      RemovedKeeps(Subscribers(d.topics, topic), fd');
    case _ =>
  }

  lemma PlayTabled(d: Desk, e: Event)
    requires Tabled(d) && (e.Subscribed? ==> |e.topic| <= PubSub.NAME_MAX)
    ensures Tabled(Play(d, e)) && WellFormed(d.topics)
  {
    hide Calls, After, WellFormed, Subscribe, Unsubscribe, UnsubscribeAll;
    AfterWellFormed(Calls(d.trace));
    CallsNext(d, e);
    assert ShortNames(Calls(d.trace) + CallOf(e));
  }

  lemma PlayKeeps(rules: Rules, r: Registry<nat>, auth: set<nat>, d: Desk, e: Event)
    requires DeskInv(rules, r, auth, d) && Proper(rules, r, auth, d, e)
    ensures DeskInv(rules, r, auth, Play(d, e))
  {
    hide Tabled, Sound, Rightful, AllEntitled, WellFormed, Subscribe, Unsubscribe, UnsubscribeAll, Room;
    PlayTabled(d, e);
    SoundNext(rules, d.trace, e);
    PlayAllEntitled(rules, r, auth, d, e);
  }

  lemma PlayAllEntitled(rules: Rules, r: Registry<nat>, auth: set<nat>, d: Desk, e: Event)
    requires WellFormed(d.topics) && AllEntitled(rules, r, auth, d) && Proper(rules, r, auth, d, e)
    ensures AllEntitled(rules, r, auth, Play(d, e))
  {
    forall fd, topic | fd in Subscribers(Play(d, e).topics, topic)
      ensures Entitled(rules, r, auth, Play(d, e).trace, fd, topic)
    {
      PlayEntitled(rules, r, auth, d, e, fd, topic);
    }
  }

  lemma PlayEntitled(rules: Rules, r: Registry<nat>, auth: set<nat>, d: Desk, e: Event, fd: int, topic: string)
    requires WellFormed(d.topics) && Proper(rules, r, auth, d, e) && fd in Subscribers(Play(d, e).topics, topic)
    requires fd in Subscribers(d.topics, topic) ==> Entitled(rules, r, auth, d.trace, fd, topic)
    ensures Entitled(rules, r, auth, d.trace + [e], fd, topic)
  {
    PlayEffect(d, e, fd, topic);
    hide Subscribers, Granted, Play, WellFormed, MaySubscribe, MayPublish, MaySet, Room;
    var id := r.table[FdKey(fd)];
    GrantedNext(rules, d.trace, e, id, fd, r.records[id].host, topic);
  }

  lemma SendProper(rules: Rules, r: Registry<nat>, auth: set<nat>, d: Desk, fd: int,
                   topic: string, payload: string, origin: Origin)
    requires DeskInv(rules, r, auth, d) && fd in Subscribers(d.topics, topic)
    requires MaySend(rules, d.trace, topic, payload, origin)
    ensures Proper(rules, r, auth, d, SendOf(r, fd, topic, payload, origin))
  {
    hide Subscribers, Calls, Sound, After, ShortNames, Granted, MaySend;
    assert Entitled(rules, r, auth, d.trace, fd, topic);
  }

  lemma MaySendLater(rules: Rules, before: seq<Event>, e: Event, topic: string, payload: string, origin: Origin)
    requires MaySend(rules, before, topic, payload, origin)
    ensures MaySend(rules, before + [e], topic, payload, origin)
  {
    hide MayPublish;
    if origin.Agent? {
      var id, fd :| Verified(id, fd, origin.host) in before;
      assert Verified(id, fd, origin.host) in before + [e];
    }
  }

  predicate Addressed(out: seq<Delivery>, subs: seq<int>) {
    forall i :: 0 <= i < |out| ==> out[i].fd in subs
  }

  lemma SendsTail(r: Registry<nat>, out: seq<Delivery>, topic: string, payload: string, origin: Origin)
    requires out != []
    ensures var events := Sends(r, out, topic, payload, origin);
            && |events| == |out| && events[0] == SendOf(r, out[0].fd, topic, payload, origin)
            && events[1..] == Sends(r, out[1..], topic, payload, origin)
  {
    hide SendOf;
    assert Sends(r, out, topic, payload, origin)[1..] == Sends(r, out[1..], topic, payload, origin);
  }

  lemma {:induction false} SendsKeep(rules: Rules, r: Registry<nat>, auth: set<nat>, d: Desk,
                                     out: seq<Delivery>, topic: string, payload: string, origin: Origin)
    requires DeskInv(rules, r, auth, d)
    requires Addressed(out, Subscribers(d.topics, topic))
    requires MaySend(rules, d.trace, topic, payload, origin)
    ensures DeskInv(rules, r, auth, PlayAll(d, Sends(r, out, topic, payload, origin)))
    decreases |out|
  {
    var events := Sends(r, out, topic, payload, origin);
    if out != [] {
      hide DeskInv, Subscribers, MaySend, Proper, FdKey, SendOf, Sends, Play;
      SendsTail(r, out, topic, payload, origin);
      SendOne(rules, r, auth, d, out[0].fd, topic, payload, origin);
      var next := Play(d, events[0]);
      assert Addressed(out[1..], Subscribers(d.topics, topic));
      SendsKeep(rules, r, auth, next, out[1..], topic, payload, origin);
    }
  }

  lemma SendOne(rules: Rules, r: Registry<nat>, auth: set<nat>, d: Desk, fd: int,
                topic: string, payload: string, origin: Origin)
    requires DeskInv(rules, r, auth, d) && fd in Subscribers(d.topics, topic)
    requires MaySend(rules, d.trace, topic, payload, origin)
    ensures var next := Play(d, SendOf(r, fd, topic, payload, origin));
            && DeskInv(rules, r, auth, next) && next.topics == d.topics
            && MaySend(rules, next.trace, topic, payload, origin)
  {
    hide DeskInv, Subscribers, MaySend, Proper, FdKey;
    MaySendLater(rules, d.trace, SendOf(r, fd, topic, payload, origin), topic, payload, origin);
    SendProper(rules, r, auth, d, fd, topic, payload, origin);
    PlayKeeps(rules, r, auth, d, SendOf(r, fd, topic, payload, origin));
  }

  lemma {:induction false} DeliverToSubscribers(subs: seq<int>, registered: set<int>, message: string)
    ensures forall d :: d in Deliver(subs, registered, message) ==>
              d.fd in subs && d.fd in registered && d.message == message
  {
    if subs != [] {
      DeliverToSubscribers(subs[..|subs| - 1], registered, message);
    }
  }

  lemma BroadcastKeeps(rules: Rules, r: Registry<nat>, auth: set<nat>, d: Desk,
                       topic: string, payload: string, origin: Origin)
    requires DeskInv(rules, r, auth, d)
    requires MaySend(rules, d.trace, topic, payload, origin)
    ensures DeskInv(rules, r, auth, PlayAll(d, Broadcast(r, d, topic, payload, origin)))
  {
    hide DeskInv, Subscribers, MaySend, Deliver;
    DeliverToSubscribers(Subscribers(d.topics, topic), Registered(r), Format(topic, payload));
    SendsKeep(rules, r, auth, d, Publish(d.topics, Registered(r), topic, payload), topic, payload, origin);
  }

  /** The caller is the authenticated owner of the descriptor. */
  predicate Serves(r: Registry<nat>, auth: set<nat>, c: Caller) {
    && c.registry == r && Present(r, auth, c.fd)
    && c.id == r.table[FdKey(c.fd)] && c.host == r.records[c.id].host
  }

  lemma CallerTrusted(rules: Rules, c: Caller, auth: set<nat>, d: Desk)
    requires DeskInv(rules, c.registry, auth, d) && Serves(c.registry, auth, c)
    ensures Trusted(d.trace, c.host)
  {
    hide Subscribers, Sound, AllEntitled, After, Calls, FdKey;
    assert Verified(c.id, c.registry.records[c.id].fd, c.host) in d.trace;
  }

  lemma PublishKeeps(rules: Rules, c: Caller, auth: set<nat>, d: Desk, cmd: Command)
    requires DeskInv(rules, c.registry, auth, d) && Serves(c.registry, auth, c)
    requires MayPublish(rules.config, c.host, cmd.topic)
    ensures var log := [Logged(c.host, cmd.topic, cmd.payload)];
            DeskInv(rules, c.registry, auth,
                    PlayAll(d, log + Broadcast(c.registry, d, cmd.topic, cmd.payload, Agent(c.host))))
  {
    hide DeskInv, Subscribers, MayPublish, Broadcast, Serves, Play;
    var log := Logged(c.host, cmd.topic, cmd.payload);
    var more := Broadcast(c.registry, d, cmd.topic, cmd.payload, Agent(c.host));
    CallerTrusted(rules, c, auth, d);
    LogKeeps(rules, c.registry, auth, d, log);
    assert ([log] + more)[1..] == more;
    BroadcastKeeps(rules, c.registry, auth, Play(d, log), cmd.topic, cmd.payload, Agent(c.host));
  }

  /** An audit entry keeps the desk in order, changes no list and makes nobody less trusted. */
  lemma LogKeeps(rules: Rules, r: Registry<nat>, auth: set<nat>, d: Desk, log: Event)
    requires DeskInv(rules, r, auth, d) && log.Logged?
    ensures var next := Play(d, log);
            && DeskInv(rules, r, auth, next) && next.topics == d.topics && log in next.trace
            && (Trusted(d.trace, log.host) ==> Trusted(next.trace, log.host))
            && forall topic, payload, origin ::
                 Broadcast(r, next, topic, payload, origin) == Broadcast(r, d, topic, payload, origin)
  {
    hide DeskInv, Publish;
    PlayKeeps(rules, r, auth, d, log);
    if Trusted(d.trace, log.host) {
      var id, fd :| Verified(id, fd, log.host) in d.trace;
      assert Verified(id, fd, log.host) in d.trace + [log];
    }
  }

  lemma SubscribeKeeps(rules: Rules, c: Caller, auth: set<nat>, d: Desk, cmd: Command)
    requires DeskInv(rules, c.registry, auth, d) && Serves(c.registry, auth, c)
    requires MaySubscribe(rules.config, c.host, cmd.topic) && |cmd.topic| <= PubSub.NAME_MAX
    ensures DeskInv(rules, c.registry, auth,
                    PlayAll(d, [Logged(c.host, cmd.topic, cmd.payload),
                                Subscribed(c.id, c.fd, c.host, cmd.topic, Agent(c.host))]))
  {
    hide Subscribers, MaySubscribe, Sound, AllEntitled, After, Calls, Subscribe;
    var log := Logged(c.host, cmd.topic, cmd.payload);
    var sub := Subscribed(c.id, c.fd, c.host, cmd.topic, Agent(c.host));
    PlayKeeps(rules, c.registry, auth, d, log);
    PlayKeeps(rules, c.registry, auth, Play(d, log), sub);
    assert [log, sub][1..] == [sub];
    PlayOne(Play(d, log), sub);
  }

  lemma ObeyKeeps(rules: Rules, c: Caller, auth: set<nat>, d: Desk, line: string)
    requires DeskInv(rules, c.registry, auth, d) && Serves(c.registry, auth, c)
    ensures DeskInv(rules, c.registry, auth, Obey(rules, c, d, line))
  {
    hide DeskInv, Subscribers, MaySubscribe, MayPublish, MaySet, Serves, Broadcast, Scan, Chomp, Play;
    CallerTrusted(rules, c, auth, d);
    var cmd := Scan(Chomp(line));
    var events := Effects(rules, c, d, cmd);
    if |events| == 1 && !(cmd.items == 3 && cmd.name == "PUBLISH") {
      PlayKeeps(rules, c.registry, auth, d, events[0]);
      PlayOne(d, events[0]);
      assert events == [events[0]];
    } else if cmd.items == 3 && cmd.name == "PUBLISH" && MayPublish(rules.config, c.host, cmd.topic) {
      PublishKeeps(rules, c, auth, d, cmd);
    } else if cmd.items >= 2 && cmd.name == "SUBSCRIBE" && MaySubscribe(rules.config, c.host, cmd.topic) {
      SubscribeKeeps(rules, c, auth, d, cmd);
    }
  }

  lemma {:induction false} ServeKeeps(rules: Rules, c: Caller, auth: set<nat>, d: Desk, lines: seq<string>)
    requires DeskInv(rules, c.registry, auth, d) && Serves(c.registry, auth, c)
    ensures DeskInv(rules, c.registry, auth, Serve(rules, c, d, lines))
    decreases |lines|
  {
    hide DeskInv, Serves, Obey;
    if lines != [] {
      ObeyKeeps(rules, c, auth, d, lines[0]);
      ServeKeeps(rules, c, auth, Obey(rules, c, d, lines[0]), lines[1..]);
    }
  }

  /** A client present before is present after, with the same descriptor and name. */
  predicate Undisturbed(r: Registry<nat>, auth: set<nat>, r': Registry<nat>, auth': set<nat>, fd: int) {
    Present(r, auth, fd) ==>
      && Present(r', auth', fd) && r'.table[FdKey(fd)] == r.table[FdKey(fd)]
      && r'.records[r.table[FdKey(fd)]].host == r.records[r.table[FdKey(fd)]].host
  }

  /** A change of the registry that leaves every subscriber undisturbed. */
  lemma Carry(rules: Rules, r: Registry<nat>, auth: set<nat>, r': Registry<nat>, auth': set<nat>, d: Desk)
    requires DeskInv(rules, r, auth, d) && AllVerified(r', auth', d.trace)
    requires forall fd, topic :: fd in Subscribers(d.topics, topic) ==> Undisturbed(r, auth, r', auth', fd)
    ensures DeskInv(rules, r', auth', d)
  {
    hide Subscribers, Entitled, Undisturbed, Sound, After, Calls;
    forall fd, topic | fd in Subscribers(d.topics, topic)
      ensures Entitled(rules, r', auth', d.trace, fd, topic)
    {
      assert Undisturbed(r, auth, r', auth', fd);
      CarryOne(rules, r, auth, r', auth', d.trace, fd, topic);
    }
  }

  lemma CarryOne(rules: Rules, r: Registry<nat>, auth: set<nat>, r': Registry<nat>, auth': set<nat>,
                 trace: seq<Event>, fd: int, topic: string)
    requires Entitled(rules, r, auth, trace, fd, topic) && Undisturbed(r, auth, r', auth', fd)
    ensures Entitled(rules, r', auth', trace, fd, topic)
  {
    hide Granted, FdKey;
  }

  lemma {:induction false} DeliverAll(subs: seq<int>, registered: set<int>, message: string)
    requires forall i :: 0 <= i < |subs| ==> subs[i] in registered
    ensures |Deliver(subs, registered, message)| == |subs|
    ensures forall i :: 0 <= i < |subs| ==> Deliver(subs, registered, message)[i] == Delivery(subs[i], message)
  {
    if subs != [] {
      var n := |subs| - 1;
      DeliverAll(subs[..n], registered, message);
      assert Deliver(subs, registered, message)
          == Deliver(subs[..n], registered, message) + [Delivery(subs[n], message)];
    }
  }

  lemma SubscribersRegistered(rules: Rules, r: Registry<nat>, auth: set<nat>, d: Desk, topic: string)
    requires DeskInv(rules, r, auth, d)
    ensures var subs := Subscribers(d.topics, topic);
            forall i :: 0 <= i < |subs| ==> Present(r, auth, subs[i]) && subs[i] in Registered(r)
  {
    hide Subscribers, Sound, Calls, After, Granted, FdKey;
    var subs := Subscribers(d.topics, topic);
    forall i | 0 <= i < |subs|
      ensures Present(r, auth, subs[i]) && subs[i] in Registered(r)
    {
      assert subs[i] in subs;
      assert Entitled(rules, r, auth, d.trace, subs[i], topic);
    }
  }

  /** A broadcast writes once to every subscriber of the topic, in the order of the list: none is unregistered. */
  lemma BroadcastExact(rules: Rules, r: Registry<nat>, auth: set<nat>, d: Desk,
                       topic: string, payload: string, origin: Origin)
    requires DeskInv(rules, r, auth, d)
    ensures var out, subs := Broadcast(r, d, topic, payload, origin), Subscribers(d.topics, topic);
            && |out| == |subs| && Distinct(subs)
            && (forall i :: 0 <= i < |subs| ==> out[i] == SendOf(r, subs[i], topic, payload, origin))
  {
    AfterWellFormed(Calls(d.trace));
    SubscribersWellFormed(d.topics, topic);
    SubscribersRegistered(rules, r, auth, d, topic);
    hide DeskInv, WellFormed, Subscribers, Registered, Deliver, Format, SendOf;
    DeliverAll(Subscribers(d.topics, topic), Registered(r), Format(topic, payload));
  }

  /** The subscribers are those whose subscription is live in the history of calls. */
  lemma SubscribersLive(rules: Rules, r: Registry<nat>, auth: set<nat>, d: Desk,
                        calls: seq<Call>, fd: int, topic: string)
    requires DeskInv(rules, r, auth, d) && calls == Calls(d.trace)
    ensures fd in Subscribers(d.topics, topic) <==> exists i: nat :: Live(calls, i, fd, topic)
  {
    SubscribedIff(calls, fd, topic);
  }
}
