/** What a console command means to the subscribers of every topic, and what it leaves on record. */
module ConsoleMeaning {
  import opened Broker
  import opened Dispatch
  import opened PubSub
  import opened Registry
  import Commands
  import Rbac

  /** The console's copy of a hostname leads to client `id`. */
  predicate Leads(p: People, host: string, id: nat) {
    var h := Rbac.Cut(host, 127);
    h in p.registry.table && p.registry.table[h] == id && id in p.registry.records
  }

  predicate LeadsNowhere(p: People, host: string) {
    Rbac.Cut(host, 127) !in p.registry.table
  }

  /** The step changes nothing but the desk. */
  predicate OnlyDesk(s: State, s': State) {
    s'.people == s.people && s'.net == s.net && s'.sweeping == s.sweeping
  }

  /** SUBSCRIBE appends the descriptor of the client its name leads to, if there is room, and to no other list. */
  lemma ConsoleSubscribes(rules: Rules, s: State, host: string, topic: string, id: nat, n: string)
    requires WellFormed(s.desk.topics) && Leads(s.people, host, id)
    ensures var s', t := Next(rules, s, ConsoleSubscribe(host, topic)), Rbac.Cut(topic, Commands.TOPIC_WIDTH);
            var rec, subs := s.people.registry.records[id], Subscribers(s.desk.topics, n);
            && OnlyDesk(s, s') && s'.desk.trace == s.desk.trace + [Subscribed(id, rec.fd, rec.host, t, Console)]
            && Subscribers(s'.desk.topics, n)
               == subs + (if n == t && Room(s.desk.topics, t) && rec.fd !in subs then [rec.fd] else [])
  {
    hide Subscribers, WellFormed, Room, Subscribe, Rbac.Cut, PlayAll;
    var rec, t := s.people.registry.records[id], Rbac.Cut(topic, Commands.TOPIC_WIDTH);
    SubscribeEffect(s.desk.topics, rec.fd, t, n);
    PlayOne(s.desk, Subscribed(id, rec.fd, rec.host, t, Console));
  }

  /** UNSUBSCRIBE takes the descriptor of the client its name leads to off that topic, and off no other. */
  lemma ConsoleUnsubscribes(rules: Rules, s: State, host: string, topic: string, id: nat, n: string)
    requires WellFormed(s.desk.topics) && Leads(s.people, host, id)
    ensures var s', t := Next(rules, s, ConsoleUnsubscribe(host, topic)), Rbac.Cut(topic, Commands.TOPIC_WIDTH);
            var fd, subs := s.people.registry.records[id].fd, Subscribers(s.desk.topics, n);
            && OnlyDesk(s, s') && s'.desk.trace == s.desk.trace + [Unsubscribed(fd, t)]
            && Subscribers(s'.desk.topics, n) == (if n == t then Removed(subs, fd) else subs)
            && (forall x :: x in Removed(subs, fd) <==> x in subs && x != fd)
  {
    SubscribersWellFormed(s.desk.topics, n);
    hide Subscribers, WellFormed, Unsubscribe, Rbac.Cut, PlayAll, Distinct;
    var fd, t := s.people.registry.records[id].fd, Rbac.Cut(topic, Commands.TOPIC_WIDTH);
    UnsubscribeEffect(s.desk.topics, fd, t, n);
    RemovedKeeps(Subscribers(s.desk.topics, n), fd);
    PlayOne(s.desk, Unsubscribed(fd, t));
  }

  /** A name that leads nowhere changes nothing. */
  lemma ConsoleFindsNobody(rules: Rules, s: State, host: string, topic: string)
    requires LeadsNowhere(s.people, host)
    ensures Next(rules, s, ConsoleSubscribe(host, topic)) == s == Next(rules, s, ConsoleUnsubscribe(host, topic))
  {
    hide Rbac.Cut;
  }

  /** PUBLISH records one message for each registered subscriber, in the order of the list, and changes no list. */
  lemma ConsolePublishes(rules: Rules, s: State, topic: string, payload: string)
    ensures var s', r := Next(rules, s, ConsolePublish(topic, payload)), s.people.registry;
            var subs, here, k := Subscribers(s.desk.topics, topic), Registered(r), |s.desk.trace|;
            && OnlyDesk(s, s') && s'.desk.topics == s.desk.topics && s.desk.trace <= s'.desk.trace
            && |s'.desk.trace| == k + Rank(subs, here, |subs|)
            && (forall p :: 0 <= p < |subs| && subs[p] in here ==>
                  && k + Rank(subs, here, p) < |s'.desk.trace|
                  && s'.desk.trace[k + Rank(subs, here, p)] == SendOf(r, subs[p], topic, payload, Console))
  {
    hide Subscribers, FdKey, SendOf, Format, PlayAll;
    var r := s.people.registry;
    var out := Publish(s.desk.topics, Registered(r), topic, payload);
    var events := Broadcast(r, s.desk, topic, payload, Console);
    DeliverExact(Subscribers(s.desk.topics, topic), Registered(r), Format(topic, payload));
    BroadcastIsSent(r, s.desk, topic, payload);
    hide Deliver, Broadcast;
    PlayAllTrace(s.desk, events);
    PlayAllSilent(s.desk, events);
  }

  lemma BroadcastIsSent(r: Registry<nat>, d: Desk, topic: string, payload: string)
    ensures var out := Publish(d.topics, Registered(r), topic, payload);
            var events := Broadcast(r, d, topic, payload, Console);
            && |events| == |out|
            && forall i :: 0 <= i < |out| ==>
                 events[i].Sent? && events[i] == SendOf(r, out[i].fd, topic, payload, Console)
  {
    hide Publish, FdKey;
  }

  /** SET records that value for that host and key, and changes nothing else. */
  lemma ConsoleSets(rules: Rules, s: State, host: string, key: string, value: string)
    requires |host| <= 127 && |key| <= Commands.TOPIC_WIDTH
    ensures Next(rules, s, ConsoleSet(host, key, value))
         == s.(desk := s.desk.(trace := s.desk.trace + [StateSet(host, key, value, Console)]))
  {
  }
}
