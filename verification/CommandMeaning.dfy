/** What the line an agent sends means to the subscribers of every topic, and what it leaves on record. */
module CommandMeaning {
  import opened Commands
  import opened Dispatch
  import opened PubSub
  import opened Rbac
  import opened Registry
  import opened Strings

  predicate TopicName(s: string) {
    Solid(s) && |s| <= TOPIC_WIDTH
  }

  lemma ChompWhole(s: string)
    requires '\r' !in s
    ensures Chomp(s) == s
  {
    IndexUnique(s, '\r', |s|);
    assert s[..|s|] == s;
  }

  /** The worker reads back the command an agent wrote. */
  lemma ReadTwo(rules: Rules, c: Caller, d: Desk, name: string, topic: string)
    requires Solid(name) && |name| <= NAME_WIDTH && TopicName(topic)
    ensures Obey(rules, c, d, name + " " + topic) == PlayAll(d, Effects(rules, c, d, Command(2, name, topic, "")))
  {
    ChompWhole(name + " " + topic);
    ScanTwo(name, topic);
    hide Effects, PlayAll, Scan, Chomp;
  }

  lemma ReadThree(rules: Rules, c: Caller, d: Desk, name: string, topic: string, payload: string)
    requires Solid(name) && |name| <= NAME_WIDTH && TopicName(topic) && PayloadText(payload)
    ensures Obey(rules, c, d, name + " " + topic + " " + payload)
         == PlayAll(d, Effects(rules, c, d, Command(3, name, topic, payload)))
  {
    ChompWhole(name + " " + topic + " " + payload);
    ScanThree(name, topic, payload);
    hide Effects, PlayAll, Scan, Chomp;
  }

  predicate PayloadText(s: string) {
    s != "" && !IsSpace(s[0]) && '\n' !in s && '\r' !in s && |s| <= PAYLOAD_WIDTH
  }

  lemma CommandNames()
    ensures Solid("SUBSCRIBE") && Solid("UNSUBSCRIBE") && Solid("PUBLISH") && Solid("SET") && Solid("GET")
  {
  }

  /** A line of a name and a topic, and of further words if there are any. */
  function Worded(name: string, topic: string, more: string): string {
    if more == "" then name + " " + topic else name + " " + topic + " " + more
  }

  lemma ReadWorded(rules: Rules, c: Caller, d: Desk, name: string, topic: string, more: string)
    requires Solid(name) && |name| <= NAME_WIDTH && TopicName(topic) && (more != "" ==> PayloadText(more))
    ensures Obey(rules, c, d, Worded(name, topic, more))
         == PlayAll(d, Effects(rules, c, d, Command(if more == "" then 2 else 3, name, topic, more)))
  {
    hide Obey, Effects, PlayAll, Solid;
    if more == "" {
      ReadTwo(rules, c, d, name, topic);
    } else {
      ReadThree(rules, c, d, name, topic, more);
    }
  }

  lemma SubscribeEffects(rules: Rules, c: Caller, d: Desk, items: nat, topic: string, more: string)
    requires items >= 2
    ensures Effects(rules, c, d, Command(items, "SUBSCRIBE", topic, more))
         == if MaySubscribe(rules.config, c.host, topic)
            then [Logged(c.host, topic, more), Subscribed(c.id, c.fd, c.host, topic, Agent(c.host))] else []
  {
    hide MaySubscribe, MaySet, MayPublish, Broadcast;
  }

  lemma UnsubscribeEffects(rules: Rules, c: Caller, d: Desk, items: nat, topic: string, more: string)
    requires items >= 2
    ensures Effects(rules, c, d, Command(items, "UNSUBSCRIBE", topic, more))
         == if rules.mayUnsubscribe(c.host, topic) then [Unsubscribed(c.fd, topic)] else []
  {
    hide MaySubscribe, MaySet, MayPublish, Broadcast;
  }

  lemma PublishEffects(rules: Rules, c: Caller, d: Desk, topic: string, payload: string)
    ensures Effects(rules, c, d, Command(3, "PUBLISH", topic, payload))
         == if MayPublish(rules.config, c.host, topic)
            then [Logged(c.host, topic, payload)] + Broadcast(c.registry, d, topic, payload, Agent(c.host)) else []
  {
    hide MaySubscribe, MaySet, MayPublish, Broadcast;
  }

  lemma PlayNone(d: Desk)
    ensures PlayAll(d, []) == d
  {
  }

  /**
    SUBSCRIBE, with or without further words, appends the sender to that topic if it may and there is
    room, and changes no other list; if permitted it leaves its audit entry and itself on record.
   */
  lemma SubscribeLine(rules: Rules, c: Caller, d: Desk, topic: string, more: string, n: string)
    requires WellFormed(d.topics) && TopicName(topic) && (more != "" ==> PayloadText(more))
    ensures var d' := Obey(rules, c, d, Worded("SUBSCRIBE", topic, more));
            var may := MaySubscribe(rules.config, c.host, topic);
            && Subscribers(d'.topics, n) == Subscribers(d.topics, n)
                 + (if n == topic && may && Room(d.topics, topic) && c.fd !in Subscribers(d.topics, topic)
                    then [c.fd] else [])
            && d'.trace == d.trace
                 + (if may then [Logged(c.host, topic, more), Subscribed(c.id, c.fd, c.host, topic, Agent(c.host))]
                    else [])
  {
    hide Subscribers, WellFormed, Room, MaySubscribe, Subscribe, Solid, Obey, Effects, PlayAll, PayloadText, Worded;
    CommandNames();
    ReadWorded(rules, c, d, "SUBSCRIBE", topic, more);
    SubscribeEffects(rules, c, d, if more == "" then 2 else 3, topic, more);
    SubscribeEffect(d.topics, c.fd, topic, n);
    PlayTwo(d, Logged(c.host, topic, more), Subscribed(c.id, c.fd, c.host, topic, Agent(c.host)));
    PlayNone(d);
  }

  /**
    UNSUBSCRIBE, with or without further words, takes the sender off that topic if it may, keeps the order
    of the others, and changes no other list.
   */
  lemma UnsubscribeLine(rules: Rules, c: Caller, d: Desk, topic: string, more: string, n: string)
    requires WellFormed(d.topics) && TopicName(topic) && (more != "" ==> PayloadText(more))
    ensures var d', may := Obey(rules, c, d, Worded("UNSUBSCRIBE", topic, more)), rules.mayUnsubscribe(c.host, topic);
            var subs, subs' := Subscribers(d.topics, n), Subscribers(d'.topics, n);
            && (if n == topic && may
                then subs' == Removed(subs, c.fd) && forall fd :: fd in subs' <==> fd in subs && fd != c.fd
                else subs' == subs)
            && d'.trace == d.trace + (if may then [Unsubscribed(c.fd, topic)] else [])
  {
    SubscribersWellFormed(d.topics, n);
    hide Subscribers, WellFormed, Unsubscribe, Distinct, Solid, Obey, Effects, PlayAll, PayloadText, Worded;
    CommandNames();
    ReadWorded(rules, c, d, "UNSUBSCRIBE", topic, more);
    UnsubscribeEffects(rules, c, d, if more == "" then 2 else 3, topic, more);
    UnsubscribeEffect(d.topics, c.fd, topic, n);
    RemovedKeeps(Subscribers(d.topics, n), c.fd);
    PlayOne(d, Unsubscribed(c.fd, topic));
    PlayNone(d);
  }

  /** The record gains exactly these events, and no list changes. */
  lemma SilentEvents(d: Desk, log: Event, more: seq<Event>)
    requires log.Logged? && forall i :: 0 <= i < |more| ==> more[i].Sent?
    ensures var d' := PlayAll(d, [log] + more);
            && d'.topics == d.topics && |d'.trace| == |d.trace| + 1 + |more| && d.trace < d'.trace
            && d'.trace[|d.trace|] == log && (forall i :: 0 <= i < |more| ==> d'.trace[|d.trace| + 1 + i] == more[i])
  {
    PlayAllTrace(d, [log] + more);
    PlayAllSilent(d, [log] + more);
    hide PlayAll;
  }

  /**
    PUBLISH, if permitted, leaves its audit entry and then one message for each subscriber of the topic
    in the order of the list; it changes no list, and if it is not permitted it changes nothing.
   */
  lemma PublishLine(rules: Rules, c: Caller, auth: set<nat>, d: Desk, topic: string, payload: string)
    requires DeskInv(rules, c.registry, auth, d) && TopicName(topic) && PayloadText(payload)
    ensures var d', subs := Obey(rules, c, d, "PUBLISH" + " " + topic + " " + payload), Subscribers(d.topics, topic);
            if MayPublish(rules.config, c.host, topic) then
              && d'.topics == d.topics && |d'.trace| == |d.trace| + 1 + |subs| && d.trace < d'.trace
              && d'.trace[|d.trace|] == Logged(c.host, topic, payload)
              && (forall i :: 0 <= i < |subs| ==>
                    d'.trace[|d.trace| + 1 + i] == SendOf(c.registry, subs[i], topic, payload, Agent(c.host)))
            else d' == d
  {
    CommandNames();
    ReadThree(rules, c, d, "PUBLISH", topic, payload);
    PublishEffects(rules, c, d, topic, payload);
    BroadcastExact(rules, c.registry, auth, d, topic, payload, Agent(c.host));
    BroadcastSilent(c.registry, d, topic, payload, Agent(c.host));
    hide Subscribers, DeskInv, MayPublish, SendOf, Broadcast, Distinct, Solid, Obey, Play, Effects;
    if MayPublish(rules.config, c.host, topic) {
      SilentEvents(d, Logged(c.host, topic, payload), Broadcast(c.registry, d, topic, payload, Agent(c.host)));
      hide PlayAll;
    }
  }

  lemma BroadcastSilent(r: Registry<nat>, d: Desk, topic: string, payload: string, origin: Origin)
    ensures var out := Broadcast(r, d, topic, payload, origin); forall i :: 0 <= i < |out| ==> out[i].Sent?
  {
    hide Publish;
  }

  /** SET stores the value under the sender's own hostname if it may, and otherwise does nothing. */
  lemma SetLine(rules: Rules, c: Caller, d: Desk, key: string, value: string)
    requires TopicName(key) && PayloadText(value)
    ensures Obey(rules, c, d, "SET" + " " + key + " " + value)
         == if MaySet(rules.config, c.host, key)
            then d.(trace := d.trace + [StateSet(c.host, key, value, Agent(c.host))]) else d
  {
    CommandNames();
    ReadThree(rules, c, d, "SET", key, value);
    PlayOne(d, StateSet(c.host, key, value, Agent(c.host)));
    hide MaySet, Obey, Solid;
  }

  /** GET leaves exactly its audit entry, and no list changes. */
  lemma GetLine(rules: Rules, c: Caller, d: Desk, key: string)
    requires TopicName(key)
    ensures Obey(rules, c, d, "GET" + " " + key) == d.(trace := d.trace + [Logged(c.host, key, "")])
  {
    CommandNames();
    ReadTwo(rules, c, d, "GET", key);
    PlayOne(d, Logged(c.host, key, ""));
    hide Obey, Solid, Broadcast, MaySet, MayPublish, MaySubscribe;
  }

  /** The command is one of those that do something, with the number of words it takes. */
  predicate Understood(cmd: Command) {
    || (cmd.items == 3 && (cmd.name == "SET" || cmd.name == "PUBLISH"))
    || (cmd.items == 2 && cmd.name == "GET")
    || (cmd.items >= 2 && (cmd.name == "SUBSCRIBE" || cmd.name == "UNSUBSCRIBE"))
  }

  /** An empty line, PING, PONG, an unknown command or one with the wrong number of words changes nothing. */
  lemma OtherLine(rules: Rules, c: Caller, d: Desk, line: string)
    requires Chomp(line) == "" || !Understood(Scan(Chomp(line)))
    ensures Obey(rules, c, d, line) == d
  {
    hide Scan, Chomp, Broadcast, MaySet, MayPublish, MaySubscribe, PlayAll;
    PlayNone(d);
  }

  /** What follows a carriage return is not looked at. */
  lemma CarriageReturnEnds(rules: Rules, c: Caller, d: Desk, line: string, rest: string)
    requires '\r' !in line
    ensures Obey(rules, c, d, line + "\r" + rest) == Obey(rules, c, d, line)
  {
    ChompWhole(line);
    var whole := line + "\r" + rest;
    assert whole[..|line|] == line;
    IndexUnique(whole, '\r', |line|);
    hide Index, Effects, Scan, PlayAll;
  }
}
