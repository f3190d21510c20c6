/** A worker's handling of one read: append, extract lines until none is left, dispatch each command. */
module Worker {
  import opened Commands
  import opened Dispatch
  import opened PubSubTables
  import opened Rbac
  import LineBuffer
  import PubSub

  method ExecutePublish(rules: Rules, c: Caller, topics: Tables, cmd: Command, ghost trace: seq<Event>)
    returns (events: seq<Event>)
    requires topics.Valid()
    ensures var d := Desk(topics.View(), trace);
            && events == (if MayPublish(rules.config, c.host, cmd.topic) then
                            [Logged(c.host, cmd.topic, cmd.payload)]
                            + Broadcast(c.registry, d, cmd.topic, cmd.payload, Agent(c.host))
                          else [])
            && topics.View() == PlayAll(d, events).topics
  {
    hide MayPublish, PlayAll, Tables.View;
    events := [];
    var allowed := CanPublish(rules.config, c.host, cmd.topic);
    if allowed {
      var out := topics.PublishTo(cmd.topic, cmd.payload, Registered(c.registry));
      events := [Logged(c.host, cmd.topic, cmd.payload)]
                + Sends(c.registry, out, cmd.topic, cmd.payload, Agent(c.host));
    }
    PlayAllSilent(Desk(topics.View(), trace), events);
  }

  method ExecuteSubscribe(rules: Rules, c: Caller, topics: Tables, cmd: Command, ghost trace: seq<Event>)
    returns (events: seq<Event>)
    requires topics.Valid()
    modifies topics, topics.names, topics.subscribers, topics.subCount
    ensures topics.Valid()
    ensures events == if MaySubscribe(rules.config, c.host, cmd.topic) then
                        [Logged(c.host, cmd.topic, cmd.payload),
                         Subscribed(c.id, c.fd, c.host, cmd.topic, Agent(c.host))]
                      else []
    ensures topics.View() == PlayAll(Desk(old(topics.View()), trace), events).topics
  {
    hide MaySubscribe, PlayAll, Tables.View, PubSub.Subscribe;
    ghost var d := Desk(topics.View(), trace);
    events := [];
    var allowed := CanSubscribe(rules.config, c.host, cmd.topic);
    if allowed {
      topics.SubscribeTo(c.fd, cmd.topic);
      events := [Logged(c.host, cmd.topic, cmd.payload), Subscribed(c.id, c.fd, c.host, cmd.topic, Agent(c.host))];
      PlayTwo(d, events[0], events[1]);
    } else {
      PlayAllSilent(d, []);
    }
  }

  /** The dispatch chain: the tables and the record end as the specification says. */
  method Execute(rules: Rules, c: Caller, topics: Tables, cmd: Command, ghost trace: seq<Event>)
    returns (events: seq<Event>)
    requires topics.Valid()
    modifies topics, topics.names, topics.subscribers, topics.subCount
    ensures topics.Valid()
    ensures events == Effects(rules, c, Desk(old(topics.View()), trace), cmd)
    ensures topics.View() == PlayAll(Desk(old(topics.View()), trace), events).topics
  {
    hide MaySet, MayPublish, MaySubscribe, Broadcast, PlayAll, Tables.View, PubSub.Unsubscribe;
    events := [];
    ghost var d := Desk(topics.View(), trace);
    PlayAllSilent(d, []);
    if cmd.items == 3 && cmd.name == "SET" {
      var allowed := CanSet(rules.config, c.host, cmd.topic);
      if allowed {
        events := [StateSet(c.host, cmd.topic, cmd.payload, Agent(c.host))];
      }
      PlayAllSilent(d, events);
    } else if cmd.items == 2 && cmd.name == "GET" {
      events := [Logged(c.host, cmd.topic, cmd.payload)];
      PlayAllSilent(d, events);
    } else if cmd.items >= 1 && (cmd.name == "PING" || cmd.name == "PONG") {
    } else if cmd.items >= 2 && cmd.name == "SUBSCRIBE" {
      events := ExecuteSubscribe(rules, c, topics, cmd, trace);
    } else if cmd.items >= 2 && cmd.name == "UNSUBSCRIBE" {
      if rules.mayUnsubscribe(c.host, cmd.topic) {
        topics.UnsubscribeFrom(c.fd, cmd.topic);
        events := [Unsubscribed(c.fd, cmd.topic)];
        PlayOne(d, events[0]);
      }
    } else if cmd.items == 3 && cmd.name == "PUBLISH" {
      events := ExecutePublish(rules, c, topics, cmd, trace);
    }
  }

  method HandleLine(rules: Rules, c: Caller, topics: Tables, line: string, ghost trace: seq<Event>)
    returns (events: seq<Event>)
    requires topics.Valid()
    modifies topics, topics.names, topics.subscribers, topics.subCount
    ensures topics.Valid()
    ensures Desk(topics.View(), trace + events) == Obey(rules, c, Desk(old(topics.View()), trace), line)
  {
    hide Effects, Scan, Chomp;
    events := [];
    assert trace + [] == trace;
    var text := Chomp(line);
    if text != "" {
      events := Execute(rules, c, topics, Scan(text), trace);
      PlayAllTrace(Desk(old(topics.View()), trace), events);
    }
  }

  lemma ServeNone(rules: Rules, c: Caller, d: Desk)
    ensures Serve(rules, c, d, []) == d
  {
  }

  lemma ServeCons(rules: Rules, c: Caller, d: Desk, line: string, lines: seq<string>)
    ensures Serve(rules, c, d, [line] + lines) == Serve(rules, c, Obey(rules, c, d, line), lines)
  {
    hide Obey;
    assert ([line] + lines)[1..] == lines;
  }

  /** The worker's loop over the lines of its client's buffer, after a read of `chunk`. */
  method ServeInput(rules: Rules, c: Caller, buffer: LineBuffer.Buffer, topics: Tables, chunk: string,
                    ghost trace: seq<Event>)
    returns (events: seq<Event>)
    requires buffer.Valid() && topics.Valid()
    modifies buffer, buffer.data, topics, topics.names, topics.subscribers, topics.subCount
    ensures buffer.Valid() && topics.Valid()
    ensures var d := LineBuffer.Drain(LineBuffer.Append(old(buffer.Contents()), chunk));
            && buffer.Contents() == d.rest
            && Desk(topics.View(), trace + events) == Serve(rules, c, Desk(old(topics.View()), trace), d.lines)
  {
    hide Obey, Serve, LineBuffer.Extract, LineBuffer.Append, LineBuffer.Drain, Tables.View;
    events := [];
    buffer.AppendBytes(chunk);
    ghost var all := LineBuffer.Drain(buffer.Contents());
    ghost var now := Desk(topics.View(), trace);
    ghost var goal := Serve(rules, c, now, all.lines);
    assert trace + [] == trace;
    while true
      invariant buffer.Valid() && topics.Valid() && now == Desk(topics.View(), trace + events)
      invariant LineBuffer.Drain(buffer.Contents()).rest == all.rest
      invariant Serve(rules, c, now, LineBuffer.Drain(buffer.Contents()).lines) == goal
      decreases buffer.len
    {
      LineBuffer.DrainStep(buffer.Contents());
      var r := buffer.ExtractLine(LineBuffer.MESSAGE_SIZE);
      if r.NoLine? {
        ServeNone(rules, c, now);
        return;
      }
      ServeCons(rules, c, now, r.text, LineBuffer.Drain(r.rest).lines);
      var more := HandleLine(rules, c, topics, r.text, trace + events);
      assert trace + events + more == trace + (events + more);
      now := Obey(rules, c, now, r.text);
      events := events + more;
    }
  }
}
