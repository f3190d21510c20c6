/** What a connection's commands do, read by read, against what its byte stream says. */
module Conversation {
  import opened Broker
  import opened Commands
  import opened Dispatch
  import opened PubSub
  import opened Rbac
  import opened Registry
  import LineBuffer

  datatype Read = Read(chunk: string, now: int)

  /** The reads of one connection, one worker's task after the other, with no other step between them. */
  ghost function ConverseAll(rules: Rules, s: State, fd: nat, inputs: seq<Read>): State
    decreases |inputs|
  {
    if inputs == [] || !Known(s.people, fd) then s
    else ConverseAll(rules, Converse(rules, s, fd, inputs[0].chunk, inputs[0].now), fd, inputs[1..])
  }

  function Chunks(inputs: seq<Read>): seq<string> {
    if inputs == [] then [] else [inputs[0].chunk] + Chunks(inputs[1..])
  }

  /** Registries that differ at most in the times of last activity. */
  ghost predicate Alike(r: Registry<nat>, r': Registry<nat>) {
    && r.table == r'.table && r.records.Keys == r'.records.Keys
    && (forall id :: id in r.records ==>
          r.records[id].fd == r'.records[id].fd && r.records[id].host == r'.records[id].host)
  }

  lemma RegisteredAlike(r: Registry<nat>, r': Registry<nat>)
    requires Alike(r, r')
    ensures Registered(r) <= Registered(r')
  {
    forall fd | fd in Registered(r)
      ensures fd in Registered(r')
    {
      var id :| id in r.records && r.records[id].fd == fd;
      assert id in r'.records && r'.records[id].fd == fd;
    }
  }

  lemma BroadcastAlike(r: Registry<nat>, r': Registry<nat>, d: Desk, topic: string, payload: string, origin: Origin)
    requires Alike(r, r')
    ensures Broadcast(r, d, topic, payload, origin) == Broadcast(r', d, topic, payload, origin)
  {
    hide Publish, FdKey;
    RegisteredAlike(r, r');
    RegisteredAlike(r', r);
    assert Registered(r) == Registered(r');
    var out := Publish(d.topics, Registered(r), topic, payload);
    assert forall i :: 0 <= i < |out| ==>
      SendOf(r, out[i].fd, topic, payload, origin) == SendOf(r', out[i].fd, topic, payload, origin);
  }

  lemma ObeyAlike(rules: Rules, c: Caller, c': Caller, d: Desk, line: string)
    requires Alike(c.registry, c'.registry) && c' == c.(registry := c'.registry)
    ensures Obey(rules, c, d, line) == Obey(rules, c', d, line)
  {
    hide Broadcast, MaySet, MayPublish, MaySubscribe, Scan, Chomp, PlayAll;
    var cmd := Scan(Chomp(line));
    BroadcastAlike(c.registry, c'.registry, d, cmd.topic, cmd.payload, Agent(c.host));
  }

  lemma {:induction false} ServeAlike(rules: Rules, c: Caller, c': Caller, d: Desk, lines: seq<string>)
    requires Alike(c.registry, c'.registry) && c' == c.(registry := c'.registry)
    ensures Serve(rules, c, d, lines) == Serve(rules, c', d, lines)
    decreases |lines|
  {
    hide Obey, Alike;
    if lines != [] {
      ObeyAlike(rules, c, c', d, lines[0]);
      ServeAlike(rules, c, c', Obey(rules, c, d, lines[0]), lines[1..]);
    }
  }

  lemma {:induction false} ServeJoin(rules: Rules, c: Caller, d: Desk, a: seq<string>, b: seq<string>)
    ensures Serve(rules, c, d, a + b) == Serve(rules, c, Serve(rules, c, d, a), b)
    decreases |a|
  {
    hide Obey;
    if a == [] {
      assert a + b == b;
    } else {
      assert (a + b)[1..] == a[1..] + b;
      ServeJoin(rules, c, Obey(rules, c, d, a[0]), a[1..], b);
    }
  }

  function Self(p: People, fd: nat): Caller
    requires Known(p, fd)
  {
    Caller(p.registry, Owner(p, fd), fd, p.registry.records[Owner(p, fd)].host)
  }

  /** One read keeps the connection known, under the same identity. */
  lemma ConverseSelf(rules: Rules, s: State, fd: nat, chunk: string, now: int)
    requires Known(s.people, fd)
    ensures var s' := Converse(rules, s, fd, chunk, now);
            var d := LineBuffer.Drain(LineBuffer.Append(Buffered(s.people, Owner(s.people, fd)), chunk));
            && Known(s'.people, fd) && Owner(s'.people, fd) == Owner(s.people, fd)
            && Buffered(s'.people, Owner(s.people, fd)) == d.rest
            && Alike(s.people.registry, s'.people.registry)
            && Self(s'.people, fd) == Self(s.people, fd).(registry := s'.people.registry)
            && s'.desk == Serve(rules, Self(s'.people, fd), s.desk, d.lines)
  {
    hide FdKey, Serve, LineBuffer.Append;
  }

  lemma {:induction false} ConverseFeeds(rules: Rules, s: State, fd: nat, inputs: seq<Read>)
    requires Known(s.people, fd)
    ensures ConverseAll(rules, s, fd, inputs).desk
         == Serve(rules, Self(s.people, fd), s.desk,
                  LineBuffer.Feed(Buffered(s.people, Owner(s.people, fd)), Chunks(inputs)).lines)
    decreases |inputs|
  {
    var buf := Buffered(s.people, Owner(s.people, fd));
    if inputs != [] {
      hide FdKey, LineBuffer.Append, Converse, Known, Self, Alike, Buffered;
      var s' := Converse(rules, s, fd, inputs[0].chunk, inputs[0].now);
      var d := LineBuffer.Drain(LineBuffer.Append(buf, inputs[0].chunk));
      ConverseSelf(rules, s, fd, inputs[0].chunk, inputs[0].now);
      ConverseFeeds(rules, s', fd, inputs[1..]);
      var more := LineBuffer.Feed(d.rest, Chunks(inputs[1..])).lines;
      assert Chunks(inputs)[1..] == Chunks(inputs[1..]);
      assert LineBuffer.Feed(buf, Chunks(inputs)).lines == d.lines + more;
      ServeJoin(rules, Self(s'.people, fd), s.desk, d.lines, more);
      ServeAlike(rules, Self(s.people, fd), Self(s'.people, fd), s.desk, d.lines + more);
    }
  }

  /** With no other step between them, a connection's reads do what the stream's complete lines do in order. */
  lemma UninterruptedReads(rules: Rules, s: State, fd: nat, inputs: seq<Read>)
    requires Known(s.people, fd) && Buffered(s.people, Owner(s.people, fd)) == ""
    requires LineBuffer.Reads(Chunks(inputs)) && LineBuffer.Fits(LineBuffer.Concat(Chunks(inputs)))
    ensures ConverseAll(rules, s, fd, inputs).desk
         == Serve(rules, Self(s.people, fd), s.desk, LineBuffer.Lines(LineBuffer.Concat(Chunks(inputs))))
  {
    ConverseFeeds(rules, s, fd, inputs);
    LineBuffer.Reassembly(Chunks(inputs));
  }

  // ---- Every run ---------------------------------------------------------------------------

  /** The move is a worker's read of bytes from the authenticated client `id`. */
  predicate IsRead(s: State, m: Move, id: nat) {
    && m.Finish? && m.task.Vault? && m.input.Data?
    && Known(s.people, m.task.fd) && Owner(s.people, m.task.fd) == id && id in s.people.auth
  }

  /** The lines the read completes. */
  function LinesOf(s: State, m: Move, id: nat): seq<string>
    requires IsRead(s, m, id)
  {
    LineBuffer.Drain(LineBuffer.Append(Buffered(s.people, id), m.input.chunk)).lines
  }

  /** Those lines, in order, are what the worker obeys for the client. */
  lemma ReadObeys(rules: Rules, s: State, m: Move, id: nat)
    requires Enabled(s, m) && IsRead(s, m, id)
    ensures var s' := Next(rules, s, m);
            && Known(s'.people, m.task.fd)
            && s'.desk == Serve(rules, Self(s'.people, m.task.fd), s.desk, LinesOf(s, m, id))
  {
    hide FdKey, Serve, LineBuffer.Append, Converse;
    ConverseSelf(rules, Release(s, m.task), m.task.fd, m.input.chunk, m.now);
  }

  /** The bytes read from client `id` in the course of a run, read by read. */
  ghost function ReadsOf(rules: Rules, s: State, moves: seq<Move>, id: nat): seq<string>
    requires Legal(rules, s, moves)
    decreases |moves|
  {
    if moves == [] then []
    else
      var rest := ReadsOf(rules, Next(rules, s, moves[0]), moves[1..], id);
      if IsRead(s, moves[0], id) then [moves[0].input.chunk] + rest else rest
  }

  /** The lines obeyed for client `id` in the course of a run. */
  ghost function Obeyed(rules: Rules, s: State, moves: seq<Move>, id: nat): seq<string>
    requires Legal(rules, s, moves)
    decreases |moves|
  {
    if moves == [] then []
    else
      var rest := Obeyed(rules, Next(rules, s, moves[0]), moves[1..], id);
      if IsRead(s, moves[0], id) then LinesOf(s, moves[0], id) + rest else rest
  }

  /** The client was accepted once and has been removed. */
  predicate Gone(s: State, id: nat) {
    id < s.people.next && id !in s.people.registry.records
  }

  lemma HandleBuffer(rules: Rules, s: State, fd: nat, handshake: Handshake, input: Input, now: int, id: nat)
    requires PeopleInv(s.people, s.net.lobby) && (handshake.Trusted? ==> GoodHost(handshake.name))
    ensures var s' := Handle(rules, s, fd, handshake, input, now);
            && s'.people.next == s.people.next
            && (id !in s.people.registry.records ==>
                  id !in s'.people.registry.records && Buffered(s'.people, id) == Buffered(s.people, id))
            && (input.Data? && Known(s.people, fd) && Owner(s.people, fd) == id && id in s.people.auth ==>
                  Buffered(s'.people, id)
                  == LineBuffer.Drain(LineBuffer.Append(Buffered(s.people, id), input.chunk)).rest)
            && (!(input.Data? && Known(s.people, fd) && Owner(s.people, fd) == id && id in s.people.auth) ==>
                  Buffered(s'.people, id) == Buffered(s.people, id) || id !in s'.people.registry.records)
  {
    hide FdKey, GoodHost, Serve, LineBuffer.Append, Consistent, Play, RecordInv;
  }

  lemma NextBuffer(rules: Rules, s: State, m: Move, id: nat)
    requires PeopleInv(s.people, s.net.lobby) && Enabled(s, m)
    ensures Gone(s, id) ==> Gone(Next(rules, s, m), id)
    ensures IsRead(s, m, id) ==>
              Buffered(Next(rules, s, m).people, id)
              == LineBuffer.Drain(LineBuffer.Append(Buffered(s.people, id), m.input.chunk)).rest
    ensures !IsRead(s, m, id) ==>
              Gone(Next(rules, s, m), id) || Buffered(Next(rules, s, m).people, id) == Buffered(s.people, id)
  {
    hide FdKey, GoodHost, LineBuffer.Append, Consistent, Handle, Play, PlayAll, ConsoleEvent, Broadcast, Collects;
    if m.Finish? && m.task.Vault? {
      HandleBuffer(rules, Release(s, m.task), m.task.fd, m.handshake, m.input, m.now, id);
    }
  }

  lemma {:induction false} GoneStays(rules: Rules, s: State, moves: seq<Move>, id: nat)
    requires PeopleInv(s.people, s.net.lobby) && Legal(rules, s, moves) && Gone(s, id)
    ensures ReadsOf(rules, s, moves, id) == [] && Obeyed(rules, s, moves, id) == []
    ensures id !in Outcome(rules, s, moves).people.registry.records
    decreases |moves|
  {
    hide PeopleInv, Enabled, Next;
    if moves != [] {
      NextPeople(rules, s, moves[0]);
      NextBuffer(rules, s, moves[0], id);
      GoneStays(rules, Next(rules, s, moves[0]), moves[1..], id);
    }
  }

  lemma FeedCons(buf: string, chunk: string, rest: seq<string>)
    ensures var d := LineBuffer.Drain(LineBuffer.Append(buf, chunk)); var f := LineBuffer.Feed(d.rest, rest);
            && LineBuffer.Feed(buf, [chunk] + rest).lines == d.lines + f.lines
            && LineBuffer.Feed(buf, [chunk] + rest).rest == f.rest
  {
    hide LineBuffer.Drain, LineBuffer.Append;
    assert ([chunk] + rest)[1..] == rest;
  }

  /** Whatever else happens in between, the reads of a client feed its buffer one after the other. */
  lemma {:induction false} RunFeeds(rules: Rules, s: State, moves: seq<Move>, id: nat)
    requires PeopleInv(s.people, s.net.lobby) && Legal(rules, s, moves)
    ensures var f := LineBuffer.Feed(Buffered(s.people, id), ReadsOf(rules, s, moves, id));
            var end := Outcome(rules, s, moves);
            && Obeyed(rules, s, moves, id) == f.lines
            && (id in end.people.registry.records ==> Buffered(end.people, id) == f.rest)
    decreases |moves|
  {
    if moves != [] {
      hide PeopleInv, Enabled, Next, IsRead, Buffered, LineBuffer.Append, LineBuffer.Feed, Gone;
      var m, s', rest := moves[0], Next(rules, s, moves[0]), moves[1..];
      NextPeople(rules, s, m);
      NextBuffer(rules, s, m, id);
      RunFeeds(rules, s', rest, id);
      if IsRead(s, m, id) {
        FeedCons(Buffered(s.people, id), m.input.chunk, ReadsOf(rules, s', rest, id));
      } else if Gone(s', id) {
        GoneStays(rules, s', rest, id);
        FedNothing(Buffered(s.people, id));
      }
    }
  }

  lemma FedNothing(buf: string)
    ensures LineBuffer.Feed(buf, []).lines == []
  {
  }

  lemma {:induction false} ReadsAreReads(rules: Rules, s: State, moves: seq<Move>, id: nat)
    requires Legal(rules, s, moves)
    ensures LineBuffer.Reads(ReadsOf(rules, s, moves, id))
    decreases |moves|
  {
    hide Next;
    if moves != [] {
      ReadsAreReads(rules, Next(rules, s, moves[0]), moves[1..], id);
    }
  }

  /**
    Commands follow the stream, in every run and for every client, whatever other steps come between
    its reads: if the stream fits, the lines obeyed are its complete lines in order and the buffer of
    a client still registered holds the unfinished rest; for a registered client, only if it fits.
   */
  lemma CommandsFollowStream(rules: Rules, moves: seq<Move>, id: nat)
    requires Legal(rules, EMPTY, moves)
    ensures var stream, end := LineBuffer.Concat(ReadsOf(rules, EMPTY, moves, id)), Outcome(rules, EMPTY, moves);
            var lines, rest := Obeyed(rules, EMPTY, moves, id), Buffered(end.people, id);
            && (LineBuffer.Fits(stream) ==> lines == LineBuffer.Lines(stream))
            && (id in end.people.registry.records ==>
                  (LineBuffer.Fits(stream) <==> lines == LineBuffer.Lines(stream) && rest == LineBuffer.Tail(stream)))
  {
    hide Legal, Outcome, ReadsOf, Obeyed, LineBuffer.Fits, LineBuffer.Feed, LineBuffer.Concat;
    EmptyInv(rules);
    RunFeeds(rules, EMPTY, moves, id);
    ReadsAreReads(rules, EMPTY, moves, id);
    LineBuffer.Reassembly(ReadsOf(rules, EMPTY, moves, id));
  }
}
