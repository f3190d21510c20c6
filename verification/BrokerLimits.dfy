/** Runs that break three of the broker's promises; the exact conditions are proved where the promises are. */
module BrokerLimits {
  import opened Broker
  import opened BrokerTokens
  import opened Dispatch
  import opened PubSub
  import opened Registry
  import Sweep

  // ---- A console command that names a descriptor key ---------------------------------------

  /** One connection, not yet authenticated, on descriptor 5. */
  function Lone(id: nat, now: int, armed: set<int>, queue: seq<Task>, handled: multiset<Task>, desk: Desk,
                sweeping: seq<nat>): State
  {
    State(People(Registry(map["fd:5" := id], map[id := Record(5, "", now)]), id + 1, {}, map[id := ""]),
          Net(armed, queue, handled, {}), desk, sweeping)
  }

  function Nobody(id: nat, armed: set<int>, queue: seq<Task>, handled: multiset<Task>, desk: Desk,
                  sweeping: seq<nat>): State
  {
    State(People(Registry(map[], map[]), id, {}, map[]), Net(armed, queue, handled, {}), desk, sweeping)
  }

  lemma KeyFive()
    ensures FdKey(5) == "fd:5"
  {
    assert Decimal(5) == "5";
  }

  lemma Arrives(rules: Rules, id: nat, now: int, armed: set<int>, queue: seq<Task>, desk: Desk, sweeping: seq<nat>)
    ensures var s, m := Nobody(id, armed, queue, multiset{}, desk, sweeping), AcceptVault(5, now);
            Enabled(s, m) && Next(rules, s, m) == Lone(id, now, armed + {5}, queue, multiset{}, desk, sweeping)
  {
    KeyFive();
    hide FdKey;
  }

  lemma Fires(rules: Rules, id: nat, now: int, queue: seq<Task>, desk: Desk)
    requires |queue| < 2
    ensures var s, m := Lone(id, now, {5}, queue, multiset{}, desk, []), Ready(5);
            Enabled(s, m) && Next(rules, s, m) == Lone(id, now, {}, queue + [Vault(5)], multiset{}, desk, [])
  {
    assert {5} - {5} == {};
  }

  lemma Taken(rules: Rules, id: nat, now: int, queue: seq<Task>, handled: multiset<Task>, desk: Desk)
    ensures var s := Lone(id, now, {}, [Vault(5)] + queue, handled, desk, []);
            Enabled(s, Take) && Next(rules, s, Take) == Lone(id, now, {}, queue, handled + multiset{Vault(5)}, desk, [])
  {
    assert ([Vault(5)] + queue)[1..] == queue;
  }

  lemma Fails(rules: Rules, id: nat, last: int, now: int, desk: Desk, sweeping: seq<nat>)
    ensures var s := Lone(id, last, {}, [], multiset{Vault(5)}, desk, sweeping);
            var m := Finish(Vault(5), Failed, WantRead, now);
            Enabled(s, m) && Next(rules, s, m) == Nobody(id + 1, {}, [], multiset{}, desk, sweeping)
  {
    KeyFive();
    hide FdKey;
    var s := Release(Lone(id, last, {}, [], multiset{Vault(5)}, desk, sweeping), Vault(5));
    assert s.net.handled == multiset{};
    assert Remove(s.people.registry, 5) == Registry(map[], map[]);
    assert s.people.buffers - {id} == map[];
    assert s.people.auth - {id} == {};
    assert s.net.armed - {5} == {};
  }

  /** Puts one more step in front of a run. */
  lemma StepFirst(rules: Rules, s: State, m: Move, s': State, rest: seq<Move>)
    requires Enabled(s, m) && Next(rules, s, m) == s' && Legal(rules, s', rest)
    ensures Legal(rules, s, [m] + rest) && Outcome(rules, s, [m] + rest) == Outcome(rules, s', rest)
  {
    hide Enabled, Next;
    assert ([m] + rest)[1..] == rest;
  }

  lemma KeyNamed(rules: Rules)
    ensures var s, m := Lone(0, 0, {5}, [], multiset{}, Desk([], []), []), ConsoleSubscribe("fd:5", "t");
            var e := Subscribed(0, 5, "", "t", Console);
            Enabled(s, m) && Next(rules, s, m) == Lone(0, 0, {5}, [], multiset{}, Desk([Topic("t", [5])], [e]), [])
  {
    var s := Lone(0, 0, {5}, [], multiset{}, Desk([], []), []);
    var e := Subscribed(0, 5, "", "t", Console);
    assert ConsoleEvent(s.people, "fd:5", "t", true) == [e];
    PlayOne(s.desk, e);
    assert Join(Topic("t", []), 5) == Topic("t", [5]);
    assert Subscribe([], 5, "t") == [Topic("t", [5])];
  }

  /** From a subscribed connection whose handshake fails to the next connection on its descriptor. */
  lemma ReusedAfterFailure(rules: Rules, desk: Desk, rest: seq<Move>, end: State) returns (moves: seq<Move>)
    requires Legal(rules, Lone(1, 1, {5}, [], multiset{}, desk, []), rest)
    requires Outcome(rules, Lone(1, 1, {5}, [], multiset{}, desk, []), rest) == end
    ensures var s := Lone(0, 0, {}, [Vault(5)], multiset{}, desk, []);
            Legal(rules, s, moves) && Outcome(rules, s, moves) == end
  {
    var one, none: multiset<Task> := multiset{Vault(5)}, multiset{};
    var next, fail := Lone(1, 1, {5}, [], none, desk, []), Finish(Vault(5), Failed, WantRead, 0);
    assert {} + {5} == {5} && [Vault(5)] + [] == [Vault(5)] && none + one == one;
    hide Next, Enabled, FdKey, Legal, Outcome, Lone, Nobody;
    Taken(rules, 0, 0, [], none, desk);
    Fails(rules, 0, 0, 0, desk, []);
    Arrives(rules, 1, 1, {}, [], desk, []);
    moves := Prepend(rules, Nobody(1, {}, [], none, desk, []), AcceptVault(5, 1), next, rest, end);
    moves := Prepend(rules, Lone(0, 0, {}, [], one, desk, []), fail, Nobody(1, {}, [], none, desk, []), moves, end);
    moves := Prepend(rules, Lone(0, 0, {}, [Vault(5)], none, desk, []), Take,
                     Lone(0, 0, {}, [], one, desk, []), moves, end);
  }

  /** The desk after the console has subscribed the connection on descriptor 5 by its key. */
  const SUBSCRIBED: Desk := Desk([Topic("t", [5])], [Subscribed(0, 5, "", "t", Console)])

  /** From the start, through a SUBSCRIBE by descriptor key and a failed handshake, to the next connection. */
  lemma Inherits(rules: Rules, rest: seq<Move>, end: State) returns (moves: seq<Move>)
    requires Legal(rules, Lone(1, 1, {5}, [], multiset{}, SUBSCRIBED, []), rest)
    requires Outcome(rules, Lone(1, 1, {5}, [], multiset{}, SUBSCRIBED, []), rest) == end
    ensures Legal(rules, EMPTY, moves) && Outcome(rules, EMPTY, moves) == end
  {
    var v, d0 := Vault(5), Desk([], []);
    var none: multiset<Task> := multiset{};
    assert EMPTY == Nobody(0, {}, [], none, d0, []) && {} + {5} == {5} && [] + [v] == [v];
    hide Next, Enabled, FdKey, Legal, Outcome, Lone, Nobody;
    Arrives(rules, 0, 0, {}, [], d0, []);
    KeyNamed(rules);
    Fires(rules, 0, 0, [], SUBSCRIBED);
    moves := ReusedAfterFailure(rules, SUBSCRIBED, rest, end);
    moves := Prepend(rules, Lone(0, 0, {5}, [], none, SUBSCRIBED, []), Ready(5),
                     Lone(0, 0, {}, [v], none, SUBSCRIBED, []), moves, end);
    moves := Prepend(rules, Lone(0, 0, {5}, [], none, d0, []), ConsoleSubscribe("fd:5", "t"),
                     Lone(0, 0, {5}, [], none, SUBSCRIBED, []), moves, end);
    moves := Prepend(rules, EMPTY, AcceptVault(5, 0), Lone(0, 0, {5}, [], none, d0, []), moves, end);
  }

  /**
    A run in which the console subscribes by descriptor key: the handshake fails, the descriptor is
    reused, and the new connection is subscribed before it has proved who it is.
   */
  lemma InheritedSubscription(rules: Rules) returns (moves: seq<Move>)
    ensures Legal(rules, EMPTY, moves)
    ensures var s := Outcome(rules, EMPTY, moves);
            5 in Subscribers(s.desk.topics, "t") && Known(s.people, 5) && Owner(s.people, 5) !in s.people.auth
  {
    var end := Lone(1, 1, {5}, [], multiset{}, SUBSCRIBED, []);
    assert Subscribers(end.desk.topics, "t") == [5] && end.people.auth == {};
    assert Known(end.people, 5) by { KeyFive(); }
    hide Next, Enabled, FdKey, Subscribers, Known, Legal, Outcome, Lone;
    Ended(rules, end);
    moves := Inherits(rules, [], end);
  }

  lemma DeliverOne(fd: int, registered: set<int>, message: string)
    requires fd in registered
    ensures Deliver([fd], registered, message) == [Delivery(fd, message)]
  {
    assert [fd][..0] == [];
    assert Deliver([], registered, message) == [];
  }

  lemma Told(rules: Rules, payload: string)
    ensures var s, m := Lone(1, 1, {5}, [], multiset{}, SUBSCRIBED, []), ConsolePublish("t", payload);
            var e := Sent(1, 5, "", "t", payload, Console);
            Enabled(s, m) && Next(rules, s, m)
              == Lone(1, 1, {5}, [], multiset{}, Desk(SUBSCRIBED.topics, SUBSCRIBED.trace + [e]), [])
  {
    KeyFive();
    hide FdKey;
    var s := Lone(1, 1, {5}, [], multiset{}, SUBSCRIBED, []);
    var r, e := s.people.registry, Sent(1, 5, "", "t", payload, Console);
    assert 1 in r.records && r.records[1].fd == 5;
    assert Subscribers(SUBSCRIBED.topics, "t") == [5] && 5 in Registered(r);
    DeliverOne(5, Registered(r), Format("t", payload));
    assert Publish(SUBSCRIBED.topics, Registered(r), "t", payload) == [Delivery(5, Format("t", payload))];
    assert Broadcast(r, SUBSCRIBED, "t", payload, Console) == [e];
    PlayOne(SUBSCRIBED, e);
  }

  /**
    The same run with a publication after it: the message is written to a connection that has not been
    verified under any name, and whose own subscription is not on record.
   */
  lemma UndeservedMessage(rules: Rules, payload: string) returns (moves: seq<Move>)
    ensures Legal(rules, EMPTY, moves)
    ensures var trace := Outcome(rules, EMPTY, moves).desk.trace;
            && |trace| == 2 && trace[1] == Sent(1, 5, "", "t", payload, Console)
            && (forall id, fd, host :: Verified(id, fd, host) !in trace) && !Deserved(rules, trace[..1], trace[1])
  {
    var s, e := Lone(1, 1, {5}, [], multiset{}, SUBSCRIBED, []), Sent(1, 5, "", "t", payload, Console);
    var desk := Desk(SUBSCRIBED.topics, SUBSCRIBED.trace + [e]);
    var end := Lone(1, 1, {5}, [], multiset{}, desk, []);
    assert end.desk.trace == [Subscribed(0, 5, "", "t", Console), e];
    hide Next, Enabled, FdKey, Subscribers, Known, Legal, Outcome, Lone, Granted;
    Ended(rules, end);
    Told(rules, payload);
    moves := Prepend(rules, s, ConsolePublish("t", payload), end, [], end);
    moves := Inherits(rules, moves, end);
  }

  lemma Ended(rules: Rules, s: State)
    ensures Legal(rules, s, []) && Outcome(rules, s, []) == s
  {
  }

  lemma Prepend(rules: Rules, s: State, m: Move, s': State, rest: seq<Move>, end: State) returns (moves: seq<Move>)
    requires Enabled(s, m) && Next(rules, s, m) == s' && Legal(rules, s', rest) && Outcome(rules, s', rest) == end
    ensures moves == [m] + rest && Legal(rules, s, moves) && Outcome(rules, s, moves) == end
  {
    moves := [m] + rest;
    StepFirst(rules, s, m, s', rest);
  }

  // ---- A sweep that removes a connection with a task in flight -----------------------------

  lemma Collected(rules: Rules, queue: seq<Task>, handled: multiset<Task>, desk: Desk)
    ensures var s, m := Lone(0, 0, {}, queue, handled, desk, []), Collect(61, [5]);
            Enabled(s, m) && Next(rules, s, m) == Lone(0, 0, {}, queue, handled, desk, [5])
  {
    var r := Registry(map["fd:5" := 0], map[0 := Record(5, "", 0)]);
    assert Collects(r, 61, 60, [5]) by {
      assert 0 in r.records && r.records[0].fd == 5;
    }
  }

  lemma SweptAway(rules: Rules, id: nat, last: int, armed: set<int>, queue: seq<Task>)
    requires armed <= {5}
    ensures var s := Lone(id, last, armed, queue, multiset{}, Desk([], []), [5]);
            Enabled(s, SweepNext)
            && Next(rules, s, SweepNext) == Nobody(id + 1, {}, queue, multiset{}, Desk([], [Dropped(5)]), [])
  {
    KeyFive();
    hide FdKey;
    var s := Lone(id, last, armed, queue, multiset{}, Desk([], []), [5]);
    assert Play(s.desk, Dropped(5)) == Desk([], [Dropped(5)]);
    assert Remove(s.people.registry, 5) == Registry(map[], map[]);
    assert s.people.buffers - {id} == map[];
    assert s.people.auth - {id} == {};
    assert s.net.armed - {5} == {};
  }

  /** The descriptor is reused while a task for its former owner is still queued. */
  lemma Reused(rules: Rules, d: Desk) returns (moves: seq<Move>)
    ensures var s := Nobody(1, {}, [Vault(5)], multiset{}, d, []);
            var end := Lone(1, 61, {}, [], multiset{Vault(5), Vault(5)}, d, []);
            Legal(rules, s, moves) && Outcome(rules, s, moves) == end
  {
    var v := Vault(5);
    var one, two, none: multiset<Task> := multiset{v}, multiset{v, v}, multiset{};
    var end := Lone(1, 61, {}, [], two, d, []);
    Ended(rules, end);
    assert {} + {5} == {5} && [v] + [v] == [v, v] && [v] + [] == [v];
    assert none + one == one && one + one == two;
    hide Next, Enabled, FdKey, Legal, Outcome, Lone, Nobody;
    Arrives(rules, 1, 61, {}, [v], d, []);
    Fires(rules, 1, 61, [v], d);
    Taken(rules, 1, 61, [v], none, d);
    Taken(rules, 1, 61, [], one, d);
    moves := [];
    moves := Prepend(rules, Lone(1, 61, {}, [v], one, d, []), Take, end, moves, end);
    moves := Prepend(rules, Lone(1, 61, {}, [v, v], none, d, []), Take, Lone(1, 61, {}, [v], one, d, []), moves, end);
    moves := Prepend(rules, Lone(1, 61, {5}, [v], none, d, []), Ready(5),
                     Lone(1, 61, {}, [v, v], none, d, []), moves, end);
    moves := Prepend(rules, Nobody(1, {}, [v], none, d, []), AcceptVault(5, 61),
                     Lone(1, 61, {5}, [v], none, d, []), moves, end);
  }

  /**
    A run in which the sweep removes a connection with a task queued: the descriptor is reused, the
    stale task still leads to it, and two workers hold tasks for one connection.
   */
  lemma SharedConnection(rules: Rules) returns (moves: seq<Move>)
    ensures Legal(rules, EMPTY, moves)
    ensures var s := Outcome(rules, EMPTY, moves); Open(s, Vault(5)) && s.net.handled[Vault(5)] == 2
  {
    var v, d0, d1 := Vault(5), Desk([], []), Desk([], [Dropped(5)]);
    var none: multiset<Task> := multiset{};
    var end := Lone(1, 61, {}, [], multiset{v, v}, d1, []);
    assert Open(end, v) by { KeyFive(); }
    assert end.net.handled[v] == 2;
    assert EMPTY == Nobody(0, {}, [], none, d0, []) && {} + {5} == {5} && [] + [v] == [v];
    hide Next, Enabled, FdKey, Open, Legal, Outcome, Lone, Nobody;
    Arrives(rules, 0, 0, {}, [], d0, []);
    Fires(rules, 0, 0, [], d0);
    Collected(rules, [v], none, d0);
    SweptAway(rules, 0, 0, {}, [v]);
    moves := Reused(rules, d1);
    moves := Prepend(rules, Lone(0, 0, {}, [v], none, d0, [5]), SweepNext,
                     Nobody(1, {}, [v], none, d1, []), moves, end);
    moves := Prepend(rules, Lone(0, 0, {}, [v], none, d0, []), Collect(61, [5]),
                     Lone(0, 0, {}, [v], none, d0, [5]), moves, end);
    moves := Prepend(rules, Lone(0, 0, {5}, [], none, d0, []), Ready(5), Lone(0, 0, {}, [v], none, d0, []), moves, end);
    moves := Prepend(rules, EMPTY, AcceptVault(5, 0), Lone(0, 0, {5}, [], none, d0, []), moves, end);
  }

  // ---- A sweep that removes a connection younger than its collection -----------------------

  /** From a connection in a worker's hands: collected, its handshake fails, and its descriptor is reused. */
  lemma ReusedInTime(rules: Rules, d: Desk) returns (moves: seq<Move>)
    ensures moves == [Collect(61, [5]), Finish(Vault(5), Failed, WantRead, 61), AcceptVault(5, 61)]
    ensures var s, end := Lone(0, 0, {}, [], multiset{Vault(5)}, d, []), Lone(1, 61, {5}, [], multiset{}, d, [5]);
            Legal(rules, s, moves) && Outcome(rules, s, moves) == end
  {
    var one, none: multiset<Task> := multiset{Vault(5)}, multiset{};
    var end, fail := Lone(1, 61, {5}, [], none, d, [5]), Finish(Vault(5), Failed, WantRead, 61);
    Ended(rules, end);
    assert {} + {5} == {5};
    hide Next, Enabled, FdKey, Legal, Outcome, Lone, Nobody;
    Collected(rules, [], one, d);
    Fails(rules, 0, 0, 61, d, [5]);
    Arrives(rules, 1, 61, {}, [], d, [5]);
    moves := [];
    moves := Prepend(rules, Nobody(1, {}, [], none, d, [5]), AcceptVault(5, 61), end, moves, end);
    moves := Prepend(rules, Lone(0, 0, {}, [], one, d, [5]), fail, Nobody(1, {}, [], none, d, [5]), moves, end);
    moves := Prepend(rules, Lone(0, 0, {}, [], one, d, []), Collect(61, [5]),
                     Lone(0, 0, {}, [], one, d, [5]), moves, end);
  }

  /** The first connection is accepted, and a worker takes its task. */
  lemma TakenUp(rules: Rules, d: Desk, rest: seq<Move>, end: State) returns (moves: seq<Move>)
    requires Legal(rules, Lone(0, 0, {}, [], multiset{Vault(5)}, d, []), rest)
    requires Outcome(rules, Lone(0, 0, {}, [], multiset{Vault(5)}, d, []), rest) == end && d == Desk([], [])
    ensures moves == [AcceptVault(5, 0), Ready(5), Take] + rest
    ensures Legal(rules, EMPTY, moves) && Outcome(rules, EMPTY, moves) == end
  {
    var v := Vault(5);
    var one, none: multiset<Task> := multiset{v}, multiset{};
    assert EMPTY == Nobody(0, {}, [], none, d, []) && {} + {5} == {5} && [] + [v] == [v];
    assert [v] + [] == [v] && none + one == one;
    hide Next, Enabled, FdKey, Legal, Outcome, Lone, Nobody;
    Arrives(rules, 0, 0, {}, [], d, []);
    Fires(rules, 0, 0, [], d);
    Taken(rules, 0, 0, [], none, d);
    moves := Prepend(rules, Lone(0, 0, {}, [v], none, d, []), Take, Lone(0, 0, {}, [], one, d, []), rest, end);
    moves := Prepend(rules, Lone(0, 0, {5}, [], none, d, []), Ready(5), Lone(0, 0, {}, [v], none, d, []), moves, end);
    moves := Prepend(rules, EMPTY, AcceptVault(5, 0), Lone(0, 0, {5}, [], none, d, []), moves, end);
  }

  /**
    A run in which a collected connection fails its handshake before its turn comes: the descriptor is
    reused, and the sweep, which meets no task in flight, removes a connection accepted that second.
   */
  lemma FreshConnectionSwept(rules: Rules) returns (moves: seq<Move>)
    ensures Legal(rules, EMPTY, moves) && Sweep.ClockRuns(moves, 0) && Collect(61, [5]) in moves
    ensures var s := Outcome(rules, EMPTY, moves);
            && Enabled(s, SweepNext) && Patient(s, SweepNext) && s.sweeping[0] == 5
            && Known(s.people, 5) && Sweep.Last(s.people, 5) == 61
            && !Known(Next(rules, s, SweepNext).people, 5)
  {
    hide Next, FdKey, Legal, Outcome, Known, Patient, Sweep.Last, Sweep.ClockRuns;
    var d := Desk([], []);
    var end := Lone(1, 61, {5}, [], multiset{}, d, [5]);
    SweptAway(rules, 1, 61, {5}, []);
    FreshEnd(rules, end);
    hide Enabled, Lone, Nobody;
    var rest := ReusedInTime(rules, d);
    moves := TakenUp(rules, d, rest, end);
    FreshClock(rest[1], moves);
  }

  lemma FreshEnd(rules: Rules, end: State)
    requires end == Lone(1, 61, {5}, [], multiset{}, Desk([], []), [5]) && Enabled(end, SweepNext)
    requires Next(rules, end, SweepNext) == Nobody(2, {}, [], multiset{}, Desk([], [Dropped(5)]), [])
    ensures Patient(end, SweepNext) && Known(end.people, 5) && Sweep.Last(end.people, 5) == 61 && end.sweeping[0] == 5
    ensures !Known(Next(rules, end, SweepNext).people, 5)
  {
    KeyFive();
    hide FdKey, Next;
  }

  lemma {:induction false} FreshClock(fail: Move, moves: seq<Move>)
    requires fail == Finish(Vault(5), Failed, WantRead, 61)
    requires moves == [AcceptVault(5, 0), Ready(5), Take, Collect(61, [5]), fail, AcceptVault(5, 61)]
    ensures Sweep.ClockRuns(moves, 0)
  {
    var m1, m2, m3 := moves[1..], moves[2..], moves[3..];
    assert m1[1..] == m2 && m2[1..] == m3 && m3[1..] == [fail, AcceptVault(5, 61)];
    assert [fail, AcceptVault(5, 61)][1..] == [AcceptVault(5, 61)] && [AcceptVault(5, 61)][1..] == [];
    assert Sweep.ClockRuns([], 61) && Sweep.ClockRuns([AcceptVault(5, 61)], 61);
    assert Sweep.ClockRuns([fail, AcceptVault(5, 61)], 61);
    assert Sweep.ClockRuns(m3, 0) && Sweep.ClockRuns(m2, 0) && Sweep.ClockRuns(m1, 0);
  }
}
