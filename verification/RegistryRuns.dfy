/** The registry over the broker's runs: every run is a legal history of registry calls. */
module RegistryRuns {
  import opened Broker
  import opened Dispatch
  import opened Registry
  import LineBuffer
  import History = RegistryHistory

  /** The registry call a worker's task on a vault connection makes, if any. */
  function HandleCall(p: People, fd: nat, handshake: Handshake, input: Input, now: int): seq<History.Call> {
    if !Known(p, fd) then []
    else if Owner(p, fd) !in p.auth then
      match handshake
      case Pending => []
      case Failed => [History.Gone(fd)]
      case Rejected => [History.Gone(fd)]
      case Trusted(name) => [History.Named(fd, name)]
    else
      match input
      case WantRead => []
      case Ended => [History.Gone(fd)]
      case Data(_) => [History.Active(fd, now)]
  }

  /** The registry call a move makes, if any. */
  function CallOf(s: State, m: Move): seq<History.Call> {
    if m.AcceptVault? then [History.Accepted(s.people.next, m.fd, m.now)]
    else if m.Finish? && m.task.Vault? then HandleCall(s.people, m.task.fd, m.handshake, m.input, m.now)
    else if m.SweepNext? && s.sweeping != [] then [History.Gone(s.sweeping[0])]
    else []
  }

  /** The registry calls of a run, in order. */
  ghost function CallsOf(rules: Rules, s: State, moves: seq<Move>): seq<History.Call>
    requires Legal(rules, s, moves)
    decreases |moves|
  {
    if moves == [] then [] else CallOf(s, moves[0]) + CallsOf(rules, Next(rules, s, moves[0]), moves[1..])
  }

  /** The calls so far are a legal history that leads to the registry as it stands, all clients older than `next`. */
  ghost predicate Follows(s: State, calls: seq<History.Call>) {
    && PeopleInv(s.people, s.net.lobby)
    && History.Legal(calls) && History.After(calls) == s.people.registry
    && (forall id :: s.people.next <= id ==> History.Fresh(calls, id))
  }

  lemma AfterNext(calls: seq<History.Call>, call: History.Call)
    ensures History.After(calls + [call]) == History.Apply(History.After(calls), call)
    ensures History.Legal(calls + [call]) <==>
            && History.Legal(calls)
            && (call.Accepted? ==> History.Fresh(calls, call.id) && FdKey(call.fd) !in History.After(calls).table)
            && (call.Named? ==> GoodHost(call.host) && (FdKey(call.fd) in History.After(calls).table ==>
                  var c := History.After(calls).table[FdKey(call.fd)];
                  c in History.After(calls).records && History.After(calls).records[c].host == ""))
  {
    hide FdKey, History.Apply, History.Fresh, GoodHost;
    var all := calls + [call];
    assert all[..|all| - 1] == calls;
  }

  /** The call is legal where the registry stands, and does to it what the step does. */
  ghost predicate Makes(s: State, s': State, calls: seq<History.Call>) {
    var r := s.people.registry;
    && |calls| <= 1 && s.people.next <= s'.people.next
    && s'.people.registry == (if calls == [] then r else History.Apply(r, calls[0]))
    && (calls != [] && calls[0].Accepted? ==>
          calls[0].id == s.people.next < s'.people.next && FdKey(calls[0].fd) !in r.table)
    && (calls != [] && calls[0].Named? ==>
          && GoodHost(calls[0].host) && Known(s.people, calls[0].fd)
          && r.records[Owner(s.people, calls[0].fd)].host == "")
  }

  lemma DiscardMakes(s: State, fd: nat)
    requires PeopleInv(s.people, s.net.lobby)
    ensures Makes(s, Discard(s, fd), [History.Gone(fd)])
  {
    hide FdKey, GoodHost, PeopleInv;
  }

  lemma HandleMakes(rules: Rules, s: State, fd: nat, handshake: Handshake, input: Input, now: int)
    requires PeopleInv(s.people, s.net.lobby) && (handshake.Trusted? ==> GoodHost(handshake.name))
    ensures Makes(s, Handle(rules, s, fd, handshake, input, now), HandleCall(s.people, fd, handshake, input, now))
  {
    hide FdKey, GoodHost, Consistent, Serve, LineBuffer.Append, Play;
    if Known(s.people, fd) {
      assert RecordInv(s.people, Owner(s.people, fd), s.net.lobby);
    }
  }

  /** A step makes at most one call, a legal one, and the registry changes as that call says. */
  lemma NextMakes(rules: Rules, s: State, m: Move)
    requires PeopleInv(s.people, s.net.lobby) && Enabled(s, m)
    ensures Makes(s, Next(rules, s, m), CallOf(s, m))
  {
    hide FdKey, GoodHost, PeopleInv, Handle, HandleCall, Discard, Play, PlayAll, ConsoleEvent, Broadcast, Collects;
    if m.Finish? && m.task.Vault? {
      HandleMakes(rules, Release(s, m.task), m.task.fd, m.handshake, m.input, m.now);
    } else if m.SweepNext? {
      DiscardMakes(s.(desk := Play(s.desk, Dropped(s.sweeping[0]))), s.sweeping[0]);
    }
  }

  lemma NextFollows(rules: Rules, s: State, m: Move, calls: seq<History.Call>)
    requires Follows(s, calls) && Enabled(s, m)
    ensures Follows(Next(rules, s, m), calls + CallOf(s, m))
  {
    hide FdKey, GoodHost, PeopleInv, Next, CallOf, Enabled, History.After, History.Legal, History.Apply;
    NextPeople(rules, s, m);
    NextMakes(rules, s, m);
    var c := CallOf(s, m);
    if c == [] {
      assert calls + c == calls;
    } else {
      assert c == [c[0]];
      FollowsNext(s, Next(rules, s, m), calls, c[0]);
    }
  }

  lemma FollowsNext(s: State, s': State, calls: seq<History.Call>, call: History.Call)
    requires Follows(s, calls) && Makes(s, s', [call]) && PeopleInv(s'.people, s'.net.lobby)
    ensures Follows(s', calls + [call])
  {
    hide FdKey, GoodHost, PeopleInv, History.Apply;
    AfterNext(calls, call);
    forall id | s'.people.next <= id
      ensures History.Fresh(calls + [call], id)
    {
      assert History.Fresh(calls, id);
    }
  }

  lemma {:induction false} RunFollows(rules: Rules, s: State, moves: seq<Move>, calls: seq<History.Call>)
    requires Follows(s, calls) && Legal(rules, s, moves)
    ensures Follows(Outcome(rules, s, moves), calls + CallsOf(rules, s, moves))
    decreases |moves|
  {
    hide Follows, Enabled, Next, CallOf;
    if moves == [] {
      assert calls + [] == calls;
    } else {
      var s', rest, c := Next(rules, s, moves[0]), moves[1..], CallOf(s, moves[0]);
      NextFollows(rules, s, moves[0], calls);
      RunFollows(rules, s', rest, calls + c);
      assert calls + c + CallsOf(rules, s', rest) == calls + (c + CallsOf(rules, s', rest));
    }
  }

  /** Every run of the broker makes a legal history of registry calls, and the registry is what they make of it. */
  lemma RunIsHistory(rules: Rules, moves: seq<Move>)
    requires Legal(rules, EMPTY, moves)
    ensures var calls := CallsOf(rules, EMPTY, moves);
            History.Legal(calls) && History.After(calls) == Outcome(rules, EMPTY, moves).people.registry
  {
    hide Legal, Outcome, CallsOf;
    EmptyInv(rules);
    assert Follows(EMPTY, []);
    RunFollows(rules, EMPTY, moves, []);
    assert [] + CallsOf(rules, EMPTY, moves) == CallsOf(rules, EMPTY, moves);
  }

  /**
    In every run of the broker, reconnects included: a descriptor key leads to a client exactly from its
    acceptance on that descriptor until the next removal of it, and a hostname to the client that was
    given it last, as long as that client is not removed.
   */
  lemma IndexesFollowRun(rules: Rules, moves: seq<Move>, calls: seq<History.Call>, id: nat, n: nat, h: string)
    requires Legal(rules, EMPTY, moves) && calls == CallsOf(rules, EMPTY, moves) && GoodHost(h)
    ensures var table := Outcome(rules, EMPTY, moves).people.registry.table;
            && ((FdKey(n) in table && table[FdKey(n)] == id) <==> exists i: nat :: History.Registered(calls, i, id, n))
            && ((h in table && table[h] == id) <==> exists i: nat :: History.Bears(calls, i, h, id))
  {
    hide Legal, Outcome, CallsOf, FdKey, GoodHost, History.Registered, History.Bears, History.Legal, History.After;
    RunIsHistory(rules, moves);
    History.DescriptorIndex(calls, id, n);
    History.HostnameIndex(calls, h, id);
  }
}
