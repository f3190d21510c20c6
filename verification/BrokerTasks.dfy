/** The tasks of the broker over every run: what epoll reported is queued, being handled, or done. */
module BrokerTasks {
  import opened Broker
  import opened Dispatch
  import opened Registry
  import LineBuffer

  /** The task that the event loop makes of what epoll reports: a negative number is a lobby socket. */
  function Reports(m: Move): seq<Task> {
    if !m.Ready? then [] else if m.ev < 0 then [Lobby(-m.ev)] else [Vault(m.ev)]
  }

  function Reported(moves: seq<Move>): seq<Task> {
    if moves == [] then [] else Reports(moves[0]) + Reported(moves[1..])
  }

  /** How many tasks the workers have taken. */
  function Taken(moves: seq<Move>): nat {
    if moves == [] then 0 else (if moves[0].Take? then 1 else 0) + Taken(moves[1..])
  }

  function Finishes(m: Move): seq<Task> {
    if m.Finish? then [m.task] else []
  }

  function Finished(moves: seq<Move>): seq<Task> {
    if moves == [] then [] else Finishes(moves[0]) + Finished(moves[1..])
  }

  lemma HandleTasks(rules: Rules, s: State, fd: nat, handshake: Handshake, input: Input, now: int)
    ensures var s' := Handle(rules, s, fd, handshake, input, now);
            s'.net.queue == s.net.queue && s'.net.handled == s.net.handled
  {
    hide FdKey, Serve, LineBuffer.Append, Play;
  }

  /** A task enters at the back of the queue, leaves at its front, and is handled until it is finished. */
  lemma NextTasks(rules: Rules, s: State, m: Move)
    requires Enabled(s, m)
    ensures var s' := Next(rules, s, m);
            && (m.Take? ==> s.net.queue != [])
            && s'.net.queue == (if m.Take? then s.net.queue[1..] else s.net.queue + Reports(m))
            && s'.net.handled + multiset(Finishes(m))
               == s.net.handled + (if m.Take? then multiset{s.net.queue[0]} else multiset{})
  {
    hide FdKey, GoodHost, Handle, Play, PlayAll, ConsoleEvent, Broadcast, Collects, Free;
    var s' := Next(rules, s, m);
    if m.Finish? {
      if m.task.Vault? {
        HandleTasks(rules, Release(s, m.task), m.task.fd, m.handshake, m.input, m.now);
      }
      assert s'.net.handled == s.net.handled - multiset{m.task};
    } else if m.SweepNext? {
      DropTasks(s, s.sweeping[0]);
    }
  }

  lemma DropTasks(s: State, fd: nat)
    ensures Drop(s, fd).net.queue == s.net.queue && Drop(s, fd).net.handled == s.net.handled
  {
    hide FdKey, Play;
  }

  /** The same, as the step's account. */
  lemma Account(q: seq<Task>, a: seq<Task>, take: bool, h: multiset<Task>, h': multiset<Task>, f: multiset<Task>)
    requires take ==> q != [] && a == []
    requires h' + f == h + (if take then multiset{q[0]} else multiset{})
    ensures var x, k := q + a, if take then 1 else 0;
            && k <= |x| && x[k..] == (if take then q[1..] else q + a)
            && h + multiset(x[..k]) == h' + f
  {
    var x := q + a;
    if take {
      assert x == q && x[..1] == [q[0]];
    } else {
      assert x[..0] == [] && x[0..] == x;
    }
  }

  /** One step's account and the rest's make up the account of both. */
  lemma Chain(q: seq<Task>, q': seq<Task>, e: seq<Task>, a: seq<Task>, b: seq<Task>, k: nat, l: nat,
              h: multiset<Task>, h': multiset<Task>, g: multiset<Task>, f: seq<Task>, f': seq<Task>)
    requires k <= |q + a| && q' == (q + a)[k..] && h + multiset((q + a)[..k]) == h' + multiset(f)
    requires l <= |q' + b| && e == (q' + b)[l..] && h' + multiset((q' + b)[..l]) == g + multiset(f')
    ensures var x := q + (a + b);
            k + l <= |x| && e == x[k + l..] && h + multiset(x[..k + l]) == g + multiset(f + f')
  {
    var x := q + (a + b);
    var front, next := (q + a)[..k], (q' + b)[..l];
    assert x == front + (q' + b);
    assert x[..k + l] == front + next;
    Sum(h, h', g, front, next, f, f');
  }

  lemma Sum(h: multiset<Task>, h': multiset<Task>, g: multiset<Task>,
            front: seq<Task>, next: seq<Task>, f: seq<Task>, f': seq<Task>)
    requires h + multiset(front) == h' + multiset(f) && h' + multiset(next) == g + multiset(f')
    ensures h + multiset(front + next) == g + multiset(f + f')
  {
    assert multiset(front + next) == multiset(front) + multiset(next);
    assert multiset(f + f') == multiset(f) + multiset(f');
    assert h + (multiset(front) + multiset(next)) == (h + multiset(front)) + multiset(next);
    assert (h' + multiset(f)) + multiset(next) == (h' + multiset(next)) + multiset(f);
    assert (g + multiset(f')) + multiset(f) == g + (multiset(f) + multiset(f'));
  }

  lemma {:induction false} RunTasks(rules: Rules, s: State, moves: seq<Move>)
    requires Legal(rules, s, moves)
    ensures var e := Outcome(rules, s, moves); var x := s.net.queue + Reported(moves); var k := Taken(moves);
            && k <= |x| && e.net.queue == x[k..]
            && s.net.handled + multiset(x[..k]) == e.net.handled + multiset(Finished(moves))
    decreases |moves|
  {
    hide Enabled, Next, Reports, Finishes;
    var q := s.net.queue;
    if moves == [] {
      assert q + [] == q && q[0..] == q && q[..0] == [];
    } else {
      var m, s', rest := moves[0], Next(rules, s, moves[0]), moves[1..];
      var e := Outcome(rules, s', rest);
      assert Outcome(rules, s, moves) == e;
      hide Reported, Taken, Finished, Outcome, Legal;
      NextTasks(rules, s, m);
      assert m.Take? ==> Reports(m) == [] by { TakeReportsNone(m); }
      RunTasks(rules, s', rest);
      Account(q, Reports(m), m.Take?, s.net.handled, s'.net.handled, multiset(Finishes(m)));
      Chain(q, s'.net.queue, e.net.queue, Reports(m), Reported(rest), if m.Take? then 1 else 0, Taken(rest),
            s.net.handled, s'.net.handled, e.net.handled, Finishes(m), Finished(rest));
      Unfold(moves);
    }
  }

  lemma TakeReportsNone(m: Move)
    ensures m.Take? ==> Reports(m) == []
  {
  }

  lemma Unfold(moves: seq<Move>)
    requires moves != []
    ensures Reported(moves) == Reports(moves[0]) + Reported(moves[1..])
    ensures Taken(moves) == (if moves[0].Take? then 1 else 0) + Taken(moves[1..])
    ensures Finished(moves) == Finishes(moves[0]) + Finished(moves[1..])
  {
  }

  /**
    In every run the workers take the tasks in the order in which epoll reported them: those not taken yet are
    the queue, and each task taken is being handled or finished, once for each time it was reported.
   */
  lemma TasksInOrder(rules: Rules, moves: seq<Move>)
    requires Legal(rules, EMPTY, moves)
    ensures var e, all, k := Outcome(rules, EMPTY, moves), Reported(moves), Taken(moves);
            && k <= |all| && e.net.queue == all[k..]
            && multiset(all[..k]) == e.net.handled + multiset(Finished(moves))
  {
    hide Legal, Outcome, Reported, Taken, Finished;
    RunTasks(rules, EMPTY, moves);
    assert [] + Reported(moves) == Reported(moves);
  }
}
