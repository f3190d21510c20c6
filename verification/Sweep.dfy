/** The sweep over runs: what it collects, and whom it removes some steps later. */
module Sweep {
  import opened Broker
  import opened Dispatch
  import opened Registry
  import LineBuffer

  /** The move gives descriptor `fd` a new time of last activity: it is accepted, or read by a worker. */
  predicate Renews(s: State, m: Move, fd: nat) {
    || (m.AcceptVault? && m.fd == fd)
    || (&& m.Finish? && m.task == Vault(fd) && m.input.Data?
        && Known(s.people, fd) && Owner(s.people, fd) in s.people.auth)
  }

  function Last(p: People, fd: nat): int
    requires Known(p, fd)
  {
    p.registry.records[Owner(p, fd)].last
  }

  /** The same client stands under the descriptor, silent in between. */
  predicate Silent(p: People, p': People, fd: nat) {
    Known(p', fd) ==> Known(p, fd) && Owner(p, fd) == Owner(p', fd) && Last(p, fd) == Last(p', fd)
  }

  // ---- One step ----------------------------------------------------------------------------

  lemma EnrollSilent(p: People, lobby: set<nat>, x: nat, now: int, fd: nat)
    requires PeopleInv(p, lobby) && FdKey(x) !in p.registry.table
    ensures x != fd ==> Silent(p, Enroll(p, x, now), fd)
    ensures Known(Enroll(p, fd, now), fd) && Last(Enroll(p, fd, now), fd) == now
  {
    hide FdKey, GoodHost;
    if x != fd && FdKey(x) == FdKey(fd) {
      FdKeyInjective(x, fd);
    }
  }

  lemma DiscardSilent(s: State, x: nat, fd: nat)
    requires PeopleInv(s.people, s.net.lobby)
    ensures Silent(s.people, Discard(s, x).people, fd)
    ensures !Known(Discard(s, fd).people, fd)
  {
    hide FdKey, GoodHost;
    if Known(s.people, x) {
      RemoveIsRestrict(s.people.registry, x);
    }
    if Known(s.people, fd) {
      RemoveIsRestrict(s.people.registry, fd);
    }
  }

  lemma TrustSilent(p: People, lobby: set<nat>, x: nat, name: string, fd: nat)
    requires PeopleInv(p, lobby) && Known(p, x) && GoodHost(name)
    ensures Silent(p, Authenticate(p, x, name), fd)
  {
    hide Consistent;
    assert "fd:" <= FdKey(fd);
  }

  lemma ReceiveSilent(p: People, lobby: set<nat>, x: nat, rest: string, now: int, fd: nat)
    requires PeopleInv(p, lobby) && Known(p, x)
    ensures x != fd ==> Silent(p, Receive(p, x, rest, now), fd)
    ensures x == fd ==> Known(Receive(p, x, rest, now), fd) && Last(Receive(p, x, rest, now), fd) == now
  {
    hide FdKey, GoodHost, Consistent;
    if Known(p, fd) {
      FdKeyOwner(p.registry, fd);
      FdKeyOwner(p.registry, x);
    }
  }

  lemma HandleSilent(rules: Rules, s: State, x: nat, handshake: Handshake, input: Input, now: int, fd: nat)
    requires PeopleInv(s.people, s.net.lobby) && (handshake.Trusted? ==> GoodHost(handshake.name))
    ensures var p, p' := s.people, Handle(rules, s, x, handshake, input, now).people;
            if x == fd && input.Data? && Known(p, fd) && Owner(p, fd) in p.auth
            then Known(p', fd) && Last(p', fd) == now
            else Silent(p, p', fd)
  {
    hide PeopleInv, FdKey, GoodHost, Authenticate, Receive, Discard, Play, Serve, LineBuffer.Append;
    if Known(s.people, x) {
      if Owner(s.people, x) !in s.people.auth {
        DiscardSilent(s, x, fd);
        if handshake.Trusted? {
          TrustSilent(s.people, s.net.lobby, x, handshake.name, fd);
        }
      } else if input.Data? {
        var d := LineBuffer.Drain(LineBuffer.Append(Buffered(s.people, Owner(s.people, x)), input.chunk));
        ReceiveSilent(s.people, s.net.lobby, x, d.rest, now, fd);
      } else if input.Ended? {
        DiscardSilent(s.(desk := Play(s.desk, Dropped(x))), x, fd);
      }
    }
  }

  /** A descriptor's time of last activity changes only when the descriptor is renewed. */
  lemma NextSilent(rules: Rules, s: State, m: Move, fd: nat)
    requires PeopleInv(s.people, s.net.lobby) && Enabled(s, m)
    ensures var p' := Next(rules, s, m).people;
            if Renews(s, m, fd) then Known(p', fd) && Last(p', fd) == m.now else Silent(s.people, p', fd)
  {
    hide PeopleInv, FdKey, GoodHost, Handle, Enroll, Discard, Play, PlayAll, ConsoleEvent, Broadcast, Collects;
    match m
    case AcceptVault(x, now) => EnrollSilent(s.people, s.net.lobby, x, now, fd);
    case Finish(task, handshake, input, now) =>
      if task.Vault? {
        HandleSilent(rules, Release(s, task), task.fd, handshake, input, now, fd);
      }
    case SweepNext => DiscardSilent(s.(desk := Play(s.desk, Dropped(s.sweeping[0]))), s.sweeping[0], fd);
    case _ =>
  }

  // ---- What a sweep collects ---------------------------------------------------------------

  /** The clock does not stand before `t` in any accept or worker's task. */
  predicate NotBefore(moves: seq<Move>, t: int) {
    forall i :: 0 <= i < |moves| && (moves[i].AcceptVault? || moves[i].Finish?) ==> moves[i].now >= t
  }

  lemma {:induction false} RecentStays(rules: Rules, s: State, moves: seq<Move>, fd: nat, t: int)
    requires PeopleInv(s.people, s.net.lobby) && Legal(rules, s, moves) && NotBefore(moves, t)
    requires Known(s.people, fd) ==> Last(s.people, fd) >= t
    ensures var p := Outcome(rules, s, moves).people; Known(p, fd) ==> Last(p, fd) >= t
    decreases |moves|
  {
    if moves != [] {
      hide PeopleInv, Enabled, Next, Known, Last;
      NextPeople(rules, s, moves[0]);
      NextSilent(rules, s, moves[0], fd);
      assert NotBefore(moves[1..], t);
      RecentStays(rules, Next(rules, s, moves[0]), moves[1..], fd, t);
    }
  }

  lemma NotLate(p: People, lobby: set<nat>, fd: nat, now: int, fds: seq<nat>)
    requires PeopleInv(p, lobby) && Collects(p.registry, now, TIMEOUT, fds)
    ensures fd in fds ==> Known(p, fd) && now - Last(p, fd) > TIMEOUT
  {
    OneOwner(p.registry, fd);
    hide PeopleInv, FdKey;
  }

  /**
    In every run, with any steps in between, a sweep does not collect a descriptor that was accepted
    or read within the last 60 seconds, as long as the clock does not run backwards.
   */
  lemma ActiveNotCollected(rules: Rules, moves: seq<Move>, m: Move, more: seq<Move>, fd: nat, now: int, fds: seq<nat>)
    requires Legal(rules, EMPTY, moves) && Enabled(Outcome(rules, EMPTY, moves), m)
    requires Renews(Outcome(rules, EMPTY, moves), m, fd) && now - m.now <= TIMEOUT
    requires Legal(rules, Next(rules, Outcome(rules, EMPTY, moves), m), more) && NotBefore(more, m.now)
    requires Enabled(Outcome(rules, Next(rules, Outcome(rules, EMPTY, moves), m), more), Collect(now, fds))
    ensures fd !in fds
  {
    hide Legal, Outcome, PeopleInv, Next, Known, Collects, Last;
    EmptyInv(rules);
    RunPeople(rules, EMPTY, moves);
    var s := Outcome(rules, EMPTY, moves);
    var s' := Next(rules, s, m);
    NextPeople(rules, s, m);
    NextSilent(rules, s, m, fd);
    RecentStays(rules, s', more, fd, m.now);
    RunPeople(rules, s', more);
    var end := Outcome(rules, s', more);
    NotLate(end.people, end.net.lobby, fd, now, fds);
  }

  // ---- Whom a sweep removes ----------------------------------------------------------------

  /** What the last collection saw: the registry of that moment and the time it went by. */
  datatype Sight = Sight(registry: Registry<nat>, now: int)

  function SightAfter(s: State, m: Move, sight: Sight): Sight {
    if m.Collect? then Sight(s.people.registry, m.now) else sight
  }

  /** The descriptors accepted or read since the last collection. */
  function RenewedAfter(s: State, m: Move, renewed: set<nat>): set<nat> {
    if m.Collect? then {}
    else if m.AcceptVault? && Renews(s, m, m.fd) then renewed + {m.fd}
    else if m.Finish? && Renews(s, m, m.task.fd) then renewed + {m.task.fd}
    else renewed
  }

  /** A removal takes away, if anybody, the very client that was found expired, and silent since. */
  ghost predicate Fair(s: State, m: Move, sight: Sight)
    requires Enabled(s, m)
  {
    m.SweepNext? && Known(s.people, s.sweeping[0]) ==> Doomed(s.people, s.sweeping[0], sight)
  }

  predicate Doomed(p: People, fd: nat, sight: Sight)
    requires Known(p, fd)
  {
    var id := Owner(p, fd);
    && id in sight.registry.records && sight.registry.records[id].last == Last(p, fd)
    && sight.now - Last(p, fd) > TIMEOUT
  }

  /** A removal finds nobody, or a descriptor neither accepted nor read since it was collected. */
  ghost predicate Timely(s: State, m: Move, renewed: set<nat>)
    requires Enabled(s, m)
  {
    m.SweepNext? && Known(s.people, s.sweeping[0]) ==> s.sweeping[0] !in renewed
  }

  predicate Timed(m: Move) {
    m.AcceptVault? || m.Finish? || m.Collect?
  }

  /** The clock starts at `t` and does not run backwards. */
  predicate ClockRuns(moves: seq<Move>, t: int)
    decreases |moves|
  {
    moves != [] ==>
      if Timed(moves[0]) then t <= moves[0].now && ClockRuns(moves[1..], moves[0].now) else ClockRuns(moves[1..], t)
  }

  /** A descriptor waiting to be removed: renewed since the collection, or its client as good as removed. */
  predicate Pending(p: People, fd: nat, sight: Sight, renewed: set<nat>) {
    Known(p, fd) ==> if fd in renewed then sight.now - Last(p, fd) <= TIMEOUT else Doomed(p, fd, sight)
  }

  ghost predicate SweepInv(s: State, sight: Sight, renewed: set<nat>, t: int) {
    && PeopleInv(s.people, s.net.lobby) && sight.now <= t
    && (forall fd :: fd in s.sweeping ==> Pending(s.people, fd, sight, renewed))
  }

  lemma RemovalExact(s: State, m: Move, sight: Sight, renewed: set<nat>, t: int)
    requires SweepInv(s, sight, renewed, t) && Enabled(s, m)
    ensures Fair(s, m, sight) <==> Timely(s, m, renewed)
  {
    hide PeopleInv, FdKey;
    if m.SweepNext? {
      assert s.sweeping[0] in s.sweeping;
      assert Pending(s.people, s.sweeping[0], sight, renewed);
    }
  }

  function ClockAfter(m: Move, t: int): int {
    if Timed(m) then m.now else t
  }

  lemma PendingNext(rules: Rules, s: State, m: Move, sight: Sight, renewed: set<nat>, t: int, fd: nat)
    requires SweepInv(s, sight, renewed, t) && Enabled(s, m) && t <= ClockAfter(m, t) && !m.Collect?
    requires Pending(s.people, fd, sight, renewed)
    ensures Pending(Next(rules, s, m).people, fd, sight, RenewedAfter(s, m, renewed))
  {
    hide PeopleInv, FdKey, Next, Enabled;
    NextSilent(rules, s, m, fd);
  }

  lemma CollectPending(s: State, now: int, fds: seq<nat>, fd: nat)
    requires PeopleInv(s.people, s.net.lobby) && Collects(s.people.registry, now, TIMEOUT, fds) && fd in fds
    ensures Pending(s.people, fd, Sight(s.people.registry, now), {})
  {
    hide PeopleInv, FdKey, Collects;
    NotLate(s.people, s.net.lobby, fd, now, fds);
  }

  lemma NextSweepInv(rules: Rules, s: State, m: Move, sight: Sight, renewed: set<nat>, t: int)
    requires SweepInv(s, sight, renewed, t) && Enabled(s, m) && t <= ClockAfter(m, t)
    ensures SweepInv(Next(rules, s, m), SightAfter(s, m, sight), RenewedAfter(s, m, renewed), ClockAfter(m, t))
  {
    NextPeople(rules, s, m);
    SweepingNext(rules, s, m);
    hide PeopleInv, Pending, RenewedAfter, Collects;
    var s' := Next(rules, s, m);
    forall fd | fd in s'.sweeping
      ensures Pending(s'.people, fd, SightAfter(s, m, sight), RenewedAfter(s, m, renewed))
    {
      if m.Collect? {
        CollectPending(s, m.now, m.fds, fd);
        assert RenewedAfter(s, m, renewed) == {} by { CollectForgets(s, m, renewed); }
      } else {
        PendingNext(rules, s, m, sight, renewed, t, fd);
      }
    }
  }

  lemma CollectForgets(s: State, m: Move, renewed: set<nat>)
    requires m.Collect?
    ensures RenewedAfter(s, m, renewed) == {}
  {
  }

  /** Only a collection adds to the descriptors that wait to be removed. */
  lemma SweepingNext(rules: Rules, s: State, m: Move)
    requires Enabled(s, m)
    ensures var s' := Next(rules, s, m);
            if m.Collect? then s'.sweeping == m.fds && s'.people == s.people
            else forall fd :: fd in s'.sweeping ==> fd in s.sweeping
  {
    hide FdKey, GoodHost, Serve, LineBuffer.Append, Play, PlayAll, ConsoleEvent, Broadcast, Collects, Enroll;
  }

  // ---- Every run ---------------------------------------------------------------------------

  ghost predicate AllFair(rules: Rules, s: State, moves: seq<Move>, sight: Sight)
    requires Legal(rules, s, moves)
    decreases |moves|
  {
    moves != [] ==>
      Fair(s, moves[0], sight) && AllFair(rules, Next(rules, s, moves[0]), moves[1..], SightAfter(s, moves[0], sight))
  }

  ghost predicate AllTimely(rules: Rules, s: State, moves: seq<Move>, renewed: set<nat>)
    requires Legal(rules, s, moves)
    decreases |moves|
  {
    moves != [] ==>
      && Timely(s, moves[0], renewed)
      && AllTimely(rules, Next(rules, s, moves[0]), moves[1..], RenewedAfter(s, moves[0], renewed))
  }

  lemma {:induction false} RunFair(rules: Rules, s: State, moves: seq<Move>, sight: Sight, renewed: set<nat>, t: int)
    requires SweepInv(s, sight, renewed, t) && Legal(rules, s, moves) && ClockRuns(moves, t)
    ensures AllFair(rules, s, moves, sight) <==> AllTimely(rules, s, moves, renewed)
    decreases |moves|
  {
    hide SweepInv, Enabled, Next, Fair, Timely, SightAfter, RenewedAfter;
    if moves != [] {
      var m := moves[0];
      RemovalExact(s, m, sight, renewed, t);
      NextSweepInv(rules, s, m, sight, renewed, t);
      RunFair(rules, Next(rules, s, m), moves[1..], SightAfter(s, m, sight), RenewedAfter(s, m, renewed),
              ClockAfter(m, t));
    }
  }

  /**
    With a clock that does not run backwards, every removal of a run takes away only the very client
    that its collection found expired, silent since, if and only if no removal meets a descriptor that
    has been accepted or read since it was collected.
   */
  lemma SweepRemovesExpired(rules: Rules, moves: seq<Move>, t: int)
    requires Legal(rules, EMPTY, moves) && ClockRuns(moves, t)
    ensures AllFair(rules, EMPTY, moves, Sight(EMPTY.people.registry, t)) <==> AllTimely(rules, EMPTY, moves, {})
  {
    hide Legal, ClockRuns, AllFair, AllTimely, PeopleInv;
    EmptyInv(rules);
    RunFair(rules, EMPTY, moves, Sight(EMPTY.people.registry, t), {}, t);
  }
}
