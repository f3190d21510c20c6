/** The two indexes of client_manager.c over one table: "fd:N" keys and hostname keys. */
module Registry {

  // ---- Keys -------------------------------------------------------------------------------

  function Digit(d: nat): char
    requires d < 10
  {
    "0123456789"[d]
  }

  /** "%d" of a descriptor. */
  function Decimal(n: nat): string {
    if n < 10 then [Digit(n)] else Decimal(n / 10) + [Digit(n % 10)]
  }

  function FdKey(n: nat): (key: string)
    ensures "fd:" <= key
  {
    "fd:" + Decimal(n)
  }

  lemma DigitInjective(a: nat, b: nat)
    requires a < 10 && b < 10 && Digit(a) == Digit(b)
    ensures a == b
  {
    assert forall i, j :: 0 <= i < j < 10 ==> "0123456789"[i] != "0123456789"[j];
  }

  lemma {:induction false} DecimalInjective(m: nat, n: nat)
    requires Decimal(m) == Decimal(n)
    ensures m == n
  {
    var a, b := Decimal(m), Decimal(n);
    assert a[|a| - 1] == Digit(m % 10) && b[|b| - 1] == Digit(n % 10);
    DigitInjective(m % 10, n % 10);
    if m >= 10 && n >= 10 {
      assert a[..|a| - 1] == Decimal(m / 10) && b[..|b| - 1] == Decimal(n / 10);
      DecimalInjective(m / 10, n / 10);
    }
  }

  /** Different descriptors have different keys. */
  lemma FdKeyInjective(m: nat, n: nat)
    requires FdKey(m) == FdKey(n)
    ensures m == n
  {
    assert FdKey(m)[3..] == Decimal(m) && FdKey(n)[3..] == Decimal(n);
    DecimalInjective(m, n);
  }

  /** A 32-bit descriptor's key and its terminator fit the 32-byte buffer: snprintf cuts nothing. */
  lemma FdKeyFits(n: nat)
    requires n < 0x8000_0000
    ensures |FdKey(n)| < 32
  {
    DecimalLength(n, 10);
  }

  function Pow10(k: nat): nat {
    if k == 0 then 1 else 10 * Pow10(k - 1)
  }

  lemma {:induction false} DecimalLength(n: nat, k: nat)
    requires 0 < k && n < Pow10(k)
    ensures |Decimal(n)| <= k
  {
    if n >= 10 {
      DecimalLength(n / 10, k - 1);
    }
  }

  // ---- The registry as a value ------------------------------------------------------------

  datatype Record = Record(fd: nat, host: string, last: int)

  /** `table` is clients_map; `records` are the fields of the clients it leads to. */
  datatype Registry<C> = Registry(table: map<string, C>, records: map<C, Record>)

  /** Hostnames are not empty and cannot be taken for "fd:" keys. */
  predicate GoodHost(h: string) {
    h != "" && !("fd:" <= h) && |h| < 127
  }

  function Add<C>(r: Registry<C>, c: C, fd: nat, now: int): Registry<C> {
    Registry(r.table[FdKey(fd) := c], r.records[c := Record(fd, "", now)])
  }

  function SetHostname<C(==)>(r: Registry<C>, fd: nat, h: string): Registry<C> {
    if FdKey(fd) in r.table && r.table[FdKey(fd)] in r.records then
      var c := r.table[FdKey(fd)];
      Registry(r.table[h := c], r.records[c := r.records[c].(host := h)])
    else r
  }

  function Touch<C(==)>(r: Registry<C>, fd: nat, now: int): Registry<C> {
    if FdKey(fd) in r.table && r.table[FdKey(fd)] in r.records then
      var c := r.table[FdKey(fd)];
      r.(records := r.records[c := r.records[c].(last := now)])
    else r
  }

  /** client_remove: the hostname entry goes only if it still leads to this client. */
  function Remove<C(==)>(r: Registry<C>, fd: nat): Registry<C> {
    if FdKey(fd) in r.table && r.table[FdKey(fd)] in r.records then
      var c := r.table[FdKey(fd)];
      var t := r.table - {FdKey(fd)};
      var h := r.records[c].host;
      Registry(if h != "" && h in t && t[h] == c then t - {h} else t, r.records - {c})
    else r
  }

  /** Every key leads to a client it belongs to, and every client is listed under its descriptor. */
  ghost predicate Consistent<C>(r: Registry<C>) {
    && (forall k :: k in r.table ==> r.table[k] in r.records)
    && (forall k :: k in r.table ==>
          if "fd:" <= k then k == FdKey(r.records[r.table[k]].fd) else k == r.records[r.table[k]].host && k != "")
    && (forall c :: c in r.records ==>
          FdKey(r.records[c].fd) in r.table && r.table[FdKey(r.records[c].fd)] == c)
  }

  lemma AddConsistent<C>(r: Registry<C>, c: C, fd: nat, now: int)
    requires Consistent(r) && c !in r.records && FdKey(fd) !in r.table
    ensures Consistent(Add(r, c, fd, now))
  {
  }

  lemma SetHostnameConsistent<C>(r: Registry<C>, fd: nat, h: string)
    requires Consistent(r) && GoodHost(h)
    requires FdKey(fd) in r.table ==> r.records[r.table[FdKey(fd)]].host == ""
    ensures Consistent(SetHostname(r, fd, h))
  {
  }

  lemma TouchConsistent<C>(r: Registry<C>, fd: nat, now: int)
    requires Consistent(r)
    ensures Consistent(Touch(r, fd, now))
  {
  }

  /** What is left when only the clients in `keep` stay. */
  ghost function Restrict<C>(r: Registry<C>, keep: set<C>): Registry<C> {
    Registry(map k | k in r.table && r.table[k] in keep :: r.table[k],
             map c | c in r.records && c in keep :: r.records[c])
  }

  /** Removing a client takes away both its keys, and nothing else. */
  lemma RemoveIsRestrict<C>(r: Registry<C>, fd: nat)
    requires Consistent(r) && FdKey(fd) in r.table
    ensures Remove(r, fd) == Restrict(r, r.records.Keys - {r.table[FdKey(fd)]})
  {
    var c := r.table[FdKey(fd)];
    var keep := r.records.Keys - {c};
    var r' := Remove(r, fd);
    FdKeyOwner(r, fd);
    assert r'.table == Restrict(r, keep).table;
    assert r'.records == Restrict(r, keep).records;
  }

  lemma FdKeyOwner<C>(r: Registry<C>, fd: nat)
    requires Consistent(r) && FdKey(fd) in r.table
    ensures r.table[FdKey(fd)] in r.records
    ensures r.records[r.table[FdKey(fd)]].fd == fd
  {
    FdKeyInjective(fd, r.records[r.table[FdKey(fd)]].fd);
  }

  lemma RestrictConsistent<C>(r: Registry<C>, keep: set<C>)
    requires Consistent(r)
    ensures Consistent(Restrict(r, keep))
  {
  }

  lemma RemoveConsistent<C>(r: Registry<C>, fd: nat)
    requires Consistent(r)
    ensures Consistent(Remove(r, fd))
  {
    if FdKey(fd) in r.table {
      RemoveIsRestrict(r, fd);
      RestrictConsistent(r, r.records.Keys - {r.table[FdKey(fd)]});
    }
  }

  // ---- Sweeping ---------------------------------------------------------------------------

  function RemoveAll<C(==)>(r: Registry<C>, fds: seq<nat>): Registry<C>
    decreases |fds|
  {
    if fds == [] then r else RemoveAll(Remove(r, fds[0]), fds[1..])
  }

  ghost function Keeping<C>(r: Registry<C>, fds: seq<nat>): set<C> {
    set c | c in r.records && r.records[c].fd !in fds
  }

  lemma OneOwner<C>(r: Registry<C>, fd: nat)
    requires Consistent(r)
    ensures forall c :: c in r.records && r.records[c].fd == fd ==> FdKey(fd) in r.table && r.table[FdKey(fd)] == c
  {
  }

  lemma RestrictSame<C>(r: Registry<C>, keep: set<C>)
    requires Consistent(r) && keep == r.records.Keys
    ensures Restrict(r, keep) == r
  {
    assert Restrict(r, keep).table == r.table;
    assert Restrict(r, keep).records == r.records;
  }

  lemma RemoveIsKeeping<C>(r: Registry<C>, fd: nat)
    requires Consistent(r)
    ensures Remove(r, fd) == Restrict(r, Keeping(r, [fd]))
  {
    OneOwner(r, fd);
    if FdKey(fd) in r.table {
      RemoveIsRestrict(r, fd);
      FdKeyOwner(r, fd);
      assert Keeping(r, [fd]) == r.records.Keys - {r.table[FdKey(fd)]};
    } else {
      assert Keeping(r, [fd]) == r.records.Keys;
      RestrictSame(r, Keeping(r, [fd]));
    }
  }

  lemma RestrictTwice<C>(r: Registry<C>, a: set<C>, b: set<C>)
    ensures Restrict(Restrict(r, a), b) == Restrict(r, a * b)
  {
    assert Restrict(Restrict(r, a), b).table == Restrict(r, a * b).table;
    assert Restrict(Restrict(r, a), b).records == Restrict(r, a * b).records;
  }

  lemma {:induction false} RemoveAllIsRestrict<C>(r: Registry<C>, fds: seq<nat>)
    requires Consistent(r)
    ensures RemoveAll(r, fds) == Restrict(r, Keeping(r, fds))
    decreases |fds|
  {
    if fds == [] {
      RestrictSame(r, Keeping(r, fds));
    } else {
      var fd, rest := fds[0], fds[1..];
      var one := Keeping(r, [fd]);
      RemoveIsKeeping(r, fd);
      RemoveConsistent(r, fd);
      RemoveAllIsRestrict(Remove(r, fd), rest);
      assert fds == [fd] + rest;
      assert one * Keeping(Restrict(r, one), rest) == Keeping(r, fds);
      RestrictTwice(r, one, Keeping(Restrict(r, one), rest));
    }
  }

  /** The clients a sweep at `now` lets live. */
  ghost function Alive<C>(r: Registry<C>, now: int, timeout: int): set<C> {
    set c | c in r.records && now - r.records[c].last <= timeout
  }

  /** The descriptors a sweep must collect, in any order. */
  ghost predicate ExpiredFd<C>(r: Registry<C>, now: int, timeout: int, fd: int) {
    exists c :: c in r.records && r.records[c].fd == fd && now - r.records[c].last > timeout
  }

  ghost predicate Collects<C>(r: Registry<C>, now: int, timeout: int, fds: seq<nat>) {
    forall fd: nat :: fd in fds <==> ExpiredFd(r, now, timeout, fd)
  }

  ghost function Expired<C>(r: Registry<C>, now: int, timeout: int): set<C> {
    set c | c in r.records && now - r.records[c].last > timeout
  }

  ghost predicate AllDifferent(fds: seq<nat>) {
    forall i, j :: 0 <= i < j < |fds| ==> fds[i] != fds[j]
  }

  /** Different descriptors of expired clients: there are no more of them than expired clients. */
  lemma {:induction false} CountBound<C>(r: Registry<C>, fds: seq<nat>, clients: set<C>)
    requires Consistent(r) && AllDifferent(fds)
    requires forall fd :: fd in fds ==> FdKey(fd) in r.table && r.table[FdKey(fd)] in clients
    ensures |fds| <= |clients|
    decreases |fds|
  {
    if fds != [] {
      var n := |fds| - 1;
      var c := r.table[FdKey(fds[n])];
      forall fd | fd in fds[..n]
        ensures r.table[FdKey(fd)] in clients - {c}
      {
        assert fd != fds[n];
        FdKeyOwner(r, fd);
        FdKeyOwner(r, fds[n]);
      }
      CountBound(r, fds[..n], clients - {c});
    }
  }

  predicate Late<C(==)>(r: Registry<C>, now: int, timeout: int, key: string) {
    && "fd:" <= key && key in r.table && r.table[key] in r.records
    && now - r.records[r.table[key]].last > timeout
  }

  /** The expired descriptors among the keys visited so far have been collected, each once. */
  ghost predicate Swept<C>(r: Registry<C>, now: int, timeout: int, visited: set<string>, fds: seq<nat>) {
    && AllDifferent(fds)
    && forall fd: nat :: fd in fds <==> FdKey(fd) in visited && Late(r, now, timeout, FdKey(fd))
  }

  lemma SweptVisit<C>(r: Registry<C>, now: int, timeout: int, visited: set<string>, fds: seq<nat>, key: string)
    requires Consistent(r) && Swept(r, now, timeout, visited, fds) && key in r.table && key !in visited
    ensures !Late(r, now, timeout, key) ==> Swept(r, now, timeout, visited + {key}, fds)
    ensures Late(r, now, timeout, key) ==>
              && r.table[key] in r.records
              && Swept(r, now, timeout, visited + {key}, fds + [r.records[r.table[key]].fd])
              && |fds| < |Expired(r, now, timeout)|
  {
    if Late(r, now, timeout, key) {
      var n := r.records[r.table[key]].fd;
      assert key == FdKey(n);
      forall fd: nat | FdKey(fd) == key
        ensures fd == n
      {
        FdKeyInjective(fd, n);
      }
      CountBound(r, fds + [n], Expired(r, now, timeout));
    }
  }

  lemma SweptAll<C>(r: Registry<C>, now: int, timeout: int, visited: set<string>, fds: seq<nat>)
    requires Consistent(r) && Swept(r, now, timeout, visited, fds) && r.table.Keys <= visited
    ensures Collects(r, now, timeout, fds)
  {
    forall fd: nat
      ensures fd in fds <==> ExpiredFd(r, now, timeout, fd)
    {
      if fd in fds {
        FdKeyOwner(r, fd);
        assert r.table[FdKey(fd)] in r.records;
      }
    }
  }

  /** The sweep is exact: afterwards the clients are precisely those not expired, with all their keys. */
  lemma SweepIsExact<C>(r: Registry<C>, now: int, timeout: int, fds: seq<nat>)
    requires Consistent(r) && Collects(r, now, timeout, fds)
    ensures RemoveAll(r, fds) == Restrict(r, Alive(r, now, timeout))
  {
    RemoveAllIsRestrict(r, fds);
    forall c | c in r.records
      ensures c in Keeping(r, fds) <==> c in Alive(r, now, timeout)
    {
      if r.records[c].fd in fds {
        var d :| d in r.records && r.records[d].fd == r.records[c].fd && now - r.records[d].last > timeout;
        assert c == d;
      }
    }
    assert Keeping(r, fds) == Alive(r, now, timeout);
  }
}

/** The registry over whole histories of connections. */
module RegistryHistory {
  import opened Registry

  /** The calls, as they reach the registry: a client accepted on a descriptor, named, active, gone. */
  datatype Call =
    | Accepted(id: nat, fd: nat, now: int)
    | Named(fd: nat, host: string)
    | Active(fd: nat, now: int)
    | Gone(fd: nat)

  const EMPTY: Registry<nat> := Registry(map[], map[])

  function Apply(r: Registry<nat>, call: Call): Registry<nat> {
    match call
    case Accepted(id, fd, now) => Add(r, id, fd, now)
    case Named(fd, host) => SetHostname(r, fd, host)
    case Active(fd, now) => Touch(r, fd, now)
    case Gone(fd) => Remove(r, fd)
  }

  function After(calls: seq<Call>): Registry<nat> {
    if calls == [] then EMPTY else Apply(After(calls[..|calls| - 1]), calls[|calls| - 1])
  }

  predicate Fresh(calls: seq<Call>, id: nat) {
    forall i :: 0 <= i < |calls| && calls[i].Accepted? ==> calls[i].id != id
  }

  /**
    What callers guarantee: accept returns descriptors that are not open, so not registered; each
    accepted client is a new object; a client is named once, on authentication, by a proper hostname.
   */
  predicate Legal(calls: seq<Call>) {
    calls == [] ||
    var before, call := calls[..|calls| - 1], calls[|calls| - 1];
    && Legal(before)
    && (call.Accepted? ==> Fresh(before, call.id) && FdKey(call.fd) !in After(before).table)
    && (call.Named? ==> GoodHost(call.host) && (FdKey(call.fd) in After(before).table ==>
          var c := After(before).table[FdKey(call.fd)];
          c in After(before).records && After(before).records[c].host == ""))
  }

  lemma {:induction false} AfterConsistent(calls: seq<Call>)
    requires Legal(calls)
    ensures Consistent(After(calls))
    ensures forall id :: Fresh(calls, id) ==> id !in After(calls).records
  {
    if calls != [] {
      var before, call := calls[..|calls| - 1], calls[|calls| - 1];
      var r := After(before);
      AfterConsistent(before);
      hide Consistent;
      match call
      case Accepted(id, fd, now) => AddConsistent(r, id, fd, now);
      case Named(fd, host) => SetHostnameConsistent(r, fd, host);
      case Active(fd, now) => TouchConsistent(r, fd, now);
      case Gone(fd) => RemoveConsistent(r, fd);
      forall id | Fresh(calls, id)
        ensures id !in After(calls).records
      {
        assert Fresh(before, id);
      }
    }
  }

  // ---- The descriptor index ---------------------------------------------------------------

  /** Client `id` was accepted on descriptor `n` by call `i`, and `n` was not removed since. */
  predicate Registered(calls: seq<Call>, i: nat, id: nat, n: nat) {
    && i < |calls| && calls[i].Accepted? && calls[i].id == id && calls[i].fd == n
    && forall j :: i < j < |calls| ==> calls[j] != Gone(n)
  }

  /** How one call changes where the key of `n` leads. */
  lemma FdStep(r: Registry<nat>, call: Call, n: nat, id: nat)
    requires Consistent(r) && (call.Named? ==> GoodHost(call.host))
    ensures var r' := Apply(r, call);
            (FdKey(n) in r'.table && r'.table[FdKey(n)] == id) <==>
            if call.Accepted? && call.fd == n then call.id == id
            else call != Gone(n) && FdKey(n) in r.table && r.table[FdKey(n)] == id
  {
    match call
    case Accepted(id', fd, now) =>
      if FdKey(fd) == FdKey(n) {
        FdKeyInjective(fd, n);
      }
    case Named(fd, host) =>
    case Active(fd, now) =>
    case Gone(fd) =>
      if FdKey(fd) in r.table {
        RemoveIsRestrict(r, fd);
        FdKeyOwner(r, fd);
        if FdKey(n) in r.table {
          FdKeyOwner(r, n);
        }
      }
  }

  lemma RegisteredPrefix(calls: seq<Call>, i: nat, id: nat, n: nat)
    requires calls != [] && i < |calls| - 1
    ensures Registered(calls, i, id, n)
            <==> Registered(calls[..|calls| - 1], i, id, n) && calls[|calls| - 1] != Gone(n)
  {
    var before := calls[..|calls| - 1];
    assert forall j :: 0 <= j < |before| ==> before[j] == calls[j];
  }

  /** "fd:N" leads to a client exactly from its acceptance on N until the next removal of N. */
  lemma {:induction false} DescriptorIndex(calls: seq<Call>, id: nat, n: nat)
    requires Legal(calls)
    ensures (FdKey(n) in After(calls).table && After(calls).table[FdKey(n)] == id)
            <==> exists i: nat :: Registered(calls, i, id, n)
  {
    if calls != [] {
      var k := |calls| - 1;
      var before, call := calls[..k], calls[k];
      DescriptorIndex(before, id, n);
      AfterConsistent(before);
      FdStep(After(before), call, n, id);
      forall i: nat | i < k
        ensures Registered(calls, i, id, n) <==> Registered(before, i, id, n) && call != Gone(n)
      {
        RegisteredPrefix(calls, i, id, n);
      }
      assert Registered(calls, k, id, n) <==> call.Accepted? && call.fd == n && call.id == id;
      assert forall i: nat :: Registered(calls, i, id, n) ==> i <= k;
      hide Consistent, Registered, Apply, After, FdKey;
      if exists i: nat :: Registered(calls, i, id, n) {
        var i: nat :| Registered(calls, i, id, n);
      }
    }
  }

  // ---- The hostname index -----------------------------------------------------------------

  /** Call `i` gave the name `h` to client `id`, the one then registered on the descriptor it names. */
  predicate NamedAt(calls: seq<Call>, i: nat, h: string, id: nat) {
    && i < |calls| && calls[i].Named? && calls[i].host == h
    && var r := After(calls[..i]); FdKey(calls[i].fd) in r.table && r.table[FdKey(calls[i].fd)] == id
  }

  /** Call `j` removed client `id`. */
  predicate GoneAt(calls: seq<Call>, j: nat, id: nat) {
    && j < |calls| && calls[j].Gone?
    && var r := After(calls[..j]); FdKey(calls[j].fd) in r.table && r.table[FdKey(calls[j].fd)] == id
  }

  /** Call `j` gave the name `h` to somebody. */
  ghost predicate Renames(calls: seq<Call>, j: nat, h: string) {
    exists id: nat :: NamedAt(calls, j, h, id)
  }

  /** `id` got the name at call `i`, nobody got it since, and `id` has not been removed since. */
  ghost predicate Bears(calls: seq<Call>, i: nat, h: string, id: nat) {
    && NamedAt(calls, i, h, id)
    && forall j: nat :: i < j < |calls| ==> !Renames(calls, j, h) && !GoneAt(calls, j, id)
  }

  lemma BearsPrefix(calls: seq<Call>, i: nat, h: string, id: nat)
    requires calls != [] && i < |calls| - 1
    ensures var k := |calls| - 1;
            Bears(calls, i, h, id) <==> Bears(calls[..k], i, h, id) && !Renames(calls, k, h) && !GoneAt(calls, k, id)
  {
    var k := |calls| - 1;
    var before := calls[..k];
    forall j: nat | j < k
      ensures before[..j] == calls[..j] && before[j] == calls[j]
    {
    }
    assert forall j: nat, d: nat :: j < k ==> (NamedAt(before, j, h, d) <==> NamedAt(calls, j, h, d));
    assert forall j: nat :: j < k ==> (GoneAt(before, j, id) <==> GoneAt(calls, j, id));
    hide NamedAt, GoneAt;
    assert forall j: nat :: j < k ==> (Renames(before, j, h) <==> Renames(calls, j, h));
  }

  /** How one call changes where hostname `h` leads. */
  lemma HostStep(r: Registry<nat>, call: Call, h: string, id: nat)
    requires Consistent(r) && GoodHost(h)
    requires call.Named? ==> GoodHost(call.host)
    ensures var r' := Apply(r, call);
            (h in r'.table && r'.table[h] == id) <==>
            if call.Named? && call.host == h && FdKey(call.fd) in r.table then r.table[FdKey(call.fd)] == id
            else
              && h in r.table && r.table[h] == id
              && !(call.Gone? && FdKey(call.fd) in r.table && r.table[FdKey(call.fd)] == id)
  {
    match call
    case Accepted(id', fd, now) =>
    case Named(fd, host) =>
    case Active(fd, now) =>
    case Gone(fd) =>
      if FdKey(fd) in r.table {
        RemoveIsRestrict(r, fd);
      }
  }

  /** A hostname leads to the client that was given it last, as long as that client is not removed. */
  lemma {:induction false} HostnameIndex(calls: seq<Call>, h: string, id: nat)
    requires Legal(calls) && GoodHost(h)
    ensures (h in After(calls).table && After(calls).table[h] == id) <==> exists i: nat :: Bears(calls, i, h, id)
  {
    if calls != [] {
      var k := |calls| - 1;
      var before, call := calls[..k], calls[k];
      hide Consistent, Bears, Apply, FdKey, Renames;
      HostnameIndex(before, h, id);
      AfterConsistent(before);
      HostStep(After(before), call, h, id);
      BearsNext(calls, h, id);
      RenamesLast(calls, h);
    }
  }

  /** Who bears a name after one more call. */
  lemma BearsNext(calls: seq<Call>, h: string, id: nat)
    requires calls != []
    ensures var k := |calls| - 1;
            (exists i: nat :: Bears(calls, i, h, id)) <==>
            || NamedAt(calls, k, h, id)
            || ((exists i: nat :: Bears(calls[..k], i, h, id)) && !Renames(calls, k, h) && !GoneAt(calls, k, id))
  {
    var k := |calls| - 1;
    var before := calls[..k];
    assert Bears(calls, k, h, id) <==> NamedAt(calls, k, h, id);
    assert forall i: nat :: Bears(calls, i, h, id) ==> i <= k;
    assert forall i: nat :: Bears(before, i, h, id) ==> i < k;
    forall i: nat | i < k
      ensures Bears(calls, i, h, id) <==> Bears(before, i, h, id) && !Renames(calls, k, h) && !GoneAt(calls, k, id)
    {
      BearsPrefix(calls, i, h, id);
    }
    hide Bears, Renames, NamedAt, GoneAt;
    if exists i: nat :: Bears(before, i, h, id) {
      var i: nat :| Bears(before, i, h, id);
      assert Bears(calls, i, h, id) <==> !Renames(calls, k, h) && !GoneAt(calls, k, id);
    }
  }

  lemma RenamesLast(calls: seq<Call>, h: string)
    requires calls != []
    ensures var k := |calls| - 1; var r := After(calls[..k]);
            Renames(calls, k, h) <==> calls[k].Named? && calls[k].host == h && FdKey(calls[k].fd) in r.table
  {
    var k := |calls| - 1;
    var r := After(calls[..k]);
    if calls[k].Named? && calls[k].host == h && FdKey(calls[k].fd) in r.table {
      assert NamedAt(calls, k, h, r.table[FdKey(calls[k].fd)]);
    }
  }
}
