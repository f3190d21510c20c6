/** The client manager as it stands in memory: clients reached through the chained hash table. */
module ClientManager {
  import opened HashTable
  import opened Registry
  import opened Wrappers
  import PubSub
  import PubSubTables

  const MAX_SWEPT: nat := 100

  class Client {
    var fd: int            // -1 once closed
    var idle: bool         // STATE_IDLE, until it is removed
    var authenticated: bool
    var hostname: string
    var lastActivity: int

    constructor (fd: int, now: int)
      ensures this.fd == fd && idle && !authenticated && hostname == "" && lastActivity == now
    {
      this.fd, idle, authenticated, hostname, lastActivity := fd, true, false, "", now;
    }
  }

  /** A topic's list has lost the descriptors of the expired clients, and no others. */
  ghost predicate Lost(r: Registry<Client>, now: int, timeout: int, was: seq<int>, left: seq<int>) {
    forall fd :: fd in left <==> fd in was && !ExpiredFd(r, now, timeout, fd)
  }

  ghost predicate Departed(r: Registry<Client>, now: int, timeout: int,
                           was: seq<PubSub.Topic>, left: seq<PubSub.Topic>)
  {
    forall name :: Lost(r, now, timeout, PubSub.Subscribers(was, name), PubSub.Subscribers(left, name))
  }

  class Clients {
    const table: Table<Client>
    ghost var registry: Registry<Client>

    /** The table files the clients as the registry says, and every client's own fields agree with its record. */
    ghost predicate Valid()
      reads this, table, table.buckets, table.nodes, registry.records.Keys
    {
      && table.Valid() && Consistent(registry) && table.contents == registry.table
      && (forall c :: c in registry.records ==> Recorded(c))
    }

    ghost predicate Recorded(c: Client)
      requires c in registry.records
      reads this, c
    {
      c.idle && c.fd >= 0 && registry.records[c] == Record(c.fd, c.hostname, c.lastActivity)
    }

    constructor ()
      ensures Valid() && registry == Registry(map[], map[]) && fresh(table) && fresh(table.buckets) && table.nodes == {}
    {
      table := new Table();
      registry := Registry(map[], map[]);
    }

    method GetByFd(fd: nat) returns (r: Option<Client>)
      requires Valid()
      ensures r == if FdKey(fd) in registry.table then Some(registry.table[FdKey(fd)]) else None
      ensures r.Some? ==> r.value in registry.records && r.value.fd == fd
    {
      hide Table.Valid, FdKey;
      r := table.Get(FdKey(fd));
      if r.Some? {
        FdKeyOwner(registry, fd);
      }
    }

    method GetByHostname(hostname: string) returns (r: Option<Client>)
      requires Valid()
      ensures r == if hostname in registry.table then Some(registry.table[hostname]) else None
      ensures r.Some? ==> r.value in registry.records && (!("fd:" <= hostname) ==> r.value.hostname == hostname)
    {
      hide Table.Valid, FdKey;
      r := table.Get(hostname);
    }

    method AddClient(fd: nat, now: int) returns (c: Client)
      requires Valid() && FdKey(fd) !in registry.table
      modifies this, table, table.buckets, table.nodes
      ensures Valid() && fresh(c) && registry == Add(old(registry), c, fd, now)
      ensures fresh(table.nodes - old(table.nodes))
    {
      hide Table.Valid, Consistent, FdKey;
      c := new Client(fd, now);
      AddConsistent(registry, c, fd, now);
      table.Set(FdKey(fd), c);
      registry := Add(registry, c, fd, now);
    }

    method Rename(c: Client, hostname: string)
      requires c in registry.records && forall d :: d in registry.records ==> Recorded(d)
      modifies c`hostname
      ensures forall d :: d in registry.records && d != c ==> Recorded(d)
      ensures c.idle && c.fd >= 0 && registry.records[c].(host := hostname) == Record(c.fd, c.hostname, c.lastActivity)
    {
      c.hostname := hostname;
    }

    method NameClient(fd: nat, hostname: string)
      requires Valid() && GoodHost(hostname)
      requires FdKey(fd) in registry.table ==> registry.records[registry.table[FdKey(fd)]].host == ""
      modifies this, table, table.buckets, table.nodes, registry.records.Keys
      ensures Valid() && registry == SetHostname(old(registry), fd, hostname)
      ensures fresh(table.nodes - old(table.nodes))
    {
      hide Table.Valid, FdKey, Consistent;
      SetHostnameConsistent(registry, fd, hostname);
      var found := table.Get(FdKey(fd));
      if found.Some? {
        FdKeyOwner(registry, fd);
        table.Set(hostname, found.value);
        Rename(found.value, hostname);
        registry := SetHostname(registry, fd, hostname);
      }
    }

    /** The part of client_remove done under the registry's write lock. */
    method Unfile(fd: nat, c: Client)
      requires Valid() && FdKey(fd) in registry.table && c == registry.table[FdKey(fd)]
      modifies table, table.buckets, table.nodes
      ensures table.Valid() && table.contents == Remove(registry, fd).table
      ensures table.nodes <= old(table.nodes)
    {
      hide Table.Valid, FdKey, Consistent;
      FdKeyOwner(registry, fd);
      var deleted := table.Del(FdKey(fd));
      if c.hostname != "" {
        var named := table.Get(c.hostname);
        if named == Some(c) {
          deleted := table.Del(c.hostname);
        }
      }
    }

    method RemoveClient(fd: nat)
      requires Valid()
      modifies this, table, table.buckets, table.nodes, registry.records.Keys
      ensures Valid() && registry == Remove(old(registry), fd)
      ensures table.nodes <= old(table.nodes)
      ensures forall c :: c in old(registry).records && c !in registry.records ==> c.fd <= 0 && !c.idle
    {
      hide Table.Valid, FdKey, Consistent;
      var found := table.Get(FdKey(fd));
      if found.Some? {
        FdKeyOwner(registry, fd);
        RemoveConsistent(registry, fd);
        Unfile(fd, found.value);
        registry := Remove(registry, fd);
        if found.value.fd > 0 {
          found.value.fd := -1;
        }
        found.value.idle := false;
      }
    }

    /** The sweep's test of one entry: an idle client, met under its descriptor key, too long silent. */
    method Examine(entry: Entry<Client>, now: int, timeout: int, fds: array<nat>, n: nat, ghost seen: set<string>)
      returns (count: nat)
      requires Valid() && entry in table.nodes && fds.Length == MAX_SWEPT && n <= MAX_SWEPT
      requires |Expired(registry, now, timeout)| <= MAX_SWEPT
      requires Swept(registry, now, timeout, seen, fds[..n]) && entry.key !in seen
      modifies fds
      ensures Valid() && count <= MAX_SWEPT
      ensures Swept(registry, now, timeout, seen + {entry.key}, fds[..count])
    {
      hide After, Accumulated, Slot, FdKey, Shape, Swept, Expired;
      SweptVisit(registry, now, timeout, seen, fds[..n], entry.key);
      var c := entry.value;
      count := n;
      if "fd:" <= entry.key && c.idle && now - c.lastActivity > timeout {
        fds[n] := c.fd;
        assert fds[..n + 1] == fds[..n] + [c.fd];
        count := n + 1;
      }
    }

    /** The sweep's loop over one bucket. */
    method CollectBucket(i: nat, now: int, timeout: int, fds: array<nat>, n: nat, ghost visited: set<string>)
      returns (count: nat, ghost seen: set<string>)
      requires Valid() && i < TABLE_SIZE && fds.Length == MAX_SWEPT && n <= MAX_SWEPT
      requires |Expired(registry, now, timeout)| <= MAX_SWEPT
      requires Swept(registry, now, timeout, visited, fds[..n]) && forall key :: key in visited ==> Slot(key) < i
      modifies fds
      ensures Valid() && count <= MAX_SWEPT && Swept(registry, now, timeout, seen, fds[..count])
      ensures visited <= seen && forall key :: key in seen ==> Slot(key) <= i
      ensures forall e :: e in table.chains[i] ==> e.key in seen
    {
      hide Slot, FdKey, Swept, Expired, Consistent, Clients.Recorded, Shape, After, Head;
      ghost var chain, j := table.chains[i], 0;
      count, seen := n, visited;
      table.Walk(i, 0);
      var entry := table.buckets[i];
      while entry != null
        invariant Valid() && chain == table.chains[i] && j <= |chain| && entry == At(chain, j)
        invariant count <= MAX_SWEPT && Swept(registry, now, timeout, seen, fds[..count])
        invariant visited <= seen && forall key :: key in seen ==> Slot(key) <= i
        invariant forall k :: 0 <= k < j ==> chain[k].key in seen
        invariant forall key :: key in seen && Slot(key) == i ==> exists k :: 0 <= k < j && chain[k].key == key
        decreases |chain| - j
      {
        table.Walk(i, j);
        count := Examine(entry, now, timeout, fds, count, seen);
        seen := seen + {entry.key};
        entry, j := entry.next, j + 1;
      }
    }

    method CollectExpired(now: int, timeout: int, fds: array<nat>) returns (count: nat)
      requires Valid() && fds.Length == MAX_SWEPT
      requires |Expired(registry, now, timeout)| <= MAX_SWEPT
      modifies fds
      ensures Valid() && count <= MAX_SWEPT && Collects(registry, now, timeout, fds[..count])
    {
      hide Slot, FdKey, Expired, Consistent, Clients.Recorded, Shape, After, Head;
      ghost var seen: set<string> := {};
      count := 0;
      for i := 0 to TABLE_SIZE
        invariant Valid() && count <= MAX_SWEPT && Swept(registry, now, timeout, seen, fds[..count])
        invariant forall key :: key in seen ==> Slot(key) < i
        invariant forall k, e :: 0 <= k < i && e in table.chains[k] ==> e.key in seen
      {
        count, seen := CollectBucket(i, now, timeout, fds, count, seen);
      }
      forall key | key in registry.table
        ensures key in seen
      {
        table.Met(key);
      }
      SweptAll(registry, now, timeout, seen, fds[..count]);
    }

    method RemoveEach(fds: array<nat>, count: nat, topics: PubSubTables.Tables)
      requires Valid() && topics.Valid() && count <= fds.Length && fds != topics.subCount
      modifies this, table, table.buckets, table.nodes, registry.records.Keys, topics.subscribers, topics.subCount
      ensures Valid() && registry == RemoveAll(old(registry), fds[..count])
      ensures topics.Valid() && topics.View() == PubSub.UnsubscribeEach(old(topics.View()), fds[..count])
    {
      hide FdKey, Consistent, Clients.Recorded, Table.Valid, PubSub.UnsubscribeAll;
      ghost var list, view, reg := fds[..count], topics.View(), registry;
      assert list[0..] == list;
      var i := 0;
      while i < count
        invariant i <= count && Valid() && topics.Valid() && fds[..count] == list
        invariant registry.records.Keys <= reg.records.Keys && table.nodes <= old(table.nodes)
        invariant RemoveAll(registry, list[i..]) == RemoveAll(reg, list)
        invariant PubSub.UnsubscribeEach(topics.View(), list[i..]) == PubSub.UnsubscribeEach(view, list)
      {
        assert fds[i] == list[i] == list[i..][0] && list[i..][1..] == list[i + 1..];
        topics.UnsubscribeFromAll(fds[i]);
        RemoveClient(fds[i]);
        i := i + 1;
      }
    }

    /** Exactly the clients silent for longer than `timeout` go, from both indexes and from every topic. */
    method SweepInactive(now: int, timeout: int, topics: PubSubTables.Tables)
      requires Valid() && topics.Valid() && PubSub.WellFormed(topics.View())
      requires |Expired(registry, now, timeout)| <= MAX_SWEPT
      modifies this, table, table.buckets, table.nodes, registry.records.Keys, topics.subscribers, topics.subCount
      ensures Valid() && registry == Restrict(old(registry), Alive(old(registry), now, timeout))
      ensures topics.Valid() && PubSub.WellFormed(topics.View())
      ensures Departed(old(registry), now, timeout, old(topics.View()), topics.View())
    {
      hide FdKey, Consistent, Clients.Recorded, Table.Valid, PubSub.WellFormed, PubSub.Subscribers, Restrict, RemoveAll,
           PubSub.UnsubscribeEach, Expired, PubSubTables.Tables.View, PubSubTables.Tables.Valid;
      ghost var view, reg := topics.View(), registry;
      var fds := new nat[MAX_SWEPT];
      var count := CollectExpired(now, timeout, fds);
      ghost var list := fds[..count];
      assert topics.View() == view;
      RemoveEach(fds, count, topics);
      SweepIsExact(reg, now, timeout, list);
      SweptTopics(reg, now, timeout, list, view, topics.View());
    }
  }

  lemma SweptTopics(r: Registry<Client>, now: int, timeout: int, fds: seq<nat>,
                    view: seq<PubSub.Topic>, left: seq<PubSub.Topic>)
    requires Collects(r, now, timeout, fds) && PubSub.WellFormed(view) && left == PubSub.UnsubscribeEach(view, fds)
    ensures PubSub.WellFormed(left)
    ensures Departed(r, now, timeout, view, left)
  {
    hide PubSub.WellFormed, PubSub.UnsubscribeEach;
    PubSub.UnsubscribeEachEffect(view, fds, "");
    forall name
      ensures Lost(r, now, timeout, PubSub.Subscribers(view, name), PubSub.Subscribers(left, name))
    {
      PubSub.UnsubscribeEachEffect(view, fds, name);
      forall fd
        ensures fd in PubSub.Subscribers(left, name) <==>
                fd in PubSub.Subscribers(view, name) && !ExpiredFd(r, now, timeout, fd)
      {
        assert fd < 0 ==> fd !in fds;
      }
    }
  }
}
