/** The subscription tables of pubsub.c: 50 topics of at most 100 subscribers, in fixed arrays. */
module PubSub {

  const MAX_TOPICS: nat := 50
  const MAX_SUBSCRIBERS: nat := 100
  const NAME_MAX: nat := 63
  const MESSAGE_SIZE: nat := 1024

  datatype Topic = Topic(name: string, subs: seq<int>)

  // ---- What each call does to the table, on values ----------------------------------------

  /** The slot of the first topic called `name`, or |table|. */
  function Find(table: seq<Topic>, name: string): (i: nat)
    ensures i <= |table| && (i < |table| ==> table[i].name == name)
    ensures forall k :: 0 <= k < i ==> table[k].name != name
  {
    if table == [] || table[0].name == name then 0
    else
      var i := 1 + Find(table[1..], name);
      assert forall k :: 0 < k < i ==> table[k] == table[1..][k - 1];
      i
  }

  /** strncpy of 63 bytes. */
  function Stored(name: string): string {
    if |name| <= NAME_MAX then name else name[..NAME_MAX]
  }

  function Join(t: Topic, fd: int): Topic {
    if |t.subs| < MAX_SUBSCRIBERS && fd !in t.subs then t.(subs := t.subs + [fd]) else t
  }

  function Subscribe(table: seq<Topic>, fd: int, name: string): seq<Topic> {
    var i := Find(table, name);
    if i < |table| then table[i := Join(table[i], fd)]
    else if |table| < MAX_TOPICS then table + [Join(Topic(Stored(name), []), fd)]
    else table
  }

  /** The list without the first occurrence of `fd`. */
  function Removed(subs: seq<int>, fd: int): seq<int> {
    if subs == [] then [] else if subs[0] == fd then subs[1..] else [subs[0]] + Removed(subs[1..], fd)
  }

  function Leave(t: Topic, fd: int): Topic {
    t.(subs := Removed(t.subs, fd))
  }

  function Unsubscribe(table: seq<Topic>, fd: int, name: string): seq<Topic> {
    var i := Find(table, name);
    if i < |table| then table[i := Leave(table[i], fd)] else table
  }

  function UnsubscribeAll(table: seq<Topic>, fd: int): seq<Topic> {
    seq(|table|, i requires 0 <= i < |table| => Leave(table[i], fd))
  }

  /** The subscribers of a topic, none if it has no slot. */
  function Subscribers(table: seq<Topic>, name: string): seq<int> {
    var i := Find(table, name);
    if i < |table| then table[i].subs else []
  }

  function UnsubscribeEach(table: seq<Topic>, fds: seq<int>): seq<Topic>
    decreases |fds|
  {
    if fds == [] then table else UnsubscribeEach(UnsubscribeAll(table, fds[0]), fds[1..])
  }

  // ---- Histories --------------------------------------------------------------------------

  datatype Call = Sub(fd: int, name: string) | Unsub(fd: int, name: string) | UnsubAll(fd: int)

  function Apply(table: seq<Topic>, call: Call): seq<Topic> {
    match call
    case Sub(fd, name) => Subscribe(table, fd, name)
    case Unsub(fd, name) => Unsubscribe(table, fd, name)
    case UnsubAll(fd) => UnsubscribeAll(table, fd)
  }

  /** The table after a whole sequence of calls. */
  function After(calls: seq<Call>): seq<Topic> {
    if calls == [] then [] else Apply(After(calls[..|calls| - 1]), calls[|calls| - 1])
  }

  /** Every caller passes names of at most 63 bytes. */
  predicate ShortNames(calls: seq<Call>) {
    forall i :: 0 <= i < |calls| && calls[i].Sub? ==> |calls[i].name| <= NAME_MAX
  }

  predicate Distinct<T(==)>(s: seq<T>) {
    forall i, j :: 0 <= i < j < |s| ==> s[i] != s[j]
  }

  function Names(table: seq<Topic>): seq<string> {
    seq(|table|, i requires 0 <= i < |table| => table[i].name)
  }

  predicate WellFormed(table: seq<Topic>) {
    && |table| <= MAX_TOPICS
    && Distinct(Names(table))
    && (forall i :: 0 <= i < |table| ==> Distinct(table[i].subs) && |table[i].subs| <= MAX_SUBSCRIBERS)
  }

  lemma DistinctAdd<T>(x: T, s: seq<T>)
    requires Distinct(s) && x !in s
    ensures Distinct([x] + s) && Distinct(s + [x])
  {
  }

  lemma {:induction false} RemovedKeeps(subs: seq<int>, fd: int)
    requires Distinct(subs)
    ensures Distinct(Removed(subs, fd)) && |Removed(subs, fd)| <= |subs|
    ensures forall x :: x in Removed(subs, fd) <==> x in subs && x != fd
  {
    if subs != [] {
      assert subs == [subs[0]] + subs[1..];
      RemovedKeeps(subs[1..], fd);
      if subs[0] != fd {
        assert forall k :: 0 < k < |subs| ==> subs[k] != subs[0];
        DistinctAdd(subs[0], Removed(subs[1..], fd));
      }
    }
  }

  lemma FindNamed(table: seq<Topic>, i: nat)
    requires Distinct(Names(table)) && i < |table|
    ensures Find(table, table[i].name) == i
  {
    assert Names(table)[i] == table[i].name;
    var k := Find(table, table[i].name);
    assert k < |table| ==> Names(table)[k] == table[k].name;
  }

  /** There is room for one more subscriber of `name`: in its slot, or in a slot still to be taken. */
  predicate Room(table: seq<Topic>, name: string) {
    var i := Find(table, name);
    if i < |table| then |table[i].subs| < MAX_SUBSCRIBERS else |table| < MAX_TOPICS
  }

  lemma JoinKeeps(t: Topic, fd: int)
    requires Distinct(t.subs) && |t.subs| <= MAX_SUBSCRIBERS
    ensures var u := Join(t, fd);
            && u.name == t.name && Distinct(u.subs) && |u.subs| <= MAX_SUBSCRIBERS
            && u.subs == t.subs + (if |t.subs| < MAX_SUBSCRIBERS && fd !in t.subs then [fd] else [])
  {
    if fd !in t.subs {
      DistinctAdd(fd, t.subs);
    }
  }

  lemma SubscribeOld(table: seq<Topic>, fd: int, n: string)
    requires WellFormed(table) && Find(table, n) < |table|
    ensures WellFormed(Subscribe(table, fd, n)) && Names(Subscribe(table, fd, n)) == Names(table)
  {
    JoinKeeps(table[Find(table, n)], fd);
    assert Names(Subscribe(table, fd, n)) == Names(table);
  }

  lemma {:induction false} SubscribeNew(table: seq<Topic>, fd: int, n: string)
    requires WellFormed(table) && |n| <= NAME_MAX && Find(table, n) == |table| < MAX_TOPICS
    ensures WellFormed(Subscribe(table, fd, n)) && Names(Subscribe(table, fd, n)) == Names(table) + [n]
  {
    assert n !in Names(table);
    DistinctAdd(n, Names(table));
    assert Names(Subscribe(table, fd, n)) == Names(table) + [n];
  }

  lemma SubscribeEffect(table: seq<Topic>, fd: int, n: string, name: string)
    requires WellFormed(table) && |n| <= NAME_MAX
    ensures var t := Subscribe(table, fd, n);
            && WellFormed(t)
            && Names(t) == Names(table) + (if Find(table, n) == |table| < MAX_TOPICS then [n] else [])
            && Subscribers(t, name) == Subscribers(table, name)
                 + (if n == name && Room(table, n) && fd !in Subscribers(table, n) then [fd] else [])
  {
    if Find(table, n) < |table| {
      SubscribeOld(table, fd, n);
      hide Distinct, WellFormed;
      SubscribeOldList(table, fd, n, name);
    } else if |table| < MAX_TOPICS {
      SubscribeNew(table, fd, n);
      hide Distinct, WellFormed;
      SubscribeNewList(table, fd, n, name);
    }
  }

  lemma SubscribeOldList(table: seq<Topic>, fd: int, n: string, name: string)
    requires WellFormed(table) && Find(table, n) < |table| && WellFormed(Subscribe(table, fd, n))
    ensures Subscribers(Subscribe(table, fd, n), name) == Subscribers(table, name)
              + (if n == name && Room(table, n) && fd !in Subscribers(table, n) then [fd] else [])
  {
    hide Distinct;
    var t, i, k := Subscribe(table, fd, n), Find(table, n), Find(table, name);
    JoinKeeps(table[i], fd);
    FindNamed(t, i);
    if k < |table| {
      assert t[k].name == name;
      FindNamed(t, k);
    }
  }

  lemma SubscribeNewList(table: seq<Topic>, fd: int, n: string, name: string)
    requires WellFormed(table) && |n| <= NAME_MAX && Find(table, n) == |table| < MAX_TOPICS
    requires WellFormed(Subscribe(table, fd, n))
    ensures Subscribers(Subscribe(table, fd, n), name) == Subscribers(table, name) + (if n == name then [fd] else [])
  {
    hide Distinct;
    var t, k := Subscribe(table, fd, n), Find(table, name);
    FindNamed(t, |table|);
    if k < |table| {
      assert t[k].name == name;
      FindNamed(t, k);
    }
  }

  lemma UnsubscribeEffect(table: seq<Topic>, fd: int, n: string, name: string)
    requires WellFormed(table)
    ensures var t := Unsubscribe(table, fd, n);
            && WellFormed(t) && Names(t) == Names(table)
            && Subscribers(t, name)
               == if n == name then Removed(Subscribers(table, name), fd) else Subscribers(table, name)
  {
    var t, i, k := Unsubscribe(table, fd, n), Find(table, n), Find(table, name);
    if i < |table| {
      RemovedKeeps(table[i].subs, fd);
    }
    assert Names(t) == Names(table);
    if k < |table| {
      FindNamed(t, k);
    }
  }

  lemma UnsubscribeAllEffect(table: seq<Topic>, fd: int, name: string)
    requires WellFormed(table)
    ensures var t := UnsubscribeAll(table, fd);
            && WellFormed(t) && Names(t) == Names(table)
            && Subscribers(t, name) == Removed(Subscribers(table, name), fd)
  {
    var t, k := UnsubscribeAll(table, fd), Find(table, name);
    forall i | 0 <= i < |table|
      ensures Distinct(t[i].subs) && |t[i].subs| <= MAX_SUBSCRIBERS
    {
      RemovedKeeps(table[i].subs, fd);
    }
    assert Names(t) == Names(table);
    if k < |table| {
      FindNamed(t, k);
    }
  }

  lemma SubscribersWellFormed(table: seq<Topic>, name: string)
    requires WellFormed(table)
    ensures Distinct(Subscribers(table, name))
  {
  }

  lemma {:induction false} UnsubscribeEachEffect(table: seq<Topic>, fds: seq<int>, name: string)
    requires WellFormed(table)
    ensures WellFormed(UnsubscribeEach(table, fds))
    ensures forall x :: x in Subscribers(UnsubscribeEach(table, fds), name) <==>
              x in Subscribers(table, name) && x !in fds
    decreases |fds|
  {
    if fds != [] {
      UnsubscribeAllEffect(table, fds[0], name);
      SubscribersWellFormed(table, name);
      hide Find, WellFormed, Distinct;
      RemovedKeeps(Subscribers(table, name), fds[0]);
      UnsubscribeEachEffect(UnsubscribeAll(table, fds[0]), fds[1..], name);
    }
  }

  /** `Removed` is the array with one element shifted out. */
  lemma {:induction false} RemovedAt(subs: seq<int>, fd: int, k: nat)
    requires k < |subs| && subs[k] == fd && fd !in subs[..k]
    ensures Removed(subs, fd) == subs[..k] + subs[k + 1..]
  {
    if k > 0 {
      assert subs[..k][0] == subs[0];
      assert subs[1..][..k - 1] == subs[..k][1..];
      RemovedAt(subs[1..], fd, k - 1);
      assert subs[..k] == [subs[0]] + subs[1..][..k - 1];
    }
  }

  lemma {:induction false} RemovedNone(subs: seq<int>, fd: int)
    requires fd !in subs
    ensures Removed(subs, fd) == subs
  {
    if subs != [] {
      RemovedNone(subs[1..], fd);
    }
  }

  // ---- The table after any history --------------------------------------------------------

  lemma {:induction false} AfterWellFormed(calls: seq<Call>)
    requires ShortNames(calls)
    ensures WellFormed(After(calls))
  {
    if calls != [] {
      var before, call := calls[..|calls| - 1], calls[|calls| - 1];
      AfterWellFormed(before);
      hide WellFormed, Subscribe, Unsubscribe, UnsubscribeAll;
      match call
      case Sub(fd, n) => SubscribeEffect(After(before), fd, n, n);
      case Unsub(fd, n) => UnsubscribeEffect(After(before), fd, n, n);
      case UnsubAll(fd) => UnsubscribeAllEffect(After(before), fd, "");
    } else {
      assert WellFormed([]);
    }
  }

  /** The distinct names ever subscribed to, in the order they first appeared. */
  function Seen(calls: seq<Call>): seq<string> {
    if calls == [] then []
    else
      var before, call := Seen(calls[..|calls| - 1]), calls[|calls| - 1];
      if call.Sub? && call.name !in before then before + [call.name] else before
  }

  function FirstTopics(names: seq<string>): seq<string> {
    if |names| <= MAX_TOPICS then names else names[..MAX_TOPICS]
  }

  /** Topic slots are never given back: they are the first 50 distinct names ever subscribed to. */
  lemma {:induction false} TopicSlots(calls: seq<Call>)
    requires ShortNames(calls)
    ensures Names(After(calls)) == FirstTopics(Seen(calls))
  {
    if calls != [] {
      var before, call := calls[..|calls| - 1], calls[|calls| - 1];
      var table := After(before);
      TopicSlots(before);
      AfterWellFormed(before);
      hide WellFormed, Subscribe, Unsubscribe, UnsubscribeAll;
      match call
      case Sub(fd, n) =>
        SubscribeEffect(table, fd, n, n);
        NamesFind(table, n);
      case Unsub(fd, n) => UnsubscribeEffect(table, fd, n, n);
      case UnsubAll(fd) => UnsubscribeAllEffect(table, fd, "");
    }
  }

  lemma NamesFind(table: seq<Topic>, n: string)
    ensures n in Names(table) <==> Find(table, n) < |table|
  {
    assert forall i :: 0 <= i < |table| ==> Names(table)[i] == table[i].name;
  }

  predicate Cancels(call: Call, fd: int, name: string) {
    call == Unsub(fd, name) || call == UnsubAll(fd)
  }

  /** Call `i` subscribes `fd` to `name`, and the tables had room for it (or already had it). */
  predicate Accepted(calls: seq<Call>, i: nat, fd: int, name: string) {
    && i < |calls| && calls[i] == Sub(fd, name)
    && var table := After(calls[..i]); fd in Subscribers(table, name) || Room(table, name)
  }

  /** The subscription accepted at call `i` has not been cancelled since. */
  predicate Live(calls: seq<Call>, i: nat, fd: int, name: string) {
    && Accepted(calls, i, fd, name)
    && forall j :: i < j < |calls| ==> !Cancels(calls[j], fd, name)
  }

  lemma LivePrefix(calls: seq<Call>, i: nat, fd: int, name: string)
    requires calls != [] && i < |calls| - 1
    ensures Live(calls, i, fd, name)
            <==> Live(calls[..|calls| - 1], i, fd, name) && !Cancels(calls[|calls| - 1], fd, name)
  {
    assert calls[..|calls| - 1][..i] == calls[..i];
  }

  /** How one call moves `fd` in or out of the subscribers of `name`. */
  lemma MembershipStep(table: seq<Topic>, call: Call, fd: int, name: string)
    requires WellFormed(table) && (call.Sub? ==> |call.name| <= NAME_MAX)
    ensures fd in Subscribers(Apply(table, call), name) <==>
            || (call == Sub(fd, name) && (fd in Subscribers(table, name) || Room(table, name)))
            || (!Cancels(call, fd, name) && fd in Subscribers(table, name))
  {
    hide Subscribe, Unsubscribe, UnsubscribeAll, Find, Room, Removed, Distinct;
    match call
    case Sub(fd', n) => SubscribeEffect(table, fd', n, name);
    case Unsub(fd', n) =>
      UnsubscribeEffect(table, fd', n, name);
      SubscribersRemoved(table, name, fd');
    case UnsubAll(fd') =>
      UnsubscribeAllEffect(table, fd', name);
      SubscribersRemoved(table, name, fd');
  }

  lemma SubscribersRemoved(table: seq<Topic>, name: string, fd: int)
    requires WellFormed(table)
    ensures Distinct(Subscribers(table, name))
    ensures forall x :: x in Removed(Subscribers(table, name), fd) <==> x in Subscribers(table, name) && x != fd
  {
    RemovedKeeps(Subscribers(table, name), fd);
  }

  /** The live subscriptions after one more call. */
  lemma LiveStep(calls: seq<Call>, fd: int, name: string)
    requires calls != []
    ensures var n := |calls| - 1; var before := calls[..n]; var table := After(before);
            && (forall i: nat :: Live(calls, i, fd, name) ==> i <= n)
            && (forall i: nat :: Live(before, i, fd, name) ==> i < n)
            && (forall i: nat :: i < n ==>
                  (Live(calls, i, fd, name) <==> Live(before, i, fd, name) && !Cancels(calls[n], fd, name)))
            && (Live(calls, n, fd, name) <==>
                  calls[n] == Sub(fd, name) && (fd in Subscribers(table, name) || Room(table, name)))
  {
    var n := |calls| - 1;
    forall i: nat | i < n
      ensures Live(calls, i, fd, name) <==> Live(calls[..n], i, fd, name) && !Cancels(calls[n], fd, name)
    {
      LivePrefix(calls, i, fd, name);
    }
  }

  /** `fd` is subscribed exactly if some accepted subscription of it has not been cancelled since. */
  lemma {:induction false} SubscribedIff(calls: seq<Call>, fd: int, name: string)
    requires ShortNames(calls)
    ensures fd in Subscribers(After(calls), name) <==> exists i: nat :: Live(calls, i, fd, name)
  {
    if calls != [] {
      var n := |calls| - 1;
      var before, call := calls[..n], calls[n];
      SubscribedIff(before, fd, name);
      AfterWellFormed(before);
      MembershipStep(After(before), call, fd, name);
      LiveStep(calls, fd, name);
      hide Apply, WellFormed, Subscribers, Room, Live;
      if fd in Subscribers(After(calls), name) && call != Sub(fd, name) {
        var i :| Live(before, i, fd, name);
        assert Live(calls, i, fd, name);
      }
    }
  }

  /** The call at which the current subscription of `fd` began: -1 if there is none. */
  function Since(calls: seq<Call>, fd: int, name: string): int {
    if calls == [] then -1
    else
      var before, call := calls[..|calls| - 1], calls[|calls| - 1];
      var table := After(before);
      if call == Sub(fd, name) && fd !in Subscribers(table, name) && Room(table, name) then |calls| - 1
      else if Cancels(call, fd, name) then -1
      else Since(before, fd, name)
  }

  /** Subscribers are kept in the order in which their current subscriptions began. */
  predicate InOrder(calls: seq<Call>, subs: seq<int>, name: string) {
    && (forall p :: 0 <= p < |subs| ==> 0 <= Since(calls, subs[p], name) < |calls|)
    && (forall p, q :: 0 <= p < q < |subs| ==> Since(calls, subs[p], name) < Since(calls, subs[q], name))
  }

  lemma InOrderWithout(calls: seq<Call>, subs: seq<int>, k: nat, name: string)
    requires InOrder(calls, subs, name) && k < |subs|
    ensures InOrder(calls, subs[..k] + subs[k + 1..], name)
  {
    hide Since;
    var r := subs[..k] + subs[k + 1..];
    forall p | 0 <= p < |r|
      ensures r[p] == subs[if p < k then p else p + 1]
    {
    }
    forall p, q | 0 <= p < q < |r|
      ensures Since(calls, r[p], name) < Since(calls, r[q], name)
    {
      var p', q' := if p < k then p else p + 1, if q < k then q else q + 1;
      assert Since(calls, subs[p'], name) < Since(calls, subs[q'], name);
    }
  }

  lemma InOrderRemoved(calls: seq<Call>, subs: seq<int>, fd: int, name: string)
    requires InOrder(calls, subs, name)
    ensures InOrder(calls, Removed(subs, fd), name)
  {
    hide Since, InOrder, Removed;
    if fd in subs {
      var k := FirstIndex(subs, fd);
      RemovedAt(subs, fd, k);
      InOrderWithout(calls, subs, k, name);
    } else {
      RemovedNone(subs, fd);
    }
  }

  function FirstIndex(subs: seq<int>, fd: int): (k: nat)
    requires fd in subs
    ensures k < |subs| && subs[k] == fd && fd !in subs[..k]
  {
    if subs[0] == fd then 0
    else
      assert subs == [subs[0]] + subs[1..];
      1 + FirstIndex(subs[1..], fd)
  }

  /** A later call that neither starts nor cancels any of these subscriptions leaves their order alone. */
  lemma InOrderLater(calls: seq<Call>, subs: seq<int>, name: string)
    requires calls != [] && InOrder(calls[..|calls| - 1], subs, name)
    requires forall x :: x in subs ==>
               !Cancels(calls[|calls| - 1], x, name) && x in Subscribers(After(calls[..|calls| - 1]), name)
    ensures InOrder(calls, subs, name)
  {
    var before := calls[..|calls| - 1];
    forall p | 0 <= p < |subs|
      ensures Since(calls, subs[p], name) == Since(before, subs[p], name)
    {
      assert subs[p] in subs;
    }
  }

  lemma {:induction false} SubscriptionOrder(calls: seq<Call>, name: string)
    requires ShortNames(calls)
    ensures InOrder(calls, Subscribers(After(calls), name), name)
  {
    if calls != [] {
      var before, call := calls[..|calls| - 1], calls[|calls| - 1];
      var table := After(before);
      var subs := Subscribers(table, name);
      SubscriptionOrder(before, name);
      AfterWellFormed(before);
      hide WellFormed, Subscribe, Unsubscribe, UnsubscribeAll, Since, InOrder, Subscribers, Removed;
      match call
      case Sub(fd, n) =>
        SubscribeEffect(table, fd, n, name);
        InOrderLater(calls, subs, name);
        if n == name && Room(table, n) && fd !in subs {
          InOrderAppended(calls, subs, fd, name);
        } else {
          assert subs + [] == subs;
        }
      case Unsub(fd, n) =>
        UnsubscribeEffect(table, fd, n, name);
        OrderAfterRemoval(calls, subs, if n == name then Removed(subs, fd) else subs, fd, name);
      case UnsubAll(fd) =>
        UnsubscribeAllEffect(table, fd, name);
        OrderAfterRemoval(calls, subs, Removed(subs, fd), fd, name);
    }
  }

  lemma OrderAfterRemoval(calls: seq<Call>, subs: seq<int>, rest: seq<int>, fd: int, name: string)
    requires calls != [] && var before := calls[..|calls| - 1]; var call := calls[|calls| - 1];
             && InOrder(before, subs, name) && subs == Subscribers(After(before), name) && WellFormed(After(before))
             && (rest == Removed(subs, fd) || (rest == subs && call.Unsub? && call.name != name))
             && (call == UnsubAll(fd) || (call.Unsub? && call.fd == fd))
    ensures InOrder(calls, rest, name)
  {
    hide InOrder, Since;
    SubscribersRemoved(After(calls[..|calls| - 1]), name, fd);
    InOrderRemoved(calls[..|calls| - 1], subs, fd, name);
    InOrderLater(calls, rest, name);
  }

  lemma InOrderAppended(calls: seq<Call>, subs: seq<int>, fd: int, name: string)
    requires calls != [] && calls[|calls| - 1] == Sub(fd, name)
    requires var table := After(calls[..|calls| - 1]);
             fd !in subs && subs == Subscribers(table, name) && Room(table, name)
    requires InOrder(calls[..|calls| - 1], subs, name) && InOrder(calls, subs, name)
    ensures InOrder(calls, subs + [fd], name)
  {
    var before, all := calls[..|calls| - 1], subs + [fd];
    assert Since(calls, fd, name) == |calls| - 1;
    assert forall p :: 0 <= p < |subs| ==> Since(calls, subs[p], name) == Since(before, subs[p], name) < |calls| - 1;
    assert forall p :: 0 <= p < |all| ==> all[p] == if p < |subs| then subs[p] else fd;
  }

  /**
    Slots stay distinct exactly when the name fits in 63 bytes, no slot is taken for it, or its first
    63 bytes are new: a longer name never finds the slot it took and takes another under the same name.
   */
  lemma LongNames(table: seq<Topic>, fd: int, name: string)
    requires WellFormed(table)
    ensures Distinct(Names(Subscribe(table, fd, name))) <==>
            |name| <= NAME_MAX || |table| == MAX_TOPICS || Find(table, name) < |table|
            || name[..NAME_MAX] !in Names(table)
  {
    if Find(table, name) < |table| {
      SubscribeOld(table, fd, name);
    } else if |table| < MAX_TOPICS {
      var stored := if |name| <= NAME_MAX then name else name[..NAME_MAX];
      NewSlot(table, fd, name, stored);
      NamesFind(table, name);
      hide Subscribe, Find;
      DistinctNames(Names(table), stored);
    }
  }

  lemma NewSlot(table: seq<Topic>, fd: int, name: string, stored: string)
    requires Find(table, name) == |table| < MAX_TOPICS
    requires stored == if |name| <= NAME_MAX then name else name[..NAME_MAX]
    ensures Subscribe(table, fd, name) == table + [Topic(stored, [fd])]
    ensures Names(Subscribe(table, fd, name)) == Names(table) + [stored]
  {
    hide Find;
    var added := Topic(stored, [fd]);
    assert Join(Topic(stored, []), fd) == added;
    assert Names(table + [added]) == Names(table) + [stored];
  }

  lemma DistinctNames(names: seq<string>, name: string)
    requires Distinct(names)
    ensures Distinct(names + [name]) <==> name !in names
  {
    var all := names + [name];
    if name in names {
      var i :| 0 <= i < |names| && names[i] == name;
      assert all[i] == all[|names|];
    } else {
      DistinctAdd(name, names);
    }
  }

  // ---- Publishing -------------------------------------------------------------------------

  datatype Delivery = Delivery(fd: int, message: string)

  /** snprintf of "[%s] %s\n" into 1024 bytes. */
  function Format(topic: string, payload: string): string {
    var m := "[" + topic + "] " + payload + "\n";
    if |m| <= MESSAGE_SIZE - 1 then m else m[..MESSAGE_SIZE - 1]
  }

  /** One write per subscriber that is still registered, in the order of the list. */
  function Deliver(subs: seq<int>, registered: set<int>, message: string): seq<Delivery> {
    if subs == [] then []
    else
      var n := |subs| - 1;
      Deliver(subs[..n], registered, message) + (if subs[n] in registered then [Delivery(subs[n], message)] else [])
  }

  function Publish(table: seq<Topic>, registered: set<int>, topic: string, payload: string): seq<Delivery> {
    Deliver(Subscribers(table, topic), registered, Format(topic, payload))
  }

  /** How many of the first `p` subscribers are registered. */
  function Rank(subs: seq<int>, registered: set<int>, p: nat): nat
    requires p <= |subs|
  {
    if p == 0 then 0 else Rank(subs, registered, p - 1) + (if subs[p - 1] in registered then 1 else 0)
  }

  lemma {:induction false} RankPrefix(subs: seq<int>, registered: set<int>, p: nat)
    requires p <= |subs| - 1
    ensures Rank(subs[..|subs| - 1], registered, p) == Rank(subs, registered, p)
  {
    if p > 0 {
      RankPrefix(subs, registered, p - 1);
    }
  }

  /** Write number Rank(p) goes to subscriber `p`, for every registered one, and there are no more writes than those. */
  lemma {:induction false} DeliverExact(subs: seq<int>, registered: set<int>, message: string)
    ensures var out := Deliver(subs, registered, message);
            && |out| == Rank(subs, registered, |subs|)
            && (forall p :: 0 <= p < |subs| && subs[p] in registered ==>
                  Rank(subs, registered, p) < |out| && out[Rank(subs, registered, p)] == Delivery(subs[p], message))
  {
    if subs != [] {
      var n := |subs| - 1;
      var front := subs[..n];
      DeliverExact(front, registered, message);
      forall p | 0 <= p <= n
        ensures Rank(front, registered, p) == Rank(subs, registered, p)
      {
        RankPrefix(subs, registered, p);
      }
    }
  }

  lemma {:induction false} DeliverMembers(subs: seq<int>, registered: set<int>, message: string)
    requires Distinct(subs)
    ensures var out := Deliver(subs, registered, message);
            && (forall fd :: fd in subs && fd in registered <==> Delivery(fd, message) in out)
            && Distinct(out) && (forall d :: d in out ==> d.message == message)
  {
    if subs != [] {
      var n := |subs| - 1;
      assert subs == subs[..n] + [subs[n]];
      DeliverMembers(subs[..n], registered, message);
      if subs[n] in registered {
        DistinctAdd(Delivery(subs[n], message), Deliver(subs[..n], registered, message));
      }
    }
  }

  /**
    Exactly-once fan-out after any history: a message published to a topic is written once to each
    registered subscriber and to nobody else. It is the frame, or its first 1023 bytes if it is longer; a
    worker's topic and payload are framed whole.
   */
  lemma FanOut(calls: seq<Call>, registered: set<int>, topic: string, payload: string)
    requires ShortNames(calls)
    ensures var out := Publish(After(calls), registered, topic, payload); var message := Format(topic, payload);
            && Distinct(out) && (forall d :: d in out ==> d.message == message)
            && (forall fd :: Delivery(fd, message) in out <==>
                  fd in registered && exists i: nat :: Live(calls, i, fd, topic))
    ensures var message, frame := Format(topic, payload), "[" + topic + "] " + payload + "\n";
            && message <= frame && (|message| == 1023 || message == frame) && |message| <= 1023
            && (|topic| <= NAME_MAX && |payload| <= 799 ==> message == frame && |message| <= 866)
  {
    AfterWellFormed(calls);
    var subs := Subscribers(After(calls), topic);
    SubscribersRemoved(After(calls), topic, 0);
    DeliverMembers(subs, registered, Format(topic, payload));
    hide WellFormed, Subscribers, Live, Deliver, Format;
    forall fd: int
      ensures fd in subs <==> exists i: nat :: Live(calls, i, fd, topic)
    {
      SubscribedIff(calls, fd, topic);
    }
  }
}

/** The fixed arrays of pubsub.c and their loops. */
module PubSubTables {
  import opened PubSub

  class Tables {
    const names: array<string>
    const subscribers: array2<int>
    const subCount: array<nat>
    var topicCount: nat

    ghost predicate Valid()
      reads this, subCount
    {
      && names.Length == MAX_TOPICS == subCount.Length
      && subscribers.Length0 == MAX_TOPICS && subscribers.Length1 == MAX_SUBSCRIBERS
      && topicCount <= MAX_TOPICS
      && forall i :: 0 <= i < topicCount ==> subCount[i] <= MAX_SUBSCRIBERS
    }

    ghost function Row(i: nat): seq<int>
      requires Valid() && i < topicCount
      reads this, subscribers, subCount
    {
      seq(subCount[i], j requires 0 <= j < subCount[i] reads this, subscribers, subCount
            requires Valid() && i < topicCount => subscribers[i, j])
    }

    ghost function View(): seq<Topic>
      requires Valid()
      reads this, names, subscribers, subCount
    {
      seq(topicCount, i requires 0 <= i < topicCount && Valid() reads this, names, subscribers, subCount
            => Topic(names[i], Row(i)))
    }

    constructor ()
      ensures Valid() && View() == [] && fresh(names) && fresh(subscribers) && fresh(subCount)
    {
      names := new string[MAX_TOPICS];
      subscribers := new int[MAX_TOPICS, MAX_SUBSCRIBERS];
      subCount := new nat[MAX_TOPICS];
      topicCount := 0;
    }

    method FindTopic(name: string) returns (i: nat)
      requires Valid()
      ensures i == Find(View(), name)
    {
      i := 0;
      while i < topicCount && names[i] != name
        invariant i <= topicCount
        invariant forall k :: 0 <= k < i ==> View()[k].name != name
      {
        i := i + 1;
      }
      assert i < topicCount ==> View()[i].name == name;
    }

    method FindSubscriber(i: nat, fd: int) returns (j: nat)
      requires Valid() && i < topicCount
      ensures j <= subCount[i] && fd !in Row(i)[..j] && (j < subCount[i] ==> Row(i)[j] == fd)
    {
      j := 0;
      while j < subCount[i] && subscribers[i, j] != fd
        invariant j <= subCount[i] && fd !in Row(i)[..j]
      {
        j := j + 1;
      }
    }

    method SubscribeTo(fd: int, name: string)
      requires Valid()
      modifies this, names, subscribers, subCount
      ensures Valid() && View() == Subscribe(old(View()), fd, name)
    {
      var i := FindTopic(name);
      if i == topicCount {
        if topicCount == MAX_TOPICS {
          return;
        }
        AddTopic(name);
      }
      JoinTopic(i, fd);
    }

    /** Takes the next free slot. */
    method AddTopic(name: string)
      requires Valid() && topicCount < MAX_TOPICS
      modifies this, names, subCount
      ensures Valid() && View() == old(View()) + [Topic(Stored(name), [])]
    {
      ghost var before := View();
      var i := topicCount;
      names[i] := if |name| <= NAME_MAX then name else name[..NAME_MAX];
      subCount[i] := 0;
      topicCount := topicCount + 1;
      assert Row(i) == [];
      assert forall k :: 0 <= k < i ==> Row(k) == before[k].subs;
    }

    method JoinTopic(i: nat, fd: int)
      requires Valid() && i < topicCount
      modifies subscribers, subCount
      ensures Valid() && View() == old(View())[i := Join(old(View())[i], fd)]
    {
      ghost var before := View();
      if subCount[i] < MAX_SUBSCRIBERS {
        var j := FindSubscriber(i, fd);
        if j == subCount[i] {
          assert fd !in before[i].subs by { assert Row(i)[..j] == Row(i); }
          subscribers[i, j] := fd;
          subCount[i] := subCount[i] + 1;
          assert Row(i) == before[i].subs + [fd];
          assert forall k :: 0 <= k < topicCount && k != i ==> Row(k) == before[k].subs;
        } else {
          assert fd in before[i].subs;
        }
      }
    }

    /** The inner loop: overwrites each element from `j` on by its successor. */
    method ShiftDown(i: nat, j: nat, n: nat)
      requires i < subscribers.Length0 && j < n <= subscribers.Length1
      modifies subscribers
      ensures forall m :: 0 <= m < j ==> subscribers[i, m] == old(subscribers[i, m])
      ensures forall m :: j <= m < n - 1 ==> subscribers[i, m] == old(subscribers[i, m + 1])
      ensures forall l, m :: 0 <= l < subscribers.Length0 && 0 <= m < subscribers.Length1 && l != i ==>
                subscribers[l, m] == old(subscribers[l, m])
    {
      for k := j to n - 1
        invariant forall m :: 0 <= m < j ==> subscribers[i, m] == old(subscribers[i, m])
        invariant forall m :: j <= m < k ==> subscribers[i, m] == old(subscribers[i, m + 1])
        invariant forall m :: k <= m < n ==> subscribers[i, m] == old(subscribers[i, m])
        invariant forall l, m :: 0 <= l < subscribers.Length0 && 0 <= m < subscribers.Length1 && l != i ==>
                    subscribers[l, m] == old(subscribers[l, m])
      {
        subscribers[i, k] := subscribers[i, k + 1];
      }
    }

    /** Finds `fd` in the list and shifts the rest down over it. */
    method LeaveTopic(i: nat, fd: int)
      requires Valid() && i < topicCount
      modifies subscribers, subCount
      ensures Valid() && View() == old(View())[i := Leave(old(View())[i], fd)]
    {
      ghost var before, subs := View(), Row(i);
      var j := FindSubscriber(i, fd);
      if j == subCount[i] {
        assert Row(i)[..j] == Row(i);
        RemovedNone(subs, fd);
        return;
      }
      RemovedAt(subs, fd, j);
      hide Removed;
      var n := subCount[i];
      ShiftDown(i, j, n);
      subCount[i] := n - 1;
      forall m | 0 <= m < n - 1
        ensures Row(i)[m] == (subs[..j] + subs[j + 1..])[m]
      {
      }
      assert Row(i) == subs[..j] + subs[j + 1..];
      assert forall k :: 0 <= k < topicCount && k != i ==> Row(k) == before[k].subs;
    }

    method UnsubscribeFrom(fd: int, name: string)
      requires Valid()
      modifies subscribers, subCount
      ensures Valid() && View() == Unsubscribe(old(View()), fd, name)
    {
      var i := FindTopic(name);
      if i < topicCount {
        LeaveTopic(i, fd);
      }
    }

    method UnsubscribeFromAll(fd: int)
      requires Valid()
      modifies subscribers, subCount
      ensures Valid() && View() == UnsubscribeAll(old(View()), fd)
    {
      ghost var before := View();
      var i := 0;
      while i < topicCount
        invariant Valid() && i <= topicCount == |before| == |View()|
        invariant forall k :: 0 <= k < i ==> View()[k] == Leave(before[k], fd)
        invariant forall k :: i <= k < topicCount ==> View()[k] == before[k]
      {
        LeaveTopic(i, fd);
        i := i + 1;
      }
      assert View() == UnsubscribeAll(before, fd);
    }

    /** The fan-out loop; `registered` are the descriptors that client_get_and_lock_by_fd finds. */
    method PublishTo(topic: string, payload: string, registered: set<int>) returns (out: seq<Delivery>)
      requires Valid()
      ensures out == Publish(View(), registered, topic, payload)
    {
      out := [];
      var message := Format(topic, payload);
      var i := FindTopic(topic);
      if i < topicCount {
        for j := 0 to subCount[i]
          invariant out == Deliver(Row(i)[..j], registered, message)
        {
          assert Row(i)[..j + 1][..j] == Row(i)[..j];
          var fd := subscribers[i, j];
          if fd in registered {
            out := out + [Delivery(fd, message)];
          }
        }
        assert Row(i)[..subCount[i]] == Row(i);
      }
    }
  }
}
