/** The chained hash table of hash.c, with its buckets and linked entries, refining a finite map. */
module HashTable {
  import opened Wrappers

  const TABLE_SIZE: nat := 100

  /** The range of `unsigned long`: arithmetic on it wraps. */
  const WORD: nat := 0x1_0000_0000_0000_0000

  /** `char` is signed: bytes from 128 up count as negative. */
  function Signed(c: char): int {
    if c as int < 128 then c as int else c as int - 256
  }

  /** The accumulator after hashing `key`, wrapped at every step as the machine does. */
  function Accumulated(key: string): nat {
    if key == "" then 0
    else (Accumulated(key[..|key| - 1]) * 37 + Signed(key[|key| - 1])) % WORD
  }

  /** The same polynomial over the unbounded integers. */
  function Polynomial(key: string): int {
    if key == "" then 0 else Polynomial(key[..|key| - 1]) * 37 + Signed(key[|key| - 1])
  }

  lemma ModMulAdd(a: int, b: int)
    ensures ((a % WORD) * 37 + b) % WORD == (a * 37 + b) % WORD
  {
    var q := a / WORD;
    assert a * 37 + b == ((a % WORD) * 37 + b) + (q * 37) * WORD;
  }

  /** Wrapping at every step is wrapping once at the end. */
  lemma {:induction false} WrappingIsModular(key: string)
    ensures Accumulated(key) == Polynomial(key) % WORD
  {
    if key != "" {
      WrappingIsModular(key[..|key| - 1]);
      ModMulAdd(Polynomial(key[..|key| - 1]), Signed(key[|key| - 1]));
    }
  }

  function Slot(key: string): (slot: nat)
    ensures slot < TABLE_SIZE
  {
    Accumulated(key) % TABLE_SIZE
  }

  method Hash(key: string) returns (slot: nat)
    ensures slot == Slot(key) && slot < TABLE_SIZE
    ensures slot == Polynomial(key) % WORD % TABLE_SIZE
  {
    var value: nat := 0;
    for i := 0 to |key|
      invariant value == Accumulated(key[..i])
    {
      value := (value * 37 + Signed(key[i])) % WORD;
      assert key[..i + 1][..i] == key[..i];
    }
    assert key[..|key|] == key;
    WrappingIsModular(key);
    slot := value % TABLE_SIZE;
  }

  class Entry<V> {
    const key: string
    var value: V
    var next: Entry?<V>

    constructor (key: string, value: V, next: Entry?<V>)
      ensures this.key == key && this.value == value && this.next == next
    {
      this.key, this.value, this.next := key, value, next;
    }
  }

  ghost function Head<V>(chain: seq<Entry<V>>): Entry?<V> {
    if chain == [] then null else chain[0]
  }

  /** What follows `e` in its chain, null at the end. */
  ghost function After<V>(chain: seq<Entry<V>>, e: Entry<V>): Entry?<V> {
    if chain == [] then null
    else if chain[0] == e then Head(chain[1..])
    else After(chain[1..], e)
  }

  /** The keys of a bucket's chain are distinct and belong there. */
  ghost predicate Placed<V>(chain: seq<Entry<V>>, slot: nat) {
    && (forall j :: 0 <= j < |chain| ==> Slot(chain[j].key) == slot)
    && (forall j, k :: 0 <= j < k < |chain| ==> chain[j].key != chain[k].key)
  }

  ghost function At<V>(chain: seq<Entry<V>>, j: nat): Entry?<V> {
    if j < |chain| then chain[j] else null
  }

  lemma {:induction false} AfterAt<V>(chain: seq<Entry<V>>, slot: nat, j: nat)
    requires Placed(chain, slot) && j < |chain|
    ensures After(chain, chain[j]) == At(chain, j + 1)
  {
    if j == 0 {
    } else {
      assert chain[1..][j - 1] == chain[j];
      AfterAt(chain[1..], slot, j - 1);
    }
  }

  function Without<T>(s: seq<T>, j: nat): seq<T>
    requires j < |s|
  {
    s[..j] + s[j + 1..]
  }

  lemma WithoutAt<T>(s: seq<T>, j: nat, k: nat)
    requires j < |s| && k < |s| && k != j
    ensures Without(s, j)[if k < j then k else k - 1] == s[k]
  {
  }

  lemma SplicePlaced<V>(chain: seq<Entry<V>>, slot: nat, j: nat)
    requires Placed(chain, slot) && j < |chain|
    ensures Placed(Without(chain, j), slot)
  {
    var c := Without(chain, j);
    assert forall i :: 0 <= i < |c| ==> c[i] == if i < j then chain[i] else chain[i + 1];
  }

  /** Splicing out entry `j` changes what follows its predecessor, and nothing else. */
  lemma SpliceAfter<V>(chain: seq<Entry<V>>, slot: nat, j: nat, e: Entry<V>)
    requires Placed(chain, slot) && j < |chain| && e in chain && e != chain[j]
    ensures After(Without(chain, j), e)
            == if 0 < j && e == chain[j - 1] then After(chain, chain[j]) else After(chain, e)
  {
    var k :| 0 <= k < |chain| && chain[k] == e;
    SplicePlaced(chain, slot, j);
    WithoutAt(chain, j, k);
    AfterAt(chain, slot, j);
    AfterAt(chain, slot, k);
    AfterAt(Without(chain, j), slot, if k < j then k else k - 1);
    assert 0 < j && e == chain[j - 1] ==> k == j - 1;
  }

  /** All that does not depend on what the entries currently hold: entries sit in their buckets, one per key. */
  ghost predicate Shape<V>(chains: seq<seq<Entry<V>>>, nodes: set<Entry<V>>, keys: set<string>) {
    && |chains| == TABLE_SIZE
    && (forall i :: 0 <= i < TABLE_SIZE ==> Placed(chains[i], i))
    && (forall i, e :: 0 <= i < TABLE_SIZE && e in chains[i] ==> e in nodes)
    && (forall e :: e in nodes ==> e in chains[Slot(e.key)] && e.key in keys)
    && (forall key :: key in keys ==> exists e :: e in nodes && e.key == key)
  }

  lemma OnePerKey<V>(chains: seq<seq<Entry<V>>>, nodes: set<Entry<V>>, keys: set<string>, d: Entry<V>, e: Entry<V>)
    requires Shape(chains, nodes, keys) && d in nodes && e in nodes && d.key == e.key
    ensures d == e
  {
    assert Placed(chains[Slot(d.key)], Slot(d.key));
  }

  /** The chains with an entry put at the head of one of them. */
  ghost function Headed<V>(chains: seq<seq<Entry<V>>>, slot: nat, e: Entry?<V>): seq<seq<Entry<V>>> {
    if slot < |chains| && e != null then chains[slot := [e] + chains[slot]] else chains
  }

  lemma PushPlaced<V>(chain: seq<Entry<V>>, slot: nat, n: Entry<V>)
    requires Placed(chain, slot) && Slot(n.key) == slot && forall e :: e in chain ==> e.key != n.key
    ensures Placed([n] + chain, slot)
    ensures After([n] + chain, n) == Head(chain)
    ensures forall e :: e in chain ==> After([n] + chain, e) == After(chain, e)
  {
    var c := [n] + chain;
    assert c[1..] == chain;
    forall j, k | 0 <= j < k < |c|
      ensures c[j].key != c[k].key
    {
      assert c[k] == chain[k - 1];
      assert 0 < j ==> c[j] == chain[j - 1];
    }
  }

  lemma PushShape<V>(chains: seq<seq<Entry<V>>>, nodes: set<Entry<V>>, keys: set<string>, n: Entry<V>)
    requires Shape(chains, nodes, keys) && n.key !in keys
    ensures var slot := Slot(n.key); var c := chains[slot := [n] + chains[slot]];
            && Shape(c, nodes + {n}, keys + {n.key})
            && Head(c[slot]) == n && After(c[slot], n) == Head(chains[slot])
            && (forall e :: e in nodes ==> After(c[Slot(e.key)], e) == After(chains[Slot(e.key)], e))
  {
    PushPlaced(chains[Slot(n.key)], Slot(n.key), n);
  }

  lemma SpliceOut<V>(chain: seq<Entry<V>>, slot: nat, j: nat)
    requires Placed(chain, slot) && j < |chain|
    ensures chain[j] !in Without(chain, j)
    ensures forall e :: e in Without(chain, j) ==> e in chain
  {
    assert forall k :: 0 <= k < |chain| && k != j ==> chain[k].key != chain[j].key;
  }

  lemma SpliceOne<V>(chains: seq<seq<Entry<V>>>, nodes: set<Entry<V>>, keys: set<string>,
                     x: Entry<V>, j: nat, e: Entry<V>)
    requires Shape(chains, nodes, keys) && x in nodes && e in nodes && e != x
    requires j < |chains[Slot(x.key)]| && chains[Slot(x.key)][j] == x
    ensures var chain := chains[Slot(x.key)];
            && e.key != x.key
            && (e in chain ==>
                  && e in Without(chain, j)
                  && After(Without(chain, j), e)
                     == if 0 < j && e == chain[j - 1] then After(chain, x) else After(chain, e))
  {
    hide After, Accumulated;
    var slot := Slot(x.key);
    var chain := chains[slot];
    if e.key == x.key {
      OnePerKey(chains, nodes, keys, e, x);
    }
    if e in chain {
      var k :| 0 <= k < |chain| && chain[k] == e;
      WithoutAt(chain, j, k);
      SpliceAfter(chain, slot, j, e);
    }
  }

  lemma SpliceShape<V>(chains: seq<seq<Entry<V>>>, nodes: set<Entry<V>>, keys: set<string>, x: Entry<V>, j: nat)
    requires Shape(chains, nodes, keys) && x in nodes
    requires j < |chains[Slot(x.key)]| && chains[Slot(x.key)][j] == x
    ensures var slot := Slot(x.key);
            Shape(chains[slot := Without(chains[slot], j)], nodes - {x}, keys - {x.key})
  {
    hide After, Accumulated, Without;
    var slot := Slot(x.key);
    SplicePlaced(chains[slot], slot, j);
    SpliceOut(chains[slot], slot, j);
    forall e | e in nodes - {x}
      ensures e.key != x.key && (e in chains[slot] ==> e in Without(chains[slot], j))
    {
      SpliceOne(chains, nodes, keys, x, j, e);
    }
  }

  lemma SpliceLinks<V>(chains: seq<seq<Entry<V>>>, nodes: set<Entry<V>>, keys: set<string>, x: Entry<V>, j: nat)
    requires Shape(chains, nodes, keys) && x in nodes
    requires j < |chains[Slot(x.key)]| && chains[Slot(x.key)][j] == x
    ensures var slot := Slot(x.key); var chain := chains[slot]; var c := chains[slot := Without(chain, j)];
            && Head(c[slot]) == (if j == 0 then After(chain, x) else Head(chain))
            && (forall e :: e in nodes - {x} ==>
                  && e.key != x.key
                  && After(c[Slot(e.key)], e)
                     == if 0 < j && e == chain[j - 1] then After(chain, x) else After(chains[Slot(e.key)], e))
  {
    hide After, Accumulated;
    var slot := Slot(x.key);
    var chain := chains[slot];
    AfterAt(chain, slot, j);
    forall e | e in nodes - {x}
      ensures e.key != x.key
      ensures e in chain ==>
                After(Without(chain, j), e) == if 0 < j && e == chain[j - 1] then After(chain, x) else After(chain, e)
    {
      SpliceOne(chains, nodes, keys, x, j, e);
    }
  }

  class Table<V> {
    const buckets: array<Entry?<V>>
    ghost var chains: seq<seq<Entry<V>>>
    ghost var nodes: set<Entry<V>>
    ghost var contents: map<string, V>

    ghost predicate Valid()
      reads this, buckets, nodes
    {
      && buckets.Length == TABLE_SIZE == |chains|
      && Shape(chains, nodes, contents.Keys)
      && (forall i :: 0 <= i < TABLE_SIZE ==> buckets[i] == Head(chains[i]))
      && (forall e :: e in nodes ==> e.next == After(chains[Slot(e.key)], e))
      && (forall e :: e in nodes ==> e.key in contents && e.value == contents[e.key])
    }

    constructor ()
      ensures Valid() && contents == map[] && fresh(buckets) && nodes == {}
    {
      var b := new Entry?<V>[TABLE_SIZE](_ => null);
      buckets := b;
      chains := seq(TABLE_SIZE, _ => []);
      nodes, contents := {}, map[];
    }

    /** The search loop of get, set and del: the entry for `key`, or null, with the entry before it. */
    method Search(slot: nat, key: string) returns (previous: Entry?<V>, entry: Entry?<V>, ghost j: nat)
      requires Valid() && slot == Slot(key)
      ensures entry == null <==> key !in contents
      ensures entry != null ==> j < |chains[slot]| && entry == chains[slot][j] && entry.key == key
      ensures entry != null ==> previous == if j == 0 then null else chains[slot][j - 1]
    {
      hide After, Accumulated;
      previous, entry, j := null, buckets[slot], 0;
      while entry != null && entry.key != key
        invariant 0 <= j <= |chains[slot]|
        invariant entry == At(chains[slot], j)
        invariant previous == if j == 0 then null else chains[slot][j - 1]
        invariant forall k :: 0 <= k < j ==> chains[slot][k].key != key
        decreases |chains[slot]| - j
      {
        AfterAt(chains[slot], slot, j);
        previous, entry, j := entry, entry.next, j + 1;
      }
    }

    /** What a walk down a bucket meets: entries of that slot, no key twice, every link to the next entry. */
    lemma Walk(slot: nat, j: nat)
      requires Valid() && slot < TABLE_SIZE
      ensures buckets[slot] == At(chains[slot], 0)
      ensures j < |chains[slot]| ==>
                var e := chains[slot][j];
                && e in nodes && Slot(e.key) == slot && e.next == At(chains[slot], j + 1)
                && forall k :: 0 <= k < j ==> chains[slot][k].key != e.key
    {
      hide After, Accumulated, Slot;
      if j < |chains[slot]| {
        AfterAt(chains[slot], slot, j);
      }
    }

    /** Every key of the table is met in its bucket. */
    lemma Met(key: string)
      requires Valid() && key in contents
      ensures Slot(key) < TABLE_SIZE && exists e :: e in chains[Slot(key)] && e.key == key
    {
      hide After, Accumulated, Head;
    }

    method Get(key: string) returns (r: Option<V>)
      requires Valid()
      ensures r == if key in contents then Some(contents[key]) else None
    {
      var slot := Hash(key);
      var previous, entry, j := Search(slot, key);
      r := if entry != null then Some(entry.value) else None;
    }

    method Set(key: string, value: V)
      requires Valid()
      modifies this, buckets, nodes
      ensures Valid() && contents == old(contents)[key := value]
      ensures chains == if key in old(contents) then old(chains) else Headed(old(chains), Slot(key), buckets[Slot(key)])
      ensures nodes >= old(nodes) && fresh(nodes - old(nodes))
    {
      hide After, Accumulated, Head, Placed;
      var slot := Hash(key);
      var previous, entry, j := Search(slot, key);
      if entry != null {
        Overwrite(entry, value);
      } else {
        Push(slot, key, value);
      }
    }

    method Overwrite(entry: Entry<V>, value: V)
      requires Valid() && entry in nodes
      modifies entry, this`contents
      ensures Valid() && contents == old(contents)[entry.key := value]
    {
      hide Shape, Accumulated, After, Head, Placed;
      forall e | e in nodes && e.key == entry.key
        ensures e == entry
      {
        OnePerKey(chains, nodes, contents.Keys, e, entry);
      }
      entry.value := value;
      contents := contents[entry.key := value];
      assert contents.Keys == old(contents).Keys;
    }

    method Push(slot: nat, key: string, value: V)
      requires Valid() && slot == Slot(key) && key !in contents
      modifies this, buckets
      ensures Valid() && contents == old(contents)[key := value]
      ensures chains == Headed(old(chains), slot, buckets[slot])
      ensures nodes >= old(nodes) && fresh(nodes - old(nodes))
    {
      hide Shape, Slot, After, Head, Placed;
      var newEntry := new Entry(key, value, buckets[slot]);
      PushShape(chains, nodes, contents.Keys, newEntry);
      buckets[slot] := newEntry;
      chains := chains[slot := [newEntry] + chains[slot]];
      nodes := nodes + {newEntry};
      contents := contents[key := value];
      assert contents.Keys == old(contents).Keys + {key};
    }

    /** The splice leaves every other key alone. */
    method Del(key: string) returns (deleted: bool)
      requires Valid()
      modifies this, buckets, nodes
      ensures Valid() && contents == old(contents) - {key}
      ensures deleted <==> key in old(contents)
      ensures nodes <= old(nodes)
    {
      hide After, Accumulated, Head, Placed;
      var slot := Hash(key);
      var previous, current, j := Search(slot, key);
      if current == null {
        return false;
      }
      Splice(slot, previous, current, j);
      return true;
    }

    method Splice(slot: nat, previous: Entry?<V>, current: Entry<V>, ghost j: nat)
      requires Valid() && slot == Slot(current.key) && j < |chains[slot]| && current == chains[slot][j]
      requires previous == if j == 0 then null else chains[slot][j - 1]
      requires current in nodes && (previous != null ==> previous in nodes)
      modifies this, buckets, nodes
      ensures Valid() && contents == old(contents) - {current.key}
      ensures nodes <= old(nodes)
    {
      hide Shape, Accumulated, After, Head, Placed;
      ghost var chain := chains[slot];
      SpliceShape(chains, nodes, contents.Keys, current, j);
      SpliceLinks(chains, nodes, contents.Keys, current, j);
      if previous == null {
        buckets[slot] := current.next;
      } else {
        previous.next := current.next;
      }
      chains := chains[slot := Without(chain, j)];
      nodes := nodes - {current};
      contents := contents - {current.key};
      assert contents.Keys == old(contents).Keys - {current.key};
    }
  }
}
