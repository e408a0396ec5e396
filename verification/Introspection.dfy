/** The cache of token introspection results: at most a fixed number of active
    results, the least recently used evicted first, none served at or past its
    token's own expiry. */
module Introspection {
  import opened Definitions

  /** The hash of a bearer token. */
  type Key = nat

  datatype Value = Value(active: bool, exp: Option<int>, data: string)

  datatype Item = Item(key: Key, value: Value, expires: int)

  datatype Op =
    | Get(key: Key, now: int)
    | Set(key: Key, now: int, value: Value, ttl: int)

  // ----------------------------------------------------- the recency list it refines

  function Expiry(value: Value, ttl: int, now: int): int {
    if value.exp.Some? && value.exp.value < now + ttl then value.exp.value else now + ttl
  }

  /** An inactive, already expired or zero-lifetime result is never stored. */
  predicate Stores(op: Op) { op.Set? && op.value.active && op.ttl > 0 && Expiry(op.value, op.ttl, op.now) > op.now }

  function Find(items: seq<Item>, key: Key): (i: int)
    ensures -1 <= i < |items| && (i >= 0 ==> items[i].key == key)
    ensures i == -1 ==> forall j :: 0 <= j < |items| ==> items[j].key != key
  {
    if items == [] then -1
    else if items[0].key == key then 0
    else var i := Find(items[1..], key); if i < 0 then -1 else i + 1
  }

  function Without(items: seq<Item>, i: int): seq<Item>
    requires i < |items|
  {
    if i < 0 then items else items[..i] + items[i + 1..]
  }

  /** Which item of the list the `k`-th remaining one is. */
  function Kept(i: int, k: int): int { if i < 0 || k < i then k else k + 1 }

  lemma WithoutAt(items: seq<Item>, i: int, k: int)
    requires -1 <= i < |items| && 0 <= k < |Without(items, i)|
    ensures Kept(i, k) < |items| && Kept(i, k) != i && Without(items, i)[k] == items[Kept(i, k)]
  {
  }

  lemma WithoutSize(items: seq<Item>, i: int)
    requires -1 <= i < |items|
    ensures |Without(items, i)| == if i < 0 then |items| else |items| - 1
  {
  }

  predicate Hits(items: seq<Item>, op: Op) {
    op.Get? && Find(items, op.key) >= 0 && op.now < items[Find(items, op.key)].expires
  }

  /** The list after an operation, most recently used first. */
  function After(max: nat, items: seq<Item>, op: Op): seq<Item> {
    var i := Find(items, op.key);
    match op
    case Get(key, now) =>
      if i < 0 then items
      else if now >= items[i].expires then Without(items, i)
      else [items[i]] + Without(items, i)
    case Set(key, now, value, ttl) =>
      if !Stores(op) then items
      else Cut(max, i, [NewItem(op)] + Without(items, i))
  }

  function NewItem(op: Op): Item
    requires op.Set?
  {
    Item(op.key, op.value, Expiry(op.value, op.ttl, op.now))
  }

  /** Only a new entry can overfill the cache. */
  function Cut(max: nat, i: int, all: seq<Item>): seq<Item> { if i < 0 && |all| > max then all[..max] else all }

  function Answer(items: seq<Item>, op: Op): Option<Value> {
    if Hits(items, op) then Some(items[Find(items, op.key)].value) else None
  }

  function Run(max: nat, ops: seq<Op>): seq<Item> {
    if ops == [] then [] else After(max, Run(max, ops[..|ops| - 1]), ops[|ops| - 1])
  }

  // ------------------------------------------------------------ over every run

  predicate Bounded(max: nat, items: seq<Item>) {
    |items| <= max && Distinct(items)
  }

  predicate Distinct(items: seq<Item>) { forall i, j :: 0 <= i < j < |items| ==> items[i].key != items[j].key }

  /** A list whose items come from different places of a list with different
      keys, behind a front item none of them shares a key with. */
  lemma FrontDistinct(items: seq<Item>, i: int, front: Item)
    requires Distinct(items) && i == Find(items, front.key)
    ensures Distinct(Without(items, i)) && Distinct([front] + Without(items, i))
  {
    var rest := Without(items, i);
    forall j, k | 0 <= j < k < |rest| ensures rest[j].key != rest[k].key {
      WithoutAt(items, i, j);
      WithoutAt(items, i, k);
    }
    forall k | 0 <= k < |rest| ensures rest[k].key != front.key { WithoutAt(items, i, k); }
  }

  lemma AfterBounded(max: nat, items: seq<Item>, op: Op)
    requires Bounded(max, items)
    ensures Bounded(max, After(max, items, op))
  {
    hide Without;
    var i := Find(items, op.key);
    WithoutSize(items, i);
    FrontDistinct(items, i, if op.Set? then NewItem(op) else if i >= 0 then items[i] else Item(op.key, Value(false, None, ""), 0));
  }

  lemma {:induction false} RunBounded(max: nat, ops: seq<Op>)
    ensures Bounded(max, Run(max, ops))
  {
    if ops != [] {
      RunBounded(max, ops[..|ops| - 1]);
      AfterBounded(max, Run(max, ops[..|ops| - 1]), ops[|ops| - 1]);
    }
  }

  /** Operation `j` stored `item`, and nothing stored its key again since. */
  predicate StoredBy(ops: seq<Op>, item: Item, j: int) {
    && 0 <= j < |ops| && Stores(ops[j]) && ops[j].key == item.key && ops[j].value == item.value
    && item.expires == Expiry(ops[j].value, ops[j].ttl, ops[j].now)
    && forall k :: j < k < |ops| && Stores(ops[k]) ==> ops[k].key != item.key
  }

  lemma StoredBefore(ops: seq<Op>, op: Op, item: Item, j: int)
    requires StoredBy(ops, item, j) && !(Stores(op) && op.key == item.key)
    ensures StoredBy(ops + [op], item, j)
  {
  }

  lemma InWithout(items: seq<Item>, i: int, x: Item)
    requires -1 <= i < |items| && x in Without(items, i)
    ensures exists k :: 0 <= k < |items| && k != i && items[k] == x
  {
    var k :| 0 <= k < |Without(items, i)| && Without(items, i)[k] == x;
    WithoutAt(items, i, k);
  }

  /** The items before the `k`-th are for keys of `keys`. */
  predicate Ahead(items: seq<Item>, k: int, keys: set<Key>) {
    0 <= k < |items| && forall p :: 0 <= p < k ==> items[p].key in keys
  }

  lemma {:induction false} AheadCount(items: seq<Item>, k: int, keys: set<Key>)
    requires Distinct(items) && Ahead(items, k, keys)
    ensures k <= |keys|
    decreases k
  {
    if k > 0 {
      AheadCount(items, k - 1, keys - {items[k - 1].key});
    }
  }

  lemma AheadRest(items: seq<Item>, i: int, k: int, keys: set<Key>) returns (r: int)
    requires -1 <= i < |items| && i != k && Ahead(items, k, keys)
    ensures Ahead(Without(items, i), r, keys) && Without(items, i)[r] == items[k]
    ensures i < 0 ==> r == k
  {
    r := if 0 <= i < k then k - 1 else k;
    var rest := Without(items, i);
    forall p | 0 <= p < r ensures rest[p].key in keys { WithoutAt(items, i, p); }
  }

  lemma AheadFront(front: Item, rest: seq<Item>, r: int, keys: set<Key>)
    requires Ahead(rest, r, keys)
    ensures Ahead([front] + rest, r + 1, keys + {front.key}) && ([front] + rest)[r + 1] == rest[r]
  {
  }

  /** An item moves back only behind the key just used. */
  lemma AheadStep(max: nat, items: seq<Item>, op: Op, k: int, keys: set<Key>) returns (k2: int)
    requires Bounded(max, items) && Ahead(items, k, keys) && op.key != items[k].key && |keys + {op.key}| < max
    ensures Ahead(After(max, items, op), k2, keys + {op.key}) && After(max, items, op)[k2] == items[k]
  {
    hide Without;
    var i := Find(items, op.key);
    var r := AheadRest(items, i, k, keys);
    var rest := Without(items, i);
    if Hits(items, op) || Stores(op) {
      var front := if op.Set? then NewItem(op) else items[i];
      FrontDistinct(items, i, front);
      AheadFront(front, rest, r, keys);
      AheadCount([front] + rest, r + 1, keys + {op.key});
      k2 := r + 1;
    } else {
      k2 := if op.Get? && i >= 0 then r else k;
    }
  }

  function KeysOf(ops: seq<Op>): set<Key> { set op | op in ops :: op.key }

  /** However the cache is used since: a result just stored or answered stays cached
      while fewer keys than it holds were used, none of them its own. */
  lemma {:induction false} StaysWhileFew(max: nat, ops: seq<Op>, more: seq<Op>) returns (k: int)
    requires Run(max, ops) != [] && |KeysOf(more)| < max && Run(max, ops)[0].key !in KeysOf(more)
    ensures Ahead(Run(max, ops + more), k, KeysOf(more)) && Run(max, ops + more)[k] == Run(max, ops)[0]
    decreases |more|
  {
    if more == [] {
      assert ops + more == ops;
      k := 0;
    } else {
      var n := |more| - 1;
      var before, op := more[..n], more[n];
      assert more == before + [op] && (ops + more)[..|ops + more| - 1] == ops + before;
      assert KeysOf(more) == KeysOf(before) + {op.key} by { KeysMore(before, op); }
      assert op in more;
      SubsetSize(KeysOf(before), KeysOf(more));
      k := StaysWhileFew(max, ops, before);
      RunBounded(max, ops + before);
      k := AheadStep(max, Run(max, ops + before), op, k, KeysOf(before));
    }
  }

  lemma KeysMore(ops: seq<Op>, op: Op)
    ensures KeysOf(ops + [op]) == KeysOf(ops) + {op.key}
  {
    var more := ops + [op];
    forall key ensures key in KeysOf(more) <==> key in KeysOf(ops) + {op.key} {
      if key in KeysOf(ops) {
        var x :| x in ops && x.key == key;
        assert x in more;
      }
      assert op in more;
    }
  }

  lemma SubsetSize(a: set<Key>, b: set<Key>)
    requires a <= b
    ensures |a| <= |b|
  {
    var rest := b - a;
    assert b == a + rest;
  }

  /** So whoever was answered is answered the same again while the answer is good
      and fewer keys than the cache holds were used in between. */
  lemma AnsweredAgain(max: nat, ops: seq<Op>, get: Op, more: seq<Op>, again: Op)
    requires get.Get? && Answer(Run(max, ops), get).Some? && again.Get? && again.key == get.key
    requires |KeysOf(more)| < max && get.key !in KeysOf(more)
    requires var items := Run(max, ops); again.now < items[Find(items, get.key)].expires
    ensures Answer(Run(max, ops + [get] + more), again) == Answer(Run(max, ops), get)
  {
    assert (ops + [get])[..|ops|] == ops;
    var item := Run(max, ops)[Find(Run(max, ops), get.key)];
    assert Run(max, ops + [get])[0] == item;
    var k := StaysWhileFew(max, ops + [get], more);
    RunBounded(max, ops + [get] + more);
    FoundOnce(Run(max, ops + [get] + more), item);
  }

  /** An active result is answered from the moment it is set until its lifetime or
      its token's own expiry is over, while fewer keys than the cache holds are
      used. */
  lemma SetIsAnswered(max: nat, ops: seq<Op>, put: Op, more: seq<Op>, get: Op)
    requires put.Set? && put.value.active && get.Get? && get.key == put.key && max > 0
    requires put.now <= get.now < put.now + put.ttl && (put.value.exp.Some? ==> get.now < put.value.exp.value)
    requires |KeysOf(more)| < max && put.key !in KeysOf(more)
    ensures Answer(Run(max, ops + [put] + more), get) == Some(put.value)
  {
    assert (ops + [put])[..|ops|] == ops;
    assert Run(max, ops + [put])[0] == NewItem(put);
    var k := StaysWhileFew(max, ops + [put], more);
    RunBounded(max, ops + [put] + more);
    FoundOnce(Run(max, ops + [put] + more), NewItem(put));
  }

  /** A result that is not active, or over at once, is never answered. */
  lemma DeadIsNotStored(max: nat, ops: seq<Op>, put: Op)
    requires put.Set? && (!put.value.active || put.ttl <= 0 || (put.value.exp.Some? && put.value.exp.value <= put.now))
    ensures Run(max, ops + [put]) == Run(max, ops)
  {
    assert (ops + [put])[..|ops|] == ops;
  }

  lemma FoundOnce(items: seq<Item>, item: Item)
    requires Distinct(items) && item in items
    ensures Find(items, item.key) >= 0 && items[Find(items, item.key)] == item
  {
  }

  /** Where an item of the list after an operation comes from. */
  lemma AfterFrom(max: nat, items: seq<Item>, op: Op, item: Item)
    requires Distinct(items) && item in After(max, items, op) && !(Stores(op) && item == NewItem(op))
    ensures item in items && !(Stores(op) && op.key == item.key)
  {
    hide Without;
    var i := Find(items, op.key);
    if item in Without(items, i) {
      InWithout(items, i, item);
      var k :| 0 <= k < |items| && k != i && items[k] == item;
    }
  }

  /** Every cached item is what the last storing call for its key stored. */
  lemma {:induction false} ItemsAreLatest(max: nat, ops: seq<Op>, item: Item) returns (j: int)
    requires item in Run(max, ops)
    ensures StoredBy(ops, item, j)
  {
    var n := |ops| - 1;
    var before, op := ops[..n], ops[n];
    assert ops == before + [op];
    RunBounded(max, before);
    if Stores(op) && item == NewItem(op) {
      j := n;
    } else {
      AfterFrom(max, Run(max, before), op, item);
      j := ItemsAreLatest(max, before, item);
      StoredBefore(before, op, item, j);
    }
  }

  /** A hit returns the result the last storing call stored, less than its TTL
      ago and before the token's own expiry. */
  lemma HitIsLatest(max: nat, ops: seq<Op>, get: Op) returns (j: int)
    requires get.Get? && Answer(Run(max, ops), get).Some?
    ensures 0 <= j < |ops| && Stores(ops[j]) && ops[j].key == get.key
    ensures Answer(Run(max, ops), get) == Some(ops[j].value)
    ensures forall k :: j < k < |ops| && Stores(ops[k]) ==> ops[k].key != get.key
    ensures ops[j].value.active && get.now - ops[j].now < ops[j].ttl
    ensures ops[j].value.exp.Some? ==> get.now < ops[j].value.exp.value
  {
    var items := Run(max, ops);
    j := ItemsAreLatest(max, ops, items[Find(items, get.key)]);
  }

  /** The last operation that used `key`: a store or a hit. */
  function LastUse(max: nat, ops: seq<Op>, key: Key): int {
    if ops == [] then -1
    else
      var n := |ops| - 1;
      if ops[n].key == key &&
        (Stores(ops[n]) || Hits(Run(max, ops[..n]), ops[n])) then n else LastUse(max, ops[..n], key)
  }

  predicate ByRecency(max: nat, ops: seq<Op>, items: seq<Item>) {
    forall i, j :: 0 <= i < j < |items| ==> LastUse(max, ops, items[i].key) > LastUse(max, ops, items[j].key)
  }

  lemma {:induction false} LastUseBelow(max: nat, ops: seq<Op>, key: Key)
    ensures LastUse(max, ops, key) < |ops|
  {
    if ops != [] { LastUseBelow(max, ops[..|ops| - 1], key); }
  }

  /** Using nothing, or only the entry of `key`, leaves the others' last use. */
  lemma OthersUnused(max: nat, ops: seq<Op>, op: Op, key: Key)
    requires op.key != key || !(Stores(op) || Hits(Run(max, ops), op))
    ensures LastUse(max, ops + [op], key) == LastUse(max, ops, key)
  {
    assert (ops + [op])[..|ops|] == ops;
  }

  lemma JustUsed(max: nat, ops: seq<Op>, op: Op)
    requires Stores(op) || Hits(Run(max, ops), op)
    ensures LastUse(max, ops + [op], op.key) == |ops|
  {
    assert (ops + [op])[..|ops|] == ops;
  }

  lemma RestByRecency(max: nat, ops: seq<Op>, op: Op, items: seq<Item>)
    requires ByRecency(max, ops, items) && Distinct(items)
    ensures ByRecency(max, ops + [op], Without(items, Find(items, op.key)))
    ensures forall k :: 0 <= k < |Without(items, Find(items, op.key))| ==>
      LastUse(max, ops + [op], Without(items, Find(items, op.key))[k].key) < |ops|
  {
    var i := Find(items, op.key);
    var rest := Without(items, i);
    forall k | 0 <= k < |rest|
      ensures LastUse(max, ops + [op], rest[k].key) == LastUse(max, ops, items[Kept(i, k)].key) < |ops|
    {
      WithoutAt(items, i, k);
      OthersUnused(max, ops, op, rest[k].key);
      LastUseBelow(max, ops, rest[k].key);
    }
  }

  lemma UnusedByRecency(max: nat, ops: seq<Op>, op: Op, items: seq<Item>)
    requires ByRecency(max, ops, items) && !(Stores(op) || Hits(Run(max, ops), op))
    ensures ByRecency(max, ops + [op], items)
  {
    forall k | 0 <= k < |items| ensures LastUse(max, ops + [op], items[k].key) == LastUse(max, ops, items[k].key) {
      OthersUnused(max, ops, op, items[k].key);
    }
  }

  lemma FrontByRecency(max: nat, ops: seq<Op>, front: Item, rest: seq<Item>)
    requires ByRecency(max, ops, rest)
    requires forall k :: 0 <= k < |rest| ==> LastUse(max, ops, rest[k].key) < LastUse(max, ops, front.key)
    ensures ByRecency(max, ops, [front] + rest)
  {
  }

  lemma RecencyKept(max: nat, ops: seq<Op>, op: Op)
    requires ByRecency(max, ops, Run(max, ops)) && Distinct(Run(max, ops))
    ensures ByRecency(max, ops + [op], After(max, Run(max, ops), op))
  {
    hide LastUse;
    hide Without;
    var items := Run(max, ops);
    var i := Find(items, op.key);
    RestByRecency(max, ops, op, items);
    if Stores(op) {
      JustUsed(max, ops, op);
      FrontByRecency(max, ops + [op], NewItem(op), Without(items, i));
    } else if Hits(items, op) {
      JustUsed(max, ops, op);
      FrontByRecency(max, ops + [op], items[i], Without(items, i));
    } else {
      UnusedByRecency(max, ops, op, items);
    }
  }

  /** The list is always in order of last use, so what an overfull cache drops is
      the least recently used entry. */
  lemma {:induction false} RunByRecency(max: nat, ops: seq<Op>)
    ensures ByRecency(max, ops, Run(max, ops))
  {
    if ops != [] {
      RunByRecency(max, ops[..|ops| - 1]);
      RunBounded(max, ops[..|ops| - 1]);
      RecencyKept(max, ops[..|ops| - 1], ops[|ops| - 1]);
      assert ops == ops[..|ops| - 1] + [ops[|ops| - 1]];
    }
  }

  /** A full cache drops the entry used longest ago, and only for a new key. */
  lemma EvictsLeastRecent(max: nat, ops: seq<Op>, op: Op)
    requires Stores(op) && max > 0
    ensures var items := Run(max, ops);
      if Find(items, op.key) >= 0 || |items| < max then
        |After(max, items, op)| == |items| + (if Find(items, op.key) >= 0 then 0 else 1)
      else
        && |items| == max && After(max, items, op) == [NewItem(op)] + items[..max - 1]
        && forall k :: 0 <= k < max - 1 ==> LastUse(max, ops, items[max - 1].key) < LastUse(max, ops, items[k].key)
  {
    RunBounded(max, ops);
    RunByRecency(max, ops);
    var items := Run(max, ops);
    hide Run;
    hide LastUse;
    hide Find;
    WithoutSize(items, Find(items, op.key));
  }

  // ------------------------------------------------- the map and the linked list

  class CacheEntry {
    const key: Key
    var value: Value
    var expires: int

    constructor (key: Key, value: Value, expires: int)
      ensures this.key == key && this.value == value && this.expires == expires
    {
      this.key, this.value, this.expires := key, value, expires;
    }

    function AsItem(): Item reads this { Item(key, value, expires) }
  }

  lemma FindIs(items: seq<Item>, key: Key, i: int)
    requires Distinct(items) && 0 <= i < |items| && items[i].key == key
    ensures Find(items, key) == i
  {
  }

  /** `s` without its `i`-th element. */
  function Drop<T>(s: seq<T>, i: nat): seq<T>
    requires i < |s|
  {
    s[..i] + s[i + 1..]
  }

  lemma DropAt<T>(s: seq<T>, i: nat, k: nat)
    requires i < |s| && k < |s| && k != i
    ensures |Drop(s, i)| == |s| - 1 && Drop(s, i)[if k < i then k else k - 1] == s[k]
  {
  }

  lemma DropFrom<T>(s: seq<T>, i: nat, k: nat)
    requires i < |s| && k < |Drop(s, i)|
    ensures |Drop(s, i)| == |s| - 1 && Drop(s, i)[k] == s[Kept(i, k)] && Kept(i, k) != i && Kept(i, k) < |s|
  {
  }

  /** The map and the list hold the same entries, each once. */
  ghost predicate Linked(lru: seq<CacheEntry>, entries: map<Key, CacheEntry>) {
    && (forall i, j :: 0 <= i < j < |lru| ==> lru[i].key != lru[j].key)
    && (forall k :: k in entries ==> entries[k] in lru && entries[k].key == k)
    && (forall i :: 0 <= i < |lru| ==> lru[i].key in entries && entries[lru[i].key] == lru[i])
  }

  lemma LinkedDrop(lru: seq<CacheEntry>, entries: map<Key, CacheEntry>, i: nat)
    requires Linked(lru, entries) && i < |lru|
    ensures Linked(Drop(lru, i), entries - {lru[i].key})
  {
    hide Drop;
    var rest, left := Drop(lru, i), entries - {lru[i].key};
    forall j | 0 <= j < |rest|
      ensures Kept(i, j) < |lru| && rest[j] == lru[Kept(i, j)] && Kept(i, j) != i
    {
      DropFrom(lru, i, j);
    }
    forall k | k in left ensures left[k] in rest {
      var j :| 0 <= j < |lru| && lru[j] == entries[k];
      DropAt(lru, i, j);
    }
  }

  lemma LinkedPush(lru: seq<CacheEntry>, entries: map<Key, CacheEntry>, e: CacheEntry)
    requires Linked(lru, entries) && e.key !in entries
    ensures Linked([e] + lru, entries[e.key := e])
  {
    var more, known := [e] + lru, entries[e.key := e];
    forall k | k in known ensures known[k] in more {
      if k != e.key {
        var j :| 0 <= j < |lru| && lru[j] == entries[k];
        assert more[j + 1] == lru[j];
      }
    }
  }

  lemma LinkedMove(lru: seq<CacheEntry>, entries: map<Key, CacheEntry>, i: nat)
    requires Linked(lru, entries) && i < |lru|
    ensures Linked([lru[i]] + Drop(lru, i), entries)
  {
    LinkedDrop(lru, entries, i);
    hide Linked;
    hide Drop;
    KeyKnown(lru, entries, i);
    LinkedPush(Drop(lru, i), entries - {lru[i].key}, lru[i]);
    assert (entries - {lru[i].key})[lru[i].key := lru[i]] == entries;
  }

  lemma KeyKnown(lru: seq<CacheEntry>, entries: map<Key, CacheEntry>, i: nat)
    requires Linked(lru, entries) && i < |lru|
    ensures lru[i].key in entries && entries[lru[i].key] == lru[i]
  {
  }

  lemma UpdatedAt(items: seq<Item>, i: nat, item: Item)
    requires i < |items|
    ensures Without(items[i := item], i) == Without(items, i)
  {
  }

  /** Entries reachable both by key and by recency; the front of `lru` is the
      most recently used. */
  class IntrospectionCache {
    const maxEntries: nat
    var entries: map<Key, CacheEntry>
    var lru: seq<CacheEntry>

    ghost predicate Valid() reads this { |lru| <= maxEntries && Linked(lru, entries) }

    ghost function Contents(): (items: seq<Item>)
      reads this, lru
      ensures |items| == |lru| && forall i :: 0 <= i < |lru| ==> items[i] == lru[i].AsItem()
    {
      seq(|lru|, i requires 0 <= i < |lru| reads this, lru => lru[i].AsItem())
    }

    constructor (maxEntries: nat)
      ensures Valid() && Contents() == [] && this.maxEntries == maxEntries
    {
      this.maxEntries, entries, lru := maxEntries, map[], [];
    }

    /** Where an entry of the list stands. */
    method IndexOf(e: CacheEntry) returns (i: nat)
      requires Linked(lru, entries) && e in lru
      ensures i < |lru| && lru[i] == e && Find(Contents(), e.key) == i
    {
      i := 0;
      while lru[i] != e
        invariant 0 <= i < |lru| && e in lru[i..]
        decreases |lru| - i
      {
        i := i + 1;
      }
      FindIs(Contents(), e.key, i);
    }

    /** Takes an entry out of the list and the map. */
    method Remove(e: CacheEntry)
      requires Linked(lru, entries) && e in lru
      modifies this`lru, this`entries
      ensures Linked(lru, entries) && |lru| == |old(lru)| - 1
      ensures Contents() == Without(old(Contents()), Find(old(Contents()), e.key))
      ensures 0 <= Find(old(Contents()), e.key) < |old(lru)| && lru == Drop(old(lru), Find(old(Contents()), e.key))
    {
      hide Linked;
      var i := IndexOf(e);
      LinkedDrop(lru, entries, i);
      ghost var items := Contents();
      lru := lru[..i] + lru[i + 1..];
      entries := entries - {e.key};
      assert lru == Drop(old(lru), i);
      assert Contents() == Without(items, i);
    }

    method MoveToFront(e: CacheEntry)
      requires Linked(lru, entries) && e in lru
      modifies this`lru
      ensures Linked(lru, entries) && |lru| == |old(lru)|
      ensures Contents() == [e.AsItem()] + Without(old(Contents()), Find(old(Contents()), e.key))
    {
      hide Linked;
      var i := IndexOf(e);
      LinkedMove(lru, entries, i);
      ghost var items := Contents();
      var rest := lru[..i] + lru[i + 1..];
      ghost var kept := Without(items, i);
      assert |kept| == |rest| && forall k :: 0 <= k < |rest| ==> kept[k] == rest[k].AsItem();
      hide Without;
      lru := [e] + rest;
      assert lru == [e] + Drop(old(lru), i);
      assert forall k :: 0 <= k < |lru| ==> Contents()[k] == ([e.AsItem()] + kept)[k];
    }

    lemma Absent(key: Key)
      requires Linked(lru, entries) && key !in entries
      ensures Find(Contents(), key) == -1
    {
      var i := Find(Contents(), key);
      if i >= 0 { KeyKnown(lru, entries, i); }
    }

    lemma Present(key: Key)
      requires Linked(lru, entries) && key in entries
      ensures entries[key] in lru && entries[key].key == key
    {
    }

    /** A hit makes its entry the most recent; an expired entry is dropped. */
    method Get(key: Key, now: int) returns (v: Option<Value>)
      requires Valid()
      modifies this
      ensures Valid() && Contents() == After(maxEntries, old(Contents()), Op.Get(key, now))
      ensures v == Answer(old(Contents()), Op.Get(key, now))
    {
      hide Linked;
      hide Without;
      if key !in entries {
        Absent(key);
        return None;
      }
      Present(key);
      var e := entries[key];
      ghost var i := Find(Contents(), key);
      assert Contents()[i] == e.AsItem() by { ghost var j := FoundAt(e); }
      if now >= e.expires {
        Remove(e);
        return None;
      }
      MoveToFront(e);
      return Some(e.value);
    }

    lemma FoundHere(i: nat)
      requires Linked(lru, entries) && i < |lru|
      ensures Find(Contents(), lru[i].key) == i
      ensures forall k :: 0 <= k < |lru| && k != i ==> lru[k] != lru[i]
    {
      FindIs(Contents(), lru[i].key, i);
    }

    lemma FoundAt(e: CacheEntry) returns (j: nat)
      requires Linked(lru, entries) && e in lru
      ensures j == Find(Contents(), e.key) && j < |lru| && lru[j] == e
    {
      j :| 0 <= j < |lru| && lru[j] == e;
      FoundHere(j);
    }

    /** Writes a new result into an entry it already has. */
    method Refresh(e: CacheEntry, op: Op)
      requires Linked(lru, entries) && e in lru && op.Set? && e.key == op.key
      modifies this`lru, e
      ensures Linked(lru, entries) && |lru| == |old(lru)|
      ensures Contents() == [NewItem(op)] + Without(old(Contents()), Find(old(Contents()), op.key))
    {
      hide Linked;
      hide Without;
      ghost var items := Contents();
      ghost var i := FoundAt(e);
      FoundHere(i);
      e.value := op.value;
      e.expires := Expiry(op.value, op.ttl, op.now);
      assert Contents() == items[i := NewItem(op)];
      UpdatedAt(items, i, NewItem(op));
      FoundHere(i);
      MoveToFront(e);
    }

    /** Takes the least recently used entry out. */
    method DropLast()
      requires Linked(lru, entries) && lru != []
      modifies this`lru, this`entries
      ensures Linked(lru, entries) && lru == old(lru)[..|old(lru)| - 1]
      ensures Contents() == old(Contents())[..|old(lru)| - 1]
    {
      hide Linked;
      FoundHere(|lru| - 1);
      Remove(lru[|lru| - 1]);
    }

    /** Adds an entry, and takes out the least recently used ones while the cache
        is overfull. */
    method Insert(op: Op)
      requires Valid() && op.Set? && op.key !in entries
      modifies this`lru, this`entries
      ensures Valid() && Contents() == Cut(maxEntries, -1, [NewItem(op)] + old(Contents()))
    {
      hide Linked;
      ghost var items := Contents();
      var e := new CacheEntry(op.key, op.value, Expiry(op.value, op.ttl, op.now));
      LinkedPush(lru, entries, e);
      lru := [e] + lru;
      entries := entries[op.key := e];
      ghost var all := [NewItem(op)] + items;
      assert Contents() == all && all[..|lru|] == all;
      while |lru| > maxEntries
        invariant Linked(lru, entries) && |lru| <= |all| && Contents() == all[..|lru|]
        invariant |lru| >= maxEntries || |lru| == |all|
        decreases |lru|
      {
        DropLast();
      }
    }

    /** Stores an active result, for at most its TTL and never past its own
        expiry; a new entry may push out the least recently used one. */
    method Set(key: Key, now: int, value: Value, ttl: int)
      requires Valid()
      modifies this, lru
      ensures Valid() && Contents() == After(maxEntries, old(Contents()), Op.Set(key, now, value, ttl))
    {
      hide Linked;
      if !value.active || ttl <= 0 { return; }
      var op := Op.Set(key, now, value, ttl);
      if Expiry(value, ttl, now) <= now { return; }
      if key in entries {
        Present(key);
        var e := entries[key];
        ghost var i := FoundAt(e);
        Refresh(e, op);
      } else {
        Absent(key);
        Insert(op);
      }
    }
  }
}
