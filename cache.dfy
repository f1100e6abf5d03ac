/**
 * The bounded LRU cache of orders (`internal/cache`): a map from order UID
 * to a node of a doubly linked recency list, most recently used at the
 * front. The list is modelled by the sequence of the keys its nodes carry,
 * front first; the map by the orders those nodes hold for the keys the map
 * still knows.
 *
 * The sequence of keys, rather than a set, lets the model follow the code
 * also where it leaves the structure inconsistent: `LoadBatch` with a
 * repeated UID keeps both list nodes, and the map then refers to the one
 * nearer the front (the later push). The first occurrence of a key in
 * `recency` is always the node the map refers to, so `Get` and `Set` move
 * exactly that node.
 */
module Cache {
  import opened Wrappers
  import opened Orders

  /** The value of a cache: what its map holds and its list order, front first. */
  datatype Snapshot = Snapshot(entries: map<string, Order>, recency: seq<string>)

  /** The state `NewLRUCache` and a reset in `LoadBatch` start from. */
  function Empty(): Snapshot {
    Snapshot(map[], [])
  }

  predicate Distinct(s: seq<string>) {
    forall i, j :: 0 <= i < j < |s| ==> s[i] != s[j]
  }

  /** Every key the map knows has a node in the list: what every operation keeps. */
  predicate MapInList(s: Snapshot) {
    forall k :: k in s.entries ==> k in s.recency
  }

  /**
   * The intended shape of the cache: one node per key, the map and the list
   * hold the same keys, and there are no more nodes than the capacity.
   */
  predicate WellFormed(s: Snapshot, capacity: int) {
    && Distinct(s.recency)
    && MapInList(s)
    && (forall k :: k in s.recency ==> k in s.entries)
    && (|s.recency| <= capacity || s.recency == [])
  }

  /** The position of the first node carrying `key`. */
  function FirstIndex(s: seq<string>, key: string): (i: nat)
    requires key in s
    ensures i < |s| && s[i] == key && key !in s[..i]
  {
    if s[0] == key then 0 else 1 + FirstIndex(s[1..], key)
  }

  /** `list.MoveToFront` of the first node carrying `key`. */
  function Promote(s: seq<string>, key: string): seq<string>
    requires key in s
  {
    var i := FirstIndex(s, key);
    [key] + s[..i] + s[i + 1..]
  }

  /** The keys of `s` other than `key`, in their order: the reference for `Promote`. */
  function Without(s: seq<string>, key: string): seq<string> {
    if s == [] then [] else (if s[0] == key then [] else [s[0]]) + Without(s[1..], key)
  }

  /** What `Get` returns. */
  function Lookup(s: Snapshot, key: string): Option<Order> {
    if key in s.entries then Some(s.entries[key]) else None
  }

  /** The state after `Get(key)`: a hit moves the key's node to the front. */
  function AfterGet(s: Snapshot, key: string): Snapshot
    requires MapInList(s)
  {
    if key in s.entries then s.(recency := Promote(s.recency, key)) else s
  }

  /**
   * `Set` cannot fail on the cache's own structure except when it has to
   * evict from an empty list (`Back()` is nil), which needs a capacity of
   * zero or less.
   */
  predicate SetDefined(s: Snapshot, capacity: int, key: string) {
    key in s.entries || s.recency != [] || 0 < capacity
  }

  /** The state after `Set(o)`. */
  function AfterSet(s: Snapshot, capacity: int, o: Order): Snapshot
    requires MapInList(s) && SetDefined(s, capacity, o.orderUID)
  {
    var key := o.orderUID;
    if key in s.entries then
      Snapshot(s.entries[key := o], Promote(s.recency, key))
    else if capacity <= |s.recency| then
      var last := s.recency[|s.recency| - 1];
      Snapshot((s.entries - {last})[key := o], [key] + s.recency[..|s.recency| - 1])
    else
      Snapshot(s.entries[key := o], [key] + s.recency)
  }

  /** How many orders `LoadBatch` takes before its length check stops it. */
  function LoadCount(n: nat, capacity: int): nat {
    if capacity <= 0 then 0 else if n <= capacity then n else capacity
  }

  /** The state after pushing the first `n` orders, each to the front, onto an empty cache. */
  function Pushed(orders: seq<Order>, n: nat): Snapshot
    requires n <= |orders|
  {
    if n == 0 then Empty()
    else
      var s := Pushed(orders, n - 1);
      var o := orders[n - 1];
      Snapshot(s.entries[o.orderUID := o], [o.orderUID] + s.recency)
  }

  /** The state after `LoadBatch(orders)`, whatever the state before. */
  function Loaded(orders: seq<Order>, capacity: int): Snapshot {
    Pushed(orders, LoadCount(|orders|, capacity))
  }

  // ---------------------------------------------------------------------
  // Sequence facts

  lemma {:induction false} WithoutAbsent(s: seq<string>, key: string)
    requires key !in s
    ensures Without(s, key) == s
  {
    if s != [] {
      WithoutAbsent(s[1..], key);
    }
  }

  lemma {:induction false} WithoutMembers(s: seq<string>, key: string)
    ensures forall x :: x in Without(s, key) <==> x in s && x != key
  {
    if s != [] {
      WithoutMembers(s[1..], key);
      assert s == [s[0]] + s[1..];
    }
  }

  lemma {:induction false} WithoutConcat(a: seq<string>, b: seq<string>, key: string)
    ensures Without(a + b, key) == Without(a, key) + Without(b, key)
  {
    if a == [] {
      assert a + b == b;
    } else {
      assert (a + b)[0] == a[0];
      assert (a + b)[1..] == a[1..] + b;
      WithoutConcat(a[1..], b, key);
    }
  }

  lemma {:induction false} WithoutDistinct(s: seq<string>, key: string)
    requires Distinct(s)
    ensures Distinct(Without(s, key))
  {
    if s != [] {
      assert Distinct(s[1..]) by {
        forall i, j | 0 <= i < j < |s[1..]| ensures s[1..][i] != s[1..][j] {
          assert s[1..][i] == s[i + 1] && s[1..][j] == s[j + 1];
        }
      }
      WithoutDistinct(s[1..], key);
      WithoutMembers(s[1..], key);
      var rest := Without(s[1..], key);
      if s[0] != key {
        assert s[0] !in s[1..];
        assert s[0] !in rest;
        var r := [s[0]] + rest;
        forall i, j | 0 <= i < j < |r| ensures r[i] != r[j] {
          if i > 0 {
            assert r[i] == rest[i - 1] && r[j] == rest[j - 1];
          } else {
            assert r[j] in rest;
          }
        }
      }
    }
  }

  /** A key occurs only once in a list with one node per key. */
  lemma OnlyOnce(s: seq<string>, i: nat)
    requires Distinct(s) && i < |s|
    ensures s[i] !in s[i + 1..]
  {
    forall j | i + 1 <= j < |s| ensures s[j] != s[i] {
    }
  }

  /** Removing the single `key` between two lists without it leaves the two lists. */
  lemma WithoutGap(front: seq<string>, back: seq<string>, key: string)
    requires key !in front && key !in back
    ensures Without(front + ([key] + back), key) == front + back
  {
    var tail := [key] + back;
    WithoutAbsent(front, key);
    WithoutAbsent(back, key);
    assert Without(tail, key) == back by {
      assert tail[0] == key && tail[1..] == back;
    }
    WithoutConcat(front, tail, key);
  }

  /** Moving the only node carrying `key` to the front keeps the others in order. */
  lemma PromoteSingle(s: seq<string>, key: string)
    requires key in s && key !in s[FirstIndex(s, key) + 1..]
    ensures Promote(s, key) == [key] + Without(s, key)
  {
    var i := FirstIndex(s, key);
    var front, back := s[..i], s[i + 1..];
    calc {
      Promote(s, key);
      [key] + front + back;
      [key] + (front + back);
      { WithoutGap(front, back, key); }
      [key] + Without(front + ([key] + back), key);
      { SplitAt(s, i); }
      [key] + Without(s, key);
    }
  }

  /** A list is its part before `i`, its node `i` and its part after. */
  lemma SplitAt(s: seq<string>, i: nat)
    requires i < |s|
    ensures s == s[..i] + ([s[i]] + s[i + 1..])
  {
  }

  /** On a list with one node per key, moving a node to the front keeps the others in order. */
  lemma PromoteIsWithout(s: seq<string>, key: string)
    requires Distinct(s) && key in s
    ensures Promote(s, key) == [key] + Without(s, key)
  {
    OnlyOnce(s, FirstIndex(s, key));
    PromoteSingle(s, key);
  }

  /** Moving a node to the front keeps the list's length and the keys it holds. */
  lemma PromoteMembers(s: seq<string>, key: string)
    requires key in s
    ensures |Promote(s, key)| == |s| && Promote(s, key)[0] == key
    ensures forall x :: x in Promote(s, key) <==> x in s
  {
    var i := FirstIndex(s, key);
    assert s == s[..i] + [s[i]] + s[i + 1..];
  }

  lemma PromoteDistinct(s: seq<string>, key: string)
    requires Distinct(s) && key in s
    ensures Distinct(Promote(s, key))
  {
    PromoteIsWithout(s, key);
    WithoutDistinct(s, key);
    WithoutMembers(s, key);
    var r := [key] + Without(s, key);
    forall i, j | 0 <= i < j < |r| ensures r[i] != r[j] {
      if i > 0 {
        assert r[i] == Without(s, key)[i - 1] && r[j] == Without(s, key)[j - 1];
      } else {
        assert r[j] in Without(s, key);
      }
    }
  }

  /** Dropping the back node of a list with one node per key removes exactly its key. */
  lemma DropLast(s: seq<string>)
    requires Distinct(s) && s != []
    ensures Distinct(s[..|s| - 1])
    ensures forall x :: x in s[..|s| - 1] <==> x in s && x != s[|s| - 1]
  {
    var n := |s|;
    var front := s[..n - 1];
    assert s == front + [s[n - 1]];
    forall j | 0 <= j < |front| ensures front[j] != s[n - 1] {
      assert front[j] == s[j];
    }
  }

  // ---------------------------------------------------------------------
  // Get

  /**
   * A hit returns the stored order and moves its key to the front; nothing
   * else changes, and on a well-formed cache the other keys keep their order.
   */
  lemma GetHit(s: Snapshot, capacity: int, key: string)
    requires MapInList(s) && key in s.entries
    ensures Lookup(s, key) == Some(s.entries[key])
    ensures AfterGet(s, key).entries == s.entries
    ensures AfterGet(s, key).recency[0] == key
    ensures |AfterGet(s, key).recency| == |s.recency|
    ensures WellFormed(s, capacity) ==>
      AfterGet(s, key).recency == [key] + Without(s.recency, key)
  {
    PromoteMembers(s.recency, key);
    if WellFormed(s, capacity) {
      PromoteIsWithout(s.recency, key);
    }
  }

  /** A miss returns nothing and changes nothing. */
  lemma GetMiss(s: Snapshot, key: string)
    requires MapInList(s) && key !in s.entries
    ensures Lookup(s, key) == None && AfterGet(s, key) == s
  {
  }

  lemma GetKeepsShape(s: Snapshot, capacity: int, key: string)
    requires MapInList(s)
    ensures MapInList(AfterGet(s, key))
    ensures WellFormed(s, capacity) ==> WellFormed(AfterGet(s, key), capacity)
  {
    if key in s.entries {
      PromoteMembers(s.recency, key);
      if WellFormed(s, capacity) {
        PromoteDistinct(s.recency, key);
      }
    }
  }

  // ---------------------------------------------------------------------
  // Set

  /** A key put in front of a list that lacks it adds no second node. */
  lemma ConsDistinct(key: string, r: seq<string>)
    requires Distinct(r) && key !in r
    ensures Distinct([key] + r)
  {
    var t := [key] + r;
    forall i, j | 0 <= i < j < |t| ensures t[i] != t[j] {
      if i > 0 {
        assert t[i] == r[i - 1] && t[j] == r[j - 1];
      } else {
        assert t[j] == r[j - 1];
      }
    }
  }

  /** Evicting the back node for a new key keeps the map and the list in step. */
  lemma EvictKeepsShape(s: Snapshot, capacity: int, o: Order)
    requires MapInList(s) && o.orderUID !in s.entries && s.recency != [] && capacity <= |s.recency|
    ensures MapInList(AfterSet(s, capacity, o))
    ensures WellFormed(s, capacity) ==> WellFormed(AfterSet(s, capacity, o), capacity)
  {
    var n := |s.recency|;
    var front := s.recency[..n - 1];
    assert s.recency == front + [s.recency[n - 1]];
    if WellFormed(s, capacity) {
      DropLast(s.recency);
      ConsDistinct(o.orderUID, front);
    }
  }

  /** Inserting a new key below capacity keeps the map and the list in step. */
  lemma InsertKeepsShape(s: Snapshot, capacity: int, o: Order)
    requires MapInList(s) && o.orderUID !in s.entries && |s.recency| < capacity
    ensures MapInList(AfterSet(s, capacity, o))
    ensures WellFormed(s, capacity) ==> WellFormed(AfterSet(s, capacity, o), capacity)
  {
    if WellFormed(s, capacity) {
      ConsDistinct(o.orderUID, s.recency);
    }
  }

  /** `Set` keeps every map key in the list, and a well-formed cache well formed. */
  lemma SetKeepsShape(s: Snapshot, capacity: int, o: Order)
    requires MapInList(s) && SetDefined(s, capacity, o.orderUID)
    ensures MapInList(AfterSet(s, capacity, o))
    ensures WellFormed(s, capacity) ==> WellFormed(AfterSet(s, capacity, o), capacity)
  {
    var key := o.orderUID;
    if key in s.entries {
      PromoteMembers(s.recency, key);
      if WellFormed(s, capacity) {
        PromoteDistinct(s.recency, key);
      }
    } else if capacity <= |s.recency| {
      EvictKeepsShape(s, capacity, o);
    } else {
      InsertKeepsShape(s, capacity, o);
    }
  }

  /** The list never grows past the capacity. */
  lemma SetBounded(s: Snapshot, capacity: int, o: Order)
    requires MapInList(s) && SetDefined(s, capacity, o.orderUID)
    requires |s.recency| <= capacity
    ensures |AfterSet(s, capacity, o).recency| <= capacity
  {
    if o.orderUID in s.entries {
      PromoteMembers(s.recency, o.orderUID);
    }
  }

  /**
   * `Set` of a UID already cached replaces its order and moves it to the
   * front; the size and every other entry stay as they were.
   */
  lemma SetExisting(s: Snapshot, capacity: int, o: Order)
    requires WellFormed(s, capacity) && o.orderUID in s.entries
    ensures AfterSet(s, capacity, o).entries == s.entries[o.orderUID := o]
    ensures AfterSet(s, capacity, o).recency == [o.orderUID] + Without(s.recency, o.orderUID)
    ensures |AfterSet(s, capacity, o).recency| == |s.recency|
  {
    PromoteMembers(s.recency, o.orderUID);
    PromoteIsWithout(s.recency, o.orderUID);
  }

  /**
   * `Set` of a new UID on a full cache removes exactly the least recently
   * used key, the back of the list, and puts the new key at the front; every
   * other key keeps its order and its place.
   */
  lemma SetEvictsLeastRecent(s: Snapshot, capacity: int, o: Order)
    requires WellFormed(s, capacity) && o.orderUID !in s.entries
    requires |s.recency| == capacity >= 1
    ensures var t := AfterSet(s, capacity, o);
      var lru := s.recency[capacity - 1];
      && lru !in t.entries
      && t.recency == [o.orderUID] + Without(s.recency, lru)
      && |t.recency| == capacity
      && t.entries[o.orderUID] == o
      && (forall k :: k in t.entries && k != o.orderUID ==> k in s.entries && t.entries[k] == s.entries[k])
      && (forall k :: k in s.entries && k != lru ==> k in t.entries)
  {
    var lru := s.recency[capacity - 1];
    var front := s.recency[..capacity - 1];
    assert s.recency == front + [lru];
    DropLast(s.recency);
    WithoutConcat(front, [lru], lru);
    WithoutAbsent(front, lru);
    assert Without([lru], lru) == [];
  }

  /** `Set` of a new UID below capacity adds it at the front and evicts nothing. */
  lemma SetInsertsBelowCapacity(s: Snapshot, capacity: int, o: Order)
    requires MapInList(s) && o.orderUID !in s.entries && |s.recency| < capacity
    ensures AfterSet(s, capacity, o).entries == s.entries[o.orderUID := o]
    ensures AfterSet(s, capacity, o).recency == [o.orderUID] + s.recency
  {
  }

  /** Moving the front node to the front changes nothing. */
  lemma PromoteFront(r: seq<string>, key: string)
    requires r != [] && r[0] == key
    ensures Promote(r, key) == r
  {
    assert FirstIndex(r, key) == 0;
    assert r == [key] + r[1..];
  }

  /** `Set(o)` leaves `o`'s key at the front of the list. */
  lemma SetPutsFront(s: Snapshot, capacity: int, o: Order)
    requires MapInList(s) && SetDefined(s, capacity, o.orderUID)
    ensures AfterSet(s, capacity, o).recency != [] && AfterSet(s, capacity, o).recency[0] == o.orderUID
  {
    if o.orderUID in s.entries {
      PromoteMembers(s.recency, o.orderUID);
    }
  }

  /** A `Get` right after `Set(o)` returns `o` and leaves the state as `Set` left it. */
  lemma SetThenGet(s: Snapshot, capacity: int, o: Order)
    requires MapInList(s) && SetDefined(s, capacity, o.orderUID)
    ensures MapInList(AfterSet(s, capacity, o))
    ensures Lookup(AfterSet(s, capacity, o), o.orderUID) == Some(o)
    ensures AfterGet(AfterSet(s, capacity, o), o.orderUID) == AfterSet(s, capacity, o)
  {
    SetKeepsShape(s, capacity, o);
    SetPutsFront(s, capacity, o);
    PromoteFront(AfterSet(s, capacity, o).recency, o.orderUID);
  }

  // ---------------------------------------------------------------------
  // LoadBatch

  /** `LoadBatch` stops only at the end of the batch or at the capacity. */
  lemma LoadCountBounds(n: nat, capacity: int)
    ensures LoadCount(n, capacity) <= n
    ensures LoadCount(n, capacity) <= capacity || LoadCount(n, capacity) == 0
    ensures LoadCount(n, capacity) < n ==> LoadCount(n, capacity) == capacity || capacity <= 0
  {
  }

  /** The first `n` orders have pairwise different UIDs. */
  predicate DistinctUIDs(orders: seq<Order>, n: nat)
    requires n <= |orders|
  {
    forall i, j :: 0 <= i < j < n ==> orders[i].orderUID != orders[j].orderUID
  }

  /** No order after position `i` among the first `n` carries the UID of order `i`. */
  predicate LastWithUID(orders: seq<Order>, n: nat, i: nat)
    requires i < n <= |orders|
  {
    forall j :: i < j < n ==> orders[j].orderUID != orders[i].orderUID
  }

  lemma {:induction false} PushedRecency(orders: seq<Order>, n: nat)
    requires n <= |orders|
    ensures |Pushed(orders, n).recency| == n
    ensures forall j :: 0 <= j < n ==> Pushed(orders, n).recency[j] == orders[n - 1 - j].orderUID
  {
    if n > 0 {
      PushedRecency(orders, n - 1);
    }
  }

  lemma {:induction false} PushedKeys(orders: seq<Order>, n: nat)
    requires n <= |orders|
    ensures forall k :: k in Pushed(orders, n).entries <==> k in Pushed(orders, n).recency
  {
    if n > 0 {
      PushedKeys(orders, n - 1);
    }
  }

  lemma {:induction false} PushedLatest(orders: seq<Order>, n: nat)
    requires n <= |orders|
    ensures forall i :: 0 <= i < n && LastWithUID(orders, n, i) ==>
      orders[i].orderUID in Pushed(orders, n).entries &&
      Pushed(orders, n).entries[orders[i].orderUID] == orders[i]
  {
    if n > 0 {
      PushedLatest(orders, n - 1);
      forall i | 0 <= i < n - 1 && LastWithUID(orders, n, i)
        ensures LastWithUID(orders, n - 1, i)
      {
      }
    }
  }

  /**
   * `LoadBatch` keeps exactly the first LoadCount(|orders|, capacity)
   * orders. The list holds their UIDs in reverse, so the last one loaded is
   * the most recent; the map knows exactly the UIDs in the list, and each
   * maps to the last loaded order that carries it.
   */
  lemma LoadedContents(orders: seq<Order>, capacity: int)
    ensures var n := LoadCount(|orders|, capacity);
      var s := Loaded(orders, capacity);
      && |s.recency| == n
      && (forall j :: 0 <= j < n ==> s.recency[j] == orders[n - 1 - j].orderUID)
      && (forall k :: k in s.entries <==> k in s.recency)
      && (forall i :: 0 <= i < n && LastWithUID(orders, n, i) ==>
            orders[i].orderUID in s.entries && s.entries[orders[i].orderUID] == orders[i])
  {
    var n := LoadCount(|orders|, capacity);
    PushedRecency(orders, n);
    PushedKeys(orders, n);
    PushedLatest(orders, n);
  }

  /** With distinct UIDs, every loaded order is what the cache returns for its UID. */
  lemma LoadedDistinct(orders: seq<Order>, capacity: int)
    requires DistinctUIDs(orders, LoadCount(|orders|, capacity))
    ensures forall i :: 0 <= i < LoadCount(|orders|, capacity) ==>
      Lookup(Loaded(orders, capacity), orders[i].orderUID) == Some(orders[i])
  {
    var n := LoadCount(|orders|, capacity);
    PushedLatest(orders, n);
    forall i | 0 <= i < n ensures LastWithUID(orders, n, i) {
    }
  }

  /** An empty batch leaves an empty cache, whatever was cached before. */
  lemma LoadedEmpty(capacity: int)
    ensures Loaded([], capacity) == Empty()
  {
  }

  /**
   * The loaded cache has one node per key exactly when the loaded orders
   * have distinct UIDs; a repeated UID leaves a second node for that key.
   */
  lemma LoadedShape(orders: seq<Order>, capacity: int)
    ensures MapInList(Loaded(orders, capacity))
    ensures WellFormed(Loaded(orders, capacity), capacity) <==>
      DistinctUIDs(orders, LoadCount(|orders|, capacity))
  {
    var n := LoadCount(|orders|, capacity);
    var r := Loaded(orders, capacity).recency;
    PushedRecency(orders, n);
    PushedKeys(orders, n);
    if DistinctUIDs(orders, n) {
      forall i, j | 0 <= i < j < n ensures r[i] != r[j] {
        assert r[i] == orders[n - 1 - i].orderUID && r[j] == orders[n - 1 - j].orderUID;
      }
    }
    if Distinct(r) {
      forall i, j | 0 <= i < j < n ensures orders[i].orderUID != orders[j].orderUID {
        assert r[n - 1 - j] != r[n - 1 - i];
      }
    }
  }

  // ---------------------------------------------------------------------
  // The cache object

  class LRUCache {
    const capacity: int
    var entries: map<string, Order>
    var recency: seq<string>

    function State(): Snapshot
      reads this
    {
      Snapshot(entries, recency)
    }

    /** What every operation keeps, even after a batch with a repeated UID. */
    predicate Linked()
      reads this
    {
      MapInList(State())
    }

    predicate Valid()
      reads this
    {
      WellFormed(State(), capacity)
    }

    /** `NewLRUCache`: an empty cache. */
    constructor (capacity: int)
      ensures this.capacity == capacity && State() == Empty()
      ensures Linked() && Valid()
    {
      this.capacity := capacity;
      entries := map[];
      recency := [];
    }

    method Set(o: Order)
      requires Linked() && SetDefined(State(), capacity, o.orderUID)
      modifies this
      ensures State() == AfterSet(old(State()), capacity, o)
      ensures Linked()
      ensures old(Valid()) ==> Valid()
    {
      SetKeepsShape(State(), capacity, o);
      var key := o.orderUID;
      if key in entries {
        var i := FirstIndex(recency, key);
        recency := [key] + recency[..i] + recency[i + 1..];
        entries := entries[key := o];
        return;
      }
      if capacity <= |recency| {
        var last := recency[|recency| - 1];
        recency := recency[..|recency| - 1];
        entries := entries - {last};
      }
      recency := [key] + recency;
      entries := entries[key := o];
    }

    method Get(key: string) returns (r: Option<Order>)
      requires Linked()
      modifies this
      ensures r == Lookup(old(State()), key)
      ensures State() == AfterGet(old(State()), key)
      ensures Linked()
      ensures old(Valid()) ==> Valid()
    {
      GetKeepsShape(State(), capacity, key);
      if key !in entries {
        return None;
      }
      var i := FirstIndex(recency, key);
      recency := [key] + recency[..i] + recency[i + 1..];
      return Some(entries[key]);
    }

    method LoadBatch(orders: seq<Order>)
      modifies this
      ensures State() == Loaded(orders, capacity)
      ensures Linked()
      ensures Valid() <==> DistinctUIDs(orders, LoadCount(|orders|, capacity))
    {
      LoadedShape(orders, capacity);
      entries := map[];
      recency := [];
      var i := 0;
      while i < |orders|
        invariant 0 <= i <= LoadCount(|orders|, capacity)
        invariant State() == Pushed(orders, i)
        invariant |recency| == i
      {
        if |recency| >= capacity {
          break;
        }
        recency := [orders[i].orderUID] + recency;
        entries := entries[orders[i].orderUID := orders[i]];
        i := i + 1;
      }
    }
  }
}
