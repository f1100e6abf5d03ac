/**
 * The scenarios of the cache's unit tests (`internal/cache/cache_test.go`),
 * stated on the cache's value and proved for any orders carrying the UIDs
 * the tests use.
 */
module CacheExamples {
  import opened Wrappers
  import opened Orders
  import opened Cache

  /** Capacity 2: setting "1", "2" and "3" evicts "1", the least recently used. */
  lemma EvictionScenario(o1: Order, o2: Order, o3: Order)
    requires o1.orderUID == "1" && o2.orderUID == "2" && o3.orderUID == "3"
    ensures var s1 := AfterSet(Empty(), 2, o1);
      var s2 := AfterSet(s1, 2, o2);
      var s3 := AfterSet(s2, 2, o3);
      && Lookup(s3, "1") == None
      && Lookup(s3, "2") == Some(o2)
      && Lookup(s3, "3") == Some(o3)
  {
  }

  /** Capacity 2: a `Get` of "1" makes "2" the least recently used, so "3" evicts "2". */
  lemma GetMovesToFrontScenario(o1: Order, o2: Order, o3: Order)
    requires o1.orderUID == "1" && o2.orderUID == "2" && o3.orderUID == "3"
    ensures var s2 := AfterSet(AfterSet(Empty(), 2, o1), 2, o2);
      var g := AfterGet(s2, "1");
      var s3 := AfterSet(g, 2, o3);
      && Lookup(s3, "2") == None
      && Lookup(s3, "1") == Some(o1)
  {
  }

  /** Setting a UID twice keeps one entry holding the second order. */
  lemma UpdateScenario(first: Order, second: Order)
    requires first.orderUID == "1" && second.orderUID == "1"
    ensures var s := AfterSet(AfterSet(Empty(), 2, first), 2, second);
      Lookup(s, "1") == Some(second) && |s.recency| == 1
  {
  }

  /** Capacity 2: a batch of "A", "B", "C" loads "A" and "B", with "B" the most recent. */
  lemma LoadBatchScenario(a: Order, b: Order, c: Order)
    requires a.orderUID == "A" && b.orderUID == "B" && c.orderUID == "C"
    ensures var s := Loaded([a, b, c], 2);
      && s.recency == ["B", "A"]
      && Lookup(s, "A") == Some(a)
      && Lookup(s, "B") == Some(b)
      && Lookup(s, "C") == None
  {
    var orders := [a, b, c];
    assert LoadCount(3, 2) == 2;
    assert Pushed(orders, 1) == Snapshot(map["A" := a], ["A"]);
    assert Pushed(orders, 2) == Snapshot(map["A" := a, "B" := b], ["B", "A"]);
  }
}
