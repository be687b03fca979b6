/**
 A model of the generic `Set[T]` of package `set`: a mutable container whose
 only state is a map from elements to the empty value, so that only the map's
 keys carry information.
 */
module Sets {

  /** The distinct values of `items`, collected left to right the way the
      constructor's loop inserts them. */
  function Elements<T(==)>(items: seq<T>): (s: set<T>)
    ensures s == set x | x in items
    ensures |s| <= |items|
  {
    if items == [] then {}
    else Elements(items[..|items| - 1]) + {items[|items| - 1]}
  }

  /** No value occurs twice in `items`. */
  predicate Distinct<T(==)>(items: seq<T>)
  {
    forall i, j :: 0 <= i < j < |items| ==> items[i] != items[j]
  }

  /** A sequence yields as many elements as it has entries exactly when it has
      no duplicates; otherwise duplicates collapse and it yields fewer. */
  lemma {:induction false} ElementsCardinality<T>(items: seq<T>)
    ensures |Elements(items)| == |items| <==> Distinct(items)
    ensures !Distinct(items) ==> |Elements(items)| < |items|
  {
    if items != [] {
      var init, last := items[..|items| - 1], items[|items| - 1];
      assert items == init + [last];
      ElementsCardinality(init);
      if last in init {
        var k :| 0 <= k < |init| && init[k] == last;
        assert items[k] == items[|items| - 1];
        assert !Distinct(items);
      } else {
        assert Distinct(items) <==> Distinct(init) by {
          if Distinct(init) {
            forall i, j | 0 <= i < j < |items| ensures items[i] != items[j] {
              if j == |items| - 1 {
                assert items[i] == init[i];
              } else {
                assert items[i] == init[i] && items[j] == init[j];
              }
            }
          }
          if Distinct(items) {
            forall i, j | 0 <= i < j < |init| ensures init[i] != init[j] {
              assert items[i] == init[i] && items[j] == init[j];
            }
          }
        }
      }
    }
  }

  /** The set itself. `data` plays the role of Go's `map[T]struct{}`; the unit
      value `()` stands for `struct{}`. */
  class Set<T(==)> {
    var data: map<T, ()>

    /** The abstract value: the keys of the map. */
    ghost function Contents(): set<T>
      reads this
    {
      data.Keys
    }

    /** `NewSet(items)`: every value of `items` becomes a key; duplicates collapse. */
    constructor NewSet(items: seq<T>)
      ensures Contents() == Elements(items)
      ensures forall x :: x in Contents() <==> x in items
    {
      var m: map<T, ()> := map[];
      for i := 0 to |items|
        invariant m.Keys == Elements(items[..i])
      {
        assert items[..i + 1][..i] == items[..i];
        m := m[items[i] := ()];
      }
      assert items[..|items|] == items;
      data := m;
    }

    /** `NewEmptySet()`: a set with no keys. */
    constructor NewEmptySet()
      ensures Contents() == {}
    {
      data := map[];
    }

    /** `Has(value)`: a key lookup; as a function it cannot change anything. */
    function Has(value: T): (b: bool)
      reads this
      ensures b <==> value in Contents()
    {
      value in data
    }

    /** `Size()`: the number of keys, that is, of distinct members. */
    function Size(): (n: nat)
      reads this
      ensures n == |Contents()|
      ensures n == 0 <==> Contents() == {}
    {
      |data|
    }

    /** `Add(value)`: inserts `value` only when it is not yet a key, and returns
        the receiver so that calls can be chained. */
    method Add(value: T) returns (r: Set<T>)
      modifies this
      ensures r == this
      ensures Contents() == old(Contents()) + {value}
      ensures Has(value)
      ensures forall x :: x != value ==> (Has(x) <==> x in old(Contents()))
      ensures Size() == old(Size()) + (if old(Has(value)) then 0 else 1)
    {
      if value !in data {
        data := data[value := ()];
      }
      r := this;
    }

    /** `Clear()`: replaces the map by an empty one and returns the receiver. */
    method Clear() returns (r: Set<T>)
      modifies this
      ensures r == this
      ensures Contents() == {}
      ensures Size() == 0
      ensures forall x :: !Has(x)
    {
      data := map[];
      r := this;
    }
  }
}
