/**
 Clients of `Sets.Set`, proved from the contracts of `Sets` alone. Each method
 returns the values it inspects, and its postcondition states the outcome.
 The first five state the outcomes of the package's tests for the operations
 the package defines. `EmptyHasNothing` and `AddTwice` state further
 properties of those operations that no test exercises.
 */
module SetScenarios {
  import opened Sets

  /** Building from `[1, 2, 3, 2, 3]` collapses the duplicates. */
  method NewCollapsesDuplicates() returns (size: nat, has1: bool, has2: bool, has3: bool)
    ensures size == 3
    ensures has1 && has2 && has3
  {
    var s := new Set<int>.NewSet([1, 2, 3, 2, 3]);
    assert s.Contents() == {1, 2, 3};
    size := s.Size();
    has1, has2, has3 := s.Has(1), s.Has(2), s.Has(3);
  }

  /** Adding two different values to an empty set gives a set of size 2. */
  method AddToEmpty() returns (size: nat, has1: bool, has2: bool)
    ensures size == 2
    ensures has1 && has2
  {
    var s := new Set<int>.NewEmptySet();
    var _ := s.Add(1);
    var _ := s.Add(2);
    size := s.Size();
    has1, has2 := s.Has(1), s.Has(2);
  }

  /** Clearing a set of three strings leaves size 0. The test checks only the
      size; that `"a"` is gone as well is an addition. */
  method ClearEmpties() returns (size: nat, hasA: bool)
    ensures size == 0
    ensures !hasA
  {
    var s := new Set<string>.NewSet(["a", "b", "c"]);
    var _ := s.Clear();
    size := s.Size();
    hasA := s.Has("a");
  }

  /** Membership in a set built from `["a", "b", "c"]`. */
  method HasMembers() returns (hasA: bool, hasB: bool, hasC: bool, hasZ: bool)
    ensures hasA && hasB && hasC
    ensures !hasZ
  {
    var s := new Set<string>.NewSet(["a", "b", "c"]);
    hasA, hasB, hasC, hasZ := s.Has("a"), s.Has("b"), s.Has("c"), s.Has("z");
  }

  /** Three distinct strings give size 3. */
  method SizeOfDistinct() returns (size: nat)
    ensures size == 3
  {
    var items := ["a", "b", "c"];
    var s := new Set<string>.NewSet(items);
    ElementsCardinality(items);
    size := s.Size();
  }

  /** A set that was never added to has no members. */
  method EmptyHasNothing<T(==)>(v: T) returns (size: nat, has: bool)
    ensures size == 0
    ensures !has
  {
    var s := new Set<T>.NewEmptySet();
    size := s.Size();
    has := s.Has(v);
  }

  /** Adding the same value twice, chained through the returned receiver, has
      the effect of adding it once. */
  method AddTwice<T(==)>(s: Set<T>, v: T) returns (r: Set<T>)
    modifies s
    ensures r == s
    ensures s.Contents() == old(s.Contents()) + {v}
    ensures s.Size() == old(s.Size()) + (if v in old(s.Contents()) then 0 else 1)
  {
    var once := s.Add(v);
    ghost var afterOnce := s.Contents();
    r := once.Add(v);
    assert s.Contents() == afterOnce;
  }
}
