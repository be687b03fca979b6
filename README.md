# Generic Set[T] (Go package `set`), modelled in Dafny

The package provides `Set[T]`, a mutable set of comparable values. Its only
state is a field `data map[T]struct{}`: a value is a member exactly when it is
a key of that map, and the value stored under a key carries no information.
The package's file `set.go` defines six operations on it: the constructors
`NewSet(items)` and `NewEmptySet()`, the queries `Has(value)` and `Size()`, and
the in-place mutators `Add(value)` and `Clear()`. Both mutators return the
receiver so that calls can be chained.

The model (`set.dfy`, module `Sets`) is a class `Set<T(==)>` with one field
`data: map<T, ()>`. The unit value `()` stands for Go's `struct{}`. The ghost
function `Contents()` gives the abstract value, the set of keys. Every map is
a legal state, so the class needs no separate invariant.

- `NewSet` is a constructor. Like the Go function, it fills a local map in a
  loop over `items` and then stores it. The loop invariant says that after
  `i` steps the keys are `Elements(items[..i])`. `Elements` is the
  left-to-right collection of the distinct values, and it is proved equal to
  `set x | x in items`.
- `Has` and `Size` are functions reading `this`, so they have no side effects.
- `Add` and `Clear` are methods that modify `this`. They return the receiver,
  and their postconditions give the new `Contents()` and `Size()` in terms of
  the old ones.

`set_scenarios.dfy` (module `SetScenarios`) holds clients of `Sets.Set`. Each
one states an outcome as its postcondition and proves it from the contracts in
`Sets` alone. There are two groups:

- Five clients state the outcomes the package's tests expect for these six
  operations (`set_test.go`): `NewCollapsesDuplicates`, `AddToEmpty`,
  `ClearEmpties`, `HasMembers` and `SizeOfDistinct`. `ClearEmpties` also
  proves that `"a"` is gone after `Clear`, which the test itself does not
  check.
- Two clients state further properties of `set.go` that no test exercises:
  `EmptyHasNothing` and `AddTwice`.

The test file also calls `Delete`, `Union`, `Equal` and other functions. It
calls the constructors `New` and `NewEmpty`, while `set.go` names them
`NewSet` and `NewEmptySet`. The model follows `set.go`, which defines none of
those other functions (see "Left out").

## Model

| member | source | states |
|---|---|---|
| Sets.Elements | set.go:15-21 | The distinct values that the construction loop collects from `items` are exactly the values occurring in `items`, and there are at most `|items|` of them. |
| Sets.ElementsCardinality | set.go:17-19 | Duplicates collapse: the number of members equals `|items|` exactly when `items` has no repeated value, and is strictly smaller otherwise. |
| Sets.Set.NewSet | set.go:15-21 | After construction from `items`, the members are exactly the values in `items`. The loop keeps the keys equal to the distinct values of the prefix processed so far. |
| Sets.Set.NewEmptySet | set.go:23-26 | A new empty set has no members. |
| Sets.Set.Has | set.go:28-31 | `Has(v)` is true if and only if `v` is a key of the map. Being a function, it changes nothing. |
| Sets.Set.Size | set.go:11-13 | `Size()` is the number of distinct members, and it is 0 exactly when the set has no members. |
| Sets.Set.Add | set.go:33-39 | Returns the receiver. Afterwards `v` is a member and every other value's membership is unchanged. Size grows by 1 if `v` was absent and is unchanged if it was present. |
| Sets.Set.Clear | set.go:41-45 | Returns the receiver. Afterwards the set has no members and size 0, whatever it held before. |
| SetScenarios.NewCollapsesDuplicates | set_test.go:9-19 | Building from `[1, 2, 3, 2, 3]` gives size 3, with 1, 2 and 3 all members. |
| SetScenarios.AddToEmpty | set_test.go:21-32 | Adding 1 and then 2 to an empty set gives size 2, with both values members. |
| SetScenarios.ClearEmpties | set_test.go:34-42 | Clearing a set built from `["a", "b", "c"]` gives size 0. The model also proves that `"a"` is no longer a member, which the test does not check. |
| SetScenarios.HasMembers | set_test.go:101-107 | A set built from `["a", "b", "c"]` has `"a"`, `"b"` and `"c"` as members and not `"z"`. |
| SetScenarios.SizeOfDistinct | set_test.go:264-270 | A set built from three distinct strings has size 3. |
| SetScenarios.EmptyHasNothing | set.go:23-26 | For any value `v`, a fresh empty set has size 0 and `Has(v)` is false. |
| SetScenarios.AddTwice | set.go:33-39 | Adding the same value twice, the second call chained on the receiver the first returned, has the same effect as adding it once. |

## Left out

- `Delete`, `Difference`, `Intersection`, `Union`, `SymmetricDifference`, `Equal`, `IsSubsetOf`, `IsSupersetOf`, `IsDisjointFrom`, `Each` and `Values` are called by `set_test.go`, but `set.go` defines none of them. With no code to follow, the model does not invent them. The same goes for the test file's constructor names `New` and `NewEmpty`.
- Concurrency: the source only has a comment about a possible future mutex, so the model is sequential.
- Go map internals: hashing, iteration order and the capacity of `make`. The model represents the map as a mathematical `map`, whose only observable content is its keys.
- Sharing of the map between copies of a `Set` value is not modelled. A Go map is a reference, so a struct copy such as `b := *a` shares one map with `a`: after `b.Add(v)`, `a.Has(v)` is true. The model has one object per set, holding a map value, so it cannot express two sets that share storage.
- `Clear`: the source installs a freshly allocated map rather than deleting keys, and so breaks that sharing. After `b := *a; a.Clear()`, `b` still sees the old keys, whereas deleting in place would have emptied `b` too. The model only reassigns the field to the empty map and says nothing about copies.
- `Size`: it has a value receiver, which copies the struct but shares the map. Reading the length through that copy gives the same number, and the model reads the field directly.
- `Sets.Set.Add` and `Sets.Set.NewSet`: their contracts hold only for element types whose `==` is an equivalence relation (every value equals itself) and never panics. This is what Dafny's equality assumes. Go's `comparable` admits two kinds of type where that fails:
  - `float64` with the value NaN, which is not equal to itself. A lookup never finds a NaN key, so every `Add(NaN)` inserts a new key. `Add(NaN); Add(NaN)` leaves two keys with `Has(NaN)` still false, and `NewSet([NaN, NaN])` has size 2. The model promises size 1, and `SetScenarios.AddTwice` (adding twice equals adding once) does not hold for NaN.
  - Interface types such as `any`: since Go 1.20 they satisfy `comparable`. `NewSet`, `Has` and `Add` then panic ("hash of unhashable type") when the dynamic value is a slice, map or function. The model has no such error path.
- `Size`: Go returns an `int`. The model returns a `nat`, because a map's length is never negative and no Go map can hold enough keys to overflow it.
- The zero value `Set[T]{}`, whose map is nil, is not modelled. `Has` on it returns false, and `Add` on it would panic on writing to a nil map. Both package constructors always allocate the map, and the model creates sets only through them.
- Calls through a nil `*Set[T]` panic in Go. Dafny's non-null class type rules them out.
- The test harness (`testing.T`, `t.Run`, `reflect.DeepEqual`, sorting, the assertion helpers) is not part of this model. Only its expected outcomes appear, as the postconditions in `SetScenarios`.
