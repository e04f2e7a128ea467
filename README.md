# errorsample in Dafny

A model of `errorsample.Set`, a reservoir sampler for error values. The Go
type keeps a fixed buffer `buf` of `cap` slots and a counter `n` of errors added
since the last `Reset`. `Add` fills the slots in arrival order until the buffer
is full. After that it follows Vitter's Algorithm R ("Random sampling with a
reservoir", ACM Transactions on Mathematical Software 11(1), 1985). It draws `i`
in `[0, n)` and stores the new error in slot `i` when `i < cap`; otherwise the
error is discarded. `Sample(p)` copies the live prefix of the buffer into the
caller's slice. `Reset` clears the counter, and `Cap` and `Added` are queries.

Files:

- `reservoir.dfy` (module `Reservoir`) holds the value-level view. A slot is
  an `Option` (`None` is Go's nil). `Filled(n, cap)` is the number of live
  slots. `Step` is the effect of one `Add` on the slots. `Represents` is the
  reservoir invariant, and the lemmas prove that `Step` keeps it and say what
  it implies for a sample.
- `sample.dfy` (module `ErrorSample`) holds the class `Set<T>`. It is generic
  in the item type, as the Go code is about opaque error values. Its fields
  mirror the Go struct: `const buf: array<Option<T>>` (the slice header never
  changes) and `n: nat`. Two ghost fields carry the proof. `history` is the
  sequence of items added since the last `Reset`. `tags` gives, for each slot,
  the arrival index of the item it holds. The tags evolve by the same `Step`
  as the buffer, with the arrival index standing in for the item. Go's
  built-in `copy` is the method `Copy`.
- `examples.dfy` (module `ErrorSampleExamples`) holds client scenarios proved
  from the contracts alone. They cover the package example, a replacement and
  a discard with chosen draws, capacity 0, `Reset`, and two successive samples.

`Set.Cap()` is the buffer's length. `buf` is a constant field, so the capacity
never changes after construction. What the capacity means, that `Sample` never
returns more than `Cap()` items, is stated in `Sample`'s contract.

The random number generator is a parameter. `Add(err, draw)` takes the value
`rand.Intn(n)` would return. `DrawInRange` requires `draw < n` only in the
branch that makes the call, so `draw` is otherwise unconstrained. That branch
runs only when `1 <= cap <= n`, so the argument of `rand.Intn` is positive
whenever it is called.

## Model

| member | source | states |
|---|---|---|
| Reservoir.Filled | sample.go:79-82 | the number of live slots is at most `n` and at most `cap`, and equals one of them (their minimum) |
| Reservoir.Step | sample.go:47-56 | the buffer keeps its length, and every slot except the one the step may write (slot `n` while `n < cap`, slot `draw` once full) keeps its value; while `n < cap` the new item goes into slot `n`; once full it goes into slot `draw` when `draw < cap`, and otherwise the buffer is unchanged (this includes `cap == 0`) |
| Reservoir.RepresentsEmpty | sample.go:35-40 | with no items added since a reset, any buffer contents satisfy the reservoir invariant (stale slots are not live) |
| Reservoir.RepresentsStep | sample.go:42-58 | one `Add` step keeps the invariant: every live slot holds the added item its tag names, live tags are pairwise distinct, and slot `j` holds arrival `j` while `n <= cap` |
| Reservoir.InjectiveImageSubMultiset | sample.go:60-65 | a sequence that picks elements of `h` at pairwise distinct indices is a sub-multiset of `h` (the counting step behind "no item appears in a sample more often than it was added") |
| Reservoir.LiveSlots | sample.go:60-65 | under the invariant, the live slots form a sub-multiset of the items added since the reset, and equal those items in arrival order when `n <= cap` |
| ErrorSample.Set.constructor | sample.go:29-33 | `New(cap)`: `cap` slots, all nil, `n == 0`, empty history, invariant established; `cap` is non-negative as `make` demands |
| ErrorSample.Set.Reset | sample.go:35-40 | `n` and the history become empty, the buffer contents and length are unchanged, and the invariant holds |
| ErrorSample.Set.Add | sample.go:42-58 | `n` grows by exactly 1 and the history by `err`; the new buffer is `Step` of the old one for every branch; the invariant is kept |
| ErrorSample.Set.Sample | sample.go:60-91 | returns `min(len(p), n, cap)`, so never more than `Cap()`; `p[0..k)` equals `buf[0..k)` and the rest of `p` is untouched; `buf` and `n` are unchanged; the items read are a sub-multiset of those added since the reset, and exactly the first `k` of them in arrival order while `n <= cap` |
| ErrorSample.Copy | sample.go:83 | Go's `copy`: copies `min(len(dst), m)` elements of `src` into the front of `dst`, leaves the rest of `dst` and all of `src` unchanged, even when the two are the same array |
| ErrorSample.Set.Added | sample.go:93-99 | the counter equals the number of items added since the last reset |
| ErrorSampleExamples.ExampleInOrder | example_test.go:10-20 | capacity 20 with "first", "second", "third" added: the sample is exactly those three, in order |
| ErrorSampleExamples.ExampleReplaceFirst | sample.go:50-56 | capacity 2 with A, B, C added and the draw for C equal to 0: the sample is C, B |
| ErrorSampleExamples.ExampleDiscard | sample.go:50-56 | capacity 2 with A, B, C, D added; C's draw is 1 and D's is 2: D is discarded and the sample is A, C |
| ErrorSampleExamples.ExampleZeroCapacity | sample.go:47 | capacity 0: three adds give `Added() == 3`, and every sample is empty |
| ErrorSampleExamples.ExampleReset | sample.go:35-40 | after `Reset`, `Added() == 0` and a sample is empty, though the buffer still holds old items |
| ErrorSampleExamples.SampleTwice | sample.go:69-75 | two successive samples with no `Add` or `Reset` between them are equal, and each is no longer than `Cap()` and `Added()` |

## Left out

- The mutex (`mu`, the `Lock`/`Unlock` pairs): it only serialises concurrent callers. Each method is modelled as one atomic step.
- `math/rand`: the process-wide generator is replaced by the `draw` argument of `Add`, constrained to `[0, n)` where it is used.
- The uniformity claim: each item lands in the sample with probability `cap/n`. This is a probabilistic statement that these contracts cannot express. The model proves only the deterministic frame and membership facts.
- Go's `int` width: `n` is an unbounded `nat`. Where `int` is 64 bits, the 2^63-th add without a reset wraps the Go counter to a negative value. After that, `Add` with `cap >= 1` takes the `n < len(buf)` branch and panics on the index `buf[n]`. `Sample` panics on the slice `b[:n]`, even when `cap == 0`. `Added` returns a negative count. The model does not capture any of this.
- Negative capacity: Go's `New` panics when `make` is given a negative length. The constructor takes `cap: nat`, so the model does not represent that panic.
- The zero-value `Set{}`: it has a nil buffer and behaves like `New(0)`, which is what the model covers. Lazy growth to capacity 1 on the first `Add` is not implemented by sample.go, so it is not modelled.
- Error identity: items are opaque values of type `T` compared by equality. Go's interface identity and `errors.New` allocation play no role.
