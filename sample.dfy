/**
 The reservoir-sampling `Set` of sample.go: a fixed buffer of slots and the
 count of items added since the last `Reset`. The mutex is left out; every
 method runs as one atomic step.
 */
module ErrorSample {
  import opened Reservoir

  class Set<T> {
    /** The buffer; in Go the slice header never changes after `New`. */
    const buf: array<Option<T>>
    /** Items added since the last `Reset` (Go's `n`). */
    var n: nat

    /** The items added since the last `Reset`, in arrival order. */
    ghost var history: seq<T>
    /** For each slot, the arrival index of the item it holds. */
    ghost var tags: seq<Option<nat>>

    ghost predicate Valid()
      reads this, buf
    {
      && n == |history|
      && Represents(buf[..], history, tags)
    }

    /** `New(cap)`: `make` refuses a negative length, so `cap` is a `nat`. */
    constructor (cap: nat)
      ensures Valid() && fresh(buf)
      ensures buf.Length == cap && n == 0 && history == []
      ensures forall k :: 0 <= k < buf.Length ==> buf[k] == None
    {
      buf := new Option<T>[cap](_ => None);
      n := 0;
      history := [];
      tags := seq(cap, _ => None);
    }

    /** Removes all items; the buffer keeps its stale contents. */
    method Reset()
      requires Valid()
      modifies this
      ensures Valid()
      ensures n == 0 && history == []
      ensures buf[..] == old(buf[..])
    {
      n := 0;
      history := [];
      RepresentsEmpty(buf[..], tags);
    }

    /** Adds `err`; `draw` is the value `rand.Intn(n)` returns if the full
        buffer needs a random slot, and is ignored otherwise. */
    method Add(err: T, draw: nat)
      requires Valid()
      requires DrawInRange(buf.Length, n, draw)
      modifies this, buf
      ensures Valid()
      ensures n == old(n) + 1 && history == old(history) + [err]
      ensures buf[..] == Step(old(buf[..]), old(n), err, draw)
    {
      RepresentsStep(buf[..], history, tags, err, draw);
      if buf.Length < 1 {
      } else if n < buf.Length {
        buf[n] := Some(err);
      } else if draw < buf.Length {
        buf[draw] := Some(err);
      }
      tags := Step(tags, n, n, draw);
      history := history + [err];
      n := n + 1;
    }

    /** Copies the live prefix of the buffer into `p` as Go's `copy` does and
        returns how many slots it copied. */
    method Sample(p: array<Option<T>>) returns (k: nat)
      requires Valid()
      modifies p
      ensures Valid()
      ensures k <= p.Length && k <= Filled(n, buf.Length) && k <= Cap()
      ensures k == p.Length || k == Filled(n, buf.Length)
      ensures buf[..] == old(buf[..])
      ensures p[..k] == buf[..k] && p[k..] == old(p[k..])
      ensures multiset(p[..k]) <= multiset(Lift(history))
      ensures n <= buf.Length ==> p[..k] == Lift(history)[..k]
    {
      var b := if n < buf.Length then n else buf.Length;
      k := Copy(p, buf, b);
      LiveSlots(buf[..], history, tags);
      assert buf[..b] == buf[..k] + buf[k..b];
    }

    /** The capacity: `Sample` never reads more than this many items. */
    function Cap(): nat {
      buf.Length
    }

    /** The number of items added since the last `Reset`. */
    function Added(): (a: nat)
      reads this, buf
      requires Valid()
      ensures a == |history|
    {
      n
    }
  }

  /** Go's built-in `copy(dst, src[:m])`: copies the first `min(len(dst), m)`
      elements of `src` into `dst` and returns their number. The two arrays may
      be the same one, as slices in Go may overlap. */
  method Copy<T>(dst: array<T>, src: array<T>, m: nat) returns (k: nat)
    requires m <= src.Length
    modifies dst
    ensures k <= dst.Length && k <= m && (k == dst.Length || k == m)
    ensures src[..] == old(src[..])
    ensures dst[..k] == src[..k] && dst[k..] == old(dst[k..])
  {
    k := if dst.Length < m then dst.Length else m;
    var j := 0;
    while j < k
      invariant 0 <= j <= k
      invariant src[..] == old(src[..])
      invariant dst[..j] == src[..j]
      invariant dst[j..] == old(dst[j..])
    {
      dst[j] := src[j];
      j := j + 1;
    }
  }
}
