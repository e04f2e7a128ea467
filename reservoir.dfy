/**
 Value-level view of the reservoir used by `Set` in sample.go: the buffer as a
 sequence of slots, the effect of one `Add` on that sequence (Vitter's
 Algorithm R), and the invariant that ties the live slots to the items added
 since the last `Reset`.
 */
module Reservoir {

  /** A buffer slot: `None` is Go's nil error, the value of a slot never written. */
  datatype Option<T> = None | Some(value: T)

  /** Every item of `h`, each wrapped as a written slot. */
  function Lift<T>(h: seq<T>): seq<Option<T>> {
    seq(|h|, j requires 0 <= j < |h| => Some(h[j]))
  }

  /** Number of live slots: `Sample` reads no more than the capacity and no
      more than the number of items added since the last `Reset`. */
  function Filled(n: nat, cap: nat): (k: nat)
    ensures k <= n && k <= cap
    ensures k == n || k == cap
  {
    if n < cap then n else cap
  }

  /** What `rand.Intn(n)` may return where `Add` calls it: the call happens only
      once the buffer is full and non-empty, and then its result lies in [0, n). */
  predicate DrawInRange(cap: nat, n: nat, draw: nat) {
    1 <= cap <= n ==> draw < n
  }

  /** The slots after adding `item` as the (n+1)-th item since the last reset,
      `draw` standing for the value `rand.Intn(n)` returns when it is called. */
  function Step<T>(slots: seq<Option<T>>, n: nat, item: T, draw: nat): (r: seq<Option<T>>)
    requires DrawInRange(|slots|, n, draw)
    ensures |r| == |slots|
    // every slot but the one this step may write keeps its value
    ensures forall j :: 0 <= j < |r| && j != (if n < |slots| then n else draw) ==> r[j] == slots[j]
    // while the buffer is not full, slots fill in arrival order
    ensures n < |slots| ==> r[n] == Some(item)
    // once full, the item lands in the drawn slot or is discarded
    ensures |slots| <= n && draw < |slots| ==> r[draw] == Some(item)
    ensures |slots| <= n && |slots| <= draw ==> r == slots
  {
    if |slots| < 1 then slots
    else if n < |slots| then slots[n := Some(item)]
    else if draw < |slots| then slots[draw := Some(item)]
    else slots
  }

  /** The reservoir invariant. `tags[j]` is the arrival index (0-based, since the
      last reset) of the item in slot `j`. Every live slot holds the added item
      its tag names, no two live slots name the same arrival, and while no more
      items have arrived than there are slots, slot `j` holds arrival `j`. */
  ghost predicate Represents<T>(slots: seq<Option<T>>, history: seq<T>, tags: seq<Option<nat>>) {
    && |tags| == |slots|
    && (forall j :: 0 <= j < Filled(|history|, |slots|) ==>
          tags[j].Some? && tags[j].value < |history| && slots[j] == Some(history[tags[j].value]))
    && (forall i, j :: 0 <= i < j < Filled(|history|, |slots|) ==> tags[i] != tags[j])
    && (|history| <= |slots| ==> forall j :: 0 <= j < |history| ==> tags[j] == Some(j))
  }

  /** After a reset nothing is live, whatever the slots still hold. */
  lemma RepresentsEmpty<T>(slots: seq<Option<T>>, tags: seq<Option<nat>>)
    requires |tags| == |slots|
    ensures Represents(slots, [], tags)
  {
  }

  /** `Add` keeps the invariant: stepping the slots with the item and the tags
      with the item's arrival index yields a representation of the longer history. */
  lemma RepresentsStep<T>(slots: seq<Option<T>>, history: seq<T>, tags: seq<Option<nat>>,
                             item: T, draw: nat)
    requires Represents(slots, history, tags)
    requires DrawInRange(|slots|, |history|, draw)
    ensures Represents(Step(slots, |history|, item, draw), history + [item], Step(tags, |history|, |history|, draw))
  {
    // Dafny finds the case split itself: a slot other than the written one keeps
    // its item and tag, and the written one gets the new item with the fresh
    // tag |history|, which no older live tag equals.
  }

  /** The sub-multiset argument behind "the sample holds only added items, none
      more often than it was added": `s` picks elements of `h` at distinct indices. */
  lemma {:induction false} InjectiveImageSubMultiset<T>(s: seq<T>, h: seq<T>, o: seq<nat>)
    requires |o| == |s|
    requires forall j :: 0 <= j < |s| ==> o[j] < |h| && s[j] == h[o[j]]
    requires forall i, j :: 0 <= i < j < |s| ==> o[i] != o[j]
    ensures multiset(s) <= multiset(h)
  {
    if |s| > 0 {
      var m := |s| - 1;
      var t := o[m];
      var h' := h[..t] + h[t + 1..];
      var o' := seq(m, j requires 0 <= j < m => if o[j] < t then o[j] else o[j] - 1);
      forall j | 0 <= j < m
        ensures o'[j] < |h'| && s[j] == h'[o'[j]]
      {
        assert o[j] != t;
      }
      forall i, j | 0 <= i < j < m
        ensures o'[i] != o'[j]
      {
        assert o[i] != t && o[j] != t;
      }
      InjectiveImageSubMultiset(s[..m], h', o');
      assert h == h[..t] + [h[t]] + h[t + 1..];
      assert s == s[..m] + [h[t]];
    }
  }

  /** What `Sample` can read out of a represented reservoir: only items added
      since the reset, none more often than it was added, and, until the buffer
      has overflowed, exactly the added items in arrival order. */
  lemma LiveSlots<T>(slots: seq<Option<T>>, history: seq<T>, tags: seq<Option<nat>>)
    requires Represents(slots, history, tags)
    ensures multiset(slots[..Filled(|history|, |slots|)]) <= multiset(Lift(history))
    ensures |history| <= |slots| ==> slots[..|history|] == Lift(history)
  {
    var k := Filled(|history|, |slots|);
    var o := seq(k, j requires 0 <= j < k => tags[j].value);
    InjectiveImageSubMultiset(slots[..k], Lift(history), o);
  }
}
