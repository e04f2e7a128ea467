/**
 Client scenarios, proved from the contracts of `Set` alone.
 */
module ErrorSampleExamples {
  import opened Reservoir
  import opened ErrorSample

  /** A fresh array of `m` nil slots, the `make([]error, m)` of a caller. */
  method MakeSlots<T>(m: nat) returns (p: array<Option<T>>)
    ensures fresh(p) && p.Length == m
    ensures forall j :: 0 <= j < m ==> p[j] == None
  {
    p := new Option<T>[m](_ => None);
  }

  /** The package example: three items added to a set of capacity 20 come back
      in arrival order, and nothing else does. */
  method ExampleInOrder() returns (got: seq<Option<string>>)
    ensures got == [Some("first"), Some("second"), Some("third")]
  {
    var rs := new Set<string>(20);
    rs.Add("first", 0);
    rs.Add("second", 0);
    rs.Add("third", 0);
    var errs := MakeSlots<string>(rs.Cap());
    var k := rs.Sample(errs);
    got := errs[..k];
  }

  /** Capacity 2, items A, B, C, and the draw for C picks slot 0: the sample is C, B. */
  method ExampleReplaceFirst() returns (got: seq<Option<string>>)
    ensures got == [Some("C"), Some("B")]
  {
    var rs := new Set<string>(2);
    rs.Add("A", 0);
    rs.Add("B", 0);
    rs.Add("C", 0);
    var errs := MakeSlots<string>(2);
    var k := rs.Sample(errs);
    got := errs[..k];
  }

  /** Capacity 2, items A, B, C, D: the draw for C picks slot 1, and the draw
      for D is 2, past the buffer, so D is discarded and the sample is A, C. */
  method ExampleDiscard() returns (got: seq<Option<string>>)
    ensures got == [Some("A"), Some("C")]
  {
    var rs := new Set<string>(2);
    rs.Add("A", 0);
    rs.Add("B", 0);
    rs.Add("C", 1);
    rs.Add("D", 2);
    var errs := MakeSlots<string>(2);
    var k := rs.Sample(errs);
    got := errs[..k];
  }

  /** Capacity 0: adding still counts, but every sample is empty. */
  method ExampleZeroCapacity(m: nat) returns (added: nat, k: nat)
    ensures added == 3 && k == 0
  {
    var rs := new Set<int>(0);
    rs.Add(1, 0);
    rs.Add(2, 0);
    rs.Add(3, 0);
    added := rs.Added();
    var p := MakeSlots<int>(m);
    k := rs.Sample(p);
  }

  /** After `Reset` the count is 0 and a sample is empty, although the buffer
      still holds the earlier items. */
  method ExampleReset(m: nat) returns (added: nat, k: nat)
    ensures added == 0 && k == 0
  {
    var rs := new Set<int>(4);
    rs.Add(7, 0);
    rs.Add(8, 0);
    rs.Reset();
    added := rs.Added();
    var p := MakeSlots<int>(m);
    k := rs.Sample(p);
  }

  /** Two successive samples with no `Add` or `Reset` between them agree, and
      neither changes what the set holds. */
  method SampleTwice<T>(rs: Set<T>, m: nat) returns (first: seq<Option<T>>, second: seq<Option<T>>)
    requires rs.Valid()
    ensures first == second
    ensures |first| <= m && |first| <= rs.Cap() && |first| <= rs.Added()
  {
    var p := MakeSlots<T>(m);
    var k := rs.Sample(p);
    first := p[..k];
    var q := MakeSlots<T>(m);
    var l := rs.Sample(q);
    second := q[..l];
  }
}
