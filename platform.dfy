/** The shape of the entity lists the setup functions build: an outer loop
    over device ids and an inner loop over sensor types. */
module Platform {

  /** One device's entities: the device id paired with each type, in order. */
  function Row(id: string, types: seq<string>): (r: seq<(string, string)>)
    ensures |r| == |types|
    ensures forall j :: 0 <= j < |types| ==> r[j] == (id, types[j])
  {
    seq(|types|, j requires 0 <= j < |types| => (id, types[j]))
  }

  /** The (device id, sensor type) of every entity, device after device. */
  function Expand(ids: seq<string>, types: seq<string>): seq<(string, string)>
  {
    if ids == [] then [] else Expand(ids[..|ids| - 1], types) + Row(ids[|ids| - 1], types)
  }

  lemma {:induction false} ExpandLength(ids: seq<string>, types: seq<string>)
    ensures |Expand(ids, types)| == |ids| * |types|
  {
    if ids != [] {
      var n := |ids|;
      ExpandLength(ids[..n - 1], types);
      assert (n - 1) * |types| + |types| == n * |types|;
    }
  }

  /** Entity number `i * |types| + j` belongs to the i-th device and the j-th type. */
  lemma {:induction false} ExpandAt(ids: seq<string>, types: seq<string>, i: nat, j: nat)
    requires i < |ids| && j < |types|
    ensures i * |types| + j < |Expand(ids, types)|
    ensures Expand(ids, types)[i * |types| + j] == (ids[i], types[j])
  {
    var n := |ids|;
    var prefix := ids[..n - 1];
    ExpandLength(prefix, types);
    ExpandLength(ids, types);
    MulIndexBound(i, n, |types|, j);
    if i < n - 1 {
      ExpandAt(prefix, types, i, j);
      MulIndexBound(i, n - 1, |types|, j);
    }
  }

  /** Row i, column j of an m-row table with t columns lies inside it. */
  lemma MulIndexBound(i: nat, m: nat, t: nat, j: nat)
    requires i < m && j < t
    ensures i * t + j < m * t
    ensures (m - 1) * t + t == m * t
  {
    var d := m - i - 1;
    assert m * t == (i + 1) * t + d * t;
    assert (i + 1) * t == i * t + t;
    assert (m - 1) * t == m * t - t;
  }
}
