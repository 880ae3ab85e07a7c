/**
 * The chart shapes of lib/types.ts. A line-chart row is a JavaScript object
 * (`Record<string, any>`). `Object.keys` lists its keys in insertion order when
 * none of them is an array index (such as "0" or "2023"), and the line chart
 * relies on that order, so a row is modelled as an ordered list of fields.
 * Array-index keys, which JavaScript lists first in ascending order, are not
 * modelled.
 */
module ChartTypes {
  import opened Wrappers

  datatype Value = Num(n: real) | Text(s: string)

  datatype Field = Field(key: string, value: Value)

  type Record = seq<Field>

  /** `Object.keys(rec)`, in insertion order. */
  function Keys(rec: Record): (ks: seq<string>)
    ensures |ks| == |rec|
    ensures forall i :: 0 <= i < |rec| ==> ks[i] == rec[i].key
  {
    seq(|rec|, i requires 0 <= i < |rec| => rec[i].key)
  }

  /** `rec[k]`: the value stored under `k`, or `undefined`. */
  function Get(rec: Record, k: string): (r: Option<Value>)
    ensures r.Some? <==> k in Keys(rec)
    ensures r.Some? ==> Field(k, r.value) in rec
    decreases |rec|
  {
    if rec == [] then None
    else if rec[0].key == k then Some(rec[0].value)
    else
      assert Keys(rec) == [rec[0].key] + Keys(rec[1..]);
      Get(rec[1..], k)
  }

  /** No key occurs twice, as in every JavaScript object. */
  predicate DistinctKeys(rec: Record) {
    forall i, j :: 0 <= i < j < |rec| ==> Keys(rec)[i] != Keys(rec)[j]
  }

  predicate HasNum(rec: Record, k: string) {
    Get(rec, k).Some? && Get(rec, k).value.Num?
  }

  function NumAt(rec: Record, k: string): real
    requires HasNum(rec, k)
  {
    Get(rec, k).value.n
  }

  /** Overwrites the value under `k` where it stands, leaving every other field as it is. */
  function Replace(rec: Record, k: string, v: Value): (r: Record)
    ensures Keys(r) == Keys(rec)
    ensures Get(r, k) == (if k in Keys(rec) then Some(v) else None)
    ensures forall k' :: k' != k ==> Get(r, k') == Get(rec, k')
    decreases |rec|
  {
    if rec == [] then []
    else
      var head := if rec[0].key == k then Field(k, v) else rec[0];
      var r := [head] + Replace(rec[1..], k, v);
      assert r[1..] == Replace(rec[1..], k, v);
      assert Keys(rec) == [rec[0].key] + Keys(rec[1..]);
      r
  }

  lemma {:induction false} GetAppend(rec: Record, f: Field, k: string)
    ensures Get(rec + [f], k) == if k in Keys(rec) then Get(rec, k) else if k == f.key then Some(f.value) else None
    decreases |rec|
  {
    if rec == [] {
      assert rec + [f] == [f];
    } else {
      assert (rec + [f])[1..] == rec[1..] + [f];
      assert Keys(rec) == [rec[0].key] + Keys(rec[1..]);
      GetAppend(rec[1..], f, k);
    }
  }

  /**
   * `{...rec, [k]: v}`: a copy of `rec` in which `k` holds `v`; an existing key keeps
   * its place, a new key goes last.
   */
  function Set(rec: Record, k: string, v: Value): (r: Record)
    ensures Get(r, k) == Some(v)
    ensures forall k' :: k' != k ==> Get(r, k') == Get(rec, k')
    ensures Keys(r) == if k in Keys(rec) then Keys(rec) else Keys(rec) + [k]
  {
    if k in Keys(rec) then Replace(rec, k, v)
    else
      var r := rec + [Field(k, v)];
      assert forall k' :: Get(r, k') == if k' in Keys(rec) then Get(rec, k') else if k' == k then Some(v) else None by {
        forall k' { GetAppend(rec, Field(k, v), k'); }
      }
      assert Keys(r) == Keys(rec) + [k];
      r
  }

  /** A copy made by spread is an object again: its keys stay distinct. */
  lemma SetKeepsDistinctKeys(rec: Record, k: string, v: Value)
    ensures DistinctKeys(rec) ==> DistinctKeys(Set(rec, k, v))
  {
    var ks := Keys(Set(rec, k, v));
    if k !in Keys(rec) {
      assert ks == Keys(rec) + [k];
      assert forall i :: 0 <= i < |rec| ==> ks[i] == Keys(rec)[i];
    }
  }

  /** A point of the relative-rotation chart (`RelativeRotationData`). */
  datatype RotationPoint = RotationPoint(
    name: string,
    relativeStrength: real,
    momentum: real,
    size: Option<real>,
    color: Option<string>)

  /** Names of the sectors, in order. */
  function SectorNames(points: seq<RotationPoint>): (names: seq<string>)
    ensures |names| == |points| && forall i :: 0 <= i < |points| ==> names[i] == points[i].name
  {
    seq(|points|, i requires 0 <= i < |points| => points[i].name)
  }

  /** `ChartData`: the `type` tag picks which of the two kinds of data the chart holds. */
  datatype ChartData =
    | LineChart(title: string, xAxisLabel: Option<string>, yAxisLabel: Option<string>, rows: seq<Record>)
    | RotationChart(title: string, xAxisLabel: Option<string>, yAxisLabel: Option<string>, points: seq<RotationPoint>)
}
