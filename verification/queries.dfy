/** The derived repository queries (`findAllBy…`, `findBy…`, `existsBy…`)
    as filters over a table whose row identifiers are their positions. */
module Queries {
  import opened Common

  /** The identifiers, from `from` on and in ascending order, of the rows that satisfy `p`. */
  function WhereFrom<T>(rows: seq<T>, p: T -> bool, from: nat): (ids: seq<nat>)
    requires from <= |rows|
    ensures forall k :: 0 <= k < |ids| ==> from <= ids[k] < |rows| && p(rows[ids[k]])
    ensures forall k, l :: 0 <= k < l < |ids| ==> ids[k] < ids[l]
    ensures forall i :: from <= i < |rows| && p(rows[i]) ==> i in ids
    decreases |rows| - from
  {
    if from == |rows| then []
    else if p(rows[from]) then [from] + WhereFrom(rows, p, from + 1)
    else WhereFrom(rows, p, from + 1)
  }

  /** `findAllBy…`: every row satisfying `p`, in identifier order, each once. */
  function Where<T>(rows: seq<T>, p: T -> bool): (ids: seq<nat>)
    ensures forall k :: 0 <= k < |ids| ==> ids[k] < |rows| && p(rows[ids[k]])
    ensures forall k, l :: 0 <= k < l < |ids| ==> ids[k] < ids[l]
    ensures forall i :: 0 <= i < |rows| && p(rows[i]) ==> i in ids
  {
    WhereFrom(rows, p, 0)
  }

  /** No row from `from` on satisfies `p`: the filter selects nothing. */
  lemma {:induction false} WhereFromNone<T>(rows: seq<T>, p: T -> bool, from: nat)
    requires from <= |rows|
    requires forall i :: from <= i < |rows| ==> !p(rows[i])
    ensures WhereFrom(rows, p, from) == []
    decreases |rows| - from
  {
    if from < |rows| {
      WhereFromNone(rows, p, from + 1);
    }
  }

  /** `findAllBy…` is empty exactly when no row satisfies `p`. */
  lemma WhereEmpty<T>(rows: seq<T>, p: T -> bool)
    ensures Where(rows, p) == [] <==> forall i :: 0 <= i < |rows| ==> !p(rows[i])
  {
    if forall i :: 0 <= i < |rows| ==> !p(rows[i]) {
      WhereFromNone(rows, p, 0);
    }
  }

  /** `findBy…`: the first row (by identifier) from `from` on that satisfies `p`, if any. */
  function FirstWhereFrom<T>(rows: seq<T>, p: T -> bool, from: nat): (r: Option<nat>)
    requires from <= |rows|
    ensures r.Some? ==> from <= r.value < |rows| && p(rows[r.value])
    ensures r.Some? ==> forall j :: from <= j < r.value ==> !p(rows[j])
    ensures r.None? ==> forall j :: from <= j < |rows| ==> !p(rows[j])
    decreases |rows| - from
  {
    if from == |rows| then None
    else if p(rows[from]) then Some(from)
    else FirstWhereFrom(rows, p, from + 1)
  }

  function FirstWhere<T>(rows: seq<T>, p: T -> bool): (r: Option<nat>)
    ensures r.Some? ==> r.value < |rows| && p(rows[r.value])
    ensures r.Some? ==> forall j :: 0 <= j < r.value ==> !p(rows[j])
    ensures r.None? <==> forall j :: 0 <= j < |rows| ==> !p(rows[j])
  {
    FirstWhereFrom(rows, p, 0)
  }
}
