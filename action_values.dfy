/** A row of action values: one estimated return per action, as the
    Q-network produces for a single state. `ArgMax` is numpy's `argmax`
    on that row and `RowMax` the value half of torch's `max(1)`. */
module ActionValues {

  /** Index of the largest action value. Like numpy's `argmax`, it picks the
      first index that holds the maximum; callers rely only on maximality. */
  function ArgMax(values: seq<real>): (k: nat)
    requires |values| > 0
    ensures k < |values|
    ensures forall j :: 0 <= j < |values| ==> values[j] <= values[k]
    ensures forall j :: 0 <= j < k ==> values[j] < values[k]
  {
    if |values| == 1 then 0
    else
      var k := ArgMax(values[..|values| - 1]);
      if values[|values| - 1] > values[k] then |values| - 1 else k
  }

  /** The largest action value of a non-empty row: an upper bound that the
      row attains. */
  function RowMax(values: seq<real>): (m: real)
    requires |values| > 0
    ensures forall j :: 0 <= j < |values| ==> values[j] <= m
    ensures exists j :: 0 <= j < |values| && values[j] == m
  {
    values[ArgMax(values)]
  }

  /** The maximum is unique: any value of the row that bounds the whole row
      is the row maximum, so it does not matter which maximiser is taken. */
  lemma MaximalValueIsRowMax(values: seq<real>, k: nat)
    requires k < |values|
    requires forall j :: 0 <= j < |values| ==> values[j] <= values[k]
    ensures RowMax(values) == values[k]
  {
  }
}
