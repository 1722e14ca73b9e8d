/** Per-label confusion counts of the pull detector's two outputs, pull_start (column 0) and
    pull_end (column 1). The model's logits are taken already passed through the sigmoid. */
module LabelMetric {
  datatype Counts = Counts(tp: nat, fp: nat, tn: nat, fn: nat)

  function Total(c: Counts): nat {
    c.tp + c.fp + c.tn + c.fn
  }

  /** The number of true entries. */
  function CountTrue(s: seq<bool>): (n: nat)
    ensures n <= |s|
  {
    if s == [] then 0 else CountTrue(s[..|s| - 1]) + (if s[|s| - 1] then 1 else 0)
  }

  /** The four confusion counts of the predictions against the ground truth, element by element. */
  function Confusion(pred: seq<bool>, truth: seq<bool>): Counts
    requires |pred| == |truth|
  {
    if pred == [] then Counts(0, 0, 0, 0)
    else
      var c := Confusion(pred[..|pred| - 1], truth[..|truth| - 1]);
      var p, t := pred[|pred| - 1], truth[|truth| - 1];
      if p && t then c.(tp := c.tp + 1)
      else if p then c.(fp := c.fp + 1)
      else if t then c.(fn := c.fn + 1)
      else c.(tn := c.tn + 1)
  }

  /** The counts split the positive truths (tp + fn), the positive predictions (tp + fp) and the
      negative truths (tn + fp). */
  lemma {:induction false} ConfusionSums(pred: seq<bool>, truth: seq<bool>)
    requires |pred| == |truth|
    ensures Confusion(pred, truth).tp + Confusion(pred, truth).fn == CountTrue(truth)
    ensures Confusion(pred, truth).tp + Confusion(pred, truth).fp == CountTrue(pred)
    ensures Confusion(pred, truth).tn + Confusion(pred, truth).fp == |truth| - CountTrue(truth)
  {
    if pred != [] {
      ConfusionSums(pred[..|pred| - 1], truth[..|truth| - 1]);
    }
  }

  /** Every element falls in exactly one of the four counts. */
  lemma ConfusionTotal(pred: seq<bool>, truth: seq<bool>)
    requires |pred| == |truth|
    ensures Total(Confusion(pred, truth)) == |pred|
  {
    ConfusionSums(pred, truth);
  }

  /** Swapping the roles of prediction and truth swaps false positives with false negatives. */
  lemma {:induction false} ConfusionSwap(pred: seq<bool>, truth: seq<bool>)
    requires |pred| == |truth|
    ensures Confusion(truth, pred) == Confusion(pred, truth).(fp := Confusion(pred, truth).fn, fn := Confusion(pred, truth).fp)
  {
    if pred != [] {
      ConfusionSwap(pred[..|pred| - 1], truth[..|truth| - 1]);
    }
  }

  /** Every row of a batch has at least the two output columns. */
  predicate TwoColumns(rows: seq<seq<real>>) {
    forall k :: 0 <= k < |rows| ==> |rows[k]| >= 2
  }

  /** The ground truth of one column: `>= 0.5` for a floating tensor, `== 1` otherwise. */
  function TruthColumn(rows: seq<seq<real>>, col: nat, isFloat: bool): (t: seq<bool>)
    requires TwoColumns(rows) && col < 2
    ensures |t| == |rows|
    ensures forall k :: 0 <= k < |rows| ==> (t[k] <==> if isFloat then rows[k][col] >= 0.5 else rows[k][col] == 1.0)
  {
    seq(|rows|, k requires 0 <= k < |rows| => if isFloat then rows[k][col] >= 0.5 else rows[k][col] == 1.0)
  }

  /** The predictions of one column: probability at least the threshold. */
  function PredColumn(rows: seq<seq<real>>, col: nat, threshold: real): (p: seq<bool>)
    requires TwoColumns(rows) && col < 2
    ensures |p| == |rows|
    ensures forall k :: 0 <= k < |rows| ==> (p[k] <==> rows[k][col] >= threshold)
  {
    seq(|rows|, k requires 0 <= k < |rows| => rows[k][col] >= threshold)
  }

  const Labels: seq<string> := ["pull_start", "pull_end"]

  /** The counts of both labels: pull_start from column 0, pull_end from column 1. */
  function LabelCounts(probs: seq<seq<real>>, truths: seq<seq<real>>, isFloat: bool, threshold: real): (m: map<string, Counts>)
    requires |probs| == |truths| && TwoColumns(probs) && TwoColumns(truths)
    ensures m.Keys == {"pull_start", "pull_end"}
    ensures Total(m["pull_start"]) == |probs| && Total(m["pull_end"]) == |probs|
  {
    ConfusionTotal(PredColumn(probs, 0, threshold), TruthColumn(truths, 0, isFloat));
    ConfusionTotal(PredColumn(probs, 1, threshold), TruthColumn(truths, 1, isFloat));
    map["pull_start" := Confusion(PredColumn(probs, 0, threshold), TruthColumn(truths, 0, isFloat)),
        "pull_end" := Confusion(PredColumn(probs, 1, threshold), TruthColumn(truths, 1, isFloat))]
  }

  /** `calculate_accuracy_for_each_label`: the counts of each label, filled label by label. */
  method CalculateAccuracyForEachLabel(probs: seq<seq<real>>, truths: seq<seq<real>>, isFloat: bool, threshold: real)
    returns (acc: map<string, Counts>)
    requires |probs| == |truths| && TwoColumns(probs) && TwoColumns(truths)
    ensures acc == LabelCounts(probs, truths, isFloat, threshold)
  {
    acc := map[];
    for i := 0 to 2
      invariant acc.Keys == set j | 0 <= j < i :: Labels[j]
      invariant forall j :: 0 <= j < i ==> acc[Labels[j]] == Confusion(PredColumn(probs, j, threshold), TruthColumn(truths, j, isFloat))
    {
      acc := acc[Labels[i] := Counts(0, 0, 0, 0)];
      var pred := PredColumn(probs, i, threshold);
      var truth := TruthColumn(truths, i, isFloat);
      acc := acc[Labels[i] := Confusion(pred, truth)];
    }
    assert Labels[0] == "pull_start" && Labels[0] in acc;
    assert Labels[1] == "pull_end" && Labels[1] in acc;
  }
}
