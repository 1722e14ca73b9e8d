/** The bookkeeping of the training loop: which label columns a model trains on, the validation
    counters summed over batches, the derived accuracy/precision/recall, the metrics history and the
    best-score checkpoint rule. The network, optimiser, scheduler and file writes are not modelled:
    each training step contributes only its loss value. */
module TrainMetrics {
  import opened Wrappers
  import opened LabelMetric

  /** `label_idx`: one column of the label vector, or the pair of columns. */
  datatype LabelIndex = Single(index: nat) | Pair(first: nat, second: nat)

  datatype Error =
    | ValueError(modelName: string)
    | MakedirsFailed        // `os.makedirs` of a missing or empty save directory
    | ShapeMismatch         // a single label column against the model's two outputs
    | UnboundLocalError     // `avg_loss` read before any training step assigned it

  /** The column selection for a model name; an unknown name raises ValueError. */
  function LabelIdx(modelName: string): (r: Result<LabelIndex, Error>)
    ensures r == Success(Single(1)) <==> modelName == "pull_start_detector"
    ensures r == Success(Single(2)) <==> modelName == "pull_end_detector"
    ensures r == Success(Pair(1, 2)) <==> modelName == "pull_detector"
    ensures r.Failure? ==> r.error == ValueError(modelName)
  {
    if modelName == "pull_start_detector" then Success(Single(1))
    else if modelName == "pull_end_detector" then Success(Single(2))
    else if modelName == "pull_detector" then Success(Pair(1, 2))
    else Failure(ValueError(modelName))
  }

  // ---------------------------------------------------------------------------------------------
  // Counters accumulated over the validation batches

  function Zero(): Counts {
    Counts(0, 0, 0, 0)
  }

  function AddCounts(a: Counts, b: Counts): Counts {
    Counts(a.tp + b.tp, a.fp + b.fp, a.tn + b.tn, a.fn + b.fn)
  }

  /** A label's counters, or zeros when the label has not been seen. */
  function Get(acc: map<string, Counts>, l: string): Counts {
    if l in acc then acc[l] else Zero()
  }

  /** One validation batch: the model's two output probabilities and the three-entry label of each frame. */
  datatype ValBatch = ValBatch(probs: seq<seq<real>>, labels: seq<seq<real>>)

  predicate ThreeLabels(rows: seq<seq<real>>) {
    forall k :: 0 <= k < |rows| ==> |rows[k]| == 3
  }

  predicate WellFormed(b: ValBatch) {
    |b.probs| == |b.labels| > 0 && TwoColumns(b.probs) && ThreeLabels(b.labels)
  }

  predicate AllWellFormed(batches: seq<ValBatch>) {
    forall k :: 0 <= k < |batches| ==> WellFormed(batches[k])
  }

  /** `label_batch[:, [i, j]]`: the two selected columns of every label row. */
  function Selected(rows: seq<seq<real>>, i: nat, j: nat): (r: seq<seq<real>>)
    requires ThreeLabels(rows) && i < 3 && j < 3
    ensures |r| == |rows| && TwoColumns(r)
  {
    seq(|rows|, k requires 0 <= k < |rows| => [rows[k][i], rows[k][j]])
  }

  /** The counts `calculate_accuracy_for_each_label` returns for one batch (float labels, threshold 0.5). */
  function BatchCounts(b: ValBatch, i: nat, j: nat): (m: map<string, Counts>)
    requires WellFormed(b) && i < 3 && j < 3
    ensures m.Keys == {"pull_start", "pull_end"}
  {
    LabelCounts(b.probs, Selected(b.labels, i, j), true, 0.5)
  }

  /** The counts of every batch, in order. */
  function AllBatchCounts(batches: seq<ValBatch>, i: nat, j: nat): (ms: seq<map<string, Counts>>)
    requires AllWellFormed(batches) && i < 3 && j < 3
    ensures |ms| == |batches|
    ensures forall k :: 0 <= k < |ms| ==> ms[k] == BatchCounts(batches[k], i, j)
  {
    seq(|batches|, k requires 0 <= k < |batches| => BatchCounts(batches[k], i, j))
  }

  /** Every label of every batch counts at least one frame. */
  predicate NonEmptyBatches(ms: seq<map<string, Counts>>) {
    forall k :: 0 <= k < |ms| ==> PositiveTotals(ms[k])
  }

  /** A batch's counts cover each of its frames once per label. */
  lemma BatchCountsCoverFrames(b: ValBatch, i: nat, j: nat)
    requires WellFormed(b) && i < 3 && j < 3
    ensures forall l :: l in BatchCounts(b, i, j) ==> Total(BatchCounts(b, i, j)[l]) == |b.probs|
    ensures PositiveTotals(BatchCounts(b, i, j))
  {
  }

  /** The labels seen in the first n batches. */
  function KeysOf(ms: seq<map<string, Counts>>, n: nat): set<string>
    requires n <= |ms|
  {
    if n == 0 then {} else KeysOf(ms, n - 1) + ms[n - 1].Keys
  }

  /** The sum over the first n batches of one label's counts. */
  function SumBatches(ms: seq<map<string, Counts>>, n: nat, l: string): Counts
    requires n <= |ms|
  {
    if n == 0 then Zero() else AddCounts(SumBatches(ms, n - 1, l), Get(ms[n - 1], l))
  }

  /** A label that some batch counts has a positive sum. */
  lemma {:induction false} SumBatchesPositive(ms: seq<map<string, Counts>>, n: nat, l: string)
    requires n <= |ms| && NonEmptyBatches(ms) && l in KeysOf(ms, n)
    ensures Total(SumBatches(ms, n, l)) > 0
  {
    if l in KeysOf(ms, n - 1) {
      SumBatchesPositive(ms, n - 1, l);
    } else {
      assert l in ms[n - 1];
    }
  }

  /** A label no batch counts sums to zero. */
  lemma {:induction false} SumBatchesUnseen(ms: seq<map<string, Counts>>, n: nat, l: string)
    requires n <= |ms| && l !in KeysOf(ms, n)
    ensures SumBatches(ms, n, l) == Zero()
  {
    if n > 0 {
      SumBatchesUnseen(ms, n - 1, l);
      assert Get(ms[n - 1], l) == Zero();
    }
  }

  /** The counters after the first n batches: each label starts at zero (or its earlier value) and
      gains every batch's counts for it. */
  function Accumulated(acc0: map<string, Counts>, ms: seq<map<string, Counts>>, n: nat): map<string, Counts>
    requires n <= |ms|
  {
    map l | l in acc0.Keys + KeysOf(ms, n) :: AddCounts(Get(acc0, l), SumBatches(ms, n, l))
  }

  predicate PositiveTotals(acc: map<string, Counts>) {
    forall l :: l in acc ==> Total(acc[l]) > 0
  }

  /** Counters that start positive stay positive. */
  lemma AccumulatedPositive(acc0: map<string, Counts>, ms: seq<map<string, Counts>>, n: nat)
    requires n <= |ms| && NonEmptyBatches(ms) && PositiveTotals(acc0)
    ensures PositiveTotals(Accumulated(acc0, ms, n))
  {
    forall l | l in Accumulated(acc0, ms, n) ensures Total(Accumulated(acc0, ms, n)[l]) > 0 {
      if l !in acc0 {
        SumBatchesPositive(ms, n, l);
      }
    }
  }

  /** The counters of `a` with those of `b` added, a label missing from either counting as zeros. */
  function Merge(a: map<string, Counts>, b: map<string, Counts>): map<string, Counts> {
    map l | l in a.Keys + b.Keys :: AddCounts(Get(a, l), Get(b, l))
  }

  /** One label's counters after one more batch: its earlier counters plus the batch's. */
  lemma AccumulatedStepAt(acc0: map<string, Counts>, ms: seq<map<string, Counts>>, k: nat, l: string)
    requires k < |ms| && l in Accumulated(acc0, ms, k + 1)
    ensures l in Merge(Accumulated(acc0, ms, k), ms[k])
    ensures Accumulated(acc0, ms, k + 1)[l] == Merge(Accumulated(acc0, ms, k), ms[k])[l]
  {
    if l !in Accumulated(acc0, ms, k) {
      SumBatchesUnseen(ms, k, l);
    }
  }

  /** The counters after the first k + 1 batches are those after k batches merged with batch k. */
  lemma AccumulatedStep(acc0: map<string, Counts>, ms: seq<map<string, Counts>>, k: nat)
    requires k < |ms|
    ensures Accumulated(acc0, ms, k + 1) == Merge(Accumulated(acc0, ms, k), ms[k])
  {
    var a, b := Accumulated(acc0, ms, k + 1), Merge(Accumulated(acc0, ms, k), ms[k]);
    forall l | l in a ensures l in b && a[l] == b[l] {
      AccumulatedStepAt(acc0, ms, k, l);
    }
    assert a.Keys == b.Keys;
  }

  /** The inner loop of one batch: each of its labels is created at zero if new, then incremented. */
  method MergeBatch(before: map<string, Counts>, m: map<string, Counts>) returns (acc: map<string, Counts>)
    ensures acc == Merge(before, m)
  {
    acc := before;
    var pending := m.Keys;
    while pending != {}
      invariant pending <= m.Keys
      invariant acc.Keys == before.Keys + (m.Keys - pending)
      invariant forall l :: l in acc ==> acc[l] == AddCounts(Get(before, l), if l in m.Keys - pending then m[l] else Zero())
      decreases pending
    {
      var l :| l in pending;
      if l !in acc {
        acc := acc[l := Zero()];
      }
      acc := acc[l := AddCounts(acc[l], m[l])];
      pending := pending - {l};
    }
  }

  /** `calculate_accuracy_for_each_label` applied to each validation batch in turn. */
  method BatchMetrics(batches: seq<ValBatch>, i: nat, j: nat) returns (ms: seq<map<string, Counts>>)
    requires AllWellFormed(batches) && i < 3 && j < 3
    ensures ms == AllBatchCounts(batches, i, j)
  {
    ms := [];
    for k := 0 to |batches|
      invariant |ms| == k
      invariant forall t :: 0 <= t < k ==> ms[t] == BatchCounts(batches[t], i, j)
    {
      var b := batches[k];
      var m := CalculateAccuracyForEachLabel(b.probs, Selected(b.labels, i, j), true, 0.5);
      ms := ms + [m];
    }
  }

  /** The loop over the batches' counts, adding each to `accuracy_dict`. */
  method Accumulate(acc0: map<string, Counts>, ms: seq<map<string, Counts>>) returns (acc: map<string, Counts>)
    ensures acc == Accumulated(acc0, ms, |ms|)
  {
    acc := acc0;
    for k := 0 to |ms|
      invariant acc == Accumulated(acc0, ms, k)
    {
      acc := MergeBatch(acc, ms[k]);
      AccumulatedStep(acc0, ms, k);
    }
  }

  /** The counts of well-formed batches are all positive. */
  lemma AllBatchCountsNonEmpty(batches: seq<ValBatch>, i: nat, j: nat)
    requires AllWellFormed(batches) && i < 3 && j < 3
    ensures NonEmptyBatches(AllBatchCounts(batches, i, j))
  {
    forall k | 0 <= k < |batches| ensures PositiveTotals(AllBatchCounts(batches, i, j)[k]) {
      BatchCountsCoverFrames(batches[k], i, j);
    }
  }

  // ---------------------------------------------------------------------------------------------
  // Derived metrics

  function Accuracy(c: Counts): real
    requires Total(c) > 0
  {
    (c.tp + c.tn) as real / Total(c) as real
  }

  function Precision(c: Counts): real {
    if c.tp + c.fp > 0 then c.tp as real / (c.tp + c.fp) as real else 0.0
  }

  function Recall(c: Counts): real {
    if c.tp + c.fn > 0 then c.tp as real / (c.tp + c.fn) as real else 0.0
  }

  /** A label's contribution to the score. */
  function Score(c: Counts): real
    requires Total(c) > 0
  {
    Accuracy(c) + Precision(c) + Recall(c)
  }

  lemma RatioInUnitRange(a: nat, b: nat)
    requires a <= b && b > 0
    ensures 0.0 <= a as real / b as real <= 1.0
  {
  }

  /** Each derived metric is a ratio in [0, 1], so a label adds between 0 and 3 to the score. */
  lemma MetricsInUnitRange(c: Counts)
    requires Total(c) > 0
    ensures 0.0 <= Accuracy(c) <= 1.0
    ensures 0.0 <= Precision(c) <= 1.0
    ensures 0.0 <= Recall(c) <= 1.0
    ensures 0.0 <= Score(c) <= 3.0
  {
    RatioInUnitRange(c.tp + c.tn, Total(c));
    if c.tp + c.fp > 0 { RatioInUnitRange(c.tp, c.tp + c.fp); }
    if c.tp + c.fn > 0 { RatioInUnitRange(c.tp, c.tp + c.fn); }
  }

  /** The sum of the scores of the labels in `ls`, in no particular order. */
  ghost function SumScores(acc: map<string, Counts>, ls: set<string>): real
    requires ls <= acc.Keys && PositiveTotals(acc)
    decreases ls
  {
    if ls == {} then 0.0 else var l :| l in ls; Score(acc[l]) + SumScores(acc, ls - {l})
  }

  /** The sum may start from any label, so a loop over the labels in dictionary order computes it. */
  lemma {:induction false} SumScoresRemove(acc: map<string, Counts>, ls: set<string>, l: string)
    requires ls <= acc.Keys && PositiveTotals(acc) && l in ls
    ensures SumScores(acc, ls) == Score(acc[l]) + SumScores(acc, ls - {l})
    decreases ls
  {
    var m :| m in ls && SumScores(acc, ls) == Score(acc[m]) + SumScores(acc, ls - {m});
    if m != l {
      SumScoresRemove(acc, ls - {m}, l);
      SumScoresRemove(acc, ls - {l}, m);
      assert ls - {m} - {l} == ls - {l} - {m};
    }
  }

  /** The score lies between 0 and three times the number of labels. */
  lemma {:induction false} SumScoresBounds(acc: map<string, Counts>, ls: set<string>)
    requires ls <= acc.Keys && PositiveTotals(acc)
    ensures 0.0 <= SumScores(acc, ls) <= 3.0 * |ls| as real
    decreases ls
  {
    if ls != {} {
      var l :| l in ls;
      SumScoresRemove(acc, ls, l);
      SumScoresBounds(acc, ls - {l});
      MetricsInUnitRange(acc[l]);
    }
  }

  // ---------------------------------------------------------------------------------------------
  // Metrics history and the best-score rule

  /** The keys of `metrics_history`: "step", "loss" and f"{label}_accuracy" etc. */
  datatype HistKey = Step | Loss | AccuracyOf(name: string) | PrecisionOf(name: string) | RecallOf(name: string)

  function Previous(h: map<HistKey, seq<real>>, k: HistKey): seq<real> {
    if k in h then h[k] else []
  }

  function MetricKeys(ls: set<string>): set<HistKey> {
    (set l | l in ls :: AccuracyOf(l)) + (set l | l in ls :: PrecisionOf(l)) + (set l | l in ls :: RecallOf(l))
  }

  /** The history after one value per metric of each label in `done` has been appended. */
  function Appended(h: map<HistKey, seq<real>>, acc: map<string, Counts>, done: set<string>): map<HistKey, seq<real>>
    requires done <= acc.Keys && PositiveTotals(acc)
  {
    map k | k in h.Keys + MetricKeys(done) ::
      if k.AccuracyOf? && k.name in done then Previous(h, k) + [Accuracy(acc[k.name])]
      else if k.PrecisionOf? && k.name in done then Previous(h, k) + [Precision(acc[k.name])]
      else if k.RecallOf? && k.name in done then Previous(h, k) + [Recall(acc[k.name])]
      else Previous(h, k)
  }

  /** A label's three lists exist together, have the same length and are never empty. */
  ghost predicate Grouped(h: map<HistKey, seq<real>>) {
    (forall l :: AccuracyOf(l) in h <==> PrecisionOf(l) in h) &&
    (forall l :: AccuracyOf(l) in h <==> RecallOf(l) in h) &&
    (forall l :: AccuracyOf(l) in h ==> |h[AccuracyOf(l)]| > 0) &&
    (forall l :: AccuracyOf(l) in h && PrecisionOf(l) in h ==> |h[PrecisionOf(l)]| == |h[AccuracyOf(l)]|) &&
    (forall l :: AccuracyOf(l) in h && RecallOf(l) in h ==> |h[RecallOf(l)]| == |h[AccuracyOf(l)]|)
  }

  /** One label's three lists, each created empty when missing, with one value appended to each. */
  function Extend(g: map<HistKey, seq<real>>, l: string, accuracy: real, precision: real, recall: real): map<HistKey, seq<real>> {
    g[AccuracyOf(l) := Previous(g, AccuracyOf(l)) + [accuracy]]
     [PrecisionOf(l) := Previous(g, PrecisionOf(l)) + [precision]]
     [RecallOf(l) := Previous(g, RecallOf(l)) + [recall]]
  }

  /** Extending a label keeps every label's lists together and of equal length. */
  lemma GroupedExtend(g: map<HistKey, seq<real>>, l: string, accuracy: real, precision: real, recall: real)
    requires Grouped(g)
    ensures Grouped(Extend(g, l, accuracy, precision, recall))
  {
    var e := Extend(g, l, accuracy, precision, recall);
    assert |Previous(g, PrecisionOf(l))| == |Previous(g, AccuracyOf(l))| == |Previous(g, RecallOf(l))|;
    forall l' | AccuracyOf(l') in e && PrecisionOf(l') in e
      ensures |e[PrecisionOf(l')]| == |e[AccuracyOf(l')]|
    {
      if l' != l {
        assert e[PrecisionOf(l')] == g[PrecisionOf(l')] && e[AccuracyOf(l')] == g[AccuracyOf(l')];
      }
    }
    forall l' | AccuracyOf(l') in e && RecallOf(l') in e
      ensures |e[RecallOf(l')]| == |e[AccuracyOf(l')]|
    {
      if l' != l {
        assert e[RecallOf(l')] == g[RecallOf(l')] && e[AccuracyOf(l')] == g[AccuracyOf(l')];
      }
    }
  }

  /** Membership in `MetricKeys`: exactly the three metric keys of the labels in the set. */
  lemma InMetricKeys(ls: set<string>, k: HistKey)
    ensures k in MetricKeys(ls) <==> (k.AccuracyOf? || k.PrecisionOf? || k.RecallOf?) && k.name in ls
  {
    if (k.AccuracyOf? || k.PrecisionOf? || k.RecallOf?) && k.name in ls {
      if k.AccuracyOf? { assert k == AccuracyOf(k.name); }
      if k.PrecisionOf? { assert k == PrecisionOf(k.name); }
      if k.RecallOf? { assert k == RecallOf(k.name); }
    }
  }

  /** One key of the history after one more label. */
  lemma AppendedStepAt(h: map<HistKey, seq<real>>, acc: map<string, Counts>, done: set<string>, l: string, k: HistKey)
    requires done <= acc.Keys && PositiveTotals(acc) && l in acc && l !in done
    ensures var c := acc[l];
      var e := Extend(Appended(h, acc, done), l, Accuracy(c), Precision(c), Recall(c));
      (k in Appended(h, acc, done + {l}) <==> k in e) &&
      (k in e ==> Appended(h, acc, done + {l})[k] == e[k])
  {
    InMetricKeys(done, k);
    InMetricKeys(done + {l}, k);
  }

  /** Appending one more label's metrics extends that label's lists. */
  lemma AppendedStep(h: map<HistKey, seq<real>>, acc: map<string, Counts>, done: set<string>, l: string)
    requires done <= acc.Keys && PositiveTotals(acc) && l in acc && l !in done
    ensures Appended(h, acc, done + {l}) == Extend(Appended(h, acc, done), l, Accuracy(acc[l]), Precision(acc[l]), Recall(acc[l]))
  {
    var a := Appended(h, acc, done + {l});
    var e := Extend(Appended(h, acc, done), l, Accuracy(acc[l]), Precision(acc[l]), Recall(acc[l]));
    forall k ensures (k in a <==> k in e) && (k in e ==> a[k] == e[k]) {
      AppendedStepAt(h, acc, done, l, k);
    }
  }

  /** "step" and "loss" are present with one entry per epoch each, and each label's lists are grouped. */
  ghost predicate HistoryValid(h: map<HistKey, seq<real>>) {
    Step in h && Loss in h && |h[Step]| == |h[Loss]| && Grouped(h)
  }

  /** The per-label update of `evaluate_val_metrics`: the three lists are created together when the
      accuracy list is missing, then one value is appended to each. */
  method AppendLabelMetrics(h: map<HistKey, seq<real>>, l: string, accuracy: real, precision: real, recall: real)
    returns (g: map<HistKey, seq<real>>)
    requires HistoryValid(h)
    ensures g == Extend(h, l, accuracy, precision, recall)
    ensures HistoryValid(g)
  {
    g := h;
    if AccuracyOf(l) !in g {
      g := g[AccuracyOf(l) := []][PrecisionOf(l) := []][RecallOf(l) := []];
    }
    g := g[AccuracyOf(l) := g[AccuracyOf(l)] + [accuracy]];
    g := g[PrecisionOf(l) := g[PrecisionOf(l)] + [precision]];
    g := g[RecallOf(l) := g[RecallOf(l)] + [recall]];
    GroupedExtend(h, l, accuracy, precision, recall);
  }

  /** The state of the loop over the labels once those in `done` are recorded and those in `pending` remain. */
  ghost predicate Recorded(h0: map<HistKey, seq<real>>, acc: map<string, Counts>, done: set<string>, pending: set<string>,
                           h: map<HistKey, seq<real>>, score: real)
  {
    done + pending == acc.Keys && done !! pending && PositiveTotals(acc) &&
    h == Appended(h0, acc, done) && score + SumScores(acc, pending) == SumScores(acc, acc.Keys) &&
    HistoryValid(h)
  }

  /** Recording one more label keeps the loop state. */
  lemma RecordedStep(h0: map<HistKey, seq<real>>, acc: map<string, Counts>, done: set<string>, pending: set<string>,
                     h: map<HistKey, seq<real>>, score: real, l: string)
    requires Recorded(h0, acc, done, pending, h, score) && l in pending
    ensures var c := acc[l];
      Recorded(h0, acc, done + {l}, pending - {l}, Extend(h, l, Accuracy(c), Precision(c), Recall(c)),
               score + (Accuracy(c) + Precision(c) + Recall(c)))
  {
    var c := acc[l];
    SumScoresRemove(acc, pending, l);
    AppendedStep(h0, acc, done, l);
    HistoryValidExtend(h, l, Accuracy(c), Precision(c), Recall(c));
    MoveOne(done, pending, acc.Keys, l);
  }

  /** Moving one element from `pending` to `done` keeps them a partition of `all`. */
  lemma MoveOne(done: set<string>, pending: set<string>, all: set<string>, l: string)
    requires done + pending == all && done !! pending && l in pending
    ensures (done + {l}) + (pending - {l}) == all && (done + {l}) !! (pending - {l})
  {
  }

  /** Extending a label's lists keeps the whole history valid. */
  lemma HistoryValidExtend(h: map<HistKey, seq<real>>, l: string, accuracy: real, precision: real, recall: real)
    requires HistoryValid(h)
    ensures HistoryValid(Extend(h, l, accuracy, precision, recall))
  {
    GroupedExtend(h, l, accuracy, precision, recall);
    var e := Extend(h, l, accuracy, precision, recall);
    assert e[Step] == h[Step] && e[Loss] == h[Loss];
  }

  /** The loop over the summed counters: each label's accuracy, precision and recall appended to the
      history and added to the score. */
  method RecordLabelMetrics(h0: map<HistKey, seq<real>>, acc: map<string, Counts>) returns (h: map<HistKey, seq<real>>, score: real)
    requires HistoryValid(h0) && PositiveTotals(acc)
    ensures HistoryValid(h)
    ensures h == Appended(h0, acc, acc.Keys)
    ensures score == SumScores(acc, acc.Keys) && 0.0 <= score <= 3.0 * |acc.Keys| as real
  {
    h, score := h0, 0.0;
    var pending := acc.Keys;
    ghost var done: set<string> := {};
    assert h0 == Appended(h0, acc, {});
    while pending != {}
      invariant Recorded(h0, acc, done, pending, h, score)
      decreases pending
    {
      var l :| l in pending;
      var c := acc[l];
      var accuracy, precision, recall := Accuracy(c), Precision(c), Recall(c);
      RecordedStep(h0, acc, done, pending, h, score, l);
      score := score + (accuracy + precision + recall);
      h := AppendLabelMetrics(h, l, accuracy, precision, recall);
      pending := pending - {l};
      done := done + {l};
    }
    SumScoresBounds(acc, acc.Keys);
  }

  /** Every list of the history holds at least one value. */
  ghost predicate NonEmptyLists(h: map<HistKey, seq<real>>) {
    forall k :: k in h ==> |h[k]| > 0
  }

  /** The last value of every list (`{k: v[-1] for k, v in metrics_history.items()}`). */
  function Lasts(h: map<HistKey, seq<real>>): (m: map<HistKey, real>)
    requires NonEmptyLists(h)
    ensures m.Keys == h.Keys
    ensures forall k :: k in h ==> m[k] == h[k][|h[k]| - 1]
  {
    map k | k in h :: h[k][|h[k]| - 1]
  }

  /** The end-of-epoch appends: the step count to "step" and the loss to "loss". */
  function Logged(h: map<HistKey, seq<real>>, stepCnt: nat, avgLoss: real): map<HistKey, seq<real>>
    requires Step in h && Loss in h
  {
    h[Step := h[Step] + [stepCnt as real]][Loss := h[Loss] + [avgLoss]]
  }

  /** After the end-of-epoch appends every list is non-empty, and the snapshot of last values holds
      this epoch's step count and loss, and each metric's latest value. */
  lemma LastsOfLogged(h: map<HistKey, seq<real>>, stepCnt: nat, avgLoss: real)
    requires HistoryValid(h)
    ensures NonEmptyLists(Logged(h, stepCnt, avgLoss))
    ensures var m := Lasts(Logged(h, stepCnt, avgLoss));
      m.Keys == h.Keys && m[Step] == stepCnt as real && m[Loss] == avgLoss &&
      forall k :: k in h && k != Step && k != Loss ==> m[k] == h[k][|h[k]| - 1]
  {
    var g := Logged(h, stepCnt, avgLoss);
    forall k | k in g ensures |g[k]| > 0 {
      if k.AccuracyOf? { assert AccuracyOf(k.name) in h; }
      if k.PrecisionOf? { assert AccuracyOf(k.name) in h; }
      if k.RecallOf? { assert AccuracyOf(k.name) in h; }
    }
  }

  /** The counters `evaluate_val_metrics` sums over the validation batches for the chosen columns. */
  function ValCounters(batches: seq<ValBatch>, idx: LabelIndex): (acc: map<string, Counts>)
    requires AllWellFormed(batches) && (idx.Pair? ==> idx.first < 3 && idx.second < 3)
    ensures PositiveTotals(acc)
  {
    var i, j := if idx.Pair? then idx.first else 0, if idx.Pair? then idx.second else 0;
    AllBatchCountsNonEmpty(batches, i, j);
    AccumulatedPositive(map[], AllBatchCounts(batches, i, j), |batches|);
    Accumulated(map[], AllBatchCounts(batches, i, j), |batches|)
  }

  class TrainingRun {
    var history: map<HistKey, seq<real>>
    var bestScore: real
    var bestMetrics: Option<map<HistKey, real>>

    ghost predicate Valid()
      reads this
    {
      HistoryValid(history) && bestScore >= 0.0 && (bestMetrics.Some? <==> bestScore > 0.0)
    }

    /** The state before the first epoch: empty step and loss lists, `best_score = 0`, no best metrics. */
    constructor ()
      ensures Valid()
      ensures history == map[Step := [], Loss := []] && bestScore == 0.0 && bestMetrics == None
    {
      history := map[Step := [], Loss := []];
      bestScore := 0.0;
      bestMetrics := None;
    }

    /** `evaluate_val_metrics`: counters over the batches, then for each label its three metrics
        appended to the history and added to the score. */
    method EvaluateValMetrics(batches: seq<ValBatch>, idx: LabelIndex) returns (r: Result<real, Error>)
      requires Valid() && AllWellFormed(batches)
      requires idx.Pair? ==> idx.first < 3 && idx.second < 3
      modifies this
      ensures Valid()
      ensures bestScore == old(bestScore) && bestMetrics == old(bestMetrics)
      ensures idx.Single? && batches != [] ==> r == Failure(ShapeMismatch) && history == old(history)
      ensures r.Failure? ==> idx.Single? && batches != []
      ensures r.Success? ==> r.value >= 0.0
      ensures r.Success? ==> (
        var acc := ValCounters(batches, idx);
        r.value == SumScores(acc, acc.Keys) && history == Appended(old(history), acc, acc.Keys))
    {
      if idx.Single? && batches != [] {
        return Failure(ShapeMismatch);
      }
      var i, j := if idx.Pair? then idx.first else 0, if idx.Pair? then idx.second else 0;
      var ms := BatchMetrics(batches, i, j);
      var acc := Accumulate(map[], ms);
      AllBatchCountsNonEmpty(batches, i, j);
      AccumulatedPositive(map[], ms, |ms|);
      var h, score := RecordLabelMetrics(history, acc);
      history := h;
      r := Success(score);
    }

    /** One epoch of `train`: the training steps (a single label column cannot be trained on), the
        validation, then the end-of-epoch bookkeeping; `avg_loss` unbound when no step ever ran. */
    method RunEpoch(e: Epoch, idx: LabelIndex, stepCnt0: nat, avgLoss0: Option<real>, saveDirSet: bool)
      returns (err: Option<Error>, stepCnt: nat, avgLoss: Option<real>)
      requires Valid() && AllWellFormed(e.valBatches)
      requires idx.Pair? ==> idx.first < 3 && idx.second < 3
      modifies this
      ensures err != Some(UnboundLocalError) ==> Valid()
      ensures idx.Single? && err.None? ==> e.trainLosses == [] && e.valBatches == []
      ensures idx.Single? && e.trainLosses != [] ==> err == Some(ShapeMismatch)
      ensures err.None? ==> stepCnt == stepCnt0 + |e.trainLosses| && avgLoss.Some?
      ensures err.None? && e.trainLosses != [] ==> avgLoss == Some(e.trainLosses[|e.trainLosses| - 1])
      ensures e.trainLosses == [] ==> stepCnt == stepCnt0 && avgLoss == avgLoss0
      ensures e.trainLosses == [] && avgLoss0 == None ==> err.Some?
      ensures err ==
        if idx.Single? && (e.trainLosses != [] || e.valBatches != []) then Some(ShapeMismatch)
        else if e.trainLosses == [] && avgLoss0 == None then Some(UnboundLocalError)
        else None
      ensures err.None? ==> var acc := ValCounters(e.valBatches, idx);
        var score := SumScores(acc, acc.Keys);
        history == Logged(Appended(old(history), acc, acc.Keys), stepCnt, avgLoss.value) &&
        (saveDirSet && score > old(bestScore) ==> NonEmptyLists(history) && bestScore == score && bestMetrics == Some(Lasts(history))) &&
        (!(saveDirSet && score > old(bestScore)) ==> bestScore == old(bestScore) && bestMetrics == old(bestMetrics))
      ensures err.None? && saveDirSet ==>
        bestScore == if EpochScore(e, idx) > old(bestScore) then EpochScore(e, idx) else old(bestScore)
      ensures err == Some(UnboundLocalError) ==> var acc := ValCounters(e.valBatches, idx);
        var evaluated := Appended(old(history), acc, acc.Keys);
        Step in evaluated && history == evaluated[Step := evaluated[Step] + [stepCnt as real]]
      ensures err.Some? && err != Some(UnboundLocalError) ==> history == old(history)
      ensures err.Some? ==> bestScore == old(bestScore) && bestMetrics == old(bestMetrics)
    {
      stepCnt, avgLoss := stepCnt0, avgLoss0;
      if idx.Single? && e.trainLosses != [] {
        return Some(ShapeMismatch), stepCnt, avgLoss;
      }
      if e.trainLosses != [] {
        stepCnt := stepCnt + |e.trainLosses|;
        avgLoss := Some(e.trainLosses[|e.trainLosses| - 1]);
      }
      var evaluated := EvaluateValMetrics(e.valBatches, idx);
      if evaluated.Failure? {
        return Some(evaluated.error), stepCnt, avgLoss;
      }
      if avgLoss == None {
        // the step count is appended before reading the unbound loss raises
        history := history[Step := history[Step] + [stepCnt as real]];
        return Some(UnboundLocalError), stepCnt, avgLoss;
      }
      EndEpoch(evaluated.value, stepCnt, avgLoss.value, saveDirSet);
      err := None;
    }

    /** An epoch of a run that has a save directory, seen from the epoch loop: which error it raises,
        and on success the best score kept as the maximum. */
    method TrainEpoch(e: Epoch, idx: LabelIndex, stepCnt0: nat, avgLoss0: Option<real>)
      returns (err: Option<Error>, stepCnt: nat, avgLoss: Option<real>)
      requires Valid() && AllWellFormed(e.valBatches)
      requires idx.Pair? ==> idx.first < 3 && idx.second < 3
      modifies this
      ensures err ==
        if idx.Single? && (e.trainLosses != [] || e.valBatches != []) then Some(ShapeMismatch)
        else if e.trainLosses == [] && avgLoss0 == None then Some(UnboundLocalError)
        else None
      ensures err.None? ==> Valid() && avgLoss.Some?
      ensures err.None? ==>
        bestScore == if EpochScore(e, idx) > old(bestScore) then EpochScore(e, idx) else old(bestScore)
    {
      err, stepCnt, avgLoss := RunEpoch(e, idx, stepCnt0, avgLoss0, true);
    }

    /** The epoch loop of a fresh run with a save directory: the first epoch decides whether the run
        fails, and a run that does not fail keeps the maximum epoch score as its best. */
    method TrainEpochs(epochs: seq<Epoch>, idx: LabelIndex) returns (err: Option<Error>)
      requires Valid() && bestScore == 0.0
      requires forall e :: e in epochs ==> AllWellFormed(e.valBatches)
      requires idx.Pair? ==> idx.first < 3 && idx.second < 3
      modifies this
      ensures err.None? <==> epochs == [] || (idx.Pair? && epochs[0].trainLosses != [])
      ensures epochs != [] && idx.Single? && (epochs[0].trainLosses != [] || epochs[0].valBatches != []) ==> err == Some(ShapeMismatch)
      ensures epochs != [] && epochs[0].trainLosses == [] && (idx.Pair? || epochs[0].valBatches == []) ==> err == Some(UnboundLocalError)
      ensures err.None? ==> Valid() && bestScore == MaxScore(epochs, idx, |epochs|)
      ensures err.None? && idx.Single? ==> NoBatches(epochs)
    {
      var stepCnt: nat := 0;
      var avgLoss: Option<real> := None;
      for n := 0 to |epochs|
        invariant Valid()
        invariant idx.Single? ==> forall t :: 0 <= t < n ==> epochs[t].trainLosses == [] && epochs[t].valBatches == []
        invariant n > 0 ==> idx.Pair? && epochs[0].trainLosses != [] && avgLoss.Some?
        invariant n == 0 ==> avgLoss == None
        invariant bestScore == MaxScore(epochs, idx, n)
      {
        assert epochs[n] in epochs;
        err, stepCnt, avgLoss := TrainEpoch(epochs[n], idx, stepCnt, avgLoss);
        if err.Some? {
          return;
        }
        MaxScoreStep(epochs, idx, n);
      }
      err := None;
    }

    /** The end of an epoch (lines after the validation call): step count and loss appended, and the
        best score and best metrics replaced when a save directory is set and the score is strictly
        higher. */
    method EndEpoch(score: real, stepCnt: nat, avgLoss: real, saveDirSet: bool)
      requires Valid() && score >= 0.0
      modifies this
      ensures Valid()
      ensures history == Logged(old(history), stepCnt, avgLoss)
      ensures NonEmptyLists(history)
      ensures saveDirSet && score > old(bestScore) ==> bestScore == score && bestMetrics == Some(Lasts(history))
      ensures !(saveDirSet && score > old(bestScore)) ==> bestScore == old(bestScore) && bestMetrics == old(bestMetrics)
      ensures bestScore >= old(bestScore)
    {
      LastsOfLogged(history, stepCnt, avgLoss);
      history := history[Step := history[Step] + [stepCnt as real]];
      history := history[Loss := history[Loss] + [avgLoss]];
      if saveDirSet && score > bestScore {
        bestScore := score;
        bestMetrics := Some(Lasts(history));
      }
    }
  }

  /** One epoch: the loss of each training step and the validation batches. */
  datatype Epoch = Epoch(trainLosses: seq<real>, valBatches: seq<ValBatch>)

  /** No epoch has a training step or a validation batch. */
  predicate NoBatches(epochs: seq<Epoch>) {
    forall t :: 0 <= t < |epochs| ==> epochs[t].trainLosses == [] && epochs[t].valBatches == []
  }

  /** The validation score of one epoch: the summed metrics of its batches' counters. */
  ghost function EpochScore(e: Epoch, idx: LabelIndex): real
    requires AllWellFormed(e.valBatches) && (idx.Pair? ==> idx.first < 3 && idx.second < 3)
  {
    var acc := ValCounters(e.valBatches, idx);
    SumScores(acc, acc.Keys)
  }

  /** The best score after the first n epochs: 0 to begin with, replaced by any strictly higher score. */
  ghost function MaxScore(epochs: seq<Epoch>, idx: LabelIndex, n: nat): (m: real)
    requires n <= |epochs| && (idx.Pair? ==> idx.first < 3 && idx.second < 3)
    requires forall e :: e in epochs ==> AllWellFormed(e.valBatches)
    ensures m >= 0.0
  {
    if n == 0 then 0.0
    else
      assert epochs[n - 1] in epochs;
      var prev := MaxScore(epochs, idx, n - 1);
      var s := EpochScore(epochs[n - 1], idx);
      if s > prev then s else prev
  }

  /** One more epoch replaces the best score exactly when its score is strictly higher. */
  lemma MaxScoreStep(epochs: seq<Epoch>, idx: LabelIndex, n: nat)
    requires n < |epochs| && (idx.Pair? ==> idx.first < 3 && idx.second < 3)
    requires forall e :: e in epochs ==> AllWellFormed(e.valBatches)
    ensures AllWellFormed(epochs[n].valBatches)
    ensures MaxScore(epochs, idx, n + 1) ==
      if EpochScore(epochs[n], idx) > MaxScore(epochs, idx, n) then EpochScore(epochs[n], idx) else MaxScore(epochs, idx, n)
  {
    assert epochs[n] in epochs;
  }

  /** The best score is at least every epoch's score, and it is 0 or one of them. */
  lemma {:induction false} MaxScoreBounds(epochs: seq<Epoch>, idx: LabelIndex, n: nat)
    requires n <= |epochs| && (idx.Pair? ==> idx.first < 3 && idx.second < 3)
    requires forall e :: e in epochs ==> AllWellFormed(e.valBatches)
    ensures forall t :: 0 <= t < n ==> EpochScore(epochs[t], idx) <= MaxScore(epochs, idx, n)
    ensures MaxScore(epochs, idx, n) == 0.0 || exists t :: 0 <= t < n && MaxScore(epochs, idx, n) == EpochScore(epochs[t], idx)
  {
    if n > 0 {
      MaxScoreBounds(epochs, idx, n - 1);
      assert epochs[n - 1] in epochs;
      var m := MaxScore(epochs, idx, n);
      var prev := MaxScore(epochs, idx, n - 1);
      var s := EpochScore(epochs[n - 1], idx);
      assert m == if s > prev then s else prev;
      if m != 0.0 && m != s {
        var t :| 0 <= t < n - 1 && prev == EpochScore(epochs[t], idx);
      }
    }
  }

  datatype Outcome = Outcome(bestMetrics: Option<map<HistKey, real>>, bestScore: real)

  /** `train` without the network: the save directory is created first, the label columns chosen, then
      each epoch's steps counted and its validation scored. */
  method Train(modelName: string, saveDir: Option<string>, epochs: seq<Epoch>) returns (r: Result<Outcome, Error>)
    requires forall e :: e in epochs ==> AllWellFormed(e.valBatches)
    ensures saveDir == None || saveDir == Some("") ==> r == Failure(MakedirsFailed)
    ensures saveDir != None && saveDir != Some("") && LabelIdx(modelName).Failure? ==> r == Failure(ValueError(modelName))
    ensures r.Success? ==> r.value.bestScore >= 0.0 && (r.value.bestMetrics.Some? <==> r.value.bestScore > 0.0)
    ensures r.Success? ==> LabelIdx(modelName) == Success(Pair(1, 2)) || NoBatches(epochs)
    ensures r.Success? <==>
      saveDir != None && saveDir != Some("") && LabelIdx(modelName).Success? &&
      (epochs == [] || (LabelIdx(modelName).value.Pair? && epochs[0].trainLosses != []))
    ensures saveDir != None && saveDir != Some("") && LabelIdx(modelName).Success? && epochs != [] ==>
      var e := epochs[0];
      (LabelIdx(modelName).value.Single? && (e.trainLosses != [] || e.valBatches != []) ==> r == Failure(ShapeMismatch)) &&
      (e.trainLosses == [] && (LabelIdx(modelName).value.Pair? || e.valBatches == []) ==> r == Failure(UnboundLocalError))
    ensures r.Success? ==> r.value.bestScore == MaxScore(epochs, LabelIdx(modelName).value, |epochs|)
  {
    if saveDir == None || saveDir == Some("") {
      return Failure(MakedirsFailed);
    }
    var parsed := LabelIdx(modelName);
    if parsed.Failure? {
      return Failure(parsed.error);
    }
    var idx := parsed.value;
    var run := new TrainingRun();
    assert idx.Pair? ==> idx.first < 3 && idx.second < 3;
    var err := run.TrainEpochs(epochs, idx);
    if err.Some? {
      return Failure(err.value);
    }
    r := Success(Outcome(run.bestMetrics, run.bestScore));
  }
}
