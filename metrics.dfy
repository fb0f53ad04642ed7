/**
 * recsys/evaluate.py `metrics_dataframe`: the per-fold measurements `iterate_algo` collects,
 * averaged per algorithm into the three tables (general metrics, precision@k, recall@k).
 */
module MetricsTables {
  import opened Wrappers
  import opened Seqs

  /**
   * The dictionary `iterate_algo` returns. Entry `a` of every list belongs to the algorithm
   * `algoName[a]`; inner lists hold one value per fold, the dictionaries one list per k.
   */
  datatype Metrics = Metrics(
    cvRmse: seq<seq<real>>,
    cvPrecision: seq<map<int, seq<real>>>,
    cvRecall: seq<map<int, seq<real>>>,
    cvFitTime: seq<seq<real>>,
    cvPredTime: seq<seq<real>>,
    cvPersonalization: seq<seq<Score>>,
    algoName: seq<string>)

  /** `np.mean(xs)`: NaN for an empty list. */
  function MeanScore(xs: seq<real>): (r: Score)
    ensures r.NaN? <==> xs == []
  {
    if xs == [] then NaN else Value(Mean(xs))
  }

  /** The mean of fold values lies between their bounds. */
  lemma MeanScoreBounds(xs: seq<real>, lo: real, hi: real)
    requires forall i :: 0 <= i < |xs| ==> lo <= xs[i] <= hi
    ensures MeanScore(xs).Value? ==> lo <= MeanScore(xs).v <= hi
  {
    if xs != [] {
      MeanBounds(xs, lo, hi);
    }
  }

  /** The numbers of a list of scores, or None when one of them is NaN. */
  function Numbers(xs: seq<Score>): (r: Option<seq<real>>)
    ensures r.None? <==> exists i :: 0 <= i < |xs| && xs[i].NaN?
    ensures r.Some? ==> |r.value| == |xs| && forall i :: 0 <= i < |xs| ==> xs[i] == Value(r.value[i])
  {
    if xs == [] then Some([])
    else
      var init := Numbers(xs[..|xs| - 1]);
      var last := xs[|xs| - 1];
      if init.None? || last.NaN? then
        assert init.None? ==> exists i :: 0 <= i < |xs| - 1 && xs[i].NaN?;
        None
      else Some(init.value + [last.v])
  }

  /** `np.mean` over personalization scores: NaN propagates, and an empty list is NaN. */
  function MeanOfScores(xs: seq<Score>): (r: Score)
    ensures r.NaN? <==> xs == [] || exists i :: 0 <= i < |xs| && xs[i].NaN?
  {
    match Numbers(xs)
    case None => NaN
    case Some(vs) => MeanScore(vs)
  }

  /** `{k: np.mean(v) for k, v in d.items()}`. */
  function MeanPerK(d: map<int, seq<real>>): map<int, Score>
  {
    map k | k in d :: MeanScore(d[k])
  }

  /** A row of `df_general_metrics`, indexed by the algorithm name. */
  datatype GeneralRow = GeneralRow(algoName: string, rmse: Score, fitTime: Score, predTime: Score, personalization: Score)

  /** One algorithm's column of `df_precision` (or `df_recall`): its mean for each k. */
  datatype KColumn = KColumn(algoName: string, means: map<int, Score>)

  /** `df_precision, df_recall, df_general_metrics`. */
  datatype Frames = Frames(precision: seq<KColumn>, recall: seq<KColumn>, general: seq<GeneralRow>)

  /** `pd.DataFrame(general_metrics)` needs all five columns to have the same length. */
  predicate GeneralShape(m: Metrics)
  {
    |m.cvRmse| == |m.algoName| && |m.cvFitTime| == |m.algoName| &&
    |m.cvPredTime| == |m.algoName| && |m.cvPersonalization| == |m.algoName|
  }

  /**
   * `pd.DataFrame(ds, index=names)` needs one dictionary per name; an empty list gives a frame
   * with the index and no columns.
   */
  predicate FitsIndex(ds: seq<map<int, seq<real>>>, names: seq<string>)
  {
    ds == [] || |ds| == |names|
  }

  function KColumns(ds: seq<map<int, seq<real>>>, names: seq<string>): (r: seq<KColumn>)
    requires FitsIndex(ds, names)
    ensures |r| == |names|
  {
    seq(|names|, a requires 0 <= a < |names| =>
      KColumn(names[a], if ds == [] then map[] else MeanPerK(ds[a])))
  }

  /** recsys/evaluate.py `metrics_dataframe`. */
  function MetricsDataframe(m: Metrics): (r: Result<Frames, PyError>)
    ensures r.Failure? <==> !GeneralShape(m) || !FitsIndex(m.cvPrecision, m.algoName) || !FitsIndex(m.cvRecall, m.algoName)
    ensures r.Failure? ==> r.error == ValueError
    ensures r.Success? ==>
              |r.value.general| == |m.algoName| && |r.value.precision| == |m.algoName| &&
              |r.value.recall| == |m.algoName|
  {
    if !GeneralShape(m) then Failure(ValueError)
    else if !FitsIndex(m.cvPrecision, m.algoName) || !FitsIndex(m.cvRecall, m.algoName) then Failure(ValueError)
    else
      var names := m.algoName;
      var general := seq(|names|, a requires 0 <= a < |names| =>
        GeneralRow(names[a], MeanScore(m.cvRmse[a]), MeanScore(m.cvFitTime[a]),
                   MeanScore(m.cvPredTime[a]), MeanOfScores(m.cvPersonalization[a])));
      Success(Frames(KColumns(m.cvPrecision, names), KColumns(m.cvRecall, names), general))
  }

  /**
   * One row per algorithm in `algo_name` order: the name, and each general metric the mean
   * of that algorithm's fold list; each precision/recall column holds the mean of every k's list.
   */
  lemma MetricsDataframeRows(m: Metrics, a: nat)
    requires MetricsDataframe(m).Success? && a < |m.algoName|
    ensures var f := MetricsDataframe(m).value;
            f.general[a].algoName == m.algoName[a] &&
            f.general[a].rmse == MeanScore(m.cvRmse[a]) &&
            f.general[a].fitTime == MeanScore(m.cvFitTime[a]) &&
            f.general[a].predTime == MeanScore(m.cvPredTime[a]) &&
            f.general[a].personalization == MeanOfScores(m.cvPersonalization[a])
    ensures var f := MetricsDataframe(m).value;
            f.precision[a].algoName == m.algoName[a] && f.recall[a].algoName == m.algoName[a]
    ensures var f := MetricsDataframe(m).value;
            m.cvPrecision != [] ==>
              f.precision[a].means.Keys == m.cvPrecision[a].Keys &&
              forall k :: k in m.cvPrecision[a] ==> f.precision[a].means[k] == MeanScore(m.cvPrecision[a][k])
    ensures var f := MetricsDataframe(m).value;
            m.cvRecall != [] ==>
              f.recall[a].means.Keys == m.cvRecall[a].Keys &&
              forall k :: k in m.cvRecall[a] ==> f.recall[a].means[k] == MeanScore(m.cvRecall[a][k])
  {
  }
}
