/**
 * recsys/train.py `find_best_model`: rank the algorithms of the metrics tables by one column
 * and return the name at the head of the ranking.
 */
module ModelSelection {
  import opened Wrappers
  import opened Seqs
  import opened MetricsTables

  /** `a` ranks ahead of or level with `b`: not larger when ascending, not smaller when descending. */
  predicate AtLeastAsGood(a: real, b: real, ascending: bool)
  {
    if ascending then a <= b else a >= b
  }

  /**
   * The position `sort_values(...).index[0]` takes: NaN sorts last in either direction, so the
   * head is a best number when there is one, and the first row when every value is NaN.
   */
  function BestIndex(s: seq<Score>, ascending: bool): (i: nat)
    requires s != []
    ensures i < |s|
    ensures (exists j :: 0 <= j < |s| && s[j].Value?) ==> s[i].Value?
    ensures s[i].Value? ==> forall j :: 0 <= j < |s| && s[j].Value? ==> AtLeastAsGood(s[i].v, s[j].v, ascending)
    ensures (forall j :: 0 <= j < |s| ==> s[j].NaN?) ==> i == 0
  {
    if |s| == 1 then 0
    else
      var init := s[..|s| - 1];
      var i := BestIndex(init, ascending);
      assert forall j :: 0 <= j < |s| - 1 ==> s[j] == init[j];
      var last := s[|s| - 1];
      if last.Value? && (s[i].NaN? || !AtLeastAsGood(s[i].v, last.v, ascending)) then |s| - 1 else i
  }

  /** The general-metrics column a ranking key names. */
  function GeneralColumn(row: GeneralRow, key: string): Score
  {
    if key == "rmse" then row.rmse
    else if key == "fit_time" then row.fitTime
    else if key == "pred_time" then row.predTime
    else row.personalization
  }

  /** Column `k` of `df.T`: NaN for an algorithm whose dictionary lacks `k`. */
  function AtK(c: KColumn, k: int): Score
  {
    if k in c.means then c.means[k] else NaN
  }

  /** `df.T.sort_values(by=k, ascending=False).index[0]`: a `KeyError` when no algorithm has `k`. */
  function BestAtK(cols: seq<KColumn>, k: int): (r: Result<string, PyError>)
    ensures r.Failure? <==> forall a :: 0 <= a < |cols| ==> k !in cols[a].means
    ensures r.Failure? ==> r.error == KeyError
    ensures r.Success? ==>
              exists a :: 0 <= a < |cols| && cols[a].algoName == r.value &&
                forall b :: 0 <= b < |cols| && AtK(cols[b], k).Value? ==>
                  AtK(cols[a], k).Value? && AtK(cols[a], k).v >= AtK(cols[b], k).v
  {
    if forall a :: 0 <= a < |cols| ==> k !in cols[a].means then Failure(KeyError)
    else
      var scores := seq(|cols|, a requires 0 <= a < |cols| => AtK(cols[a], k));
      var i := BestIndex(scores, false);
      assert forall b :: 0 <= b < |cols| ==> scores[b] == AtK(cols[b], k);
      Success(cols[i].algoName)
  }

  /** `df.sort_values(by=key, ascending=True).index[0]`: an `IndexError` on an empty table. */
  function BestByColumn(rows: seq<GeneralRow>, key: string): (r: Result<string, PyError>)
    ensures r.Failure? <==> rows == []
    ensures r.Failure? ==> r.error == IndexError
    ensures r.Success? ==>
              exists a :: 0 <= a < |rows| && rows[a].algoName == r.value &&
                forall b :: 0 <= b < |rows| && GeneralColumn(rows[b], key).Value? ==>
                  GeneralColumn(rows[a], key).Value? && GeneralColumn(rows[a], key).v <= GeneralColumn(rows[b], key).v
  {
    if rows == [] then Failure(IndexError)
    else
      var scores := seq(|rows|, a requires 0 <= a < |rows| => GeneralColumn(rows[a], key));
      var i := BestIndex(scores, true);
      assert forall b :: 0 <= b < |rows| ==> scores[b] == GeneralColumn(rows[b], key);
      Success(rows[i].algoName)
  }

  /** recsys/train.py `find_best_model(algo_dict, metrics, rank_by, k)`; `algo_dict` is never read. */
  function FindBestModel(m: Metrics, rankBy: string, k: int): (r: Result<string, PyError>)
  {
    var frames :- MetricsDataframe(m);
    if rankBy == "rmse" || rankBy == "fit_time" || rankBy == "pred_time" then BestByColumn(frames.general, rankBy)
    else if rankBy == "persoanalization" then
      // The branch sorts by a column the table does not have.
      Failure(KeyError)
    else if rankBy == "precision" then BestAtK(frames.precision, k)
    else if rankBy == "recall" then BestAtK(frames.recall, k)
    else Failure(UnboundLocalError)
  }

  /**
   * Ranking by rmse, fit_time or pred_time returns an algorithm whose mean is a smallest one
   * (every mean is a number once each algorithm has at least one fold).
   */
  lemma FindBestByMean(m: Metrics, rankBy: string, k: int)
    requires rankBy == "rmse" || rankBy == "fit_time" || rankBy == "pred_time"
    requires FindBestModel(m, rankBy, k).Success?
    ensures var rows := MetricsDataframe(m).value.general;
            exists a :: 0 <= a < |rows| && rows[a].algoName == FindBestModel(m, rankBy, k).value &&
              forall b :: 0 <= b < |rows| && GeneralColumn(rows[b], rankBy).Value? ==>
                GeneralColumn(rows[a], rankBy).Value? && GeneralColumn(rows[a], rankBy).v <= GeneralColumn(rows[b], rankBy).v
  {
  }

  /** Ranking by precision or recall returns an algorithm with a largest mean at column k. */
  lemma FindBestAtK(m: Metrics, rankBy: string, k: int)
    requires rankBy == "precision" || rankBy == "recall"
    requires FindBestModel(m, rankBy, k).Success?
    ensures var f := MetricsDataframe(m).value;
            var cols := if rankBy == "precision" then f.precision else f.recall;
            exists a :: 0 <= a < |cols| && cols[a].algoName == FindBestModel(m, rankBy, k).value &&
              forall b :: 0 <= b < |cols| && AtK(cols[b], k).Value? ==>
                AtK(cols[a], k).Value? && AtK(cols[a], k).v >= AtK(cols[b], k).v
  {
    var f := MetricsDataframe(m).value;
    if rankBy == "precision" {
      assert FindBestModel(m, rankBy, k) == BestAtK(f.precision, k);
    } else {
      assert FindBestModel(m, rankBy, k) == BestAtK(f.recall, k);
    }
  }

  /**
   * No key ranks by personalization: the spelled-out key reaches no branch and the misspelled
   * one sorts by a missing column. Every other unknown key fails the same way as the former.
   */
  lemma NoPersonalizationRanking(m: Metrics, rankBy: string, k: int)
    requires MetricsDataframe(m).Success?
    ensures rankBy == "persoanalization" ==> FindBestModel(m, rankBy, k) == Failure(KeyError)
    ensures rankBy !in {"rmse", "fit_time", "pred_time", "persoanalization", "precision", "recall"} ==>
              FindBestModel(m, rankBy, k) == Failure(UnboundLocalError)
    ensures FindBestModel(m, rankBy, k).Success? ==> rankBy in {"rmse", "fit_time", "pred_time", "precision", "recall"}
  {
  }

  /** Without algorithms, ranking by a general metric takes the head of an empty index. */
  lemma NoAlgorithms(m: Metrics, rankBy: string, k: int)
    requires m.algoName == [] && MetricsDataframe(m).Success?
    ensures rankBy in {"rmse", "fit_time", "pred_time"} ==> FindBestModel(m, rankBy, k) == Failure(IndexError)
    ensures rankBy in {"precision", "recall"} ==> FindBestModel(m, rankBy, k) == Failure(KeyError)
  {
  }

  /** Two algorithms with mean rmse 0.91 and 0.88: the second one is chosen. */
  lemma FindBestFixture()
    ensures FindBestModel(Metrics([[0.9, 0.92], [0.88, 0.88]], [], [], [[1.0, 1.0], [2.0, 2.0]], [[0.5, 0.5], [0.5, 0.5]],
                                  [[NaN, NaN], [NaN, NaN]], ["SVD ", "SVDpp "]), "rmse", 10) == Success("SVDpp ")
  {
    var m := Metrics([[0.9, 0.92], [0.88, 0.88]], [], [], [[1.0, 1.0], [2.0, 2.0]], [[0.5, 0.5], [0.5, 0.5]],
                     [[NaN, NaN], [NaN, NaN]], ["SVD ", "SVDpp "]);
    MetricsDataframeRows(m, 0);
    MetricsDataframeRows(m, 1);
    var s1, s2 := [0.9, 0.92], [0.88, 0.88];
    assert s1[..1] == [0.9] && s2[..1] == [0.88] && s1[..1][..0] == [] && s2[..1][..0] == [];
    assert Sum(s1) == 1.82 && Sum(s2) == 1.76;
    assert Mean(s1) == 0.91 && Mean(s2) == 0.88;
  }
}
