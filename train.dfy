/**
 * recsys/train.py `iterate_algo`: cross-validate every algorithm, collect per fold its rmse,
 * precision and recall at each k, personalization and timings, and store its name.
 *
 * Surprise's `fit`, `test`, `accuracy.rmse` and the clock are outside the model: a `Runner`
 * gives, for algorithm `a` and fold `f`, the predictions of that fold with their rmse and the
 * measured fit and prediction times, or the error the predictor raised.
 */
module Train {
  import opened Wrappers
  import opened Seqs
  import opened Evaluate
  import opened Personalization
  import opened MetricsTables
  import opened AlgoNames

  /** `pred`, `rmse`, `fit_time` and `pred_time` of one fold. */
  datatype FoldRun = FoldRun(preds: seq<Prediction>, rmse: real, fitTime: real, predTime: real)

  /** `algo.fit(train)`, `algo.test(test)` and `accuracy.rmse(pred)` for algorithm `a`, fold `f`. */
  type Runner = (nat, nat) -> Result<FoldRun, PyError>

  /** `top_n`, `threshold` and `k_ls`, with the square root cosine similarity uses. */
  datatype Settings = Settings(topN: int, threshold: real, ks: seq<int>, sqrt: real -> real)

  /** The overall precision and recall of a fold at one k of `k_ls`. */
  datatype KScore = KScore(k: int, pr: PrecisionRecall)

  /** What one fold adds: its rmse, precision and recall at each k of `k_ls`, personalization, timings. */
  datatype FoldResult = FoldResult(rmse: real, scores: seq<KScore>, personalization: Score,
                                   fitTime: real, predTime: real)

  /** `rmse_ls`, `precisions_dict`, `recalls_dict`, `fit_time_ls`, `pred_time_ls`, `personalization_ls`. */
  datatype AlgoAcc = AlgoAcc(rmse: seq<real>, precision: map<int, seq<real>>, recall: map<int, seq<real>>,
                             fitTime: seq<real>, predTime: seq<real>, personalization: seq<Score>)

  /** `KFold.split` accepts between 2 and as many folds as there are ratings. */
  predicate ValidSplits(kfold: int, nRatings: nat)
  {
    2 <= kfold <= nRatings
  }

  // ---------------------------------------------------------------- the dictionaries keyed by k

  /** A value to append to the list at key `k`. */
  datatype Entry = Entry(k: int, v: real)

  /** The keys of a list of entries, in order. */
  function KeysOf(es: seq<Entry>): (ks: seq<int>)
    ensures |ks| == |es| && forall i :: 0 <= i < |es| ==> ks[i] == es[i].k
  {
    seq(|es|, i requires 0 <= i < |es| => es[i].k)
  }

  /** The list of `d` at `k`, or the empty list for a missing key. */
  function Get(d: map<int, seq<real>>, k: int): seq<real>
  {
    if k in d then d[k] else []
  }

  /** Lines 118-121 (and 123-126): `if k in d: d[k].append(v) else: d[k] = [v]`. */
  function AppendAt(d: map<int, seq<real>>, k: int, v: real): (r: map<int, seq<real>>)
    ensures r.Keys == d.Keys + {k}
    ensures forall j :: j in d && j != k ==> r[j] == d[j]
    ensures r[k] == Get(d, k) + [v]
  {
    if k in d then d[k := d[k] + [v]] else d[k := [v]]
  }

  /** The appends of the loop over `k_ls`, entry by entry. */
  function AppendAll(d: map<int, seq<real>>, es: seq<Entry>): (r: map<int, seq<real>>)
    ensures forall k :: k in r <==> k in d || k in KeysOf(es)
  {
    if es == [] then d
    else
      var n := |es| - 1;
      assert KeysOf(es) == KeysOf(es[..n]) + [es[n].k];
      AppendAt(AppendAll(d, es[..n]), es[n].k, es[n].v)
  }

  /** The values of the entries at key `k`, in order. */
  function Picks(es: seq<Entry>, k: int): seq<real>
  {
    if es == [] then []
    else Picks(es[..|es| - 1], k) + (if es[|es| - 1].k == k then [es[|es| - 1].v] else [])
  }

  /** Each key's list grows by the values appended at that key, in order. */
  lemma {:induction false} AppendAllAt(d: map<int, seq<real>>, es: seq<Entry>, k: int)
    ensures Get(AppendAll(d, es), k) == Get(d, k) + Picks(es, k)
  {
    if es != [] {
      AppendAllAt(d, es[..|es| - 1], k);
    }
  }

  /** One more append. */
  lemma AppendAllSnoc(d: map<int, seq<real>>, es: seq<Entry>, e: Entry)
    ensures AppendAll(d, es + [e]) == AppendAt(AppendAll(d, es), e.k, e.v)
  {
    assert (es + [e])[..|es|] == es;
  }

  lemma {:induction false} PicksAbsent(es: seq<Entry>, k: int)
    requires k !in KeysOf(es)
    ensures Picks(es, k) == []
  {
    if es != [] {
      var n := |es| - 1;
      assert forall i :: 0 <= i < n ==> KeysOf(es[..n])[i] == KeysOf(es)[i];
      PicksAbsent(es[..n], k);
    }
  }

  /** With no repeated key, the key of entry `j` receives exactly its value. */
  lemma {:induction false} PicksDistinct(es: seq<Entry>, j: nat)
    requires j < |es|
    requires forall i, i' :: 0 <= i < i' < |es| ==> es[i].k != es[i'].k
    ensures Picks(es, es[j].k) == [es[j].v]
  {
    var n := |es| - 1;
    var init := es[..n];
    if j == n {
      assert forall i :: 0 <= i < n ==> KeysOf(init)[i] == es[i].k != es[j].k;
      PicksAbsent(init, es[j].k);
    } else {
      assert init[j] == es[j];
      PicksDistinct(init, j);
    }
  }

  // ---------------------------------------------------------------- one fold

  /** The precision of each k, as entries. */
  function PrecisionEntries(scores: seq<KScore>): (es: seq<Entry>)
    ensures |es| == |scores|
  {
    seq(|scores|, i requires 0 <= i < |scores| => Entry(scores[i].k, scores[i].pr.precision))
  }

  /** The recall of each k, as entries. */
  function RecallEntries(scores: seq<KScore>): (es: seq<Entry>)
    ensures |es| == |scores|
  {
    seq(|scores|, i requires 0 <= i < |scores| => Entry(scores[i].k, scores[i].pr.recall))
  }

  lemma EntriesSnoc(scores: seq<KScore>, x: KScore)
    ensures PrecisionEntries(scores + [x]) == PrecisionEntries(scores) + [Entry(x.k, x.pr.precision)]
    ensures RecallEntries(scores + [x]) == RecallEntries(scores) + [Entry(x.k, x.pr.recall)]
  {
    assert PrecisionEntries(scores + [x])[..|scores|] == PrecisionEntries(scores);
    assert RecallEntries(scores + [x])[..|scores|] == RecallEntries(scores);
  }

  /**
   * `score(k)` for each k of `k_ls` in turn; the first failure ends the loop. On success every
   * k has its score, in the order of `k_ls`; a failure is the failure of one of the k.
   */
  function AtEachK(score: int -> Result<PrecisionRecall, PyError>, ks: seq<int>): (r: Result<seq<KScore>, PyError>)
    ensures r.Success? ==> |r.value| == |ks| &&
                           forall j :: 0 <= j < |ks| ==> r.value[j].k == ks[j] && score(ks[j]) == Success(r.value[j].pr)
    ensures r.Failure? ==> exists j :: 0 <= j < |ks| && score(ks[j]) == Failure(r.error)
  {
    if ks == [] then Success([])
    else
      var n := |ks| - 1;
      var init :- AtEachK(score, ks[..n]);
      var pr :- score(ks[n]);
      var all := init + [KScore(ks[n], pr)];
      assert forall j :: 0 <= j < n ==> ks[..n][j] == ks[j] && all[j] == init[j];
      Success(all)
  }

  /** `precision_recall_at_k(pred, k, threshold)` as a function of k. */
  function ScoreAtK(preds: seq<Prediction>, threshold: real): int -> Result<PrecisionRecall, PyError>
  {
    k => PrecisionRecallSpec(preds, k, threshold)
  }

  /** The loop over `k_ls` fails exactly when there is a k and no prediction: zero users to divide by. */
  lemma ScoresFail(preds: seq<Prediction>, ks: seq<int>, threshold: real)
    ensures AtEachK(ScoreAtK(preds, threshold), ks).Failure? <==> ks != [] && preds == []
    ensures AtEachK(ScoreAtK(preds, threshold), ks).Failure? ==> AtEachK(ScoreAtK(preds, threshold), ks).error == ZeroDivisionError
  {
    var score := ScoreAtK(preds, threshold);
    forall k ensures score(k).Failure? <==> preds == [] {
      PrecisionRecallFailsIffEmpty(preds, k, threshold);
    }
    if ks != [] && preds == [] {
      assert score(ks[0]).Failure?;
    }
    if AtEachK(score, ks).Failure? {
      PrecisionRecallFailsIffEmpty(preds, 0, threshold);
    }
  }

  /** One more k: its score is appended, or its failure ends the loop. */
  lemma AtEachKStep(score: int -> Result<PrecisionRecall, PyError>, ks: seq<int>, j: nat, scores: seq<KScore>)
    requires j < |ks| && AtEachK(score, ks[..j]) == Success(scores)
    ensures score(ks[j]).Failure? ==> AtEachK(score, ks[..j + 1]) == Failure(score(ks[j]).error)
    ensures score(ks[j]).Success? ==> AtEachK(score, ks[..j + 1]) == Success(scores + [KScore(ks[j], score(ks[j]).value)])
  {
    assert ks[..j + 1][..j] == ks[..j] && ks[..j + 1][j] == ks[j];
  }

  /** Once the scores of a prefix of `k_ls` fail, the whole loop fails with the same error. */
  lemma {:induction false} AtEachKFailurePersists(score: int -> Result<PrecisionRecall, PyError>, ks: seq<int>, j: nat)
    requires j <= |ks| && AtEachK(score, ks[..j]).Failure?
    ensures AtEachK(score, ks) == Failure(AtEachK(score, ks[..j]).error)
    decreases |ks|
  {
    if j == |ks| {
      assert ks[..j] == ks;
    } else {
      var n := |ks| - 1;
      assert ks[..n][..j] == ks[..j];
      AtEachKFailurePersists(score, ks[..n], j);
    }
  }

  /** The body of the fold loop: the run, the scores at each k, then `personalization(pred, top_n)`. */
  function FoldSpec(run: Result<FoldRun, PyError>, s: Settings): Result<FoldResult, PyError>
  {
    var fr :- run;
    var scores :- AtEachK(ScoreAtK(fr.preds, s.threshold), s.ks);
    var p :- PersonalizationSpec(fr.preds, s.topN, s.sqrt);
    Success(FoldResult(fr.rmse, scores, p, fr.fitTime, fr.predTime))
  }

  /** The appends of one fold, those of the loop over `k_ls` included. */
  function AddFold(acc: AlgoAcc, fr: FoldResult): AlgoAcc
  {
    AlgoAcc(acc.rmse + [fr.rmse],
            AppendAll(acc.precision, PrecisionEntries(fr.scores)),
            AppendAll(acc.recall, RecallEntries(fr.scores)),
            acc.fitTime + [fr.fitTime],
            acc.predTime + [fr.predTime],
            acc.personalization + [fr.personalization])
  }

  /** A fold runs to its end when the predictor succeeds and returns at least one prediction. */
  predicate FoldOk(run: Result<FoldRun, PyError>)
  {
    run.Success? && run.value.preds != []
  }

  /**
   * A fold fails exactly when the predictor fails or predicts nothing: an empty prediction list
   * makes `precision_recall_at_k` divide by zero users and `personalization` reject an empty matrix.
   */
  lemma FoldSucceeds(run: Result<FoldRun, PyError>, s: Settings)
    ensures FoldSpec(run, s).Success? <==> FoldOk(run)
    ensures run.Failure? ==> FoldSpec(run, s) == Failure(run.error)
  {
    if run.Success? {
      ScoresFail(run.value.preds, s.ks, s.threshold);
      PersonalizationDegenerate(run.value.preds, s.topN, s.sqrt);
    }
  }

  // ---------------------------------------------------------------- a loop whose body can raise

  /**
   * A `for` loop whose iteration `i` either raises `steps[i].error` or produces `steps[i].value`,
   * which `add` folds into the state: the final state, or the first exception.
   */
  function Loop<A, T>(steps: seq<Result<T, PyError>>, add: (A, T) -> A, init: A): Result<A, PyError>
  {
    if steps == [] then Success(init)
    else
      var acc :- Loop(steps[..|steps| - 1], add, init);
      var x :- steps[|steps| - 1];
      Success(add(acc, x))
  }

  /** One more iteration: its value is folded in, or its exception ends the loop. */
  lemma LoopStep<A, T>(steps: seq<Result<T, PyError>>, add: (A, T) -> A, init: A, j: nat, acc: A)
    requires j < |steps| && Loop(steps[..j], add, init) == Success(acc)
    ensures steps[j].Failure? ==> Loop(steps[..j + 1], add, init) == Failure(steps[j].error)
    ensures steps[j].Success? ==> Loop(steps[..j + 1], add, init) == Success(add(acc, steps[j].value))
  {
    assert steps[..j + 1][..j] == steps[..j];
  }

  /** A loop that ends normally ran its last iteration after the others. */
  lemma LoopLast<A, T>(steps: seq<Result<T, PyError>>, add: (A, T) -> A, init: A)
    requires steps != [] && Loop(steps, add, init).Success?
    ensures Loop(steps[..|steps| - 1], add, init).Success? && steps[|steps| - 1].Success?
    ensures Loop(steps, add, init) ==
            Success(add(Loop(steps[..|steps| - 1], add, init).value, steps[|steps| - 1].value))
  {
  }

  /** Once an iteration raises, the loop raises the same exception. */
  lemma {:induction false} LoopFailurePersists<A, T>(steps: seq<Result<T, PyError>>, add: (A, T) -> A, init: A, j: nat)
    requires j <= |steps| && Loop(steps[..j], add, init).Failure?
    ensures Loop(steps, add, init) == Failure(Loop(steps[..j], add, init).error)
    decreases |steps|
  {
    if j == |steps| {
      assert steps[..j] == steps;
    } else {
      var n := |steps| - 1;
      assert steps[..n][..j] == steps[..j];
      LoopFailurePersists(steps[..n], add, init, j);
    }
  }

  // ---------------------------------------------------------------- all folds of one algorithm

  /** The outcome of each of the `kfold` folds of algorithm `a`. */
  function FoldSteps(runner: Runner, a: nat, kfold: nat, s: Settings): (steps: seq<Result<FoldResult, PyError>>)
    ensures |steps| == kfold && forall g :: 0 <= g < kfold ==> steps[g] == FoldSpec(runner(a, g), s)
  {
    seq(kfold, g requires 0 <= g < kfold => FoldSpec(runner(a, g), s))
  }

  /** Lines 91-96: the empty lists and dictionaries of an algorithm. */
  function EmptyAcc(): AlgoAcc
  {
    AlgoAcc([], map[], map[], [], [], [])
  }

  /** The lists and dictionaries of algorithm `a` after its `kfold` folds, or the first error. */
  function FoldsSpec(runner: Runner, a: nat, kfold: nat, s: Settings): Result<AlgoAcc, PyError>
  {
    Loop(FoldSteps(runner, a, kfold, s), AddFold, EmptyAcc())
  }

  // ---------------------------------------------------------------- all algorithms

  /** The appends to `metrics` once the folds of an algorithm are done. */
  function AddAlgo(m: Metrics, acc: AlgoAcc, name: string): Metrics
  {
    Metrics(m.cvRmse + [acc.rmse], m.cvPrecision + [acc.precision], m.cvRecall + [acc.recall],
            m.cvFitTime + [acc.fitTime], m.cvPredTime + [acc.predTime],
            m.cvPersonalization + [acc.personalization], m.algoName + [name])
  }

  /** An algorithm's lists and dictionaries, with its name. */
  datatype AlgoOutcome = AlgoOutcome(acc: AlgoAcc, name: string)

  function AddOutcome(m: Metrics, o: AlgoOutcome): Metrics
  {
    AddAlgo(m, o.acc, o.name)
  }

  /**
   * One iteration of the loop over `algo_ls`: `kf.split(data)` raises `ValueError` unless
   * `splitOk`, then the folds run, then the name is read from the string `repr` of the algorithm.
   */
  function AlgoStep(repr: string, splitOk: bool, folds: Result<AlgoAcc, PyError>): Result<AlgoOutcome, PyError>
  {
    if !splitOk then Failure(ValueError)
    else
      var acc :- folds;
      var name :- AlgoName(repr);
      Success(AlgoOutcome(acc, name))
  }

  /** The outcome of each algorithm of `algo_ls`, given by `str(algo)`; `data` has `nRatings` ratings. */
  function AlgoSteps(algos: seq<string>, kfold: int, nRatings: nat, runner: Runner, s: Settings)
    : (steps: seq<Result<AlgoOutcome, PyError>>)
    ensures |steps| == |algos|
    ensures forall a :: 0 <= a < |algos| ==>
              steps[a] == AlgoStep(algos[a], ValidSplits(kfold, nRatings), FoldsSpec(runner, a, if kfold < 0 then 0 else kfold, s))
  {
    seq(|algos|, a requires 0 <= a < |algos| =>
      AlgoStep(algos[a], ValidSplits(kfold, nRatings), FoldsSpec(runner, a, if kfold < 0 then 0 else kfold, s)))
  }

  /** `metrics = {"cv_rmse": [], ...}` before the first algorithm. */
  function EmptyMetrics(): Metrics
  {
    Metrics([], [], [], [], [], [], [])
  }

  /** The value of `iterate_algo(algo_ls, kfold, data, top_n, threshold, k_ls)`, or its exception. */
  function IterateAlgoSpec(algos: seq<string>, kfold: int, nRatings: nat, runner: Runner, s: Settings)
    : Result<Metrics, PyError>
  {
    Loop(AlgoSteps(algos, kfold, nRatings, runner, s), AddOutcome, EmptyMetrics())
  }

  // ---------------------------------------------------------------- the loops of iterate_algo

  /**
   * Lines 113-126: the scores at each k of `k_ls` appended to `precisions_dict` and
   * `recalls_dict`, or the error of the first k whose score fails.
   */
  method UpdateAtKs(preds: seq<Prediction>, ks: seq<int>, threshold: real,
                    precisions: map<int, seq<real>>, recalls: map<int, seq<real>>)
    returns (r: Result<(map<int, seq<real>>, map<int, seq<real>>), PyError>)
    ensures var sc := AtEachK(ScoreAtK(preds, threshold), ks);
            (sc.Failure? ==> r == Failure(sc.error)) &&
            (sc.Success? ==> r == Success((AppendAll(precisions, PrecisionEntries(sc.value)),
                                           AppendAll(recalls, RecallEntries(sc.value)))))
  {
    var precisionsDict, recallsDict := precisions, recalls;
    ghost var score := ScoreAtK(preds, threshold);
    ghost var scores: seq<KScore> := [];
    for j := 0 to |ks|
      invariant AtEachK(score, ks[..j]) == Success(scores)
      invariant precisionsDict == AppendAll(precisions, PrecisionEntries(scores))
      invariant recallsDict == AppendAll(recalls, RecallEntries(scores))
    {
      var k := ks[j];
      var pr := PrecisionRecallAtK(preds, k, threshold);
      assert score(k) == pr;
      AtEachKStep(score, ks, j, scores);
      if pr.Failure? {
        AtEachKFailurePersists(score, ks, j + 1);
        return Failure(pr.error);
      }
      var precision, recall := pr.value.precision, pr.value.recall;
      precisionsDict := AppendAt(precisionsDict, k, precision);
      recallsDict := AppendAt(recallsDict, k, recall);
      EntriesSnoc(scores, KScore(k, pr.value));
      AppendAllSnoc(precisions, PrecisionEntries(scores), Entry(k, precision));
      AppendAllSnoc(recalls, RecallEntries(scores), Entry(k, recall));
      scores := scores + [KScore(k, pr.value)];
    }
    assert ks[..|ks|] == ks;
    r := Success((precisionsDict, recallsDict));
  }

  /**
   * Lines 109-131 for one fold whose predictor succeeded: its rmse, the scores at each k, its
   * personalization and timings appended to the lists of the algorithm.
   */
  method RunFold(fr: FoldRun, s: Settings, acc: AlgoAcc) returns (r: Result<AlgoAcc, PyError>)
    ensures var fold := FoldSpec(Success(fr), s);
            (fold.Failure? ==> r == Failure(fold.error)) &&
            (fold.Success? ==> r == Success(AddFold(acc, fold.value)))
  {
    var rmseLs := acc.rmse + [fr.rmse];
    var dicts := UpdateAtKs(fr.preds, s.ks, s.threshold, acc.precision, acc.recall);
    if dicts.Failure? {
      return Failure(dicts.error);
    }
    var p := ComputePersonalization(fr.preds, s.topN, s.sqrt);
    if p.Failure? {
      return Failure(p.error);
    }
    r := Success(AlgoAcc(rmseLs, dicts.value.0, dicts.value.1, acc.fitTime + [fr.fitTime],
                         acc.predTime + [fr.predTime], acc.personalization + [p.value]));
  }

  /** Lines 91-131: the cross-validation of algorithm `a`, fold by fold. */
  method CrossValidate(runner: Runner, a: nat, kfold: nat, s: Settings) returns (r: Result<AlgoAcc, PyError>)
    ensures r == FoldsSpec(runner, a, kfold, s)
  {
    ghost var steps := FoldSteps(runner, a, kfold, s);
    var acc := EmptyAcc();
    for f := 0 to kfold
      invariant Loop(steps[..f], AddFold, EmptyAcc()) == Success(acc)
    {
      LoopStep(steps, AddFold, EmptyAcc(), f, acc);
      var run := runner(a, f);
      if run.Failure? {
        LoopFailurePersists(steps, AddFold, EmptyAcc(), f + 1);
        return Failure(run.error);
      }
      var next := RunFold(run.value, s, acc);
      if next.Failure? {
        LoopFailurePersists(steps, AddFold, EmptyAcc(), f + 1);
        return Failure(next.error);
      }
      acc := next.value;
    }
    assert steps[..kfold] == steps;
    r := Success(acc);
  }

  /** recsys/train.py `iterate_algo(algo_ls, kfold, data, top_n, threshold, k_ls)`. */
  method IterateAlgo(algos: seq<string>, kfold: int, nRatings: nat, runner: Runner, s: Settings)
    returns (r: Result<Metrics, PyError>)
    ensures r == IterateAlgoSpec(algos, kfold, nRatings, runner, s)
  {
    ghost var steps := AlgoSteps(algos, kfold, nRatings, runner, s);
    var cvRmse, cvPrecision, cvRecall := [], [], [];
    var cvFitTime, cvPredTime, cvPersonalization, algoName := [], [], [], [];
    for i := 0 to |algos|
      invariant Loop(steps[..i], AddOutcome, EmptyMetrics()) ==
                Success(Metrics(cvRmse, cvPrecision, cvRecall, cvFitTime, cvPredTime, cvPersonalization, algoName))
    {
      LoopStep(steps, AddOutcome, EmptyMetrics(), i,
               Metrics(cvRmse, cvPrecision, cvRecall, cvFitTime, cvPredTime, cvPersonalization, algoName));
      // `kf.split(data)` checks the number of folds when each algorithm starts its folds.
      if !(2 <= kfold <= nRatings) {
        LoopFailurePersists(steps, AddOutcome, EmptyMetrics(), i + 1);
        return Failure(ValueError);
      }
      var acc := CrossValidate(runner, i, kfold, s);
      if acc.Failure? {
        LoopFailurePersists(steps, AddOutcome, EmptyMetrics(), i + 1);
        return Failure(acc.error);
      }
      cvRmse := cvRmse + [acc.value.rmse];
      cvPrecision := cvPrecision + [acc.value.precision];
      cvRecall := cvRecall + [acc.value.recall];
      cvPersonalization := cvPersonalization + [acc.value.personalization];
      cvFitTime := cvFitTime + [acc.value.fitTime];
      cvPredTime := cvPredTime + [acc.value.predTime];
      var name := AlgoName(algos[i]);
      if name.Failure? {
        LoopFailurePersists(steps, AddOutcome, EmptyMetrics(), i + 1);
        return Failure(name.error);
      }
      algoName := algoName + [name.value];
    }
    assert steps[..|algos|] == steps;
    r := Success(Metrics(cvRmse, cvPrecision, cvRecall, cvFitTime, cvPredTime, cvPersonalization, algoName));
  }

  // ---------------------------------------------------------------- what iterate_algo returns

  /** The loop ends normally exactly when no iteration raises. */
  lemma {:induction false} LoopSucceeds<A, T>(steps: seq<Result<T, PyError>>, add: (A, T) -> A, init: A)
    ensures Loop(steps, add, init).Success? <==> forall i :: 0 <= i < |steps| ==> steps[i].Success?
  {
    if steps != [] {
      var n := |steps| - 1;
      LoopSucceeds(steps[..n], add, init);
      assert forall i :: 0 <= i < n ==> steps[..n][i] == steps[i];
    }
  }

  /** No k occurs twice in `k_ls`. */
  predicate NoRepeats(ks: seq<int>)
  {
    forall i, j :: 0 <= i < j < |ks| ==> ks[i] != ks[j]
  }

  /** The scores of a fold are those of the k of `k_ls`, in order. */
  predicate ScoresAt(x: FoldResult, ks: seq<int>)
  {
    |x.scores| == |ks| && forall j :: 0 <= j < |ks| ==> x.scores[j].k == ks[j]
  }

  /** Every successful fold among `steps` has its scores at the k of `k_ls`. */
  predicate AllScoresAt(steps: seq<Result<FoldResult, PyError>>, ks: seq<int>)
  {
    steps == [] ||
    (AllScoresAt(steps[..|steps| - 1], ks) &&
     (steps[|steps| - 1].Success? ==> ScoresAt(steps[|steps| - 1].value, ks)))
  }

  lemma {:induction false} AllScoresAtFrom(steps: seq<Result<FoldResult, PyError>>, ks: seq<int>)
    requires forall g :: 0 <= g < |steps| && steps[g].Success? ==> ScoresAt(steps[g].value, ks)
    ensures AllScoresAt(steps, ks)
  {
    if steps != [] {
      var n := |steps| - 1;
      assert forall g :: 0 <= g < n ==> steps[..n][g] == steps[g];
      AllScoresAtFrom(steps[..n], ks);
    }
  }

  /** A successful fold: its run succeeded, and it holds the run's measurements and scores. */
  lemma FoldSpecValue(run: Result<FoldRun, PyError>, s: Settings)
    requires FoldSpec(run, s).Success?
    ensures var x := FoldSpec(run, s).value;
            run.Success? && ScoresAt(x, s.ks) &&
            x.rmse == run.value.rmse && x.fitTime == run.value.fitTime && x.predTime == run.value.predTime &&
            PersonalizationSpec(run.value.preds, s.topN, s.sqrt) == Success(x.personalization) &&
            forall j :: 0 <= j < |s.ks| ==> PrecisionRecallSpec(run.value.preds, s.ks[j], s.threshold) == Success(x.scores[j].pr)
  {
  }

  /** One fold adds the keys of `k_ls` to the dictionaries, and no other. */
  lemma AddFoldKeys(acc: AlgoAcc, x: FoldResult, ks: seq<int>)
    requires ScoresAt(x, ks)
    ensures forall k :: k in AddFold(acc, x).precision <==> k in acc.precision || k in ks
    ensures forall k :: k in AddFold(acc, x).recall <==> k in acc.recall || k in ks
  {
    var pe, re := PrecisionEntries(x.scores), RecallEntries(x.scores);
    assert forall i :: 0 <= i < |ks| ==> KeysOf(pe)[i] == ks[i] && KeysOf(re)[i] == ks[i];
    assert KeysOf(pe) == ks && KeysOf(re) == ks;
  }

  /** With no repeated k, one fold appends its precision and recall at `ks[j]` to that k's lists. */
  lemma AddFoldAt(acc: AlgoAcc, x: FoldResult, ks: seq<int>, j: nat)
    requires NoRepeats(ks) && ScoresAt(x, ks) && j < |ks|
    ensures Get(AddFold(acc, x).precision, ks[j]) == Get(acc.precision, ks[j]) + [x.scores[j].pr.precision]
    ensures Get(AddFold(acc, x).recall, ks[j]) == Get(acc.recall, ks[j]) + [x.scores[j].pr.recall]
  {
    var pe, re := PrecisionEntries(x.scores), RecallEntries(x.scores);
    assert forall i :: 0 <= i < |ks| ==> pe[i].k == ks[i] && re[i].k == ks[i];
    AppendAllAt(acc.precision, pe, ks[j]);
    AppendAllAt(acc.recall, re, ks[j]);
    PicksDistinct(pe, j);
    PicksDistinct(re, j);
  }

  /** After the folds of an algorithm, entry `g` of each of its lists is fold `g`'s. */
  lemma {:induction false} FoldsAt(steps: seq<Result<FoldResult, PyError>>, acc: AlgoAcc)
    requires Loop(steps, AddFold, EmptyAcc()) == Success(acc)
    ensures |acc.rmse| == |steps| && |acc.fitTime| == |steps| && |acc.predTime| == |steps| &&
            |acc.personalization| == |steps|
    ensures forall g :: 0 <= g < |steps| ==>
              steps[g].Success? && acc.rmse[g] == steps[g].value.rmse && acc.fitTime[g] == steps[g].value.fitTime &&
              acc.predTime[g] == steps[g].value.predTime && acc.personalization[g] == steps[g].value.personalization
  {
    if steps != [] {
      var n := |steps| - 1;
      var init := steps[..n];
      assert forall g :: 0 <= g < n ==> init[g] == steps[g];
      FoldsAt(init, Loop(init, AddFold, EmptyAcc()).value);
    }
  }

  /** After at least one fold, the keys of the dictionaries are those of `k_ls`. */
  lemma {:induction false} FoldsKeys(steps: seq<Result<FoldResult, PyError>>, acc: AlgoAcc, ks: seq<int>)
    requires Loop(steps, AddFold, EmptyAcc()) == Success(acc)
    requires AllScoresAt(steps, ks)
    ensures forall k :: k in acc.precision <==> steps != [] && k in ks
    ensures forall k :: k in acc.recall <==> steps != [] && k in ks
  {
    if steps != [] {
      var n := |steps| - 1;
      var init := steps[..n];
      var acc0 := Loop(init, AddFold, EmptyAcc()).value;
      FoldsKeys(init, acc0, ks);
      AddFoldKeys(acc0, steps[n].value, ks);
    }
  }

  /** Each step of the fold loop appends a fold's precision and recall at `ks[j]` to that k's lists. */
  ghost predicate AppendsAtK(add: (AlgoAcc, FoldResult) -> AlgoAcc, ks: seq<int>, j: nat)
    requires j < |ks|
  {
    forall acc, x :: ScoresAt(x, ks) ==>
      Get(add(acc, x).precision, ks[j]) == Get(acc.precision, ks[j]) + [x.scores[j].pr.precision] &&
      Get(add(acc, x).recall, ks[j]) == Get(acc.recall, ks[j]) + [x.scores[j].pr.recall]
  }

  /** `AddFold` is such a step when no k repeats. */
  lemma AddFoldAppendsAtK(ks: seq<int>, j: nat)
    requires NoRepeats(ks) && j < |ks|
    ensures AppendsAtK(AddFold, ks, j)
  {
    forall acc, x | ScoresAt(x, ks)
      ensures Get(AddFold(acc, x).precision, ks[j]) == Get(acc.precision, ks[j]) + [x.scores[j].pr.precision]
      ensures Get(AddFold(acc, x).recall, ks[j]) == Get(acc.recall, ks[j]) + [x.scores[j].pr.recall]
    {
      AddFoldAt(acc, x, ks, j);
    }
  }

  /** The lists at `ks[j]` hold one value per fold. */
  lemma {:induction false} FoldsLengthAtK(steps: seq<Result<FoldResult, PyError>>, add: (AlgoAcc, FoldResult) -> AlgoAcc,
                                          acc: AlgoAcc, ks: seq<int>, j: nat)
    requires Loop(steps, add, EmptyAcc()) == Success(acc)
    requires AllScoresAt(steps, ks) && j < |ks| && AppendsAtK(add, ks, j)
    ensures |Get(acc.precision, ks[j])| == |steps| && |Get(acc.recall, ks[j])| == |steps|
  {
    if steps != [] {
      var n := |steps| - 1;
      LoopLast(steps, add, EmptyAcc());
      FoldsLengthAtK(steps[..n], add, Loop(steps[..n], add, EmptyAcc()).value, ks, j);
    }
  }

  /** Position `g` of the lists at `ks[j]` holds fold `g`'s precision (recall) at that k. */
  lemma {:induction false} FoldsAtK(steps: seq<Result<FoldResult, PyError>>, add: (AlgoAcc, FoldResult) -> AlgoAcc,
                                    acc: AlgoAcc, ks: seq<int>, j: nat, g: nat)
    requires Loop(steps, add, EmptyAcc()) == Success(acc)
    requires AllScoresAt(steps, ks) && j < |ks| && AppendsAtK(add, ks, j) && g < |steps|
    ensures steps[g].Success? && |steps[g].value.scores| == |ks|
    ensures |Get(acc.precision, ks[j])| == |Get(acc.recall, ks[j])| == |steps|
    ensures Get(acc.precision, ks[j])[g] == steps[g].value.scores[j].pr.precision
    ensures Get(acc.recall, ks[j])[g] == steps[g].value.scores[j].pr.recall
  {
    FoldsLengthAtK(steps, add, acc, ks, j);
    var n := |steps| - 1;
    var init := steps[..n];
    LoopLast(steps, add, EmptyAcc());
    var acc0 := Loop(init, add, EmptyAcc()).value;
    FoldsLengthAtK(init, add, acc0, ks, j);
    if g < n {
      FoldsAtK(init, add, acc0, ks, j, g);
      assert init[g] == steps[g];
    }
  }

  /** After the algorithms, entry `a` of each list of `metrics` is algorithm `a`'s. */
  lemma {:induction false} MetricsAt(steps: seq<Result<AlgoOutcome, PyError>>, m: Metrics)
    requires Loop(steps, AddOutcome, EmptyMetrics()) == Success(m)
    ensures |m.algoName| == |steps| && GeneralShape(m) && |m.cvPrecision| == |steps| && |m.cvRecall| == |steps|
    ensures forall a :: 0 <= a < |steps| ==>
              steps[a].Success? && m.algoName[a] == steps[a].value.name &&
              steps[a].value.acc == AlgoAcc(m.cvRmse[a], m.cvPrecision[a], m.cvRecall[a], m.cvFitTime[a],
                                            m.cvPredTime[a], m.cvPersonalization[a])
  {
    if steps != [] {
      var n := |steps| - 1;
      var init := steps[..n];
      assert forall a :: 0 <= a < n ==> init[a] == steps[a];
      MetricsAt(init, Loop(init, AddOutcome, EmptyMetrics()).value);
    }
  }

  /**
   * On success the number of folds was accepted, and the entry of algorithm `a` holds its name
   * and the result of its folds.
   */
  lemma AlgoAt(algos: seq<string>, kfold: int, nRatings: nat, runner: Runner, s: Settings, a: nat)
    requires IterateAlgoSpec(algos, kfold, nRatings, runner, s).Success? && a < |algos|
    ensures var m := IterateAlgoSpec(algos, kfold, nRatings, runner, s).value;
            ValidSplits(kfold, nRatings) && |m.algoName| == |algos| && GeneralShape(m) &&
            |m.cvPrecision| == |algos| && |m.cvRecall| == |algos| &&
            AlgoName(algos[a]) == Success(m.algoName[a]) &&
            FoldsSpec(runner, a, kfold, s) == Success(AlgoAcc(m.cvRmse[a], m.cvPrecision[a], m.cvRecall[a],
                                                              m.cvFitTime[a], m.cvPredTime[a], m.cvPersonalization[a]))
  {
    var steps := AlgoSteps(algos, kfold, nRatings, runner, s);
    MetricsAt(steps, IterateAlgoSpec(algos, kfold, nRatings, runner, s).value);
  }

  /**
   * On success `metrics` has one entry per algorithm in every list, named after `str(algo)`,
   * with one value per fold, so `metrics_dataframe` accepts it.
   */
  lemma IterateAlgoShape(algos: seq<string>, kfold: int, nRatings: nat, runner: Runner, s: Settings)
    requires IterateAlgoSpec(algos, kfold, nRatings, runner, s).Success?
    ensures var m := IterateAlgoSpec(algos, kfold, nRatings, runner, s).value;
            |m.algoName| == |algos| && GeneralShape(m) && |m.cvPrecision| == |algos| && |m.cvRecall| == |algos| &&
            MetricsDataframe(m).Success? &&
            forall a :: 0 <= a < |algos| ==>
              AlgoName(algos[a]) == Success(m.algoName[a]) &&
              |m.cvRmse[a]| == kfold && |m.cvFitTime[a]| == kfold && |m.cvPredTime[a]| == kfold &&
              |m.cvPersonalization[a]| == kfold
  {
    var m := IterateAlgoSpec(algos, kfold, nRatings, runner, s).value;
    MetricsAt(AlgoSteps(algos, kfold, nRatings, runner, s), m);
    forall a | 0 <= a < |algos|
      ensures AlgoName(algos[a]) == Success(m.algoName[a])
      ensures |m.cvRmse[a]| == kfold && |m.cvFitTime[a]| == kfold && |m.cvPredTime[a]| == kfold
      ensures |m.cvPersonalization[a]| == kfold
    {
      AlgoAt(algos, kfold, nRatings, runner, s, a);
      FoldsAt(FoldSteps(runner, a, kfold, s), AlgoAcc(m.cvRmse[a], m.cvPrecision[a], m.cvRecall[a], m.cvFitTime[a],
                                                      m.cvPredTime[a], m.cvPersonalization[a]));
    }
  }

  /** Every successful fold of algorithm `a` has its scores at the k of `k_ls`. */
  lemma FoldStepsScoresAt(runner: Runner, a: nat, kfold: nat, s: Settings)
    ensures AllScoresAt(FoldSteps(runner, a, kfold, s), s.ks)
  {
    var steps := FoldSteps(runner, a, kfold, s);
    forall g | 0 <= g < |steps| && steps[g].Success? ensures ScoresAt(steps[g].value, s.ks) {
      FoldSpecValue(runner(a, g), s);
    }
    AllScoresAtFrom(steps, s.ks);
  }

  /**
   * On success, fold `g` of algorithm `a` ran and predicted something, and its rmse, timings and
   * personalization score are entry `g` of that algorithm's lists.
   */
  lemma IterateAlgoFold(algos: seq<string>, kfold: int, nRatings: nat, runner: Runner, s: Settings, a: nat, g: nat)
    requires IterateAlgoSpec(algos, kfold, nRatings, runner, s).Success? && a < |algos| && g < kfold
    ensures var m := IterateAlgoSpec(algos, kfold, nRatings, runner, s).value;
            FoldOk(runner(a, g)) &&
            a < |m.cvRmse| && g < |m.cvRmse[a]| && m.cvRmse[a][g] == runner(a, g).value.rmse &&
            a < |m.cvFitTime| && g < |m.cvFitTime[a]| && m.cvFitTime[a][g] == runner(a, g).value.fitTime &&
            a < |m.cvPredTime| && g < |m.cvPredTime[a]| && m.cvPredTime[a][g] == runner(a, g).value.predTime &&
            a < |m.cvPersonalization| && g < |m.cvPersonalization[a]| &&
            PersonalizationSpec(runner(a, g).value.preds, s.topN, s.sqrt) == Success(m.cvPersonalization[a][g])
  {
    var m := IterateAlgoSpec(algos, kfold, nRatings, runner, s).value;
    AlgoAt(algos, kfold, nRatings, runner, s, a);
    var steps := FoldSteps(runner, a, kfold, s);
    FoldsAt(steps, AlgoAcc(m.cvRmse[a], m.cvPrecision[a], m.cvRecall[a], m.cvFitTime[a], m.cvPredTime[a],
                           m.cvPersonalization[a]));
    FoldSpecValue(runner(a, g), s);
    FoldSucceeds(runner(a, g), s);
  }

  /**
   * On success the precision and recall dictionaries of algorithm `a` have exactly the keys of
   * `k_ls`, whether or not a k repeats.
   */
  lemma IterateAlgoKeys(algos: seq<string>, kfold: int, nRatings: nat, runner: Runner, s: Settings, a: nat)
    requires IterateAlgoSpec(algos, kfold, nRatings, runner, s).Success? && a < |algos|
    ensures var m := IterateAlgoSpec(algos, kfold, nRatings, runner, s).value;
            a < |m.cvPrecision| && a < |m.cvRecall| &&
            (forall k' :: k' in m.cvPrecision[a] <==> k' in s.ks) &&
            (forall k' :: k' in m.cvRecall[a] <==> k' in s.ks)
  {
    var m := IterateAlgoSpec(algos, kfold, nRatings, runner, s).value;
    AlgoAt(algos, kfold, nRatings, runner, s, a);
    FoldStepsScoresAt(runner, a, kfold, s);
    FoldsKeys(FoldSteps(runner, a, kfold, s), AlgoAcc(m.cvRmse[a], m.cvPrecision[a], m.cvRecall[a], m.cvFitTime[a],
                                                     m.cvPredTime[a], m.cvPersonalization[a]), s.ks);
  }

  /**
   * On success, with no repeated k in `k_ls`, the dictionaries of algorithm `a` have exactly the
   * keys of `k_ls`, each with one value per fold, and position `g` of the lists at `k` holds
   * `precision_recall_at_k` of fold `g` at `k`.
   */
  lemma IterateAlgoAtK(algos: seq<string>, kfold: int, nRatings: nat, runner: Runner, s: Settings,
                       a: nat, g: nat, j: nat)
    requires IterateAlgoSpec(algos, kfold, nRatings, runner, s).Success? && a < |algos| && g < kfold
    requires NoRepeats(s.ks) && j < |s.ks|
    ensures var m := IterateAlgoSpec(algos, kfold, nRatings, runner, s).value;
            var k := s.ks[j];
            a < |m.cvPrecision| && a < |m.cvRecall| &&
            (forall k' :: k' in m.cvPrecision[a] <==> k' in s.ks) &&
            (forall k' :: k' in m.cvRecall[a] <==> k' in s.ks) &&
            |m.cvPrecision[a][k]| == kfold && |m.cvRecall[a][k]| == kfold && runner(a, g).Success? &&
            PrecisionRecallSpec(runner(a, g).value.preds, k, s.threshold) ==
              Success(PrecisionRecall(m.cvPrecision[a][k][g], m.cvRecall[a][k][g]))
  {
    var m := IterateAlgoSpec(algos, kfold, nRatings, runner, s).value;
    AlgoAt(algos, kfold, nRatings, runner, s, a);
    var steps := FoldSteps(runner, a, kfold, s);
    var acc := AlgoAcc(m.cvRmse[a], m.cvPrecision[a], m.cvRecall[a], m.cvFitTime[a], m.cvPredTime[a],
                       m.cvPersonalization[a]);
    FoldStepsScoresAt(runner, a, kfold, s);
    FoldsKeys(steps, acc, s.ks);
    AddFoldAppendsAtK(s.ks, j);
    FoldsAtK(steps, AddFold, acc, s.ks, j, g);
    FoldSpecValue(runner(a, g), s);
  }

  /** The folds of an algorithm all run exactly when each of them runs and predicts something. */
  lemma FoldsSucceed(runner: Runner, a: nat, kfold: nat, s: Settings)
    ensures FoldsSpec(runner, a, kfold, s).Success? <==> forall g :: 0 <= g < kfold ==> FoldOk(runner(a, g))
  {
    var steps := FoldSteps(runner, a, kfold, s);
    LoopSucceeds(steps, AddFold, EmptyAcc());
    forall g | 0 <= g < kfold ensures steps[g].Success? <==> FoldOk(runner(a, g)) {
      FoldSucceeds(runner(a, g), s);
    }
  }

  /** An algorithm is done exactly when the split is accepted, its folds run and its name is found. */
  lemma AlgoStepSucceeds(algos: seq<string>, kfold: int, nRatings: nat, runner: Runner, s: Settings, a: nat)
    requires a < |algos|
    ensures AlgoSteps(algos, kfold, nRatings, runner, s)[a].Success? <==>
            ValidSplits(kfold, nRatings) && AlgoName(algos[a]).Success? &&
            forall g :: 0 <= g < kfold ==> FoldOk(runner(a, g))
  {
    FoldsSucceed(runner, a, if kfold < 0 then 0 else kfold, s);
  }

  /** Algorithm `a` has a name and each of its folds runs and predicts something. */
  predicate AlgoRuns(algos: seq<string>, kfold: int, runner: Runner, a: nat)
    requires a < |algos|
  {
    AlgoName(algos[a]).Success? && forall g :: 0 <= g < kfold ==> FoldOk(runner(a, g))
  }

  /**
   * `iterate_algo` returns normally exactly when the number of folds is accepted (or there is
   * no algorithm), every fold of every algorithm runs and predicts something, and every
   * algorithm's string holds a name.
   */
  lemma IterateAlgoSucceeds(algos: seq<string>, kfold: int, nRatings: nat, runner: Runner, s: Settings)
    ensures IterateAlgoSpec(algos, kfold, nRatings, runner, s).Success? <==>
            (algos == [] || ValidSplits(kfold, nRatings)) && forall a :: 0 <= a < |algos| ==> AlgoRuns(algos, kfold, runner, a)
  {
    var steps := AlgoSteps(algos, kfold, nRatings, runner, s);
    LoopSucceeds(steps, AddOutcome, EmptyMetrics());
    forall a | 0 <= a < |algos|
      ensures steps[a].Success? <==> ValidSplits(kfold, nRatings) && AlgoRuns(algos, kfold, runner, a)
    {
      AlgoStepSucceeds(algos, kfold, nRatings, runner, s, a);
    }
  }

  /** With at least one algorithm, a number of folds `KFold.split` rejects raises `ValueError`. */
  lemma SplitRejected(algos: seq<string>, kfold: int, nRatings: nat, runner: Runner, s: Settings)
    requires algos != [] && !ValidSplits(kfold, nRatings)
    ensures IterateAlgoSpec(algos, kfold, nRatings, runner, s) == Failure(ValueError)
  {
    var steps := AlgoSteps(algos, kfold, nRatings, runner, s);
    assert steps[..0] == [];
    LoopStep(steps, AddOutcome, EmptyMetrics(), 0, EmptyMetrics());
    LoopFailurePersists(steps, AddOutcome, EmptyMetrics(), 1);
  }
}
