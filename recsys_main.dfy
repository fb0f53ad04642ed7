/**
 * recsysmain.py, the earlier script the `recsys` package was split out of. Its
 * `precision_recall_at_k` and `get_top_n` are the ones of recsys/evaluate.py line for line;
 * its `personalization` builds the same matrix and score but has no `return`, so every call
 * yields None; and its `iterate_algo` runs the same loops and returns a 7-tuple of lists
 * instead of a dictionary.
 */
module LegacyMain {
  import opened Wrappers
  import opened Seqs
  import opened Evaluate
  import opened Personalization
  import opened MetricsTables
  import opened AlgoNames
  import opened Train

  /** The value of `personalization(prediction, n)` in recsysmain.py: None, or the exception. */
  function LegacyPersonalization(preds: seq<Prediction>, n: int, sqrt: real -> real): Result<Option<Score>, PyError>
  {
    var score :- PersonalizationSpec(preds, n, sqrt);
    Success(None)
  }

  /** recsysmain.py `personalization`: the score is computed into a local and dropped. */
  method PersonalizationNoReturn(preds: seq<Prediction>, n: int, sqrt: real -> real)
    returns (r: Result<Option<Score>, PyError>)
    ensures r == LegacyPersonalization(preds, n, sqrt)
  {
    var personalization := ComputePersonalization(preds, n, sqrt);
    if personalization.Failure? {
      return Failure(personalization.error);
    }
    r := Success(None);
  }

  /**
   * The legacy function raises exactly where the current one does (`ValueError` for an empty
   * prediction list) and otherwise returns None.
   */
  lemma LegacyPersonalizationNone(preds: seq<Prediction>, n: int, sqrt: real -> real)
    ensures LegacyPersonalization(preds, n, sqrt).Failure? <==> preds == []
    ensures LegacyPersonalization(preds, n, sqrt).Failure? ==> LegacyPersonalization(preds, n, sqrt).error == ValueError
    ensures LegacyPersonalization(preds, n, sqrt).Success? ==> LegacyPersonalization(preds, n, sqrt).value == None
  {
    PersonalizationDegenerate(preds, n, sqrt);
  }

  // ---------------------------------------------------------------- the legacy loops

  /** What a legacy fold adds: as in recsys/train.py, with the personalization entry None. */
  datatype LegacyFold = LegacyFold(rmse: real, scores: seq<KScore>, personalization: Option<Score>,
                                   fitTime: real, predTime: real)

  /** `rmse_ls`, `precisions_dict`, `recalls_dict`, `fit_time_ls`, `pred_time_ls`, `personalization_ls`. */
  datatype LegacyAcc = LegacyAcc(rmse: seq<real>, precision: map<int, seq<real>>, recall: map<int, seq<real>>,
                                 fitTime: seq<real>, predTime: seq<real>, personalization: seq<Option<Score>>)

  /** The body of the fold loop of recsysmain.py `iterate_algo`. */
  function LegacyFoldSpec(run: Result<FoldRun, PyError>, s: Settings): Result<LegacyFold, PyError>
  {
    var fr :- run;
    var scores :- AtEachK(ScoreAtK(fr.preds, s.threshold), s.ks);
    var p :- LegacyPersonalization(fr.preds, s.topN, s.sqrt);
    Success(LegacyFold(fr.rmse, scores, p, fr.fitTime, fr.predTime))
  }

  function AddLegacyFold(acc: LegacyAcc, fr: LegacyFold): LegacyAcc
  {
    LegacyAcc(acc.rmse + [fr.rmse],
              AppendAll(acc.precision, PrecisionEntries(fr.scores)),
              AppendAll(acc.recall, RecallEntries(fr.scores)),
              acc.fitTime + [fr.fitTime],
              acc.predTime + [fr.predTime],
              acc.personalization + [fr.personalization])
  }

  function LegacyFoldSteps(runner: Runner, a: nat, kfold: nat, s: Settings): (steps: seq<Result<LegacyFold, PyError>>)
    ensures |steps| == kfold && forall g :: 0 <= g < kfold ==> steps[g] == LegacyFoldSpec(runner(a, g), s)
  {
    seq(kfold, g requires 0 <= g < kfold => LegacyFoldSpec(runner(a, g), s))
  }

  function LegacyFoldsSpec(runner: Runner, a: nat, kfold: nat, s: Settings): Result<LegacyAcc, PyError>
  {
    Loop(LegacyFoldSteps(runner, a, kfold, s), AddLegacyFold, LegacyAcc([], map[], map[], [], [], []))
  }

  /** `cv_rmse, cv_personalization, cv_precision, cv_recall, cv_fit_time, cv_pred_time, algo_name`. */
  datatype LegacyTuple = LegacyTuple(
    cvRmse: seq<seq<real>>,
    cvPersonalization: seq<seq<Option<Score>>>,
    cvPrecision: seq<map<int, seq<real>>>,
    cvRecall: seq<map<int, seq<real>>>,
    cvFitTime: seq<seq<real>>,
    cvPredTime: seq<seq<real>>,
    algoName: seq<string>)

  datatype LegacyOutcome = LegacyOutcome(acc: LegacyAcc, name: string)

  /** The appends to the seven lists once the folds of an algorithm are done. */
  function AddLegacyAlgo(t: LegacyTuple, o: LegacyOutcome): LegacyTuple
  {
    LegacyTuple(t.cvRmse + [o.acc.rmse], t.cvPersonalization + [o.acc.personalization],
                t.cvPrecision + [o.acc.precision], t.cvRecall + [o.acc.recall],
                t.cvFitTime + [o.acc.fitTime], t.cvPredTime + [o.acc.predTime], t.algoName + [o.name])
  }

  function LegacyAlgoStep(repr: string, splitOk: bool, folds: Result<LegacyAcc, PyError>): Result<LegacyOutcome, PyError>
  {
    if !splitOk then Failure(ValueError)
    else
      var acc :- folds;
      var name :- AlgoName(repr);
      Success(LegacyOutcome(acc, name))
  }

  function LegacyAlgoSteps(algos: seq<string>, kfold: int, nRatings: nat, runner: Runner, s: Settings)
    : (steps: seq<Result<LegacyOutcome, PyError>>)
    ensures |steps| == |algos|
    ensures forall a :: 0 <= a < |algos| ==>
              steps[a] == LegacyAlgoStep(algos[a], ValidSplits(kfold, nRatings),
                                         LegacyFoldsSpec(runner, a, if kfold < 0 then 0 else kfold, s))
  {
    seq(|algos|, a requires 0 <= a < |algos| =>
      LegacyAlgoStep(algos[a], ValidSplits(kfold, nRatings), LegacyFoldsSpec(runner, a, if kfold < 0 then 0 else kfold, s)))
  }

  /** The value of recsysmain.py `iterate_algo(algo_ls, kfold, data, top_n, threshold, k_ls)`. */
  function LegacyIterateAlgoSpec(algos: seq<string>, kfold: int, nRatings: nat, runner: Runner, s: Settings)
    : Result<LegacyTuple, PyError>
  {
    Loop(LegacyAlgoSteps(algos, kfold, nRatings, runner, s), AddLegacyAlgo, LegacyTuple([], [], [], [], [], [], []))
  }

  // ---------------------------------------------------------------- the legacy loops against the current ones

  /** A value passed through `h`, an exception unchanged. */
  function MapValue<T, U>(r: Result<T, PyError>, h: T -> U): (m: Result<U, PyError>)
    ensures m.Failure? <==> r.Failure?
    ensures r.Failure? ==> m.error == r.error
  {
    match r
    case Success(v) => Success(h(v))
    case Failure(e) => Failure(e)
  }

  /** As many Nones as `xs` has scores. */
  function Nones(xs: seq<Score>): (r: seq<Option<Score>>)
    ensures |r| == |xs| && forall i :: 0 <= i < |r| ==> r[i] == None
  {
    seq(|xs|, i requires 0 <= i < |xs| => None)
  }

  function ForgetFold(fr: FoldResult): LegacyFold
  {
    LegacyFold(fr.rmse, fr.scores, None, fr.fitTime, fr.predTime)
  }

  function ForgetAcc(acc: AlgoAcc): LegacyAcc
  {
    LegacyAcc(acc.rmse, acc.precision, acc.recall, acc.fitTime, acc.predTime, Nones(acc.personalization))
  }

  function ForgetOutcome(o: AlgoOutcome): LegacyOutcome
  {
    LegacyOutcome(ForgetAcc(o.acc), o.name)
  }

  /** The dictionary of recsys/train.py as the legacy tuple, with every personalization entry None. */
  function ToTuple(m: Metrics): (t: LegacyTuple)
    ensures |t.cvPersonalization| == |m.cvPersonalization|
    ensures forall a :: 0 <= a < |t.cvPersonalization| ==> t.cvPersonalization[a] == Nones(m.cvPersonalization[a])
  {
    LegacyTuple(m.cvRmse, seq(|m.cvPersonalization|, a requires 0 <= a < |m.cvPersonalization| => Nones(m.cvPersonalization[a])),
                m.cvPrecision, m.cvRecall, m.cvFitTime, m.cvPredTime, m.algoName)
  }

  /**
   * Two loops whose iterations correspond through `h`, and whose states correspond through `f`
   * at the start and after each iteration, end in corresponding states or the same exception.
   */
  lemma {:induction false} LoopMap<A, T, B, U>(steps: seq<Result<T, PyError>>, add: (A, T) -> A, init: A,
                                               steps': seq<Result<U, PyError>>, add': (B, U) -> B, init': B,
                                               f: A -> B, h: T -> U)
    requires |steps'| == |steps| && forall i :: 0 <= i < |steps| ==> steps'[i] == MapValue(steps[i], h)
    requires forall acc, x :: add'(f(acc), h(x)) == f(add(acc, x))
    requires init' == f(init)
    ensures Loop(steps', add', init') == MapValue(Loop(steps, add, init), f)
  {
    if steps != [] {
      var n := |steps| - 1;
      assert forall i :: 0 <= i < n ==> steps'[..n][i] == MapValue(steps[..n][i], h);
      LoopMap(steps[..n], add, init, steps'[..n], add', init', f, h);
    }
  }

  /** A legacy fold is the current fold with its personalization value replaced by None. */
  lemma LegacyFoldMatches(run: Result<FoldRun, PyError>, s: Settings)
    ensures LegacyFoldSpec(run, s) == MapValue(FoldSpec(run, s), ForgetFold)
  {
    if run.Success? {
      LegacyPersonalizationNone(run.value.preds, s.topN, s.sqrt);
      PersonalizationDegenerate(run.value.preds, s.topN, s.sqrt);
    }
  }

  lemma AddLegacyFoldMatches(acc: AlgoAcc, fr: FoldResult)
    ensures AddLegacyFold(ForgetAcc(acc), ForgetFold(fr)) == ForgetAcc(AddFold(acc, fr))
  {
    assert Nones(acc.personalization) + [None] == Nones(acc.personalization + [fr.personalization]);
  }

  lemma LegacyFoldsMatch(runner: Runner, a: nat, kfold: nat, s: Settings)
    ensures LegacyFoldsSpec(runner, a, kfold, s) == MapValue(FoldsSpec(runner, a, kfold, s), ForgetAcc)
  {
    var steps, steps' := FoldSteps(runner, a, kfold, s), LegacyFoldSteps(runner, a, kfold, s);
    forall g | 0 <= g < kfold ensures steps'[g] == MapValue(steps[g], ForgetFold) {
      LegacyFoldMatches(runner(a, g), s);
    }
    forall acc, x ensures AddLegacyFold(ForgetAcc(acc), ForgetFold(x)) == ForgetAcc(AddFold(acc, x)) {
      AddLegacyFoldMatches(acc, x);
    }
    assert ForgetAcc(EmptyAcc()) == LegacyAcc([], map[], map[], [], [], []);
    LoopMap(steps, AddFold, EmptyAcc(), steps', AddLegacyFold, LegacyAcc([], map[], map[], [], [], []), ForgetAcc, ForgetFold);
  }

  lemma AddLegacyAlgoMatches(m: Metrics, o: AlgoOutcome)
    ensures AddLegacyAlgo(ToTuple(m), ForgetOutcome(o)) == ToTuple(AddOutcome(m, o))
  {
    var t, t' := AddLegacyAlgo(ToTuple(m), ForgetOutcome(o)), ToTuple(AddOutcome(m, o));
    assert t.cvPersonalization == t'.cvPersonalization;
  }

  lemma LegacyAlgoStepMatches(algos: seq<string>, kfold: int, nRatings: nat, runner: Runner, s: Settings, a: nat)
    requires a < |algos|
    ensures LegacyAlgoSteps(algos, kfold, nRatings, runner, s)[a] ==
            MapValue(AlgoSteps(algos, kfold, nRatings, runner, s)[a], ForgetOutcome)
  {
    LegacyFoldsMatch(runner, a, if kfold < 0 then 0 else kfold, s);
  }

  /**
   * recsysmain.py `iterate_algo` returns the lists of recsys/train.py `iterate_algo` in the
   * tuple's order, except that every personalization entry is None, and raises the same
   * exceptions.
   */
  lemma LegacyIterateAlgoMatches(algos: seq<string>, kfold: int, nRatings: nat, runner: Runner, s: Settings)
    ensures LegacyIterateAlgoSpec(algos, kfold, nRatings, runner, s) ==
            MapValue(IterateAlgoSpec(algos, kfold, nRatings, runner, s), ToTuple)
  {
    var steps, steps' := AlgoSteps(algos, kfold, nRatings, runner, s), LegacyAlgoSteps(algos, kfold, nRatings, runner, s);
    forall a | 0 <= a < |algos| ensures steps'[a] == MapValue(steps[a], ForgetOutcome) {
      LegacyAlgoStepMatches(algos, kfold, nRatings, runner, s, a);
    }
    forall m, o ensures AddLegacyAlgo(ToTuple(m), ForgetOutcome(o)) == ToTuple(AddOutcome(m, o)) {
      AddLegacyAlgoMatches(m, o);
    }
    assert ToTuple(EmptyMetrics()) == LegacyTuple([], [], [], [], [], [], []);
    LoopMap(steps, AddOutcome, EmptyMetrics(), steps', AddLegacyAlgo, LegacyTuple([], [], [], [], [], [], []),
            ToTuple, ForgetOutcome);
  }

  /**
   * recsysmain.py `iterate_algo`: the loops of recsys/train.py `iterate_algo`, whose lists are
   * returned as a tuple; the personalization lists collect the None of each call.
   */
  method LegacyIterateAlgo(algos: seq<string>, kfold: int, nRatings: nat, runner: Runner, s: Settings)
    returns (r: Result<LegacyTuple, PyError>)
    ensures r == LegacyIterateAlgoSpec(algos, kfold, nRatings, runner, s)
  {
    var metrics := IterateAlgo(algos, kfold, nRatings, runner, s);
    LegacyIterateAlgoMatches(algos, kfold, nRatings, runner, s);
    if metrics.Failure? {
      return Failure(metrics.error);
    }
    r := Success(ToTuple(metrics.value));
  }

  /**
   * On success the tuple holds one entry per algorithm in `algo_ls` order in each of its seven
   * lists, each inner list has one entry per fold, and every personalization entry is None.
   */
  lemma LegacyTupleShape(algos: seq<string>, kfold: int, nRatings: nat, runner: Runner, s: Settings)
    requires LegacyIterateAlgoSpec(algos, kfold, nRatings, runner, s).Success?
    ensures var t := LegacyIterateAlgoSpec(algos, kfold, nRatings, runner, s).value;
            |t.cvRmse| == |algos| && |t.cvPersonalization| == |algos| && |t.cvPrecision| == |algos| &&
            |t.cvRecall| == |algos| && |t.cvFitTime| == |algos| && |t.cvPredTime| == |algos| &&
            |t.algoName| == |algos| &&
            forall a :: 0 <= a < |algos| ==>
              AlgoName(algos[a]) == Success(t.algoName[a]) &&
              |t.cvRmse[a]| == kfold && |t.cvFitTime[a]| == kfold && |t.cvPredTime[a]| == kfold &&
              |t.cvPersonalization[a]| == kfold &&
              forall g :: 0 <= g < kfold ==> t.cvPersonalization[a][g] == None
  {
    LegacyIterateAlgoMatches(algos, kfold, nRatings, runner, s);
    IterateAlgoShape(algos, kfold, nRatings, runner, s);
  }

  /** The legacy loop raises exactly when the current one does, with the same exception. */
  lemma LegacyFailsAlike(algos: seq<string>, kfold: int, nRatings: nat, runner: Runner, s: Settings)
    ensures LegacyIterateAlgoSpec(algos, kfold, nRatings, runner, s).Failure? <==>
            IterateAlgoSpec(algos, kfold, nRatings, runner, s).Failure?
    ensures LegacyIterateAlgoSpec(algos, kfold, nRatings, runner, s).Failure? ==>
            LegacyIterateAlgoSpec(algos, kfold, nRatings, runner, s).error ==
            IterateAlgoSpec(algos, kfold, nRatings, runner, s).error
  {
    LegacyIterateAlgoMatches(algos, kfold, nRatings, runner, s);
  }
}
