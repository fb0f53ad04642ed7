/**
 * Offline evaluation of a recommender (recsys/evaluate.py): top-N lists per user,
 * precision and recall at k, and the personalization (diversity) score.
 */
module Evaluate {
  import opened Wrappers
  import opened Seqs
  import opened StableSort

  /** A row of `algo.test(...)`: (uid, iid, true_r, est, details); `details` is never read. */
  datatype Prediction = Prediction(uid: string, iid: string, trueR: real, est: real)

  /** An entry of a top-N list, the tuple (iid, est). */
  datatype Rated = Rated(iid: string, est: real)

  function EstOf(r: Rated): real { r.est }

  /** The uid column, in prediction order. */
  function Uids(preds: seq<Prediction>): (r: seq<string>)
    ensures |r| == |preds|
  {
    if preds == [] then [] else Uids(preds[..|preds| - 1]) + [preds[|preds| - 1].uid]
  }

  /** The iid column, in prediction order. */
  function Iids(preds: seq<Prediction>): (r: seq<string>)
    ensures |r| == |preds|
  {
    if preds == [] then [] else Iids(preds[..|preds| - 1]) + [preds[|preds| - 1].iid]
  }

  /** The users in the order a dictionary keyed by uid first sees them. */
  function Users(preds: seq<Prediction>): seq<string>
  {
    Distinct(Uids(preds))
  }

  lemma {:induction false} UidsAt(preds: seq<Prediction>, i: nat)
    requires i < |preds|
    ensures Uids(preds)[i] == preds[i].uid
  {
    if i < |preds| - 1 {
      UidsAt(preds[..|preds| - 1], i);
    }
  }

  lemma {:induction false} IidsAt(preds: seq<Prediction>, i: nat)
    requires i < |preds|
    ensures Iids(preds)[i] == preds[i].iid
  {
    if i < |preds| - 1 {
      IidsAt(preds[..|preds| - 1], i);
    }
  }

  /** What `top_n[uid].append((iid, est))` collects for user `u`: its entries in prediction order. */
  function UserEntries(preds: seq<Prediction>, u: string): seq<Rated>
  {
    if preds == [] then []
    else
      var p := preds[|preds| - 1];
      UserEntries(preds[..|preds| - 1], u) + (if p.uid == u then [Rated(p.iid, p.est)] else [])
  }

  lemma {:induction false} UserEntriesAbsent(preds: seq<Prediction>, u: string)
    requires u !in Uids(preds)
    ensures UserEntries(preds, u) == []
  {
    if preds != [] {
      UserEntriesAbsent(preds[..|preds| - 1], u);
    }
  }

  function IsUser(u: string): Prediction -> bool
  {
    (p: Prediction) => p.uid == u
  }

  lemma {:induction false} UserEntriesNone(preds: seq<Prediction>, u: string)
    requires forall i :: 0 <= i < |preds| ==> preds[i].uid != u
    ensures UserEntries(preds, u) == []
  {
    if preds != [] {
      UserEntriesNone(preds[..|preds| - 1], u);
    }
  }

  lemma {:induction false} UserEntriesAppend(a: seq<Prediction>, b: seq<Prediction>, u: string)
    ensures UserEntries(a + b, u) == UserEntries(a, u) + UserEntries(b, u)
  {
    if b == [] {
      assert a + b == a;
    } else {
      assert (a + b)[..|a + b| - 1] == a + b[..|b| - 1];
      UserEntriesAppend(a, b[..|b| - 1], u);
    }
  }

  /** A user collects one entry per prediction made for it, each taken from such a prediction. */
  lemma {:induction false} UserEntriesFromPredictions(preds: seq<Prediction>, u: string)
    ensures |UserEntries(preds, u)| == Count(preds, IsUser(u))
    ensures forall e :: e in UserEntries(preds, u) ==>
              exists i :: 0 <= i < |preds| && preds[i].uid == u && e == Rated(preds[i].iid, preds[i].est)
  {
    if preds != [] {
      var init := preds[..|preds| - 1];
      UserEntriesFromPredictions(init, u);
      forall e | e in UserEntries(preds, u)
        ensures exists i :: 0 <= i < |preds| && preds[i].uid == u && e == Rated(preds[i].iid, preds[i].est)
      {
        if e in UserEntries(init, u) {
          var i :| 0 <= i < |init| && init[i].uid == u && e == Rated(init[i].iid, init[i].est);
          assert preds[i] == init[i];
        } else {
          assert preds[|preds| - 1].uid == u;
        }
      }
    }
  }

  // ---------------------------------------------------------------- get_top_n

  /** `user_ratings.sort(key=est, reverse=True)` followed by `user_ratings[:n]`. */
  function TopNList(preds: seq<Prediction>, n: int, u: string): seq<Rated>
  {
    SliceTo(SortDesc(UserEntries(preds, u), EstOf), n)
  }

  /** The dictionary `get_top_n(predictions, n)` returns. */
  function TopNMap(preds: seq<Prediction>, n: int): map<string, seq<Rated>>
  {
    map u | u in Uids(preds) :: TopNList(preds, n, u)
  }

  /**
   * The first loop of `get_top_n`: `top_n[uid].append((iid, est))` into a defaultdict(list),
   * together with the order in which the dictionary gains its keys.
   */
  method GroupRatings(preds: seq<Prediction>) returns (topN: map<string, seq<Rated>>, users: seq<string>)
    ensures forall u :: u in topN <==> u in Uids(preds)
    ensures forall u :: u in topN ==> topN[u] == UserEntries(preds, u)
    ensures forall i :: 0 <= i < |users| ==> users[i] in topN
    ensures forall u :: u in topN ==> u in users
    ensures forall i, j :: 0 <= i < j < |users| ==> users[i] != users[j]
  {
    topN := map[];
    users := [];
    for i := 0 to |preds|
      invariant users == Users(preds[..i])
      invariant forall u :: u in topN <==> u in Uids(preds[..i])
      invariant forall u :: u in topN ==> topN[u] == UserEntries(preds[..i], u)
    {
      var p := preds[i];
      assert preds[..i + 1][..i] == preds[..i];
      if p.uid in topN {
        topN := topN[p.uid := topN[p.uid] + [Rated(p.iid, p.est)]];
      } else {
        UserEntriesAbsent(preds[..i], p.uid);
        topN := topN[p.uid := [Rated(p.iid, p.est)]];
        users := users + [p.uid];
      }
    }
    assert preds[..|preds|] == preds;
  }

  /**
   * The second loop of `get_top_n`: for each key in order, `user_ratings.sort(key=est, reverse=True)`
   * and `top_n[uid] = user_ratings[:n]`.
   */
  method SortAndTruncate(topN: map<string, seq<Rated>>, users: seq<string>, n: int)
    returns (result: map<string, seq<Rated>>)
    requires forall i :: 0 <= i < |users| ==> users[i] in topN
    requires forall u :: u in topN ==> u in users
    requires forall i, j :: 0 <= i < j < |users| ==> users[i] != users[j]
    ensures result.Keys == topN.Keys
    ensures forall u :: u in topN ==> result[u] == SliceTo(SortDesc(topN[u], EstOf), n)
  {
    result := topN;
    for j := 0 to |users|
      invariant result.Keys == topN.Keys
      invariant forall i :: 0 <= i < j ==> result[users[i]] == SliceTo(SortDesc(topN[users[i]], EstOf), n)
      invariant forall i :: j <= i < |users| ==> result[users[i]] == topN[users[i]]
    {
      var uid := users[j];
      var userRatings := SortDesc(result[uid], EstOf);
      ghost var before := result;
      result := result[uid := SliceTo(userRatings, n)];
      forall i | 0 <= i < |users| && i != j ensures result[users[i]] == before[users[i]] {
        assert users[i] != uid;
      }
    }
    forall u | u in topN ensures result[u] == SliceTo(SortDesc(topN[u], EstOf), n) {
      var i :| 0 <= i < |users| && users[i] == u;
    }
  }

  /** recsys/evaluate.py `get_top_n`: group by user, sort each group descending by estimate, keep `[:n]`. */
  method GetTopN(preds: seq<Prediction>, n: int) returns (topN: map<string, seq<Rated>>)
    ensures topN == TopNMap(preds, n)
  {
    // First map the predictions to each user.
    var grouped, users := GroupRatings(preds);
    // Then sort the predictions for each user and retrieve the n highest ones.
    topN := SortAndTruncate(grouped, users, n);
  }

  /** A top-N list holds min(n, number of the user's predictions) entries, each from one of them. */
  lemma TopNLength(preds: seq<Prediction>, n: int, u: string)
    requires n >= 0
    ensures |TopNList(preds, n, u)| == Min(n, Count(preds, IsUser(u)))
    ensures forall e :: e in TopNList(preds, n, u) ==>
              exists i :: 0 <= i < |preds| && preds[i].uid == u && e == Rated(preds[i].iid, preds[i].est)
  {
    var entries := UserEntries(preds, u);
    UserEntriesFromPredictions(preds, u);
    SortDescCorrect(entries, EstOf);
    var sorted := SortDesc(entries, EstOf);
    forall e | e in TopNList(preds, n, u) ensures e in entries {
      assert e in sorted;
      assert e in multiset(sorted);
    }
  }

  /**
   * A top-N list is sorted by descending estimate, and no entry left out of it has a
   * larger estimate than an entry kept.
   */
  lemma TopNKeepsHighest(preds: seq<Prediction>, n: int, u: string)
    ensures SortedDesc(TopNList(preds, n, u), EstOf)
    ensures forall e, x ::
              e in TopNList(preds, n, u) && x in multiset(UserEntries(preds, u)) - multiset(TopNList(preds, n, u))
              ==> e.est >= x.est
  {
    var entries := UserEntries(preds, u);
    SortDescCorrect(entries, EstOf);
    var top := TopNList(preds, n, u);
    assert top == SortDesc(entries, EstOf)[..|top|];
    SortDescPrefixKeepsHighest(entries, EstOf, |top|);
  }

  /** Stability: entries with equal estimates appear in the order the predictions gave them. */
  lemma TopNStable(preds: seq<Prediction>, n: int, u: string, v: real)
    ensures WithKey(TopNList(preds, n, u), EstOf, v) <= WithKey(UserEntries(preds, u), EstOf, v)
  {
    var entries := UserEntries(preds, u);
    var sorted := SortDesc(entries, EstOf);
    var top := TopNList(preds, n, u);
    assert sorted == top + sorted[|top|..];
    WithKeyAppend(top, sorted[|top|..], EstOf, v);
    SortDescStable(entries, EstOf, v);
  }

  /** The predictions of the evaluation tests (tests/test_evaluate.py). */
  function Fixture(): seq<Prediction>
  {
    [Prediction("a", "1", 4.0, 4.1339), Prediction("a", "2", 3.0, 2.9187),
     Prediction("a", "5", 4.0, 3.1339), Prediction("b", "1", 3.0, 3.3971),
     Prediction("b", "7", 4.0, 4.1339), Prediction("c", "2", 3.0, 2.1339),
     Prediction("c", "3", 4.0, 4.1339), Prediction("d", "6", 2.0, 1.3981)]
  }

  /** The entries of the user whose predictions are exactly `f[lo..hi]`. */
  lemma FixtureGroup(f: seq<Prediction>, lo: nat, hi: nat, u: string)
    requires lo <= hi <= |f|
    requires forall i :: 0 <= i < |f| ==> (f[i].uid == u <==> lo <= i < hi)
    ensures UserEntries(f, u) == UserEntries(f[lo..hi], u)
  {
    assert f == f[..lo] + f[lo..hi] + f[hi..];
    UserEntriesAppend(f[..lo] + f[lo..hi], f[hi..], u);
    UserEntriesAppend(f[..lo], f[lo..hi], u);
    UserEntriesNone(f[..lo], u);
    UserEntriesNone(f[hi..], u);
  }

  lemma FixtureUids()
    ensures Uids(Fixture()) == ["a", "a", "a", "b", "b", "c", "c", "d"]
  {
    var f := Fixture();
    forall i | 1 <= i <= |f| ensures f[..i][..i - 1] == f[..i - 1] {}
    assert Uids(f[..1]) == ["a"];
    assert Uids(f[..2]) == ["a", "a"];
    assert Uids(f[..3]) == ["a", "a", "a"];
    assert Uids(f[..4]) == ["a", "a", "a", "b"];
    assert Uids(f[..5]) == ["a", "a", "a", "b", "b"];
    assert Uids(f[..6]) == ["a", "a", "a", "b", "b", "c"];
    assert Uids(f[..7]) == ["a", "a", "a", "b", "b", "c", "c"];
    assert f[..8] == f;
  }

  lemma FixtureIids()
    ensures Iids(Fixture()) == ["1", "2", "5", "1", "7", "2", "3", "6"]
  {
    var f := Fixture();
    forall i | 1 <= i <= |f| ensures f[..i][..i - 1] == f[..i - 1] {}
    assert Iids(f[..1]) == ["1"];
    assert Iids(f[..2]) == ["1", "2"];
    assert Iids(f[..3]) == ["1", "2", "5"];
    assert Iids(f[..4]) == ["1", "2", "5", "1"];
    assert Iids(f[..5]) == ["1", "2", "5", "1", "7"];
    assert Iids(f[..6]) == ["1", "2", "5", "1", "7", "2"];
    assert Iids(f[..7]) == ["1", "2", "5", "1", "7", "2", "3"];
    assert f[..8] == f;
  }

  lemma FixtureEntriesA()
    ensures UserEntries(Fixture(), "a") == [Rated("1", 4.1339), Rated("2", 2.9187), Rated("5", 3.1339)]
  {
    var f := Fixture();
    FixtureGroup(f, 0, 3, "a");
    assert f[0..3] == [f[0], f[1]] + [f[2]] && [f[0], f[1]] == [f[0]] + [f[1]];
    UserEntriesAppend([f[0], f[1]], [f[2]], "a");
    UserEntriesAppend([f[0]], [f[1]], "a");
  }

  lemma FixtureSortedA()
    ensures SortDesc(UserEntries(Fixture(), "a"), EstOf) == [Rated("1", 4.1339), Rated("5", 3.1339), Rated("2", 2.9187)]
  {
    FixtureEntriesA();
    var a := [Rated("1", 4.1339), Rated("2", 2.9187), Rated("5", 3.1339)];
    assert a[1..] == [a[1], a[2]] && a[1..][1..] == [a[2]];
    assert SortDesc([a[2]], EstOf) == [a[2]];
    assert Insert(a[1], [a[2]], EstOf) == [a[2]] + Insert(a[1], [], EstOf) == [a[2], a[1]];
    assert SortDesc(a[1..], EstOf) == [a[2], a[1]];
    assert SortDesc(a, EstOf) == Insert(a[0], [a[2], a[1]], EstOf) == [a[0], a[2], a[1]];
  }

  lemma FixtureEntriesB()
    ensures UserEntries(Fixture(), "b") == [Rated("1", 3.3971), Rated("7", 4.1339)]
  {
    var f := Fixture();
    FixtureGroup(f, 3, 5, "b");
    assert f[3..5] == [f[3]] + [f[4]];
    UserEntriesAppend([f[3]], [f[4]], "b");
  }

  lemma FixtureSortedB()
    ensures SortDesc(UserEntries(Fixture(), "b"), EstOf) == [Rated("7", 4.1339), Rated("1", 3.3971)]
  {
    FixtureEntriesB();
    var b := [Rated("1", 3.3971), Rated("7", 4.1339)];
    assert b[1..] == [b[1]];
    assert SortDesc(b, EstOf) == Insert(b[0], [b[1]], EstOf) == [b[1], b[0]];
  }

  lemma FixtureEntriesC()
    ensures UserEntries(Fixture(), "c") == [Rated("2", 2.1339), Rated("3", 4.1339)]
  {
    var f := Fixture();
    FixtureGroup(f, 5, 7, "c");
    assert f[5..7] == [f[5]] + [f[6]];
    UserEntriesAppend([f[5]], [f[6]], "c");
  }

  lemma FixtureSortedC()
    ensures SortDesc(UserEntries(Fixture(), "c"), EstOf) == [Rated("3", 4.1339), Rated("2", 2.1339)]
  {
    FixtureEntriesC();
    var c := [Rated("2", 2.1339), Rated("3", 4.1339)];
    assert c[1..] == [c[1]];
    assert SortDesc(c, EstOf) == Insert(c[0], [c[1]], EstOf) == [c[1], c[0]];
  }

  lemma FixtureSortedD()
    ensures SortDesc(UserEntries(Fixture(), "d"), EstOf) == [Rated("6", 1.3981)]
  {
    var f := Fixture();
    FixtureGroup(f, 7, 8, "d");
    assert f[7..8] == [f[7]];
    var d := UserEntries(f, "d");
    assert d == [Rated("6", 1.3981)];
    assert SortDesc(d, EstOf) == [d[0]];
  }

  lemma FixtureKeys()
    ensures TopNMap(Fixture(), 1).Keys == {"a", "b", "c", "d"}
  {
    FixtureUids();
  }

  lemma FixtureTopA()
    ensures TopNList(Fixture(), 1, "a") == [Rated("1", 4.1339)]
  {
    FixtureSortedA();
    TopOfSorted(Fixture(), 1, "a", [Rated("1", 4.1339), Rated("5", 3.1339), Rated("2", 2.9187)]);
  }

  lemma FixtureTopB()
    ensures TopNList(Fixture(), 1, "b") == [Rated("7", 4.1339)]
  {
    FixtureSortedB();
    TopOfSorted(Fixture(), 1, "b", [Rated("7", 4.1339), Rated("1", 3.3971)]);
  }

  lemma FixtureTopC()
    ensures TopNList(Fixture(), 1, "c") == [Rated("3", 4.1339)]
  {
    FixtureSortedC();
    TopOfSorted(Fixture(), 1, "c", [Rated("3", 4.1339), Rated("2", 2.1339)]);
  }

  lemma FixtureTopD()
    ensures TopNList(Fixture(), 1, "d") == [Rated("6", 1.3981)]
  {
    FixtureSortedD();
    TopOfSorted(Fixture(), 1, "d", [Rated("6", 1.3981)]);
  }

  /** The top-1 lists the evaluation tests expect. */
  lemma TopNFixture()
    ensures TopNMap(Fixture(), 1) == map["a" := [Rated("1", 4.1339)], "b" := [Rated("7", 4.1339)],
                                         "c" := [Rated("3", 4.1339)], "d" := [Rated("6", 1.3981)]]
  {
    FixtureKeys();
    FixtureTopA();
    FixtureTopB();
    FixtureTopC();
    FixtureTopD();
    MapOfFour(TopNMap(Fixture(), 1), [Rated("1", 4.1339)], [Rated("7", 4.1339)], [Rated("3", 4.1339)], [Rated("6", 1.3981)]);
  }

  /** A top-N list read off the user's sorted entries. */
  lemma TopOfSorted(preds: seq<Prediction>, n: nat, u: string, sorted: seq<Rated>)
    requires SortDesc(UserEntries(preds, u), EstOf) == sorted
    ensures TopNList(preds, n, u) == sorted[..Min(n, |sorted|)]
  {
  }

  lemma MapOfFour(m: map<string, seq<Rated>>, a: seq<Rated>, b: seq<Rated>, c: seq<Rated>, d: seq<Rated>)
    requires m.Keys == {"a", "b", "c", "d"}
    requires m["a"] == a && m["b"] == b && m["c"] == c && m["d"] == d
    ensures m == map["a" := a, "b" := b, "c" := c, "d" := d]
  {
  }

  // ---------------------------------------------------------------- precision_recall_at_k

  /** An entry of `user_est_true`, the tuple (est, true_r). */
  datatype EstTrue = EstTrue(est: real, trueR: real)

  function EstKey(x: EstTrue): real { x.est }

  /** What `user_est_true[uid].append((est, true_r))` collects for user `u`, in prediction order. */
  function UserEstTrue(preds: seq<Prediction>, u: string): (r: seq<EstTrue>)
    ensures |r| == Count(preds, IsUser(u))
  {
    if preds == [] then []
    else
      var p := preds[|preds| - 1];
      UserEstTrue(preds[..|preds| - 1], u) + (if p.uid == u then [EstTrue(p.est, p.trueR)] else [])
  }

  /** `true_r >= threshold` */
  function Relevant(threshold: real): EstTrue -> bool
  {
    (x: EstTrue) => x.trueR >= threshold
  }

  /** `est >= threshold` */
  function Recommended(threshold: real): EstTrue -> bool
  {
    KeyAtLeast(EstKey, threshold)
  }

  /** `(true_r >= threshold) and (est >= threshold)` */
  function RelevantAndRecommended(threshold: real): EstTrue -> bool
  {
    (x: EstTrue) => x.trueR >= threshold && x.est >= threshold
  }

  /** n_rel: the relevant items among all of the user's ratings. */
  function NRel(ratings: seq<EstTrue>, threshold: real): nat
  {
    Count(SortDesc(ratings, EstKey), Relevant(threshold))
  }

  /** n_rec_k: the recommended items among the first `k` after the descending sort. */
  function NRecK(ratings: seq<EstTrue>, k: int, threshold: real): nat
  {
    Count(SliceTo(SortDesc(ratings, EstKey), k), Recommended(threshold))
  }

  /** n_rel_and_rec_k: the relevant and recommended items among the first `k`. */
  function NRelRecK(ratings: seq<EstTrue>, k: int, threshold: real): nat
  {
    Count(SliceTo(SortDesc(ratings, EstKey), k), RelevantAndRecommended(threshold))
  }

  /** `part / whole if whole != 0 else 1`: the share `part` makes up of `whole`, 1 for an empty whole. */
  function ShareOrOne(part: nat, whole: nat): (r: real)
    requires part <= whole
    ensures 0.0 <= r <= 1.0
    ensures whole == 0 ==> r == 1.0
    ensures whole != 0 ==> r * whole as real == part as real
  {
    if whole != 0 then
      var q := part as real / whole as real;
      assert q * whole as real == part as real;
      q
    else 1.0
  }

  /** The relevant-and-recommended items are among the recommended ones and among the relevant ones. */
  lemma NRelRecKBounds(ratings: seq<EstTrue>, k: int, threshold: real)
    ensures NRelRecK(ratings, k, threshold) <= NRecK(ratings, k, threshold)
    ensures NRelRecK(ratings, k, threshold) <= NRel(ratings, threshold)
  {
    var sorted := SortDesc(ratings, EstKey);
    var top := SliceTo(sorted, k);
    CountMonotone(top, RelevantAndRecommended(threshold), Recommended(threshold));
    CountMonotone(top, RelevantAndRecommended(threshold), Relevant(threshold));
    CountPrefix(sorted, |top|, Relevant(threshold));
  }

  /** A user's (precision@k, recall@k). */
  datatype PrecisionRecall = PrecisionRecall(precision: real, recall: real)

  /**
   * Precision is the share of recommended items that are relevant, recall the share of
   * relevant items that are recommended; a zero denominator gives exactly 1. Both lie in [0, 1].
   */
  function UserPrecisionRecall(ratings: seq<EstTrue>, k: int, threshold: real): (r: PrecisionRecall)
    ensures 0.0 <= r.precision <= 1.0 && 0.0 <= r.recall <= 1.0
    ensures NRecK(ratings, k, threshold) == 0 ==> r.precision == 1.0
    ensures NRel(ratings, threshold) == 0 ==> r.recall == 1.0
  {
    NRelRecKBounds(ratings, k, threshold);
    PrecisionRecall(ShareOrOne(NRelRecK(ratings, k, threshold), NRecK(ratings, k, threshold)),
                    ShareOrOne(NRelRecK(ratings, k, threshold), NRel(ratings, threshold)))
  }

  /** Because of the descending sort, the top k hold min(k, number of estimates >= threshold) recommended items. */
  lemma NRecKIsMin(ratings: seq<EstTrue>, k: int, threshold: real)
    requires k >= 0
    ensures NRecK(ratings, k, threshold) == Min(k, Count(ratings, Recommended(threshold)))
  {
    var sorted := SortDesc(ratings, EstKey);
    SortDescCorrect(ratings, EstKey);
    SortDescCount(ratings, EstKey, Recommended(threshold));
    SortedPrefixCount(sorted, EstKey, threshold, Min(k, |sorted|));
  }

  /** n_rel does not depend on the sort: it counts the relevant ratings of the user. */
  lemma NRelIsCount(ratings: seq<EstTrue>, threshold: real)
    ensures NRel(ratings, threshold) == Count(ratings, Relevant(threshold))
  {
    SortDescCount(ratings, EstKey, Relevant(threshold));
  }

  /** Precisions (or recalls) of the users in dictionary order. */
  function Precisions(preds: seq<Prediction>, k: int, threshold: real): (r: seq<real>)
    ensures |r| == |Users(preds)|
  {
    var users := Users(preds);
    seq(|users|, i requires 0 <= i < |users| => UserPrecisionRecall(UserEstTrue(preds, users[i]), k, threshold).precision)
  }

  function Recalls(preds: seq<Prediction>, k: int, threshold: real): (r: seq<real>)
    ensures |r| == |Users(preds)|
  {
    var users := Users(preds);
    seq(|users|, i requires 0 <= i < |users| => UserPrecisionRecall(UserEstTrue(preds, users[i]), k, threshold).recall)
  }

  /** What `precision_recall_at_k` returns: the unweighted means over users, or the division by `len({})`. */
  function PrecisionRecallSpec(preds: seq<Prediction>, k: int, threshold: real): Result<PrecisionRecall, PyError>
  {
    var users := Users(preds);
    if users == [] then Failure(ZeroDivisionError)
    else
      Success(PrecisionRecall(Sum(Precisions(preds, k, threshold)) / |users| as real,
                              Sum(Recalls(preds, k, threshold)) / |users| as real))
  }

  /**
   * The first loop of `precision_recall_at_k`: `user_est_true[uid].append((est, true_r))`,
   * together with the order in which the dictionary gains its keys.
   */
  method GroupEstTrue(preds: seq<Prediction>) returns (userEstTrue: map<string, seq<EstTrue>>, users: seq<string>)
    ensures users == Users(preds)
    ensures forall u :: u in userEstTrue <==> u in users
    ensures forall u :: u in userEstTrue ==> userEstTrue[u] == UserEstTrue(preds, u)
  {
    userEstTrue := map[];
    users := [];
    for i := 0 to |preds|
      invariant users == Users(preds[..i])
      invariant forall u :: u in userEstTrue <==> u in Uids(preds[..i])
      invariant forall u :: u in userEstTrue ==> userEstTrue[u] == UserEstTrue(preds[..i], u)
    {
      var p := preds[i];
      assert preds[..i + 1][..i] == preds[..i];
      if p.uid in userEstTrue {
        userEstTrue := userEstTrue[p.uid := userEstTrue[p.uid] + [EstTrue(p.est, p.trueR)]];
      } else {
        UserEntriesAbsent(preds[..i], p.uid);
        UserEstTrueAbsent(preds[..i], p.uid);
        userEstTrue := userEstTrue[p.uid := [EstTrue(p.est, p.trueR)]];
        users := users + [p.uid];
      }
    }
    assert preds[..|preds|] == preds;
  }

  /** Python's `sum(...)` over a list of floats, from left to right. */
  method SumOf(xs: seq<real>) returns (total: real)
    ensures total == Sum(xs)
  {
    total := 0.0;
    for j := 0 to |xs|
      invariant total == Sum(xs[..j])
    {
      assert xs[..j + 1][..j] == xs[..j];
      total := total + xs[j];
    }
    assert xs[..|xs|] == xs;
  }

  /**
   * The second loop of `precision_recall_at_k`: each user's precision and recall, in the
   * order the users were first seen (the order of `precisions.values()` and `recalls.values()`).
   */
  method UserScores(userEstTrue: map<string, seq<EstTrue>>, users: seq<string>, k: int, threshold: real)
    returns (precisions: seq<real>, recalls: seq<real>)
    requires forall u :: u in users ==> u in userEstTrue
    ensures |precisions| == |users| && |recalls| == |users|
    ensures forall i :: 0 <= i < |users| ==>
              precisions[i] == UserPrecisionRecall(userEstTrue[users[i]], k, threshold).precision &&
              recalls[i] == UserPrecisionRecall(userEstTrue[users[i]], k, threshold).recall
  {
    ghost var expectedP := seq(|users|, i requires 0 <= i < |users| => UserPrecisionRecall(userEstTrue[users[i]], k, threshold).precision);
    ghost var expectedR := seq(|users|, i requires 0 <= i < |users| => UserPrecisionRecall(userEstTrue[users[i]], k, threshold).recall);
    precisions := [];
    recalls := [];
    for j := 0 to |users|
      invariant precisions == expectedP[..j]
      invariant recalls == expectedR[..j]
    {
      var uid := users[j];
      // Sort the user's ratings by estimate and count n_rel, n_rec_k and n_rel_and_rec_k.
      var pr := UserPrecisionRecall(userEstTrue[uid], k, threshold);
      assert expectedP[..j + 1] == expectedP[..j] + [pr.precision];
      assert expectedR[..j + 1] == expectedR[..j] + [pr.recall];
      precisions := precisions + [pr.precision];
      recalls := recalls + [pr.recall];
    }
    assert expectedP[..|users|] == expectedP && expectedR[..|users|] == expectedR;
  }

  /** recsys/evaluate.py `precision_recall_at_k`. */
  method PrecisionRecallAtK(preds: seq<Prediction>, k: int, threshold: real)
    returns (r: Result<PrecisionRecall, PyError>)
    ensures r == PrecisionRecallSpec(preds, k, threshold)
  {
    // First map the predictions to each user.
    var userEstTrue, users := GroupEstTrue(preds);

    var precisions, recalls := UserScores(userEstTrue, users, k, threshold);
    assert precisions == Precisions(preds, k, threshold);
    assert recalls == Recalls(preds, k, threshold);

    if |users| == 0 {
      return Failure(ZeroDivisionError);
    }
    var overallPrecisions := SumOf(precisions);
    var overallRecalls := SumOf(recalls);
    r := Success(PrecisionRecall(overallPrecisions / |users| as real, overallRecalls / |users| as real));
  }

  lemma {:induction false} UserEstTrueAbsent(preds: seq<Prediction>, u: string)
    requires u !in Uids(preds)
    ensures UserEstTrue(preds, u) == []
  {
    if preds != [] {
      UserEstTrueAbsent(preds[..|preds| - 1], u);
    }
  }

  /** The overall precision and recall are means of values in [0, 1], hence in [0, 1]. */
  lemma PrecisionRecallBounds(preds: seq<Prediction>, k: int, threshold: real)
    ensures PrecisionRecallSpec(preds, k, threshold).Success? ==>
              var pr := PrecisionRecallSpec(preds, k, threshold).value;
              0.0 <= pr.precision <= 1.0 && 0.0 <= pr.recall <= 1.0
  {
    var users := Users(preds);
    if users != [] {
      MeanBounds(Precisions(preds, k, threshold), 0.0, 1.0);
      MeanBounds(Recalls(preds, k, threshold), 0.0, 1.0);
    }
  }

  /** The only failure is the division by zero users, which happens exactly on empty input. */
  lemma PrecisionRecallFailsIffEmpty(preds: seq<Prediction>, k: int, threshold: real)
    ensures PrecisionRecallSpec(preds, k, threshold).Failure? <==> preds == []
    ensures PrecisionRecallSpec(preds, k, threshold).Failure? ==>
              PrecisionRecallSpec(preds, k, threshold).error == ZeroDivisionError
  {
    if preds != [] {
      assert Uids(preds)[0] in Users(preds);
    }
  }

  /**
   * A user with no relevant item has recall 1; one with nothing recommended in the top k has
   * precision 1, and for k >= 0 that happens exactly when k is 0 or no estimate reaches the
   * threshold.
   */
  lemma ZeroDenominatorPolicy(preds: seq<Prediction>, k: int, threshold: real, i: nat)
    requires i < |Users(preds)|
    ensures Count(UserEstTrue(preds, Users(preds)[i]), Relevant(threshold)) == 0 ==>
              Recalls(preds, k, threshold)[i] == 1.0
    ensures NRecK(UserEstTrue(preds, Users(preds)[i]), k, threshold) == 0 ==>
              Precisions(preds, k, threshold)[i] == 1.0
    ensures k >= 0 ==>
              (NRecK(UserEstTrue(preds, Users(preds)[i]), k, threshold) == 0 <==>
                 k == 0 || Count(UserEstTrue(preds, Users(preds)[i]), Recommended(threshold)) == 0)
  {
    var ratings := UserEstTrue(preds, Users(preds)[i]);
    NRelIsCount(ratings, threshold);
    if k >= 0 {
      NRecKIsMin(ratings, k, threshold);
    }
  }
}
