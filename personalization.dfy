/**
 * recsys/evaluate.py `personalization`: a 0/1 matrix with one row per distinct user and one
 * column per distinct item of the predictions (both in `np.unique` order), a 1 wherever the
 * item is in the user's top-n list, and the score 1 - mean cosine similarity over user pairs.
 */
module Personalization {
  import opened Wrappers
  import opened Seqs
  import opened StableSort
  import opened LexOrder
  import opened Similarity
  import opened Evaluate

  /** `[iid for (iid, _) in user_ratings]`. */
  function ItemIds(ratings: seq<Rated>): (r: seq<string>)
    ensures |r| == |ratings|
    ensures forall i :: 0 <= i < |r| ==> r[i] == ratings[i].iid
  {
    seq(|ratings|, i requires 0 <= i < |ratings| => ratings[i].iid)
  }

  /** `rec_dict[u]`: the items of user `u`'s top-n list. */
  function RecItems(preds: seq<Prediction>, n: int, u: string): seq<string>
  {
    ItemIds(TopNList(preds, n, u))
  }

  function Mark(item: string, rec: seq<string>): real
  {
    if item in rec then 1.0 else 0.0
  }

  /** A row of `rec_matrix`: 1 in the column of each item of `rec`, 0 in every other column. */
  function Indicator(items: seq<string>, rec: seq<string>): (r: seq<real>)
    ensures |r| == |items| && Binary(r)
    ensures forall j :: 0 <= j < |items| ==> (r[j] == 1.0 <==> items[j] in rec)
  {
    seq(|items|, j requires 0 <= j < |items| => Mark(items[j], rec))
  }

  /** The rows of `rec_matrix` after the fill loop, for the given row users and column items. */
  function RecRows(preds: seq<Prediction>, n: int, users: seq<string>, items: seq<string>): (m: seq<seq<real>>)
    ensures |m| == |users| && Rectangular(m, |items|)
  {
    seq(|users|, i requires 0 <= i < |users| => Indicator(items, RecItems(preds, n, users[i])))
  }

  /**
   * Lines 62-67: `1 - np.mean` of the strictly upper triangle of `cosine_similarity(rows)`.
   * `cosine_similarity` rejects a matrix without rows; with a single row the upper triangle is
   * empty and its mean is NaN.
   */
  function SimilarityScore(rows: seq<seq<real>>, width: nat, sqrt: real -> real): Result<Score, PyError>
    requires Rectangular(rows, width)
  {
    if |rows| == 0 then Failure(ValueError)
    else if |rows| == 1 then Success(NaN)
    else Success(Value(1.0 - UpperSum(rows, width, sqrt) / NumPairs(|rows|) as real))
  }

  /** The value of `personalization(prediction, n)`. */
  function PersonalizationSpec(preds: seq<Prediction>, n: int, sqrt: real -> real): Result<Score, PyError>
  {
    var items := Unique(Iids(preds));
    SimilarityScore(RecRows(preds, n, Unique(Uids(preds)), items), |items|, sqrt)
  }

  /** The rows of a matrix, as a value. */
  function RowsOf(m: array2<real>): (rows: seq<seq<real>>)
    reads m
    ensures |rows| == m.Length0 && Rectangular(rows, m.Length1)
    ensures forall i, j :: 0 <= i < m.Length0 && 0 <= j < m.Length1 ==> rows[i][j] == m[i, j]
  {
    seq(m.Length0, i requires 0 <= i < m.Length0 reads m =>
      seq(m.Length1, j requires 0 <= j < m.Length1 reads m => m[i, j]))
  }

  /** The loop that builds `rec_dict` from the top-n lists. */
  method RecDict(topN: map<string, seq<Rated>>) returns (recDict: map<string, seq<string>>)
    ensures recDict.Keys == topN.Keys
    ensures forall u :: u in topN ==> recDict[u] == ItemIds(topN[u])
  {
    recDict := map[];
    var todo := topN.Keys;
    while todo != {}
      invariant todo <= topN.Keys
      invariant recDict.Keys == topN.Keys - todo
      invariant forall u :: u in recDict ==> recDict[u] == ItemIds(topN[u])
      decreases todo
    {
      var uid :| uid in todo;
      recDict := recDict[uid := ItemIds(topN[uid])];
      todo := todo - {uid};
    }
  }

  /**
   * The nested loop of `personalization`: for each user row, set a 1 in the column
   * `unique_rec_item_dict[item_id]` of every recommended item.
   */
  method FillRecMatrix(m: array2<real>, users: seq<string>, items: seq<string>,
                       itemIndex: map<string, int>, recDict: map<string, seq<string>>)
    requires m.Length0 == |users| && m.Length1 == |items|
    requires forall i, j :: 0 <= i < m.Length0 && 0 <= j < m.Length1 ==> m[i, j] == 0.0
    requires forall u :: u in users ==> u in recDict
    requires forall u, item :: u in users && item in recDict[u] ==> item in itemIndex
    requires forall item :: item in itemIndex ==> 0 <= itemIndex[item] < |items| && items[itemIndex[item]] == item
    requires forall j, k :: 0 <= j < k < |items| ==> items[j] != items[k]
    modifies m
    ensures forall i, j :: 0 <= i < m.Length0 && 0 <= j < m.Length1 ==> m[i, j] == Mark(items[j], recDict[users[i]])
  {
    var user := 0;
    while user < |users|
      invariant 0 <= user <= |users|
      invariant forall i, j :: 0 <= i < user && 0 <= j < |items| ==> m[i, j] == Mark(items[j], recDict[users[i]])
      invariant forall i, j :: user <= i < |users| && 0 <= j < |items| ==> m[i, j] == 0.0
    {
      var userId := users[user];
      var itemLs := recDict[userId];
      var k := 0;
      while k < |itemLs|
        invariant 0 <= k <= |itemLs|
        invariant forall i, j :: 0 <= i < user && 0 <= j < |items| ==> m[i, j] == Mark(items[j], recDict[users[i]])
        invariant forall i, j :: user < i < |users| && 0 <= j < |items| ==> m[i, j] == 0.0
        invariant forall j :: 0 <= j < |items| ==> m[user, j] == Mark(items[j], itemLs[..k])
      {
        var item := itemIndex[itemLs[k]];
        m[user, item] := 1.0;
        assert itemLs[..k + 1] == itemLs[..k] + [itemLs[k]];
        k := k + 1;
      }
      assert itemLs[..k] == itemLs;
      user := user + 1;
    }
  }

  /** `unique_rec_item_dict`: each item mapped to its position. */
  function ItemIndex(items: seq<string>): (index: map<string, int>)
    requires forall j, k :: 0 <= j < |items| && 0 <= k < |items| && j != k ==> items[j] != items[k]
    ensures forall item :: item in index <==> item in items
    ensures forall item :: item in index ==> 0 <= index[item] < |items| && items[index[item]] == item
  {
    map j | 0 <= j < |items| :: items[j] := j
  }

  /** recsys/evaluate.py `personalization(prediction, n)`. */
  method ComputePersonalization(preds: seq<Prediction>, n: int, sqrt: real -> real)
    returns (r: Result<Score, PyError>)
    ensures r == PersonalizationSpec(preds, n, sqrt)
  {
    var topN := GetTopN(preds, n);
    var recDict := RecDict(topN);
    RecDictItems(preds, n, topN, recDict);
    var uniqueUsers := Unique(Uids(preds));
    var uniqueItems := Unique(Iids(preds));
    MatrixInputs(preds, n, recDict);
    var rows := BuildRecMatrix(preds, n, recDict, uniqueUsers, uniqueItems);
    // calculate cosine similarity matrix across all user recommendations, average its upper triangle
    r := SimilarityScore(rows, |uniqueItems|, sqrt);
  }

  /** The zero matrix of users by items, filled from `rec_dict`, read back as rows. */
  method BuildRecMatrix(ghost preds: seq<Prediction>, ghost n: int, recDict: map<string, seq<string>>,
                        users: seq<string>, items: seq<string>) returns (rows: seq<seq<real>>)
    requires forall u :: u in users ==> u in recDict && recDict[u] == RecItems(preds, n, u)
    requires forall u, item :: u in users && item in recDict[u] ==> item in items
    requires forall j, k :: 0 <= j < |items| && 0 <= k < |items| && j != k ==> items[j] != items[k]
    ensures rows == RecRows(preds, n, users, items)
  {
    // assign each item with index number
    var itemIndex := ItemIndex(items);
    var recMatrix := new real[|users|, |items|]((i, j) => 0.0);
    FillRecMatrix(recMatrix, users, items, itemIndex, recDict);
    rows := RowsOf(recMatrix);
    RowsAreRecRows(preds, n, rows, recDict, users, items);
  }

  /** The `np.unique` users and items meet what the matrix construction needs. */
  lemma MatrixInputs(preds: seq<Prediction>, n: int, recDict: map<string, seq<string>>)
    requires forall u :: u in Uids(preds) ==> u in recDict && recDict[u] == RecItems(preds, n, u)
    ensures forall u :: u in Unique(Uids(preds)) ==> u in recDict && recDict[u] == RecItems(preds, n, u)
    ensures forall u, item :: u in Unique(Uids(preds)) && item in recDict[u] ==> item in Unique(Iids(preds))
    ensures forall j, k :: 0 <= j < |Unique(Iids(preds))| && 0 <= k < |Unique(Iids(preds))| && j != k ==>
              Unique(Iids(preds))[j] != Unique(Iids(preds))[k]
  {
    StrictlySortedDistinct(Unique(Iids(preds)));
    forall u, item | u in Unique(Uids(preds)) && item in recDict[u] ensures item in Unique(Iids(preds)) {
      RecItemsHaveColumns(preds, n, u);
    }
  }

  /** `rec_dict` holds, for every user of the predictions, the items of its top-n list. */
  lemma RecDictItems(preds: seq<Prediction>, n: int, topN: map<string, seq<Rated>>, recDict: map<string, seq<string>>)
    requires topN == TopNMap(preds, n)
    requires recDict.Keys == topN.Keys
    requires forall u :: u in topN ==> recDict[u] == ItemIds(topN[u])
    ensures forall u :: u in Uids(preds) ==> u in recDict && recDict[u] == RecItems(preds, n, u)
  {
  }

  /** The matrix filled from `rec_dict` is the recommendation matrix. */
  lemma RowsAreRecRows(preds: seq<Prediction>, n: int, rows: seq<seq<real>>, recDict: map<string, seq<string>>,
                       users: seq<string>, items: seq<string>)
    requires forall u :: u in users ==> u in recDict && recDict[u] == RecItems(preds, n, u)
    requires |rows| == |users| && Rectangular(rows, |items|)
    requires forall i, j :: 0 <= i < |rows| && 0 <= j < |items| ==> rows[i][j] == Mark(items[j], recDict[users[i]])
    ensures rows == RecRows(preds, n, users, items)
  {
    var m := RecRows(preds, n, users, items);
    forall i | 0 <= i < |rows| ensures rows[i] == m[i] {
      assert users[i] in users;
      assert m[i] == Indicator(items, RecItems(preds, n, users[i]));
    }
  }

  /** Every item of a top-n list was predicted, so it has a column and the index lookup succeeds. */
  lemma RecItemsHaveColumns(preds: seq<Prediction>, n: int, u: string)
    ensures forall item :: item in RecItems(preds, n, u) ==> item in Unique(Iids(preds))
  {
    var entries := UserEntries(preds, u);
    UserEntriesFromPredictions(preds, u);
    var top := TopNList(preds, n, u);
    SortDescPrefixMembers(entries, EstOf, |top|);
    forall item | item in RecItems(preds, n, u) ensures item in Iids(preds) {
      var k :| 0 <= k < |top| && RecItems(preds, n, u)[k] == item;
      assert top[k] in entries;
      var i :| 0 <= i < |preds| && preds[i].uid == u && top[k] == Rated(preds[i].iid, preds[i].est);
      IidsAt(preds, i);
    }
  }

  // ---------------------------------------------------------------- properties of the score

  /** An empty prediction list raises ValueError (no rows); exactly one predicted user gives NaN. */
  lemma PersonalizationDegenerate(preds: seq<Prediction>, n: int, sqrt: real -> real)
    ensures PersonalizationSpec(preds, n, sqrt).Failure? <==> preds == []
    ensures PersonalizationSpec(preds, n, sqrt).Failure? ==> PersonalizationSpec(preds, n, sqrt).error == ValueError
    ensures PersonalizationSpec(preds, n, sqrt) == Success(NaN) <==> |Unique(Uids(preds))| == 1
  {
    var users := Unique(Uids(preds));
    if preds == [] {
      assert Uids(preds) == [] && Distinct([]) == [];
    } else {
      assert Uids(preds)[0] in users;
    }
  }

  /** With the true square root, a score is a number in [0, 1]. */
  lemma PersonalizationBounds(preds: seq<Prediction>, n: int, sqrt: real -> real)
    requires IsSqrt(sqrt)
    ensures PersonalizationSpec(preds, n, sqrt).Success? && PersonalizationSpec(preds, n, sqrt).value.Value? ==>
              0.0 <= PersonalizationSpec(preds, n, sqrt).value.v <= 1.0
  {
    var items := Unique(Iids(preds));
    var m := RecRows(preds, n, Unique(Uids(preds)), items);
    if |m| >= 2 {
      forall i | 0 <= i < |m| ensures Binary(m[i]) {
      }
      UpperSumBounds(m, |items|, sqrt);
      assert NumPairs(|m|) >= 1;
      RatioBounds(UpperSum(m, |items|, sqrt), NumPairs(|m|) as real);
    }
  }

  /** No item is in both lists. */
  predicate NoCommon(a: seq<string>, b: seq<string>)
  {
    forall x :: x in a ==> x !in b
  }

  /** No two users of the predictions share an item of their top-n lists. */
  predicate DisjointLists(preds: seq<Prediction>, n: int)
  {
    forall u, v :: u in Uids(preds) && v in Uids(preds) && u != v ==> NoCommon(RecItems(preds, n, u), RecItems(preds, n, v))
  }

  lemma IndicatorsDisjoint(items: seq<string>, a: seq<string>, b: seq<string>)
    requires NoCommon(a, b)
    ensures forall k :: 0 <= k < |items| ==> Indicator(items, a)[k] == 0.0 || Indicator(items, b)[k] == 0.0
  {
  }

  /** Rows of users with pairwise disjoint top-n lists have upper-triangle similarity sum 0. */
  lemma DisjointRowsSumZero(preds: seq<Prediction>, n: int, users: seq<string>, items: seq<string>, sqrt: real -> real)
    requires forall i, j :: 0 <= i < j < |users| ==> NoCommon(RecItems(preds, n, users[i]), RecItems(preds, n, users[j]))
    ensures UpperSum(RecRows(preds, n, users, items), |items|, sqrt) == 0.0
  {
    var m := RecRows(preds, n, users, items);
    forall i, j | 0 <= i < j < |m|
      ensures forall k :: 0 <= k < |items| ==> m[i][k] == 0.0 || m[j][k] == 0.0
    {
      IndicatorsDisjoint(items, RecItems(preds, n, users[i]), RecItems(preds, n, users[j]));
    }
    UpperSumDisjoint(m, |items|, sqrt);
  }

  /** When no two users share a recommended item every similarity is 0, so the score is exactly 1. */
  lemma DisjointListsScoreOne(preds: seq<Prediction>, n: int, sqrt: real -> real)
    requires |Unique(Uids(preds))| >= 2
    requires DisjointLists(preds, n)
    ensures PersonalizationSpec(preds, n, sqrt) == Success(Value(1.0))
  {
    var users, items := Unique(Uids(preds)), Unique(Iids(preds));
    forall i, j | 0 <= i < j < |users| ensures NoCommon(RecItems(preds, n, users[i]), RecItems(preds, n, users[j])) {
      DisjointPair(preds, n, i, j);
    }
    DisjointRowsSumZero(preds, n, users, items, sqrt);
    var rows := RecRows(preds, n, users, items);
    assert UpperSum(rows, |items|, sqrt) == 0.0;
    assert |rows| >= 2;
    ScoreOfZeroSum(rows, |items|, sqrt);
  }

  lemma ScoreOfZeroSum(rows: seq<seq<real>>, width: nat, sqrt: real -> real)
    requires Rectangular(rows, width) && |rows| >= 2
    requires UpperSum(rows, width, sqrt) == 0.0
    ensures SimilarityScore(rows, width, sqrt) == Success(Value(1.0))
  {
  }

  /** Two rows of the matrix belong to two different users of the predictions. */
  lemma DisjointPair(preds: seq<Prediction>, n: int, i: nat, j: nat)
    requires DisjointLists(preds, n)
    requires i < j < |Unique(Uids(preds))|
    ensures NoCommon(RecItems(preds, n, Unique(Uids(preds))[i]), RecItems(preds, n, Unique(Uids(preds))[j]))
  {
    var users := Unique(Uids(preds));
    StrictlySortedDistinct(users);
    assert users[i] in Uids(preds) && users[j] in Uids(preds);
  }

  /** `personalization(prediction, 0)`: every top-0 list is empty, so with two or more users the score is 1. */
  lemma NoRecommendationsScoreOne(preds: seq<Prediction>, sqrt: real -> real)
    requires |Unique(Uids(preds))| >= 2
    ensures PersonalizationSpec(preds, 0, sqrt) == Success(Value(1.0))
  {
    forall u | u in Uids(preds) ensures RecItems(preds, 0, u) == [] {
    }
    DisjointListsScoreOne(preds, 0, sqrt);
  }

  // ---------------------------------------------------------------- the test fixture at n = 2

  lemma FixtureUsers()
    ensures Unique(Uids(Fixture())) == ["a", "b", "c", "d"]
  {
    FixtureUids();
    var t: seq<string> := ["a", "b", "c", "d"];
    assert LexLess(t[0], t[1]) && LexLess(t[1], t[2]) && LexLess(t[2], t[3]);
    ChainSorted(t);
    UniqueIs(Uids(Fixture()), t);
  }

  lemma FixtureItems()
    ensures Unique(Iids(Fixture())) == ["1", "2", "3", "5", "6", "7"]
  {
    FixtureIids();
    var t: seq<string> := ["1", "2", "3", "5", "6", "7"];
    assert LexLess(t[0], t[1]) && LexLess(t[1], t[2]) && LexLess(t[2], t[3]);
    assert LexLess(t[3], t[4]) && LexLess(t[4], t[5]);
    ChainSorted(t);
    UniqueIs(Iids(Fixture()), t);
  }

  lemma FixtureRecA()
    ensures RecItems(Fixture(), 2, "a") == ["1", "5"]
  {
    FixtureSortedA();
    TopOfSorted(Fixture(), 2, "a", [Rated("1", 4.1339), Rated("5", 3.1339), Rated("2", 2.9187)]);
  }

  lemma FixtureRecB()
    ensures RecItems(Fixture(), 2, "b") == ["7", "1"]
  {
    FixtureSortedB();
    TopOfSorted(Fixture(), 2, "b", [Rated("7", 4.1339), Rated("1", 3.3971)]);
  }

  lemma FixtureRecC()
    ensures RecItems(Fixture(), 2, "c") == ["3", "2"]
  {
    FixtureSortedC();
    TopOfSorted(Fixture(), 2, "c", [Rated("3", 4.1339), Rated("2", 2.1339)]);
  }

  lemma FixtureRecD()
    ensures RecItems(Fixture(), 2, "d") == ["6"]
  {
    FixtureSortedD();
    TopOfSorted(Fixture(), 2, "d", [Rated("6", 1.3981)]);
  }

  /** The four top-2 lists as 0/1 rows over the columns 1, 2, 3, 5, 6, 7. */
  lemma FixtureIndicators(items: seq<string>)
    requires items == ["1", "2", "3", "5", "6", "7"]
    ensures Indicator(items, ["1", "5"]) == [1.0, 0.0, 0.0, 1.0, 0.0, 0.0]
    ensures Indicator(items, ["7", "1"]) == [1.0, 0.0, 0.0, 0.0, 0.0, 1.0]
    ensures Indicator(items, ["3", "2"]) == [0.0, 1.0, 1.0, 0.0, 0.0, 0.0]
    ensures Indicator(items, ["6"]) == [0.0, 0.0, 0.0, 0.0, 1.0, 0.0]
  {
  }

  /** `RecRows` is determined row by row by the users' top-n lists. */
  lemma RecRowsAre(preds: seq<Prediction>, n: int, users: seq<string>, items: seq<string>, rows: seq<seq<real>>)
    requires |rows| == |users|
    requires forall i :: 0 <= i < |users| ==> rows[i] == Indicator(items, RecItems(preds, n, users[i]))
    ensures RecRows(preds, n, users, items) == rows
  {
  }

  /** The recommendation matrix of four users with the top-2 lists of the test predictions. */
  lemma FixtureRows(preds: seq<Prediction>)
    requires RecItems(preds, 2, "a") == ["1", "5"] && RecItems(preds, 2, "b") == ["7", "1"]
    requires RecItems(preds, 2, "c") == ["3", "2"] && RecItems(preds, 2, "d") == ["6"]
    ensures RecRows(preds, 2, ["a", "b", "c", "d"], ["1", "2", "3", "5", "6", "7"]) ==
              [[1.0, 0.0, 0.0, 1.0, 0.0, 0.0], [1.0, 0.0, 0.0, 0.0, 0.0, 1.0],
               [0.0, 1.0, 1.0, 0.0, 0.0, 0.0], [0.0, 0.0, 0.0, 0.0, 1.0, 0.0]]
  {
    var users, items: seq<string> := ["a", "b", "c", "d"], ["1", "2", "3", "5", "6", "7"];
    var rows := [[1.0, 0.0, 0.0, 1.0, 0.0, 0.0], [1.0, 0.0, 0.0, 0.0, 0.0, 1.0],
                 [0.0, 1.0, 1.0, 0.0, 0.0, 0.0], [0.0, 0.0, 0.0, 0.0, 1.0, 0.0]];
    FixtureIndicators(items);
    assert forall i :: 0 <= i < |users| ==> rows[i] == Indicator(items, RecItems(preds, 2, users[i]));
    RecRowsAre(preds, 2, users, items, rows);
  }

  /** The recommendation matrix of the test predictions at n = 2. */
  lemma FixtureMatrix()
    ensures RecRows(Fixture(), 2, Unique(Uids(Fixture())), Unique(Iids(Fixture()))) ==
              [[1.0, 0.0, 0.0, 1.0, 0.0, 0.0], [1.0, 0.0, 0.0, 0.0, 0.0, 1.0],
               [0.0, 1.0, 1.0, 0.0, 0.0, 0.0], [0.0, 0.0, 0.0, 0.0, 1.0, 0.0]]
  {
    FixtureUsers();
    FixtureItems();
    FixtureRecA();
    FixtureRecB();
    FixtureRecC();
    FixtureRecD();
    FixtureRows(Fixture());
  }

  /** For six columns the dot product is the sum of the six products. */
  lemma Dot6(x: seq<real>, y: seq<real>)
    requires |x| == 6 && |y| == 6
    ensures Dot(x, y) == x[0] * y[0] + x[1] * y[1] + x[2] * y[2] + x[3] * y[3] + x[4] * y[4] + x[5] * y[5]
  {
    assert x[..6] == x && y[..6] == y;
    assert x[..1][..0] == [] && y[..1][..0] == [];
    assert Dot(x[..1], y[..1]) == x[0] * y[0];
    assert x[..2][..1] == x[..1] && y[..2][..1] == y[..1];
    assert Dot(x[..2], y[..2]) == Dot(x[..1], y[..1]) + x[1] * y[1];
    assert x[..3][..2] == x[..2] && y[..3][..2] == y[..2];
    assert Dot(x[..3], y[..3]) == Dot(x[..2], y[..2]) + x[2] * y[2];
    assert x[..4][..3] == x[..3] && y[..4][..3] == y[..3];
    assert Dot(x[..4], y[..4]) == Dot(x[..3], y[..3]) + x[3] * y[3];
    assert x[..5][..4] == x[..4] && y[..5][..4] == y[..4];
    assert Dot(x[..5], y[..5]) == Dot(x[..4], y[..4]) + x[4] * y[4];
    assert x[..6][..5] == x[..5] && y[..6][..5] == y[..5];
  }

  /** Users a and b share item 1 out of two each: their cosine is 1/2. */
  lemma FixtureCosineAB(sqrt: real -> real)
    requires sqrt(2.0) * sqrt(2.0) == 2.0
    ensures Cosine([1.0, 0.0, 0.0, 1.0, 0.0, 0.0], [1.0, 0.0, 0.0, 0.0, 0.0, 1.0], sqrt) == 0.5
  {
    var a, b := [1.0, 0.0, 0.0, 1.0, 0.0, 0.0], [1.0, 0.0, 0.0, 0.0, 0.0, 1.0];
    Dot6(a, b);
    Dot6(a, a);
    Dot6(b, b);
  }

  /** Only the pair a, b shares an item, so the upper triangle sums to 1/2. */
  lemma FixtureUpperSum(sqrt: real -> real)
    requires sqrt(2.0) * sqrt(2.0) == 2.0
    ensures UpperSum([[1.0, 0.0, 0.0, 1.0, 0.0, 0.0], [1.0, 0.0, 0.0, 0.0, 0.0, 1.0],
                      [0.0, 1.0, 1.0, 0.0, 0.0, 0.0], [0.0, 0.0, 0.0, 0.0, 1.0, 0.0]], 6, sqrt) == 0.5
  {
    var a, b, c, d := [1.0, 0.0, 0.0, 1.0, 0.0, 0.0], [1.0, 0.0, 0.0, 0.0, 0.0, 1.0],
                      [0.0, 1.0, 1.0, 0.0, 0.0, 0.0], [0.0, 0.0, 0.0, 0.0, 1.0, 0.0];
    FixtureCosineAB(sqrt);
    CosineDisjoint(a, c, sqrt);
    CosineDisjoint(b, c, sqrt);
    CosineDisjoint(a, d, sqrt);
    CosineDisjoint(b, d, sqrt);
    CosineDisjoint(c, d, sqrt);
    var rows := [a, b, c, d];
    var r1, r2, r3: seq<seq<real>> := [a], [a, b], [a, b, c];
    assert rows[..3] == r3 && r3[..2] == r2 && r2[..1] == r1 && r1[..0] == [];
    assert CosineSumWith([a], b, sqrt) == 0.5;
    assert CosineSumWith([a], c, sqrt) == 0.0;
    assert CosineSumWith([a], d, sqrt) == 0.0;
    assert CosineSumWith([a, b], d, sqrt) == 0.0;
    assert CosineSumWith([a, b], c, sqrt) == 0.0;
    assert CosineSumWith([a, b, c], d, sqrt) == 0.0;
    assert UpperSum([a], 6, sqrt) == 0.0;
    assert UpperSum([a, b], 6, sqrt) == 0.5;
    assert UpperSum([a, b, c], 6, sqrt) == 0.5;
  }

  /** The score is the similarity score of the recommendation matrix. */
  lemma SpecOfRows(preds: seq<Prediction>, n: int, sqrt: real -> real, rows: seq<seq<real>>, width: nat)
    requires width == |Unique(Iids(preds))|
    requires RecRows(preds, n, Unique(Uids(preds)), Unique(Iids(preds))) == rows
    ensures Rectangular(rows, width)
    ensures PersonalizationSpec(preds, n, sqrt) == SimilarityScore(rows, width, sqrt)
  {
  }

  /** Four users, six items and the matrix of the test predictions give 1 - (1/2) / 6. */
  lemma FixtureScore(preds: seq<Prediction>, sqrt: real -> real)
    requires sqrt(2.0) * sqrt(2.0) == 2.0
    requires Unique(Uids(preds)) == ["a", "b", "c", "d"]
    requires Unique(Iids(preds)) == ["1", "2", "3", "5", "6", "7"]
    requires RecRows(preds, 2, ["a", "b", "c", "d"], ["1", "2", "3", "5", "6", "7"]) ==
               [[1.0, 0.0, 0.0, 1.0, 0.0, 0.0], [1.0, 0.0, 0.0, 0.0, 0.0, 1.0],
                [0.0, 1.0, 1.0, 0.0, 0.0, 0.0], [0.0, 0.0, 0.0, 0.0, 1.0, 0.0]]
    ensures PersonalizationSpec(preds, 2, sqrt) == Success(Value(11.0 / 12.0))
  {
    var rows := [[1.0, 0.0, 0.0, 1.0, 0.0, 0.0], [1.0, 0.0, 0.0, 0.0, 0.0, 1.0],
                 [0.0, 1.0, 1.0, 0.0, 0.0, 0.0], [0.0, 0.0, 0.0, 0.0, 1.0, 0.0]];
    SpecOfRows(preds, 2, sqrt, rows, 6);
    FixtureUpperSum(sqrt);
    ScoreOfQuarterSum(rows, 6, sqrt);
  }

  /** Four rows whose pairwise similarities add up to 1/2 score 1 - (1/2) / 6. */
  lemma ScoreOfQuarterSum(rows: seq<seq<real>>, width: nat, sqrt: real -> real)
    requires Rectangular(rows, width) && |rows| == 4
    requires UpperSum(rows, width, sqrt) == 0.5
    ensures SimilarityScore(rows, width, sqrt) == Success(Value(11.0 / 12.0))
  {
    assert NumPairs(4) == 6;
  }

  /**
   * tests/test_evaluate.py: `personalization(predictions, 2)` rounds to 0.91667, that is
   * 1 - (1/2) / 6. Of the square root only sqrt(2) * sqrt(2) = 2 is needed.
   */
  lemma PersonalizationFixture(sqrt: real -> real)
    requires sqrt(2.0) * sqrt(2.0) == 2.0
    ensures PersonalizationSpec(Fixture(), 2, sqrt) == Success(Value(11.0 / 12.0))
  {
    FixtureUsers();
    FixtureItems();
    FixtureMatrix();
    FixtureScore(Fixture(), sqrt);
  }
}
