/**
 * recsys/dashboard_data_validate.py `validate_df`: clean the game summary table the dashboard
 * shows. It works on a copy without the id column, sets keyword prices ("free", "play",
 * "install", "third") to 0, fills the gaps of the text columns with "unknown", and overwrites
 * n_recommend with n_review.
 */
module DashboardValidate {
  import opened Wrappers
  import opened Seqs
  import opened Strings
  import opened Tables

  /** `price_text_free`. */
  const PriceKeywords: seq<string> := ["free", "play", "install", "third"]

  /** `col_fillna_unknow`. */
  const FillColumns: seq<string> := ["app_name", "publisher", "developer", "genres", "early_access"]

  // ---------------------------------------------------------------- the stages, on values

  function NotId(c: string): bool { c != "id" }

  /** `df.drop("id", axis=1)`: a new frame; a `KeyError` when there is no id column. */
  function DropId(f: Frame): Result<Frame, PyError>
  {
    if "id" !in f.columns then Failure(KeyError)
    else Success(Frame(Filter(f.columns, NotId), DropIdRows(f.rows)))
  }

  function DropIdRows(rows: seq<Row>): (r: seq<Row>)
    ensures |r| == |rows|
  {
    seq(|rows|, i requires 0 <= i < |rows| => rows[i] - {"id"})
  }

  /** `df["price"].str.contains(kw, case=False, na=False)` for one row: only text prices can match. */
  predicate PriceMatches(row: Row, kw: string)
  {
    At(row, "price").Text? && ContainsIgnoreCase(At(row, "price").s, kw)
  }

  /** `df.loc[mask, "price"] = 0` for one keyword. */
  function ZeroPrice(rows: seq<Row>, kw: string): (r: seq<Row>)
    ensures |r| == |rows|
  {
    seq(|rows|, i requires 0 <= i < |rows| => if PriceMatches(rows[i], kw) then rows[i]["price" := Num(0.0)] else rows[i])
  }

  /**
   * pandas' `.str` accessor raises `AttributeError` unless the column holds some text, or holds
   * nothing but missing values: a column of numbers alone cannot be searched.
   */
  predicate StrAccessorOk(rows: seq<Row>)
  {
    (exists i :: 0 <= i < |rows| && At(rows[i], "price").Text?) ||
    forall i :: 0 <= i < |rows| ==> At(rows[i], "price") == Missing
  }

  /** The keyword loop, keyword by keyword; each pass first builds the `.str` accessor. */
  function ZeroPrices(rows: seq<Row>, kws: seq<string>): (r: Result<seq<Row>, PyError>)
    ensures r.Success? ==> |r.value| == |rows|
  {
    if kws == [] then Success(rows)
    else
      var before :- ZeroPrices(rows, kws[..|kws| - 1]);
      if !StrAccessorOk(before) then Failure(AttributeError) else Success(ZeroPrice(before, kws[|kws| - 1]))
  }

  /** `df[col] = df[col].fillna("unknown")` on the rows. */
  function FillUnknown(rows: seq<Row>, col: string): (r: seq<Row>)
    ensures |r| == |rows|
  {
    seq(|rows|, i requires 0 <= i < |rows| => if At(rows[i], col) == Missing then rows[i][col := Text("unknown")] else rows[i])
  }

  /** The fill loop, column by column; `df[col]` raises `KeyError` for a missing column. */
  function FillAll(f: Frame, cols: seq<string>): (r: Result<Frame, PyError>)
    ensures r.Success? ==> r.value.columns == f.columns && |r.value.rows| == |f.rows|
  {
    if cols == [] then Success(f)
    else
      var g :- FillAll(f, cols[..|cols| - 1]);
      var col := cols[|cols| - 1];
      if col !in g.columns then Failure(KeyError) else Success(Frame(g.columns, FillUnknown(g.rows, col)))
  }

  /** `df["n_recommend"] = df["n_review"]`, which adds the column when it is not there. */
  function CopyReviews(f: Frame): Result<Frame, PyError>
  {
    if "n_review" !in f.columns then Failure(KeyError)
    else
      Success(Frame(if "n_recommend" in f.columns then f.columns else f.columns + ["n_recommend"], CopyReviewRows(f.rows)))
  }

  function CopyReviewRows(rows: seq<Row>): (r: seq<Row>)
    ensures |r| == |rows|
  {
    seq(|rows|, i requires 0 <= i < |rows| => rows[i]["n_recommend" := At(rows[i], "n_review")])
  }

  /** The value of `validate_df(df)`. */
  function ValidateSpec(f: Frame): Result<Frame, PyError>
  {
    var dropped :- DropId(f);
    if "price" !in dropped.columns then Failure(KeyError)
    else
      var zeroed :- ZeroPrices(dropped.rows, PriceKeywords);
      var filled :- FillAll(Frame(dropped.columns, zeroed), FillColumns);
      CopyReviews(filled)
  }

  // ---------------------------------------------------------------- validate_df

  /** A pandas data frame: its column names and its rows. */
  class DashFrame {
    var columns: seq<string>
    var rows: seq<Row>

    constructor (columns: seq<string>, rows: seq<Row>)
      ensures this.columns == columns && this.rows == rows
    {
      this.columns := columns;
      this.rows := rows;
    }

    function Value(): Frame
      reads this
    {
      Frame(columns, rows)
    }
  }

  /**
   * recsys/dashboard_data_validate.py `validate_df(df)`. `drop` returns a new frame, so the
   * caller's frame is never modified; the loops update the copy in place.
   */
  method ValidateDf(df: DashFrame) returns (r: Result<DashFrame, PyError>)
    ensures r.Failure? <==> ValidateSpec(df.Value()).Failure?
    ensures r.Failure? ==> r.error == ValidateSpec(df.Value()).error
    ensures r.Success? ==> fresh(r.value) && r.value.Value() == ValidateSpec(df.Value()).value
  {
    if "id" !in df.columns {
      return Failure(KeyError);
    }
    ghost var dropped := DropId(df.Value()).value;
    var frame := new DashFrame(Filter(df.columns, NotId), DropIdRows(df.rows));
    if "price" !in frame.columns {
      return Failure(KeyError);
    }
    for k := 0 to |PriceKeywords|
      invariant frame.columns == dropped.columns && ZeroPrices(dropped.rows, PriceKeywords[..k]) == Success(frame.rows)
    {
      assert PriceKeywords[..k + 1][..k] == PriceKeywords[..k];
      if !StrAccessorOk(frame.rows) {
        ZeroFailurePersists(dropped.rows, PriceKeywords, k + 1);
        return Failure(AttributeError);
      }
      frame.rows := ZeroPrice(frame.rows, PriceKeywords[k]);
    }
    assert PriceKeywords[..|PriceKeywords|] == PriceKeywords;
    ghost var zeroed := frame.Value();
    for k := 0 to |FillColumns|
      invariant FillAll(zeroed, FillColumns[..k]) == Success(frame.Value())
    {
      assert FillColumns[..k + 1][..k] == FillColumns[..k];
      if FillColumns[k] !in frame.columns {
        FillFailurePersists(zeroed, FillColumns, k + 1);
        return Failure(KeyError);
      }
      frame.rows := FillUnknown(frame.rows, FillColumns[k]);
    }
    assert FillColumns[..|FillColumns|] == FillColumns;
    if "n_review" !in frame.columns {
      return Failure(KeyError);
    }
    frame.rows := CopyReviewRows(frame.rows);
    if "n_recommend" !in frame.columns {
      frame.columns := frame.columns + ["n_recommend"];
    }
    r := Success(frame);
  }

  /** Once a keyword pass raises, the whole keyword loop raises the same error. */
  lemma {:induction false} ZeroFailurePersists(rows: seq<Row>, kws: seq<string>, j: nat)
    requires j <= |kws| && ZeroPrices(rows, kws[..j]).Failure?
    ensures ZeroPrices(rows, kws) == Failure(ZeroPrices(rows, kws[..j]).error)
    decreases |kws|
  {
    if j == |kws| {
      assert kws[..j] == kws;
    } else {
      assert kws[..|kws| - 1][..j] == kws[..j];
      ZeroFailurePersists(rows, kws[..|kws| - 1], j);
    }
  }

  /** Once a fill column is missing, the whole loop raises `KeyError`. */
  lemma {:induction false} FillFailurePersists(f: Frame, cols: seq<string>, j: nat)
    requires j <= |cols| && FillAll(f, cols[..j]).Failure?
    ensures FillAll(f, cols) == Failure(FillAll(f, cols[..j]).error)
    decreases |cols|
  {
    if j == |cols| {
      assert cols[..j] == cols;
    } else {
      assert cols[..|cols| - 1][..j] == cols[..j];
      FillFailurePersists(f, cols[..|cols| - 1], j);
    }
  }

  // ---------------------------------------------------------------- each row in closed form

  /** Some keyword of `kws` occurs in the row's text price. */
  predicate MatchesAny(row: Row, kws: seq<string>)
  {
    exists k :: 0 <= k < |kws| && PriceMatches(row, kws[k])
  }

  /** The price after the keyword loop: 0 when some keyword matches the original text. */
  function ZeroRow(row: Row, kws: seq<string>): Row
  {
    if MatchesAny(row, kws) then row["price" := Num(0.0)] else row
  }

  /** Every fill column whose cell is missing holds "unknown". */
  function FillRow(row: Row, cols: seq<string>): Row
  {
    row + map c | c in cols && At(row, c) == Missing :: Text("unknown")
  }

  /** Filling one more column extends the closed form by that column. */
  lemma FillRowStep(row: Row, cols: seq<string>)
    requires cols != []
    ensures var before, c := FillRow(row, cols[..|cols| - 1]), cols[|cols| - 1];
            FillRow(row, cols) == if At(before, c) == Missing then before[c := Text("unknown")] else before
  {
    var n := |cols| - 1;
    var before, c := FillRow(row, cols[..n]), cols[n];
    var after := if At(before, c) == Missing then before[c := Text("unknown")] else before;
    assert forall d :: d in cols <==> d in cols[..n] || d == c;
    assert forall d :: d in FillRow(row, cols) <==> d in after;
    forall d | d in after ensures FillRow(row, cols)[d] == after[d] {
    }
  }

  /** What `validate_df` makes of one row. */
  function ValidatedRow(row: Row): Row
  {
    var filled := FillRow(ZeroRow(row - {"id"}, PriceKeywords), FillColumns);
    filled["n_recommend" := At(filled, "n_review")]
  }

  lemma {:induction false} ZeroPricesRow(rows: seq<Row>, kws: seq<string>, i: nat)
    requires i < |rows| && ZeroPrices(rows, kws).Success?
    ensures ZeroPrices(rows, kws).value[i] == ZeroRow(rows[i], kws)
  {
    if kws != [] {
      var n := |kws| - 1;
      ZeroPricesRow(rows, kws[..n], i);
      var before := ZeroRow(rows[i], kws[..n]);
      if exists k :: 0 <= k < n && PriceMatches(rows[i], kws[..n][k]) {
        // a zeroed price is a number, which no later keyword matches
        assert !PriceMatches(before, kws[n]);
        var k :| 0 <= k < n && PriceMatches(rows[i], kws[..n][k]);
        assert PriceMatches(rows[i], kws[k]);
      } else {
        assert before == rows[i];
        assert forall k :: 0 <= k < n ==> kws[..n][k] == kws[k];
      }
    }
  }

  lemma {:induction false} FillAllRow(f: Frame, cols: seq<string>, i: nat)
    requires i < |f.rows| && FillAll(f, cols).Success?
    ensures FillAll(f, cols).value.rows[i] == FillRow(f.rows[i], cols)
  {
    if cols != [] {
      var n := |cols| - 1;
      FillAllRow(f, cols[..n], i);
      FillRowStep(f.rows[i], cols);
    }
  }

  /** Row `i` of the result is `ValidatedRow` of row `i` of the input. */
  lemma ValidateRows(f: Frame, i: nat)
    requires ValidateSpec(f).Success? && i < |f.rows|
    ensures |ValidateSpec(f).value.rows| == |f.rows|
    ensures ValidateSpec(f).value.rows[i] == ValidatedRow(f.rows[i])
  {
    var dropped := DropId(f).value;
    var zeroed := Frame(dropped.columns, ZeroPrices(dropped.rows, PriceKeywords).value);
    ZeroPricesRow(dropped.rows, PriceKeywords, i);
    FillAllRow(zeroed, FillColumns, i);
  }

  // ---------------------------------------------------------------- what validation promises

  /** The columns `validate_df` reads: a `KeyError` unless each of them is present. */
  const RequiredColumns: seq<string> := ["id", "price"] + FillColumns + ["n_review"]

  lemma {:induction false} FillAllFails(f: Frame, cols: seq<string>)
    ensures FillAll(f, cols).Failure? <==> exists c :: c in cols && c !in f.columns
    ensures FillAll(f, cols).Failure? ==> FillAll(f, cols).error == KeyError
  {
    if cols != [] {
      FillAllFails(f, cols[..|cols| - 1]);
      assert forall c :: c in cols <==> c in cols[..|cols| - 1] || c == cols[|cols| - 1];
    }
  }

  /**
   * Some row has a price, and every text price contains one of `kws`: after the passes for
   * `kws` no text is left for the next pass's accessor.
   */
  predicate NoTextLeft(rows: seq<Row>, kws: seq<string>)
  {
    (exists i :: 0 <= i < |rows| && At(rows[i], "price") != Missing) &&
    forall i :: 0 <= i < |rows| && At(rows[i], "price").Text? ==> MatchesAny(rows[i], kws)
  }

  /** A zeroed price was text; every other price is kept. */
  lemma ZeroRowPrice(row: Row, kws: seq<string>)
    ensures At(ZeroRow(row, kws), "price") == if MatchesAny(row, kws) then Num(0.0) else At(row, "price")
    ensures MatchesAny(row, kws) ==> At(row, "price").Text?
  {
  }

  /** After the passes for `kws`, the accessor fails exactly when no text price is left. */
  lemma AccessorAfter(rows: seq<Row>, kws: seq<string>)
    requires ZeroPrices(rows, kws).Success?
    ensures StrAccessorOk(ZeroPrices(rows, kws).value) <==> !NoTextLeft(rows, kws)
  {
    var after := ZeroPrices(rows, kws).value;
    forall i | 0 <= i < |rows|
      ensures At(after[i], "price") == if MatchesAny(rows[i], kws) then Num(0.0) else At(rows[i], "price")
      ensures MatchesAny(rows[i], kws) ==> At(rows[i], "price").Text?
    {
      ZeroPricesRow(rows, kws, i);
      ZeroRowPrice(rows[i], kws);
    }
  }

  /**
   * The keyword loop raises `AttributeError` exactly when, before some pass, no text price is
   * left; since matched prices stay matched, that is the case before the last pass.
   */
  lemma {:induction false} ZeroPricesFails(rows: seq<Row>, kws: seq<string>)
    ensures ZeroPrices(rows, kws).Failure? <==> kws != [] && NoTextLeft(rows, kws[..|kws| - 1])
    ensures ZeroPrices(rows, kws).Failure? ==> ZeroPrices(rows, kws).error == AttributeError
  {
    if kws != [] {
      var n := |kws| - 1;
      ZeroPricesFails(rows, kws[..n]);
      if ZeroPrices(rows, kws[..n]).Success? {
        AccessorAfter(rows, kws[..n]);
      } else {
        assert kws[..n][..n - 1] == kws[..n - 1];
        forall i | 0 <= i < |rows| && MatchesAny(rows[i], kws[..n - 1]) ensures MatchesAny(rows[i], kws[..n]) {
          var k :| 0 <= k < n - 1 && PriceMatches(rows[i], kws[..n - 1][k]);
          assert kws[..n][k] == kws[k];
        }
      }
    }
  }

  /** Dropping the id column keeps every price. */
  lemma DropIdPrices(rows: seq<Row>, kws: seq<string>)
    ensures NoTextLeft(DropIdRows(rows), kws) <==> NoTextLeft(rows, kws)
  {
    var dropped := DropIdRows(rows);
    forall i | 0 <= i < |rows|
      ensures At(dropped[i], "price") == At(rows[i], "price")
      ensures MatchesAny(dropped[i], kws) <==> MatchesAny(rows[i], kws)
    {
      assert forall k :: 0 <= k < |kws| ==> (PriceMatches(dropped[i], kws[k]) <==> PriceMatches(rows[i], kws[k]));
    }
  }

  /**
   * Validation fails exactly when a column it reads is missing (`KeyError`) or when the price
   * column has a value but every text price contains one of "free", "play" or "install", so that
   * a keyword pass finds no text to search (`AttributeError`, once id and price are present).
   */
  lemma ValidateFails(f: Frame)
    ensures ValidateSpec(f).Failure? <==>
            (exists c :: c in RequiredColumns && c !in f.columns) || NoTextLeft(f.rows, PriceKeywords[..3])
    ensures ValidateSpec(f).Failure? ==>
            ValidateSpec(f).error ==
            if "id" in f.columns && "price" in f.columns && NoTextLeft(f.rows, PriceKeywords[..3]) then AttributeError
            else KeyError
  {
    if "id" !in f.columns {
      assert "id" in RequiredColumns;
    } else if "price" !in f.columns {
      assert "price" in RequiredColumns;
      DroppedColumns(f);
    } else {
      var dropped := DropId(f).value;
      DroppedColumns(f);
      ZeroPricesFails(dropped.rows, PriceKeywords);
      DropIdPrices(f.rows, PriceKeywords[..3]);
      if !NoTextLeft(f.rows, PriceKeywords[..3]) {
        var zeroed := ZeroPrices(dropped.rows, PriceKeywords).value;
        FillAllFails(Frame(dropped.columns, zeroed), FillColumns);
        RestMissing(f);
      }
    }
  }

  /** Dropping `id` keeps every other column. */
  lemma DroppedColumns(f: Frame)
    requires "id" in f.columns
    ensures forall c :: c != "id" ==> (c in DropId(f).value.columns <==> c in f.columns)
  {
    forall c | c != "id" ensures c in DropId(f).value.columns <==> c in f.columns {
      FilterMembers(f.columns, NotId, c);
    }
  }

  /** With id and price present, a required column is absent exactly when a filled one or n_review is. */
  lemma RestMissing(f: Frame)
    requires "id" in f.columns && "price" in f.columns
    ensures (exists c :: c in RequiredColumns && c !in f.columns) <==>
            (exists c :: c in FillColumns && c !in f.columns) || "n_review" !in f.columns
  {
    assert forall c :: c in RequiredColumns <==> c == "id" || c == "price" || c in FillColumns || c == "n_review";
  }

  /** The result has the same number of rows, and neither an id column nor an id in any row. */
  lemma ValidateShape(f: Frame)
    requires ValidateSpec(f).Success?
    ensures var g := ValidateSpec(f).value;
            |g.rows| == |f.rows| && "id" !in g.columns && forall i :: 0 <= i < |g.rows| ==> "id" !in g.rows[i]
  {
    var dropped := DropId(f).value;
    FilterMembers(f.columns, NotId, "id");
    forall i | 0 <= i < |f.rows| ensures "id" !in ValidateSpec(f).value.rows[i] {
      ValidateRows(f, i);
    }
  }

  /**
   * A validated price is 0 when the original price is text containing a keyword
   * case-insensitively, and is otherwise unchanged: a missing or numeric price never matches.
   */
  lemma ValidatedPrice(row: Row)
    ensures At(ValidatedRow(row), "price") ==
            if exists k :: 0 <= k < |PriceKeywords| && PriceMatches(row, PriceKeywords[k]) then Num(0.0) else At(row, "price")
  {
    var r1 := row - {"id"};
    assert forall k :: 0 <= k < |PriceKeywords| ==> (PriceMatches(r1, PriceKeywords[k]) <==> PriceMatches(row, PriceKeywords[k]));
    assert "price" !in FillColumns;
  }

  /** No fill column of a validated row is missing; a filled cell held nothing before, the others are kept. */
  lemma ValidatedFilled(row: Row, c: string)
    requires c in FillColumns
    ensures At(ValidatedRow(row), c) != Missing
    ensures At(ValidatedRow(row), c) == if At(row, c) == Missing then Text("unknown") else At(row, c)
  {
    assert c != "price" && c != "id" && c != "n_recommend";
  }

  /**
   * A validated row has no id; n_recommend equals n_review, which is the original n_review;
   * every column outside the id, price, fill and n_recommend columns is unchanged.
   */
  lemma ValidatedRest(row: Row)
    ensures var v := ValidatedRow(row);
            "id" !in v && At(v, "n_recommend") == At(v, "n_review") == At(row, "n_review") &&
            forall c :: c !in FillColumns && c != "price" && c != "id" && c != "n_recommend" ==> At(v, c) == At(row, c)
  {
    assert "n_review" !in FillColumns && "n_recommend" !in FillColumns;
  }

  /** "Free to Play" becomes 0; "$9.99" and a missing price are kept. */
  lemma PriceExamples()
    ensures At(ValidatedRow(map["price" := Text("Free to Play")]), "price") == Num(0.0)
    ensures At(ValidatedRow(map["price" := Text("$9.99")]), "price") == Text("$9.99")
    ensures At(ValidatedRow(map["price" := Missing]), "price") == Missing
  {
    var free := map["price" := Text("Free to Play")];
    assert Lower("Free to Play") == "free to play";
    assert Lower("free") == "free";
    assert "free" <= Lower("Free to Play");
    assert PriceMatches(free, PriceKeywords[0]);
    ValidatedPrice(free);
    ValidatedPrice(map["price" := Text("$9.99")]);
    ValidatedPrice(map["price" := Missing]);
    assert forall k :: 0 <= k < |PriceKeywords| ==> !PriceMatches(map["price" := Text("$9.99")], PriceKeywords[k]) by {
      NoKeywordInPrice();
    }
  }

  /** "Free to Play" holds the first keyword. */
  lemma FreeMatches()
    ensures PriceMatches(map["price" := Text("Free to Play")], PriceKeywords[..3][0])
  {
    assert Lower("Free to Play") == "free to play";
    assert Lower("free") == "free";
    assert "free" <= Lower("Free to Play");
  }

  /**
   * A lone "Free to Play" price is zeroed by the "free" pass, which leaves no text for the
   * "play" pass's accessor: `AttributeError`.
   */
  lemma AllTextZeroedFails()
    ensures ValidateSpec(Frame(RequiredColumns, [map["price" := Text("Free to Play")]])) == Failure(AttributeError)
  {
    var f := Frame(RequiredColumns, [map["price" := Text("Free to Play")]]);
    FreeMatches();
    assert MatchesAny(f.rows[0], PriceKeywords[..3]);
    assert NoTextLeft(f.rows, PriceKeywords[..3]);
    ValidateFails(f);
  }

  /** A price column of numbers alone has no text for the first pass: `AttributeError`. */
  lemma NumericPricesFail()
    ensures ValidateSpec(Frame(RequiredColumns, [map["price" := Num(9.99)]])) == Failure(AttributeError)
  {
    var f := Frame(RequiredColumns, [map["price" := Num(9.99)]]);
    assert At(f.rows[0], "price") != Missing;
    assert NoTextLeft(f.rows, PriceKeywords[..3]);
    ValidateFails(f);
  }

  /** With "$9.99" beside "Free to Play", text survives every pass and validation succeeds. */
  lemma TextLeftSucceeds()
    ensures ValidateSpec(Frame(RequiredColumns, [map["price" := Text("Free to Play")], map["price" := Text("$9.99")]])).Success?
  {
    var f := Frame(RequiredColumns, [map["price" := Text("Free to Play")], map["price" := Text("$9.99")]]);
    NoKeywordInPrice();
    assert !MatchesAny(f.rows[1], PriceKeywords[..3]) by {
      forall k | 0 <= k < 3 ensures !PriceMatches(f.rows[1], PriceKeywords[..3][k]) {
        assert PriceKeywords[..3][k] == PriceKeywords[k];
      }
    }
    assert !NoTextLeft(f.rows, PriceKeywords[..3]);
    assert forall c :: c in RequiredColumns ==> c in f.columns;
    ValidateFails(f);
  }

  lemma NoKeywordInPrice()
    ensures forall k :: 0 <= k < |PriceKeywords| ==> !ContainsIgnoreCase("$9.99", PriceKeywords[k])
  {
    assert Lower("$9.99") == "$9.99";
    forall k | 0 <= k < |PriceKeywords| ensures !Contains("$9.99", Lower(PriceKeywords[k])) {
      var w := Lower(PriceKeywords[k]);
      assert w == PriceKeywords[k];
      ShortNeedle("$9.99", w);
    }
  }

  /** A needle whose first letter is not in the haystack is not contained in it. */
  lemma {:induction false} ShortNeedle(hay: string, needle: string)
    requires needle != [] && forall i :: 0 <= i < |hay| ==> hay[i] != needle[0]
    ensures !Contains(hay, needle)
    decreases |hay|
  {
    if hay != [] {
      assert hay[0] != needle[0];
      assert forall i :: 0 <= i < |hay| - 1 ==> hay[1..][i] == hay[i + 1];
      ShortNeedle(hay[1..], needle);
    }
  }
}
