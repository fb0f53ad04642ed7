/**
 * main.py: the pure helpers behind the API and the dashboard. `precondition` checks a request
 * body; the two dashboard callbacks resolve their inputs with `or`-defaults, select rows of the
 * validated game table through a chain of `.pipe` masks, and draw the selection as two scatter
 * traces or report how many rows it holds.
 */
module Dashboard {
  import opened Wrappers
  import opened Seqs
  import opened Strings
  import opened Tables

  // ---------------------------------------------------------------- precondition

  /** A parsed JSON request body: a dictionary (only its keys matter here) or anything else. */
  datatype Json = Dict(keys: set<string>) | Other

  /** `all(keys in data.keys() for keys in accpetable_keys)`, key by key. */
  function AllIn(wanted: seq<string>, keys: set<string>): bool
  {
    wanted == [] || (wanted[0] in keys && AllIn(wanted[1..], keys))
  }

  /** main.py `precondition(data, accpetable_keys)`. */
  function Precondition(data: Json, acceptableKeys: seq<string>): bool
  {
    if data.Dict? then AllIn(acceptableKeys, data.keys) else false
  }

  lemma {:induction false} AllInSpec(wanted: seq<string>, keys: set<string>)
    ensures AllIn(wanted, keys) <==> forall i :: 0 <= i < |wanted| ==> wanted[i] in keys
  {
    if wanted != [] {
      AllInSpec(wanted[1..], keys);
      assert forall i :: 1 <= i < |wanted| ==> wanted[i] == wanted[1..][i - 1];
    }
  }

  /**
   * The precondition holds exactly for a dictionary holding every acceptable key: never for a
   * non-dictionary, always for a dictionary when no key is asked for, and extra keys never
   * make it fail.
   */
  lemma PreconditionSpec(data: Json, acceptableKeys: seq<string>)
    ensures Precondition(data, acceptableKeys) <==> data.Dict? && forall k :: k in acceptableKeys ==> k in data.keys
    ensures !data.Dict? ==> !Precondition(data, acceptableKeys)
    ensures data.Dict? && acceptableKeys == [] ==> Precondition(data, acceptableKeys)
    ensures forall more: set<string> :: data.Dict? && Precondition(data, acceptableKeys) ==>
              Precondition(Dict(data.keys + more), acceptableKeys)
  {
    if data.Dict? {
      AllInSpec(acceptableKeys, data.keys);
      forall more: set<string> | Precondition(data, acceptableKeys) ensures Precondition(Dict(data.keys + more), acceptableKeys) {
        AllInSpec(acceptableKeys, data.keys + more);
      }
    }
  }

  // ---------------------------------------------------------------- column statistics

  /** `df[col].min()`: the least numeric cell, NaN when there is none (missing cells are skipped). */
  function ColumnMin(rows: seq<Row>, col: string): (m: Score)
    ensures m.NaN? <==> forall i :: 0 <= i < |rows| ==> !At(rows[i], col).Num?
    ensures m.Value? ==> (forall i :: 0 <= i < |rows| && At(rows[i], col).Num? ==> m.v <= At(rows[i], col).x) &&
                         exists i :: 0 <= i < |rows| && At(rows[i], col) == Num(m.v)
  {
    if rows == [] then NaN
    else
      var m, c := ColumnMin(rows[..|rows| - 1], col), At(rows[|rows| - 1], col);
      assert forall i :: 0 <= i < |rows| - 1 ==> rows[..|rows| - 1][i] == rows[i];
      if !c.Num? then m else if m.NaN? || c.x < m.v then Value(c.x) else m
  }

  /** `df[col].max()`: the greatest numeric cell, NaN when there is none. */
  function ColumnMax(rows: seq<Row>, col: string): (m: Score)
    ensures m.NaN? <==> forall i :: 0 <= i < |rows| ==> !At(rows[i], col).Num?
    ensures m.Value? ==> (forall i :: 0 <= i < |rows| && At(rows[i], col).Num? ==> At(rows[i], col).x <= m.v) &&
                         exists i :: 0 <= i < |rows| && At(rows[i], col) == Num(m.v)
  {
    if rows == [] then NaN
    else
      var m, c := ColumnMax(rows[..|rows| - 1], col), At(rows[|rows| - 1], col);
      assert forall i :: 0 <= i < |rows| - 1 ==> rows[..|rows| - 1][i] == rows[i];
      if !c.Num? then m else if m.NaN? || c.x > m.v then Value(c.x) else m
  }

  // ---------------------------------------------------------------- resolving the inputs

  /** The eleven values a callback receives from the page's controls. */
  datatype Inputs = Inputs(
    nbReviews: Option<real>, nbRecommend: Option<real>, minPrice: Option<real>, maxPrice: Option<real>,
    genre: Option<string>, moreGenre: Option<string>, publisher: Option<string>, developer: Option<string>,
    years: Option<seq<real>>, xAxis: Option<string>, yAxis: Option<string>)

  /** What the callbacks filter and plot by, once every `or`-default is applied. */
  datatype Bounds = Bounds(
    minReviews: Score, yearStart: Score, yearEnd: Score, minRecommend: Score, priceMin: Score, priceMax: Score,
    genre: Option<string>, moreGenre: Option<string>, publisher: Option<string>, developer: Option<string>,
    xAxis: string, yAxis: string)

  /** A number Python treats as false: None or 0. */
  predicate Falsy(x: Option<real>)
  {
    x.None? || x.value == 0.0
  }

  /** `x or df.col.min()`; `df.col` raises `AttributeError` when there is no such column. */
  function OrMin(x: Option<real>, df: Frame, col: string): Result<Score, PyError>
  {
    if !Falsy(x) then Success(Value(x.value))
    else if col !in df.columns then Failure(AttributeError)
    else Success(ColumnMin(df.rows, col))
  }

  /** `x or df.col.max()`. */
  function OrMax(x: Option<real>, df: Frame, col: string): Result<Score, PyError>
  {
    if !Falsy(x) then Success(Value(x.value))
    else if col !in df.columns then Failure(AttributeError)
    else Success(ColumnMax(df.rows, col))
  }

  /**
   * `start, end = years or (df.release_year.min(), df.release_year.max())`: a non-empty list
   * must have exactly two values to unpack, otherwise `ValueError`.
   */
  function YearRange(years: Option<seq<real>>, df: Frame): Result<(Score, Score), PyError>
  {
    if years.Some? && years.value != [] then
      if |years.value| != 2 then Failure(ValueError) else Success((Value(years.value[0]), Value(years.value[1])))
    else if "release_year" !in df.columns then Failure(AttributeError)
    else Success((ColumnMin(df.rows, "release_year"), ColumnMax(df.rows, "release_year")))
  }

  /** `s.strip() or None`; calling `strip` on None raises `AttributeError`. */
  function StripOrNone(s: Option<string>): Result<Option<string>, PyError>
  {
    if s.None? then Failure(AttributeError)
    else
      var t := Strip(s.value);
      if t == "" then Success(None) else Success(Some(t))
  }

  /** `s or None` and `s or default` for the values that are not stripped. */
  function OrNone(s: Option<string>): Option<string>
  {
    if s.Some? && s.value != "" then s else None
  }

  function OrDefault(s: Option<string>, default: string): string
  {
    if s.Some? && s.value != "" then s.value else default
  }

  /** The assignments at the head of both callbacks, in their order. */
  function Resolve(df: Frame, inp: Inputs): Result<Bounds, PyError>
  {
    var nbReviews :- OrMin(inp.nbReviews, df, "n_review");
    var years :- YearRange(inp.years, df);
    var nbRecommend :- OrMin(inp.nbRecommend, df, "n_recommend");
    var priceMin := if Falsy(inp.minPrice) then Value(0.0) else Value(inp.minPrice.value);
    var priceMax :- OrMax(inp.maxPrice, df, "price");
    var moreGenre :- StripOrNone(inp.moreGenre);
    var publisher :- StripOrNone(inp.publisher);
    var developer :- StripOrNone(inp.developer);
    Success(Bounds(nbReviews, years.0, years.1, nbRecommend, priceMin, priceMax, OrNone(inp.genre),
                   moreGenre, publisher, developer, OrDefault(inp.xAxis, "price"), OrDefault(inp.yAxis, "n_review")))
  }

  /**
   * Resolving fails exactly when a default is needed from a column the table lacks, when the
   * years list cannot be unpacked into two values, or when a free-text box holds None; only the
   * unpacking raises `ValueError`, everything else `AttributeError`.
   */
  lemma ResolveFails(df: Frame, inp: Inputs)
    ensures var r := Resolve(df, inp);
            var badYears := inp.years.Some? && inp.years.value != [] && |inp.years.value| != 2;
            (r.Failure? <==>
               (Falsy(inp.nbReviews) && "n_review" !in df.columns) ||
               ((inp.years.None? || inp.years.value == []) && "release_year" !in df.columns) || badYears ||
               (Falsy(inp.nbRecommend) && "n_recommend" !in df.columns) ||
               (Falsy(inp.maxPrice) && "price" !in df.columns) ||
               inp.moreGenre.None? || inp.publisher.None? || inp.developer.None?) &&
            (r.Failure? ==> r.error == AttributeError || (r.error == ValueError && badYears))
  {
  }

  /** `s.strip() or None` as a relation: None exactly for blank text, otherwise the stripped text. */
  predicate StrippedTo(s: string, r: Option<string>)
  {
    (r.None? <==> forall i :: 0 <= i < |s| ==> IsSpace(s[i])) && (r.Some? ==> r.value == Strip(s))
  }

  /**
   * A truthy number is used as given and a falsy one falls back to the column's minimum (the
   * price maximum to the column's maximum, the price minimum to 0); an empty or missing year
   * range spans the release years; the genre is used as given unless empty; the other text
   * boxes are stripped and dropped when nothing is left; the axes default to price and n_review.
   */
  lemma ResolveDefaults(df: Frame, inp: Inputs)
    requires Resolve(df, inp).Success?
    ensures var b := Resolve(df, inp).value;
            b.minReviews == (if Falsy(inp.nbReviews) then ColumnMin(df.rows, "n_review") else Value(inp.nbReviews.value)) &&
            b.minRecommend == (if Falsy(inp.nbRecommend) then ColumnMin(df.rows, "n_recommend") else Value(inp.nbRecommend.value)) &&
            b.priceMin == (if Falsy(inp.minPrice) then Value(0.0) else Value(inp.minPrice.value)) &&
            b.priceMax == (if Falsy(inp.maxPrice) then ColumnMax(df.rows, "price") else Value(inp.maxPrice.value))
    ensures var b := Resolve(df, inp).value;
            if inp.years.None? || inp.years.value == [] then
              b.yearStart == ColumnMin(df.rows, "release_year") && b.yearEnd == ColumnMax(df.rows, "release_year")
            else
              |inp.years.value| == 2 && b.yearStart == Value(inp.years.value[0]) && b.yearEnd == Value(inp.years.value[1])
    ensures var b := Resolve(df, inp).value;
            b.genre == (if inp.genre.Some? && inp.genre.value != "" then inp.genre else None) &&
            inp.moreGenre.Some? && StrippedTo(inp.moreGenre.value, b.moreGenre) &&
            inp.publisher.Some? && StrippedTo(inp.publisher.value, b.publisher) &&
            inp.developer.Some? && StrippedTo(inp.developer.value, b.developer)
    ensures var b := Resolve(df, inp).value;
            (b.xAxis == if inp.xAxis.None? || inp.xAxis.value == "" then "price" else inp.xAxis.value) &&
            (b.yAxis == if inp.yAxis.None? || inp.yAxis.value == "" then "n_review" else inp.yAxis.value)
  {
  }

  // ---------------------------------------------------------------- the row filter

  /** `df[col] >= bound`: only a number passes, and nothing passes a NaN bound. */
  predicate AtLeast(row: Row, col: string, bound: Score)
  {
    At(row, col).Num? && bound.Value? && At(row, col).x >= bound.v
  }

  /** `df[col] <= bound`. */
  predicate AtMost(row: Row, col: string, bound: Score)
  {
    At(row, col).Num? && bound.Value? && At(row, col).x <= bound.v
  }

  /** `df[col].str.contains(text, case=False, na=False)` when `text` is given, all rows otherwise. */
  predicate TextMatch(row: Row, col: string, text: Option<string>)
  {
    text.None? || (At(row, col).Text? && ContainsIgnoreCase(At(row, col).s, text.value))
  }

  /** The eight masks of the `.pipe` chain, in order. */
  function Stages(b: Bounds): seq<Row -> bool>
  {
    [ (row: Row) => AtLeast(row, "n_review", b.minReviews),
      (row: Row) => AtLeast(row, "release_year", b.yearStart) && AtMost(row, "release_year", b.yearEnd),
      (row: Row) => AtLeast(row, "n_recommend", b.minRecommend),
      (row: Row) => AtLeast(row, "price", b.priceMin) && AtMost(row, "price", b.priceMax),
      (row: Row) => TextMatch(row, "genres", b.genre),
      (row: Row) => TextMatch(row, "genres", b.moreGenre),
      (row: Row) => TextMatch(row, "publisher", b.publisher),
      (row: Row) => TextMatch(row, "developer", b.developer) ]
  }

  /** Applying masks one after another, each to what the previous one kept. */
  function Pipe<T>(s: seq<T>, masks: seq<T -> bool>): seq<T>
  {
    if masks == [] then s else Filter(Pipe(s, masks[..|masks| - 1]), masks[|masks| - 1])
  }

  /** The rows every mask keeps. */
  function AllOf<T>(masks: seq<T -> bool>): T -> bool
  {
    (x: T) => forall i :: 0 <= i < |masks| ==> masks[i](x)
  }

  /** A chain of masks selects what their conjunction selects, in one pass. */
  lemma {:induction false} PipeIsFilter<T>(s: seq<T>, masks: seq<T -> bool>)
    ensures Pipe(s, masks) == Filter(s, AllOf(masks))
  {
    if masks == [] {
      FilterAll(s, AllOf(masks));
    } else {
      var n := |masks| - 1;
      PipeIsFilter(s, masks[..n]);
      forall x ensures AllOf(masks)(x) == (AllOf(masks[..n])(x) && masks[n](x)) {
        assert forall i :: 0 <= i < n ==> masks[..n][i] == masks[i];
      }
      FilterFilter(s, AllOf(masks[..n]), masks[n], AllOf(masks));
    }
  }

  /** The columns the chain indexes: the four numeric ones, and each text one whose text is given. */
  function NeededColumns(b: Bounds): seq<string>
  {
    ["n_review", "release_year", "n_recommend", "price"] +
    (if b.genre.Some? || b.moreGenre.Some? then ["genres"] else []) +
    (if b.publisher.Some? then ["publisher"] else []) +
    (if b.developer.Some? then ["developer"] else [])
  }

  /** The `filtered_df` chain; `df[col]` raises `KeyError` for a column the table lacks. */
  function FilterRows(df: Frame, b: Bounds): Result<seq<Row>, PyError>
  {
    if exists c :: c in NeededColumns(b) && c !in df.columns then Failure(KeyError)
    else Success(Pipe(df.rows, Stages(b)))
  }

  /** Whether a row is selected, spelt out. */
  predicate Selected(b: Bounds, row: Row)
  {
    AtLeast(row, "n_review", b.minReviews) &&
    AtLeast(row, "release_year", b.yearStart) && AtMost(row, "release_year", b.yearEnd) &&
    AtLeast(row, "n_recommend", b.minRecommend) &&
    AtLeast(row, "price", b.priceMin) && AtMost(row, "price", b.priceMax) &&
    TextMatch(row, "genres", b.genre) && TextMatch(row, "genres", b.moreGenre) &&
    TextMatch(row, "publisher", b.publisher) && TextMatch(row, "developer", b.developer)
  }

  function SelectedBy(b: Bounds): Row -> bool
  {
    (row: Row) => Selected(b, row)
  }

  lemma StagesSelect(b: Bounds)
    ensures forall row :: AllOf(Stages(b))(row) == Selected(b, row)
  {
    var st := Stages(b);
    forall row ensures AllOf(st)(row) == Selected(b, row) {
      assert AllOf(st)(row) == (st[0](row) && st[1](row) && st[2](row) && st[3](row) &&
                                st[4](row) && st[5](row) && st[6](row) && st[7](row));
    }
  }

  /**
   * The chain keeps, in table order and each once, exactly the rows within every inclusive
   * bound whose text columns contain every given text case-insensitively.
   */
  lemma FilterRowsSpec(df: Frame, b: Bounds)
    requires FilterRows(df, b).Success?
    ensures var r, idx := FilterRows(df, b).value, KeptIndices(df.rows, SelectedBy(b));
            r == Filter(df.rows, SelectedBy(b)) && |r| == |idx| &&
            (forall i :: 0 <= i < |idx| ==> idx[i] < |df.rows| && r[i] == df.rows[idx[i]]) &&
            (forall i, j :: 0 <= i < j < |idx| ==> idx[i] < idx[j]) &&
            (forall j :: 0 <= j < |df.rows| ==> (j in idx <==> Selected(b, df.rows[j])))
  {
    PipeIsFilter(df.rows, Stages(b));
    StagesSelect(b);
    SameFilter(df.rows, AllOf(Stages(b)), SelectedBy(b));
    FilterKeeps(df.rows, SelectedBy(b));
  }

  /** The chain fails, with `KeyError`, exactly when a column it needs is missing. */
  lemma FilterRowsFails(df: Frame, b: Bounds)
    ensures FilterRows(df, b).Failure? <==> exists c :: c in NeededColumns(b) && c !in df.columns
    ensures FilterRows(df, b).Failure? ==> FilterRows(df, b).error == KeyError
  {
  }

  /**
   * A falsy review or recommend threshold and a falsy price maximum never exclude a row with a
   * number in that column: the default is that column's own minimum (maximum).
   */
  lemma DefaultsKeepNumbers(df: Frame, inp: Inputs, i: nat)
    requires Resolve(df, inp).Success? && i < |df.rows|
    ensures var b, row := Resolve(df, inp).value, df.rows[i];
            (Falsy(inp.nbReviews) && At(row, "n_review").Num? ==> AtLeast(row, "n_review", b.minReviews)) &&
            (Falsy(inp.nbRecommend) && At(row, "n_recommend").Num? ==> AtLeast(row, "n_recommend", b.minRecommend)) &&
            (Falsy(inp.maxPrice) && At(row, "price").Num? ==> AtMost(row, "price", b.priceMax))
  {
  }

  // ---------------------------------------------------------------- the two callbacks

  /** One `go.Scatter` trace: its points and its legend name. */
  datatype Trace = Trace(x: seq<Cell>, y: seq<Cell>, text: seq<Cell>, name: string)

  /** The figure: its traces (layout and marker styling are constants and not modelled). */
  datatype Figure = Figure(data: seq<Trace>)

  /** `early_access == True`: Python's `==` also holds for the number 1, since `True == 1`. */
  predicate IsEarly(row: Row) { At(row, "early_access") in {Flag(true), Num(1.0)} }

  /** `early_access == False`, which also holds for the number 0. */
  predicate IsLate(row: Row) { At(row, "early_access") in {Flag(false), Num(0.0)} }

  /** The trace of the rows `mask` keeps: `rows[mask][x_axis]`, `rows[mask][y_axis]`, app names. */
  function TraceOf(rows: seq<Row>, mask: Row -> bool, b: Bounds, name: string): Trace
  {
    var kept := Filter(rows, mask);
    Trace(ColumnValues(kept, b.xAxis), ColumnValues(kept, b.yAxis), ColumnValues(kept, "app_name"), name)
  }

  /**
   * main.py `update_scatter_plot`: the selection split by `early_access == True` and `== False`;
   * `filtered_df.early_access` raises `AttributeError`, a missing axis or app_name `KeyError`.
   */
  function UpdateScatterPlot(df: Frame, inp: Inputs): Result<Figure, PyError>
  {
    var b :- Resolve(df, inp);
    var rows :- FilterRows(df, b);
    if "early_access" !in df.columns then Failure(AttributeError)
    else if b.xAxis !in df.columns || b.yAxis !in df.columns || "app_name" !in df.columns then Failure(KeyError)
    else Success(Figure([TraceOf(rows, (r: Row) => IsEarly(r), b, "early_access"),
                         TraceOf(rows, (r: Row) => IsLate(r), b, "no early_access")]))
  }

  /**
   * The first trace plots, in table order, exactly the selected rows whose early_access is
   * True, and the second those whose early_access is False; a row holding neither (such as the
   * "unknown" filler) is selected but plotted in no trace.
   */
  lemma ScatterTraces(df: Frame, inp: Inputs)
    requires UpdateScatterPlot(df, inp).Success?
    ensures var fig, b := UpdateScatterPlot(df, inp).value, Resolve(df, inp).value;
            var early, late := (r: Row) => Selected(b, r) && IsEarly(r), (r: Row) => Selected(b, r) && IsLate(r);
            |fig.data| == 2 &&
            fig.data[0] == TraceOf(df.rows, early, b, "early_access") &&
            fig.data[1] == TraceOf(df.rows, late, b, "no early_access") &&
            |fig.data[0].x| + |fig.data[1].x| + Count(df.rows, (r: Row) => Selected(b, r) && !IsEarly(r) && !IsLate(r)) ==
              Count(df.rows, SelectedBy(b))
  {
    var b := Resolve(df, inp).value;
    var rows := FilterRows(df, b).value;
    FilterRowsSpec(df, b);
    var early, late := (r: Row) => Selected(b, r) && IsEarly(r), (r: Row) => Selected(b, r) && IsLate(r);
    FilterFilter(df.rows, SelectedBy(b), (r: Row) => IsEarly(r), early);
    FilterFilter(df.rows, SelectedBy(b), (r: Row) => IsLate(r), late);
    CountSplit(df.rows, SelectedBy(b), (r: Row) => IsEarly(r), (r: Row) => IsLate(r), early, late,
               (r: Row) => Selected(b, r) && !IsEarly(r) && !IsLate(r));
  }

  /** Splitting what `p` keeps by two exclusive masks and the rest. */
  lemma {:induction false} CountSplit<T>(s: seq<T>, p: T -> bool, q1: T -> bool, q2: T -> bool,
                                         pq1: T -> bool, pq2: T -> bool, rest: T -> bool)
    requires forall x :: !(q1(x) && q2(x))
    requires forall x :: pq1(x) == (p(x) && q1(x)) && pq2(x) == (p(x) && q2(x)) && rest(x) == (p(x) && !q1(x) && !q2(x))
    ensures Count(s, pq1) + Count(s, pq2) + Count(s, rest) == Count(s, p)
  {
    if s != [] {
      CountSplit(s[..|s| - 1], p, q1, q2, pq1, pq2, rest);
    }
  }

  // ---------------------------------------------------------------- the rows-selected text

  function DigitChar(d: nat): char
    requires d < 10
  {
    ('0' as int + d) as char
  }

  /** `str(n)` for a natural number: decimal digits, no leading zero. */
  function NatToString(n: nat): (s: string)
    ensures s != [] && forall i :: 0 <= i < |s| ==> '0' <= s[i] <= '9'
    ensures s[0] == '0' ==> s == "0"
  {
    if n < 10 then [DigitChar(n)] else NatToString(n / 10) + [DigitChar(n % 10)]
  }

  /** The value of a string of decimal digits. */
  function ParseNat(s: string): nat
    requires forall i :: 0 <= i < |s| ==> '0' <= s[i] <= '9'
  {
    if s == [] then 0 else ParseNat(s[..|s| - 1]) * 10 + (s[|s| - 1] as int - '0' as int)
  }

  /** The decimal text reads back as the number it was written from. */
  lemma {:induction false} ParseNatToString(n: nat)
    ensures ParseNat(NatToString(n)) == n
  {
    if n >= 10 {
      ParseNatToString(n / 10);
      var s := NatToString(n);
      assert s[..|s| - 1] == NatToString(n / 10);
    }
  }

  const RowsSelectedPrefix: string := "Number of rows selected: "

  /** main.py `update_nb_rows_selected`: the size of the same selection, as text. */
  function UpdateNbRowsSelected(df: Frame, inp: Inputs): Result<string, PyError>
  {
    var b :- Resolve(df, inp);
    var rows :- FilterRows(df, b);
    Success(RowsSelectedPrefix + NatToString(|rows|))
  }

  /**
   * The text reports how many rows the selection holds: whenever the scatter plot can be drawn
   * the count succeeds too, and the number in it is the number of rows the plot's filter
   * selects, plotted or not.
   */
  lemma RowsSelectedCount(df: Frame, inp: Inputs)
    requires UpdateNbRowsSelected(df, inp).Success? || UpdateScatterPlot(df, inp).Success?
    ensures var t := UpdateNbRowsSelected(df, inp);
            t.Success? && |t.value| > |RowsSelectedPrefix| && t.value[..|RowsSelectedPrefix|] == RowsSelectedPrefix &&
            (forall i :: |RowsSelectedPrefix| <= i < |t.value| ==> '0' <= t.value[i] <= '9') &&
            ParseNat(t.value[|RowsSelectedPrefix|..]) == Count(df.rows, SelectedBy(Resolve(df, inp).value))
  {
    var b := Resolve(df, inp).value;
    FilterRowsSpec(df, b);
    var n := |FilterRows(df, b).value|;
    ParseNatToString(n);
    var t := UpdateNbRowsSelected(df, inp).value;
    assert t[|RowsSelectedPrefix|..] == NatToString(n);
  }
}
