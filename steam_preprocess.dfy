/**
 * recsys/steam_preprocess.py: flatten the Steam user records into review and ownership
 * tables, turn the recommend flag into a 0/1 rating, keep the frequent users and items, and
 * restrict the game catalogue to the games that remain.
 */
module SteamPreprocess {
  import opened Wrappers
  import opened Seqs
  import opened Tables
  import opened Frequency

  // ---------------------------------------------------------------- the user records

  /** An entry of `user["reviews"]`; `recommend` is read as it is stored (a boolean in the data). */
  datatype SteamReview = SteamReview(itemId: string, recommend: Cell, review: string)

  /** A line of australian_user_reviews.json. */
  datatype UserReviews = UserReviews(userId: string, reviews: seq<SteamReview>)

  /** An entry of `user["items"]`. */
  datatype OwnedItem = OwnedItem(itemId: string, itemName: string, playtimeForever: int, playtime2weeks: int)

  /** A line of australian_users_items.json. */
  datatype UserItems = UserItems(userId: string, steamId: string, itemsCount: int, items: seq<OwnedItem>)

  /** A row of `df_review`: user_id, item_id, recommend, review. */
  datatype ReviewRow = ReviewRow(userId: string, itemId: string, recommend: Cell, review: string)

  /** A row of `df_user_items`. */
  datatype ItemRow = ItemRow(userId: string, steamId: string, itemCount: int, itemId: string, itemName: string,
                             playtimeForever: int, playtime2weeks: int)

  /** The rows the inner loop of `get_review_ls` appends for one user. */
  function ReviewRowsOf(user: UserReviews): (rows: seq<ReviewRow>)
    ensures |rows| == |user.reviews|
    ensures forall j :: 0 <= j < |rows| ==>
              rows[j] == ReviewRow(user.userId, user.reviews[j].itemId, user.reviews[j].recommend, user.reviews[j].review)
  {
    seq(|user.reviews|, j requires 0 <= j < |user.reviews| =>
      ReviewRow(user.userId, user.reviews[j].itemId, user.reviews[j].recommend, user.reviews[j].review))
  }

  /** The rows the inner loop of `get_user_items_detail` appends for one user. */
  function ItemRowsOf(user: UserItems): (rows: seq<ItemRow>)
    ensures |rows| == |user.items|
    ensures forall j :: 0 <= j < |rows| ==>
              rows[j] == ItemRow(user.userId, user.steamId, user.itemsCount, user.items[j].itemId,
                                 user.items[j].itemName, user.items[j].playtimeForever, user.items[j].playtime2weeks)
  {
    seq(|user.items|, j requires 0 <= j < |user.items| =>
      ItemRow(user.userId, user.steamId, user.itemsCount, user.items[j].itemId,
              user.items[j].itemName, user.items[j].playtimeForever, user.items[j].playtime2weeks))
  }

  /** recsys/steam_preprocess.py `get_review_ls(review_info)`. */
  method GetReviewLs(reviewInfo: seq<UserReviews>) returns (reviewLs: seq<ReviewRow>)
    ensures reviewLs == FlatMap(reviewInfo, ReviewRowsOf)
  {
    reviewLs := [];
    for u := 0 to |reviewInfo|
      invariant reviewLs == FlatMap(reviewInfo[..u], ReviewRowsOf)
    {
      var user := reviewInfo[u];
      ghost var before := reviewLs;
      for j := 0 to |user.reviews|
        invariant reviewLs == before + ReviewRowsOf(user)[..j]
      {
        var review := user.reviews[j];
        assert ReviewRowsOf(user)[..j + 1] == ReviewRowsOf(user)[..j] + [ReviewRowsOf(user)[j]];
        reviewLs := reviewLs + [ReviewRow(user.userId, review.itemId, review.recommend, review.review)];
      }
      assert ReviewRowsOf(user)[..|user.reviews|] == ReviewRowsOf(user);
      FlatMapSnoc(reviewInfo, ReviewRowsOf, u);
    }
    assert reviewInfo[..|reviewInfo|] == reviewInfo;
  }

  /** recsys/steam_preprocess.py `get_user_items_detail(user_info)`. */
  method GetUserItemsDetail(userInfo: seq<UserItems>) returns (userItemsLs: seq<ItemRow>)
    ensures userItemsLs == FlatMap(userInfo, ItemRowsOf)
  {
    userItemsLs := [];
    for u := 0 to |userInfo|
      invariant userItemsLs == FlatMap(userInfo[..u], ItemRowsOf)
    {
      var user := userInfo[u];
      ghost var before := userItemsLs;
      for j := 0 to |user.items|
        invariant userItemsLs == before + ItemRowsOf(user)[..j]
      {
        var item := user.items[j];
        assert ItemRowsOf(user)[..j + 1] == ItemRowsOf(user)[..j] + [ItemRowsOf(user)[j]];
        userItemsLs := userItemsLs + [ItemRow(user.userId, user.steamId, user.itemsCount, item.itemId,
                                              item.itemName, item.playtimeForever, item.playtime2weeks)];
      }
      assert ItemRowsOf(user)[..|user.items|] == ItemRowsOf(user);
      FlatMapSnoc(userInfo, ItemRowsOf, u);
    }
    assert userInfo[..|userInfo|] == userInfo;
  }

  /** The number of reviews over all users. */
  function ReviewCount(users: seq<UserReviews>): nat
  {
    if users == [] then 0 else ReviewCount(users[..|users| - 1]) + |users[|users| - 1].reviews|
  }

  /** The number of owned items over all users. */
  function ItemCount(users: seq<UserItems>): nat
  {
    if users == [] then 0 else ItemCount(users[..|users| - 1]) + |users[|users| - 1].items|
  }

  /**
   * The review table has one row per review, users in order and each user's reviews in order:
   * review `j` of user `u` is the row after those of the users before `u`.
   */
  lemma {:induction false} ReviewLsRows(users: seq<UserReviews>, u: nat, j: nat)
    requires u < |users| && j < |users[u].reviews|
    ensures var rows := FlatMap(users, ReviewRowsOf);
            var at := ReviewCount(users[..u]) + j;
            |rows| == ReviewCount(users) && at < |rows| &&
            rows[at] == ReviewRow(users[u].userId, users[u].reviews[j].itemId, users[u].reviews[j].recommend,
                                  users[u].reviews[j].review)
  {
    ReviewTableLength(users);
    ReviewTableLength(users[..u]);
    FlatMapAt(users, ReviewRowsOf, u, j);
  }

  lemma {:induction false} ReviewTableLength(users: seq<UserReviews>)
    ensures |FlatMap(users, ReviewRowsOf)| == ReviewCount(users)
  {
    if users != [] {
      ReviewTableLength(users[..|users| - 1]);
    }
  }

  /**
   * The ownership table has one row per owned item, in order, and copies the owner's user_id,
   * steam_id and items_count into each of its rows.
   */
  lemma {:induction false} ItemsDetailRows(users: seq<UserItems>, u: nat, j: nat)
    requires u < |users| && j < |users[u].items|
    ensures var rows := FlatMap(users, ItemRowsOf);
            var at := ItemCount(users[..u]) + j;
            var item := users[u].items[j];
            |rows| == ItemCount(users) && at < |rows| &&
            rows[at] == ItemRow(users[u].userId, users[u].steamId, users[u].itemsCount, item.itemId, item.itemName,
                                item.playtimeForever, item.playtime2weeks)
  {
    ItemTableLength(users);
    ItemTableLength(users[..u]);
    FlatMapAt(users, ItemRowsOf, u, j);
  }

  lemma {:induction false} ItemTableLength(users: seq<UserItems>)
    ensures |FlatMap(users, ItemRowsOf)| == ItemCount(users)
  {
    if users != [] {
      ItemTableLength(users[..|users| - 1]);
    }
  }

  // ---------------------------------------------------------------- the explicit ratings

  /**
   * `astype(str)` of a recommend cell as far as the mapping can tell: a boolean prints as
   * "True" or "False", a missing value as "nan", text as itself; a number prints as a numeral,
   * never one of the two keys, shown here as None.
   */
  function AsStr(c: Cell): Option<string>
  {
    match c
    case Flag(b) => Some(if b then "True" else "False")
    case Text(s) => Some(s)
    case Missing => Some("nan")
    case Num(_) => None
  }

  /** `.map({"True": 1, "False": 0})`: any other string becomes NaN. */
  function RecommendCode(c: Cell): Cell
  {
    var s := AsStr(c);
    if s == Some("True") then Num(1.0) else if s == Some("False") then Num(0.0) else Missing
  }

  /** The review table after the recommend column is recoded; every other column is as before. */
  function ExplicitRows(rows: seq<ReviewRow>): seq<ReviewRow>
  {
    seq(|rows|, i requires 0 <= i < |rows| => rows[i].(recommend := RecommendCode(rows[i].recommend)))
  }

  /** A data frame whose column `recommend` is reassigned in place. */
  class ReviewFrame {
    var rows: seq<ReviewRow>

    constructor (rows: seq<ReviewRow>)
      ensures this.rows == rows
    {
      this.rows := rows;
    }
  }

  /**
   * recsys/steam_preprocess.py `get_explicit_ls(df_review)`: `drop(columns="review")` returns a
   * copy that is discarded, the recommend column of the argument is overwritten, and the
   * argument itself is returned.
   */
  method GetExplicitLs(dfReview: ReviewFrame) returns (dfReviewExplicit: ReviewFrame)
    modifies dfReview
    ensures dfReviewExplicit == dfReview
    ensures dfReview.rows == ExplicitRows(old(dfReview.rows))
  {
    dfReview.rows := ExplicitRows(dfReview.rows);
    dfReviewExplicit := dfReview;
  }

  /**
   * The recoded table has the same rows with the same user, item and review (the review column
   * stays), and a recommend of 1 for a stored True, 0 for a stored False, and NaN otherwise.
   */
  lemma ExplicitRowsSpec(rows: seq<ReviewRow>)
    ensures var r := ExplicitRows(rows);
            |r| == |rows| &&
            forall i :: 0 <= i < |rows| ==>
              r[i].userId == rows[i].userId && r[i].itemId == rows[i].itemId && r[i].review == rows[i].review &&
              (r[i].recommend == Num(1.0) <==> rows[i].recommend in {Flag(true), Text("True")}) &&
              (r[i].recommend == Num(0.0) <==> rows[i].recommend in {Flag(false), Text("False")}) &&
              (r[i].recommend == Missing <==> rows[i].recommend !in {Flag(true), Text("True"), Flag(false), Text("False")})
  {
    var r := ExplicitRows(rows);
    forall i | 0 <= i < |rows|
      ensures r[i].recommend == Num(1.0) <==> rows[i].recommend in {Flag(true), Text("True")}
      ensures r[i].recommend == Num(0.0) <==> rows[i].recommend in {Flag(false), Text("False")}
      ensures r[i].recommend == Missing <==> rows[i].recommend !in {Flag(true), Text("True"), Flag(false), Text("False")}
    {
      var c := rows[i].recommend;
      assert "nan" != "True" && "nan" != "False" && "True" != "False";
      assert r[i].recommend == RecommendCode(c);
    }
  }

  /** Recoding twice is not recoding once: the 1 a recommended review becomes is no longer a flag, so a second pass makes it missing. */
  lemma ExplicitRowsNotIdempotent(row: ReviewRow)
    requires row.recommend == Flag(true)
    ensures ExplicitRows([row])[0].recommend == Num(1.0)
    ensures ExplicitRows(ExplicitRows([row]))[0].recommend == Missing
  {
  }

  // ---------------------------------------------------------------- the implicit ratings

  /** A row of `df_review_implitic`. */
  datatype ImplicitRow = ImplicitRow(userId: string, itemId: string, playtimeForever: int)

  /** recsys/steam_preprocess.py `get_implicit_ls(df_user_items)`. */
  function GetImplicitLs(dfUserItems: seq<ItemRow>): seq<ImplicitRow>
  {
    seq(|dfUserItems|, i requires 0 <= i < |dfUserItems| =>
      ImplicitRow(dfUserItems[i].userId, dfUserItems[i].itemId, dfUserItems[i].playtimeForever))
  }

  /**
   * Over the ownership table, the implicit table has one row per owned item, in order, holding
   * its owner's id, the item's id and its total playtime.
   */
  lemma ImplicitRows(users: seq<UserItems>, u: nat, j: nat)
    requires u < |users| && j < |users[u].items|
    ensures var r := GetImplicitLs(FlatMap(users, ItemRowsOf));
            var at := ItemCount(users[..u]) + j;
            |r| == ItemCount(users) && at < |r| &&
            r[at] == ImplicitRow(users[u].userId, users[u].items[j].itemId, users[u].items[j].playtimeForever)
  {
    ItemsDetailRows(users, u, j);
  }

  // ---------------------------------------------------------------- the frequent users and items

  /** A row of `data_after_filter`: user_id, item_id, recommend. */
  datatype ExplicitRow = ExplicitRow(userId: string, itemId: string, recommend: Cell)

  function ItemOf(r: ReviewRow): string { r.itemId }

  function UserOf(r: ReviewRow): string { r.userId }

  function ExplicitUser(r: ExplicitRow): string { r.userId }

  /** `value_counts() >= min`. */
  function AtLeast(min: int): nat -> bool
  {
    (c: nat) => c >= min
  }

  function ToExplicit(r: ReviewRow): ExplicitRow
  {
    ExplicitRow(r.userId, r.itemId, r.recommend)
  }

  /** recsys/steam_preprocess.py `get_filtered_explicit_ls(data, min=5)`. */
  function GetFilteredExplicitLs(data: seq<ReviewRow>, min: int := 5): seq<ExplicitRow>
  {
    var kept := KeepFrequent(data, ItemOf, UserOf, AtLeast(min));
    seq(|kept|, i requires 0 <= i < |kept| => ToExplicit(kept[i]))
  }

  /**
   * The output lists, in input order and each once, the (user_id, item_id, recommend) of exactly
   * the rows whose item and whose user each occur at least `min` times in the input.
   */
  lemma FilteredExplicitSpec(data: seq<ReviewRow>, min: int)
    ensures var r, idx := GetFilteredExplicitLs(data, min), KeptIndices(data, Frequent(data, ItemOf, UserOf, AtLeast(min)));
            |r| == |idx| &&
            (forall i :: 0 <= i < |idx| ==>
               idx[i] < |data| && r[i] == ExplicitRow(data[idx[i]].userId, data[idx[i]].itemId, data[idx[i]].recommend)) &&
            (forall i, j :: 0 <= i < j < |idx| ==> idx[i] < idx[j]) &&
            (forall j :: 0 <= j < |data| ==>
               (j in idx <==> Occurrences(data, ItemOf, data[j].itemId) >= min &&
                              Occurrences(data, UserOf, data[j].userId) >= min))
  {
    KeepFrequentSpec(data, ItemOf, UserOf, AtLeast(min));
  }

  /**
   * The counts come from the unfiltered input: with `min - 1` rows of user U on item A, one of U
   * on B and one of V on A, the output is the `min - 1` rows of U on A, so a kept user occurs
   * fewer than `min` times in it.
   */
  lemma FilteredExplicitOnePass(min: nat, ua: ReviewRow, ub: ReviewRow, va: ReviewRow)
    requires min >= 2
    requires ua.userId == ub.userId != va.userId && ua.itemId == va.itemId != ub.itemId
    ensures var out := GetFilteredExplicitLs(seq(min - 1, _ => ua) + [ub, va], min);
            out == seq(min - 1, _ => ToExplicit(ua)) && Occurrences(out, ExplicitUser, ua.userId) == min - 1 < min
  {
    OnePassNotClosed(ItemOf, UserOf, AtLeast(min), min, ua, ub, va);
    var out := GetFilteredExplicitLs(seq(min - 1, _ => ua) + [ub, va], min);
    assert out == seq(min - 1, _ => ToExplicit(ua));
    CountAll(out, Is(ExplicitUser, ua.userId));
  }

  // ---------------------------------------------------------------- the games that remain

  /** `pd.DataFrame(game_info)[remain_col]` for one game: a game lacking a column gets NaN there. */
  function GameRow(game: Row): (r: Row)
    ensures forall c :: c in r <==> c in GameColumns
  {
    map c | c in GameColumns :: At(game, c)
  }

  /** `data_after_filter.item_id.values.tolist()`. */
  function ItemIds(data: seq<ExplicitRow>): (ids: seq<string>)
    ensures |ids| == |data| && forall i :: 0 <= i < |data| ==> ids[i] == data[i].itemId
  {
    seq(|data|, i requires 0 <= i < |data| => data[i].itemId)
  }

  /**
   * recsys/steam_preprocess.py `get_related_game_info(game_info, data_after_filter)`: the frame's
   * columns are those of any game, so selecting the twelve raises `KeyError` when no game has one.
   */
  function GetRelatedGameInfo(gameInfo: seq<Row>, dataAfterFilter: seq<ExplicitRow>): Result<seq<Row>, PyError>
  {
    if exists c :: c in GameColumns && forall g :: 0 <= g < |gameInfo| ==> c !in gameInfo[g] then Failure(KeyError)
    else Success(Filter(GameFrame(gameInfo), IdIn(ItemIds(dataAfterFilter))))
  }

  /** `df_game[remain_col]`, once the columns are known to exist. */
  function GameFrame(gameInfo: seq<Row>): (rows: seq<Row>)
    ensures |rows| == |gameInfo| && forall g :: 0 <= g < |gameInfo| ==> rows[g] == GameRow(gameInfo[g])
  {
    seq(|gameInfo|, g requires 0 <= g < |gameInfo| => GameRow(gameInfo[g]))
  }

  /** The game's id is the item id of some row of the filtered ratings. */
  function Related(dataAfterFilter: seq<ExplicitRow>): Row -> bool
  {
    (game: Row) => At(game, "id").Text? && At(game, "id").s in ItemIds(dataAfterFilter)
  }

  /** Selecting the twelve columns raises `KeyError` exactly when one of them is in no game. */
  lemma RelatedGameInfoFails(gameInfo: seq<Row>, dataAfterFilter: seq<ExplicitRow>)
    ensures var r := GetRelatedGameInfo(gameInfo, dataAfterFilter);
            (r.Failure? <==> exists c :: c in GameColumns && forall g :: 0 <= g < |gameInfo| ==> c !in gameInfo[g]) &&
            (r.Failure? ==> r.error == KeyError)
  {
  }

  /**
   * Otherwise the result keeps, in catalogue order and each once, exactly the games whose id is
   * an item of the filtered ratings, each restricted to the twelve columns.
   */
  lemma RelatedGameInfoRows(gameInfo: seq<Row>, dataAfterFilter: seq<ExplicitRow>)
    requires GetRelatedGameInfo(gameInfo, dataAfterFilter).Success?
    ensures var r := GetRelatedGameInfo(gameInfo, dataAfterFilter).value;
            var idx := KeptIndices(gameInfo, Related(dataAfterFilter));
            |r| == |idx| &&
            (forall i :: 0 <= i < |idx| ==> idx[i] < |gameInfo| && r[i] == GameRow(gameInfo[idx[i]])) &&
            (forall i, j :: 0 <= i < j < |idx| ==> idx[i] < idx[j]) &&
            (forall j :: 0 <= j < |gameInfo| ==>
               (j in idx <==> At(gameInfo[j], "id").Text? && At(gameInfo[j], "id").s in ItemIds(dataAfterFilter)))
  {
    var ids := ItemIds(dataAfterFilter);
    var dfGame := GameFrame(gameInfo);
    MaskAgrees(gameInfo, dataAfterFilter);
    FilterKeeps(dfGame, IdIn(ids));
    KeptIndicesAgree(dfGame, gameInfo, IdIn(ids), Related(dataAfterFilter));
  }

  /** The projection keeps the id column, so the mask reads the same id before and after it. */
  lemma MaskAgrees(gameInfo: seq<Row>, dataAfterFilter: seq<ExplicitRow>)
    ensures forall g :: 0 <= g < |gameInfo| ==>
              IdIn(ItemIds(dataAfterFilter))(GameFrame(gameInfo)[g]) == Related(dataAfterFilter)(gameInfo[g])
  {
    assert "id" in GameColumns;
  }
}
