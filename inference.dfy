/**
 * recsys/inference.py: the items recommended to one user, read off the top-N lists of the
 * best model's predictions, and the catalogue details of recommended games.
 */
module Inference {
  import opened Wrappers
  import opened Seqs
  import opened StableSort
  import opened Evaluate
  import opened Personalization
  import opened Tables

  /** The value of `rec_top_n_items(user_id, pred, n)`: a `KeyError` for a user without predictions. */
  function RecTopNSpec(userId: string, preds: seq<Prediction>, n: int): Result<seq<string>, PyError>
  {
    if userId in Uids(preds) then Success(RecItems(preds, n, userId)) else Failure(KeyError)
  }

  /** recsys/inference.py `rec_top_n_items(user_id, pred, n=10)`. */
  method RecTopNItems(userId: string, preds: seq<Prediction>, n: int := 10) returns (r: Result<seq<string>, PyError>)
    ensures r == RecTopNSpec(userId, preds, n)
  {
    var topN := GetTopN(preds, n);
    var recItemLs := RecDict(topN);
    if userId !in recItemLs {
      return Failure(KeyError);
    }
    r := Success(recItemLs[userId]);
  }

  /**
   * A user with predictions gets the item ids of its top-N list, in that list's order and
   * without estimates: at most `n` of them (as many as it has predictions when fewer), each
   * one an item the user had a prediction for. Any other user raises `KeyError`.
   */
  lemma RecTopNItemsSpec(userId: string, preds: seq<Prediction>, n: int)
    requires n >= 0
    ensures var r := RecTopNSpec(userId, preds, n);
            (r.Failure? <==> forall i :: 0 <= i < |preds| ==> preds[i].uid != userId) &&
            (r.Failure? ==> r.error == KeyError) &&
            (r.Success? ==>
               r.value == ItemIds(TopNList(preds, n, userId)) &&
               |r.value| == Min(n, Count(preds, IsUser(userId))) &&
               forall j :: 0 <= j < |r.value| ==>
                 exists i :: 0 <= i < |preds| && preds[i].uid == userId && preds[i].iid == r.value[j])
  {
    UidsMembers(preds, userId);
    TopNLength(preds, n, userId);
    var top := TopNList(preds, n, userId);
    forall j | 0 <= j < |top| ensures exists i :: 0 <= i < |preds| && preds[i].uid == userId && preds[i].iid == top[j].iid {
      assert top[j] in top;
    }
  }

  /** A uid is in the uid column exactly when some prediction is for it. */
  lemma UidsMembers(preds: seq<Prediction>, u: string)
    ensures u in Uids(preds) <==> exists i :: 0 <= i < |preds| && preds[i].uid == u
  {
    if u in Uids(preds) {
      var i :| 0 <= i < |Uids(preds)| && Uids(preds)[i] == u;
      UidsAt(preds, i);
    }
    if exists i :: 0 <= i < |preds| && preds[i].uid == u {
      var i :| 0 <= i < |preds| && preds[i].uid == u;
      UidsAt(preds, i);
    }
  }

  /**
   * recsys/inference.py `get_game_info(rec_item_ls, cols)`. `load` reads the detail file; an
   * invalid column prints a hint and returns None, otherwise a frame without an `id` or `cols`
   * column raises `KeyError`.
   */
  function GetGameInfo(recItems: seq<string>, col: string, load: () -> Frame): Result<Option<seq<Cell>>, PyError>
  {
    if col !in GameColumns then Success(None)
    else
      var games := load();
      if "id" !in games.columns || col !in games.columns then Failure(KeyError)
      else Success(Some(ColumnValues(Filter(games.rows, IdIn(recItems)), col)))
  }

  /** A misspelt column gives None whatever the detail file holds: it is never read. */
  lemma GetGameInfoInvalidColumn(recItems: seq<string>, col: string, load: () -> Frame, load': () -> Frame)
    requires col !in GameColumns
    ensures GetGameInfo(recItems, col, load) == GetGameInfo(recItems, col, load') == Success(None)
  {
  }

  /**
   * For a valid column of a frame with ids, the result lists that column's cell of each game
   * whose id is recommended, in the frame's order, and of no other game.
   */
  lemma GetGameInfoRows(recItems: seq<string>, col: string, load: () -> Frame)
    requires col in GameColumns && "id" in load().columns && col in load().columns
    ensures var r := GetGameInfo(recItems, col, load);
            var rows := load().rows;
            var idx := KeptIndices(rows, IdIn(recItems));
            r.Success? && r.value.Some? && |r.value.value| == |idx| == Count(rows, IdIn(recItems)) &&
            (forall i :: 0 <= i < |idx| ==> idx[i] < |rows| && r.value.value[i] == At(rows[idx[i]], col)) &&
            (forall i, j :: 0 <= i < j < |idx| ==> idx[i] < idx[j]) &&
            (forall j :: 0 <= j < |rows| ==> (j in idx <==> At(rows[j], "id").Text? && At(rows[j], "id").s in recItems))
  {
    FilterKeeps(load().rows, IdIn(recItems));
  }
}
