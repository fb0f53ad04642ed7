/**
 * The minimum-count filter both preprocessing scripts apply to a ratings table:
 * `value_counts()` of the item column and of the user column, each compared with a threshold,
 * and a mask keeping the rows whose item and whose user both pass. The counts are taken once,
 * on the unfiltered table.
 */
module Frequency {
  import opened Seqs

  /** The rows whose `key` column holds `v`. */
  function Is<T>(key: T -> string, v: string): T -> bool
  {
    (x: T) => key(x) == v
  }

  /** `data[key].value_counts()[v]`: how many rows have `v` in the `key` column (0 when none). */
  function Occurrences<T>(data: seq<T>, key: T -> string, v: string): nat
  {
    Count(data, Is(key, v))
  }

  /** The mask: the row's item and its user each pass the threshold test `enough`, on `data`'s counts. */
  function Frequent<T>(data: seq<T>, item: T -> string, user: T -> string, enough: nat -> bool): T -> bool
  {
    (x: T) => enough(Occurrences(data, item, item(x))) && enough(Occurrences(data, user, user(x)))
  }

  /**
   * `data[data[item].isin(frequent items) & data[user].isin(frequent users)]`: a key is among
   * the frequent ones exactly when its own count passes.
   */
  function KeepFrequent<T>(data: seq<T>, item: T -> string, user: T -> string, enough: nat -> bool): seq<T>
  {
    Filter(data, Frequent(data, item, user, enough))
  }

  /**
   * The filter keeps, in their original order and each once, exactly the rows whose item and
   * whose user both occur often enough in the unfiltered table.
   */
  lemma KeepFrequentSpec<T>(data: seq<T>, item: T -> string, user: T -> string, enough: nat -> bool)
    ensures var r, idx := KeepFrequent(data, item, user, enough), KeptIndices(data, Frequent(data, item, user, enough));
            |r| == |idx| &&
            (forall i :: 0 <= i < |idx| ==> idx[i] < |data| && r[i] == data[idx[i]]) &&
            (forall i, j :: 0 <= i < j < |idx| ==> idx[i] < idx[j]) &&
            (forall j :: 0 <= j < |data| ==>
               (j in idx <==> enough(Occurrences(data, item, item(data[j]))) &&
                              enough(Occurrences(data, user, user(data[j])))))
  {
    FilterKeeps(data, Frequent(data, item, user, enough));
  }

  /**
   * One pass is not a fixpoint. With a threshold `t >= 2`: `t - 1` rows of user U on item A, one
   * row of U on item B and one row of user V on A. U and A occur `t` times and pass; B and V
   * occur once and fail. The output is the `t - 1` rows of U on A, so U occurs fewer than `t`
   * times in it and filtering again would drop them all.
   */
  lemma OnePassNotClosed<T>(item: T -> string, user: T -> string, enough: nat -> bool, t: nat, ua: T, ub: T, va: T)
    requires t >= 2 && enough(t) && !enough(t - 1) && !enough(1)
    requires user(ua) == user(ub) != user(va) && item(ua) == item(va) != item(ub)
    ensures var data := seq(t - 1, _ => ua) + [ub, va];
            var out := KeepFrequent(data, item, user, enough);
            out == seq(t - 1, _ => ua) && Occurrences(out, user, user(ua)) == t - 1 && !enough(t - 1)
  {
    var uas := seq(t - 1, _ => ua);
    var data := uas + [ub, va];
    var isU, isV, isA, isB := Is(user, user(ua)), Is(user, user(va)), Is(item, item(ua)), Is(item, item(ub));
    CountsWithTail(uas, ub, va, isU, t - 1, 1);
    CountsWithTail(uas, ub, va, isA, t - 1, 1);
    CountsWithTail(uas, ub, va, isV, 0, 1);
    CountsWithTail(uas, ub, va, isB, 0, 1);
    var keep := Frequent(data, item, user, enough);
    assert !keep(va) && !keep(ub);
    assert forall i :: 0 <= i < |uas| ==> keep(uas[i]);
    assert data == (uas + [ub]) + [va];
    FilterDropLast(uas + [ub], va, keep);
    FilterDropLast(uas, ub, keep);
    FilterAll(uas, keep);
    CountAll(uas, isU);
  }

  /** Counting over a block followed by two more rows. */
  lemma CountsWithTail<T>(s: seq<T>, x: T, y: T, p: T -> bool, inS: nat, inTail: nat)
    requires (inS == |s| && forall i :: 0 <= i < |s| ==> p(s[i])) || (inS == 0 && forall i :: 0 <= i < |s| ==> !p(s[i]))
    requires inTail == (if p(x) then 1 else 0) + (if p(y) then 1 else 0)
    ensures Count(s + [x, y], p) == inS + inTail
  {
    if inS == 0 && forall i :: 0 <= i < |s| ==> !p(s[i]) {
      CountNone(s, p);
    } else {
      CountAll(s, p);
    }
    CountAppend(s, [x, y], p);
    CountCons(x, [y], p);
    CountCons(y, [], p);
  }

  /** A last row the mask rejects is not kept. */
  lemma FilterDropLast<T>(s: seq<T>, x: T, p: T -> bool)
    requires !p(x)
    ensures Filter(s + [x], p) == Filter(s, p)
  {
    assert (s + [x])[..|s|] == s;
  }
}
