/**
 * The name `iterate_algo` stores for an algorithm: `re.search(r"(\w+)\s", str(algo)).group()`,
 * the leftmost run of word characters that is followed by a whitespace character, together
 * with that whitespace character.
 */
module AlgoNames {
  import opened Wrappers
  import opened Strings

  /** `\w` on ASCII text: letters, digits and the underscore. */
  predicate IsWordChar(c: char)
  {
    'a' <= c <= 'z' || 'A' <= c <= 'Z' || '0' <= c <= '9' || c == '_'
  }

  /** `(\w+)\s` matches `s[i..j + 1]`: word characters from `i` to `j - 1`, whitespace at `j`. */
  predicate MatchAt(s: string, i: nat, j: nat)
  {
    i < j < |s| && (forall p :: i <= p < j ==> IsWordChar(s[p])) && IsSpace(s[j])
  }

  /** Where the run of word characters starting at `i` ends (`\w+` is greedy). */
  function RunEnd(s: string, i: nat): (j: nat)
    requires i <= |s|
    ensures i <= j <= |s|
    ensures forall p :: i <= p < j ==> IsWordChar(s[p])
    ensures j < |s| ==> !IsWordChar(s[j])
    ensures i < |s| && IsWordChar(s[i]) ==> i < j
    decreases |s| - i
  {
    if i < |s| && IsWordChar(s[i]) then RunEnd(s, i + 1) else i
  }

  /** The scan of `re.search` from position `i`; a run not followed by whitespace is skipped whole. */
  function SearchFrom(s: string, i: nat): Option<string>
    requires i <= |s|
    decreases |s| - i
  {
    if i == |s| then None
    else if IsWordChar(s[i]) then
      var j := RunEnd(s, i);
      if j < |s| && IsSpace(s[j]) then Some(s[i..j + 1]) else SearchFrom(s, j)
    else SearchFrom(s, i + 1)
  }

  /** `name.group()`, or the `AttributeError` of calling it on the `None` of a failed search. */
  function AlgoName(s: string): Result<string, PyError>
  {
    match SearchFrom(s, 0)
    case None => Failure(AttributeError)
    case Some(m) => Success(m)
  }

  /** A match ends where the run of word characters from its start ends. */
  lemma MatchEnd(s: string, i: nat, j: nat)
    requires MatchAt(s, i, j)
    ensures j == RunEnd(s, i)
  {
    var e := RunEnd(s, i);
  }

  /** No match starts inside a run of word characters whose end is not whitespace. */
  lemma NoMatchInRun(s: string, i: nat, p: nat, b: nat)
    requires i <= p < |s|
    requires !(RunEnd(s, i) < |s| && IsSpace(s[RunEnd(s, i)]))
    requires p < RunEnd(s, i)
    ensures !MatchAt(s, p, b)
  {
    var e := RunEnd(s, i);
  }

  /**
   * The search from `i` finds the leftmost match at or after `i` and returns its text; it finds
   * nothing exactly when there is no such match.
   */
  lemma {:induction false} SearchFromSpec(s: string, i: nat)
    requires i <= |s|
    ensures SearchFrom(s, i).None? <==> forall a, b :: i <= a ==> !MatchAt(s, a, b)
    ensures SearchFrom(s, i).Some? ==>
              exists a, b :: i <= a && MatchAt(s, a, b) && SearchFrom(s, i).value == s[a..b + 1] &&
                forall a', b' :: i <= a' < a ==> !MatchAt(s, a', b')
    decreases |s| - i
  {
    if i == |s| {
    } else if IsWordChar(s[i]) {
      var j := RunEnd(s, i);
      if j < |s| && IsSpace(s[j]) {
        assert MatchAt(s, i, j);
      } else {
        SearchFromSpec(s, j);
        forall a, b | i <= a < j ensures !MatchAt(s, a, b) {
          NoMatchInRun(s, i, a, b);
        }
      }
    } else {
      SearchFromSpec(s, i + 1);
      forall b ensures !MatchAt(s, i, b) {
      }
    }
  }

  /**
   * With no whitespace before position `j`, the name is the run of word characters that ends
   * at the first whitespace character, with that character.
   */
  lemma FirstSpaceName(s: string, a: nat, j: nat)
    requires a < j < |s| && IsSpace(s[j])
    requires forall p :: 0 <= p < j ==> !IsSpace(s[p])
    requires forall p :: a <= p < j ==> IsWordChar(s[p])
    requires a == 0 || !IsWordChar(s[a - 1])
    ensures AlgoName(s) == Success(s[a..j + 1])
  {
    assert MatchAt(s, a, j);
    SearchFromSpec(s, 0);
    var a': nat, b': nat :| 0 <= a' && MatchAt(s, a', b') && SearchFrom(s, 0).value == s[a'..b' + 1] &&
                  forall a'', b'' :: 0 <= a'' < a' ==> !MatchAt(s, a'', b'');
    assert b' >= j;
    MatchEnd(s, a, j);
    MatchEnd(s, a', b');
  }

  /**
   * The string of a Surprise algorithm, `<package.module.Class object at 0x...>`: when the
   * qualified prefix holds no whitespace and ends in a non-word character such as `.`, the
   * stored name is the class name followed by the space after it.
   */
  lemma ReprName(prefix: string, cls: string, rest: string)
    requires prefix != [] && !IsWordChar(prefix[|prefix| - 1])
    requires forall p :: 0 <= p < |prefix| ==> !IsSpace(prefix[p])
    requires cls != [] && forall p :: 0 <= p < |cls| ==> IsWordChar(cls[p])
    ensures AlgoName(prefix + cls + " " + rest) == Success(cls + " ")
  {
    var s := prefix + cls + " " + rest;
    var a, j := |prefix|, |prefix| + |cls|;
    assert forall p :: 0 <= p < a ==> s[p] == prefix[p];
    assert forall p :: a <= p < j ==> s[p] == cls[p - a];
    assert s[j] == ' ';
    assert s[a..j + 1] == cls + " ";
    FirstSpaceName(s, a, j);
  }

  /** Every character of `t` comes after the space, so none is whitespace. */
  predicate Printable(t: string)
  {
    forall p :: 0 <= p < |t| ==> t[p] > ' '
  }

  lemma PrintableConcat(t: string, u: string)
    requires Printable(t) && Printable(u)
    ensures Printable(t + u)
  {
    assert forall p :: 0 <= p < |t| ==> (t + u)[p] == t[p];
    assert forall p :: |t| <= p < |t| + |u| ==> (t + u)[p] == u[p - |t|];
  }

  lemma PrintablePackage()
    ensures Printable("<surprise.prediction_")
  {
  }

  lemma PrintableModule()
    ensures Printable("algorithms.matrix_")
  {
  }

  lemma PrintableSubmodule()
    ensures Printable("factorization.")
  {
  }

  /**
   * tests/test_train.py: the name of SVDpp is "SVDpp ", trailing space included. The string of
   * the algorithm is written as the concatenation of its parts.
   */
  lemma SVDppName()
    ensures AlgoName("<surprise.prediction_" + "algorithms.matrix_" + "factorization." + "SVDpp" + " " +
                     "object at 0x7f3c>") == Success("SVDpp ")
  {
    PrintablePackage();
    PrintableModule();
    PrintableSubmodule();
    PrintableConcat("<surprise.prediction_", "algorithms.matrix_");
    var prefix := "<surprise.prediction_" + "algorithms.matrix_" + "factorization.";
    PrintableConcat("<surprise.prediction_" + "algorithms.matrix_", "factorization.");
    assert prefix[|prefix| - 1] == "factorization."[13] == '.';
    assert forall p :: 0 <= p < |prefix| ==> !IsSpace(prefix[p]) by {
      assert Printable(prefix);
    }
    ReprName(prefix, "SVDpp", "object at 0x7f3c>");
    assert "SVDpp" + " " == "SVDpp ";
  }
}
