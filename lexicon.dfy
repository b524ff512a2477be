/**
 * Keyword matching over a token array: how many tokens `words.includes(token)`
 * accepts. Both keyword scorers of the repository are built on this count.
 */
module Lexicon {

  /** The number of tokens that occur in `words`. */
  function Hits(tokens: seq<string>, words: seq<string>): (n: nat)
    ensures n <= |tokens|
  {
    if tokens == [] then 0
    else Hits(tokens[..|tokens| - 1], words) + (if tokens[|tokens| - 1] in words then 1 else 0)
  }

  /** One more token adds one exactly when it is a keyword. */
  lemma HitsSnoc(tokens: seq<string>, token: string, words: seq<string>)
    ensures Hits(tokens + [token], words) == Hits(tokens, words) + (if token in words then 1 else 0)
  {
    assert (tokens + [token])[..|tokens|] == tokens;
  }

  /** No word is in both lists. */
  predicate Disjoint(a: seq<string>, b: seq<string>)
  {
    forall i :: 0 <= i < |a| ==> a[i] !in b
  }

  /** With disjoint lists no token is counted twice: the two counts together never exceed the token count. */
  lemma {:induction false} HitsDisjoint(tokens: seq<string>, a: seq<string>, b: seq<string>)
    requires Disjoint(a, b)
    ensures Hits(tokens, a) + Hits(tokens, b) <= |tokens|
  {
    if tokens != [] {
      var last := tokens[|tokens| - 1];
      HitsDisjoint(tokens[..|tokens| - 1], a, b);
      if last in a {
        var k :| 0 <= k < |a| && a[k] == last;
        assert last !in b;
      }
    }
  }

  /** Counting distributes over concatenation. */
  lemma {:induction false} HitsAppend(s: seq<string>, t: seq<string>, words: seq<string>)
    ensures Hits(s + t, words) == Hits(s, words) + Hits(t, words)
    decreases |t|
  {
    if t == [] {
      assert s + t == s;
    } else {
      var init := t[..|t| - 1];
      assert (s + t)[..|s + t| - 1] == s + init;
      assert (s + t)[|s + t| - 1] == t[|t| - 1];
      HitsAppend(s, init, words);
    }
  }

  /** Removing the token at index k lowers the count by that token's own contribution. */
  lemma HitsRemoveAt(t: seq<string>, k: nat, words: seq<string>)
    requires k < |t|
    ensures Hits(t, words) == Hits(t[..k] + t[k + 1..], words) + (if t[k] in words then 1 else 0)
  {
    var before, after := t[..k], t[k + 1..];
    assert t == (before + [t[k]]) + after;
    HitsAppend(before + [t[k]], after, words);
    HitsAppend(before, [t[k]], words);
    HitsAppend(before, after, words);
    assert [t[k]][..0] == [];
  }

  /** A permutation of a non-empty sequence holds its last element somewhere; without it, the rests are permutations too. */
  lemma MatchLast<T>(s: seq<T>, t: seq<T>) returns (k: nat)
    requires s != [] && multiset(s) == multiset(t)
    ensures k < |t| && t[k] == s[|s| - 1]
    ensures multiset(s[..|s| - 1]) == multiset(t[..k] + t[k + 1..])
  {
    var x := s[|s| - 1];
    assert s == s[..|s| - 1] + [x];
    assert x in multiset(t);
    k :| 0 <= k < |t| && t[k] == x;
    assert t == t[..k] + [x] + t[k + 1..];
    calc {
      multiset(t[..k] + t[k + 1..]);
      multiset(t[..k]) + multiset(t[k + 1..]);
      multiset(t) - multiset{x};
      multiset(s) - multiset{x};
      multiset(s[..|s| - 1]);
    }
  }

  /** The count depends only on how often each token occurs, not on the order of the tokens. */
  lemma {:induction false} HitsPermutation(s: seq<string>, t: seq<string>, words: seq<string>)
    requires multiset(s) == multiset(t)
    ensures Hits(s, words) == Hits(t, words)
    decreases |s|
  {
    if s == [] {
      assert |t| == |multiset(t)| == 0;
    } else {
      var k := MatchLast(s, t);
      HitsPermutation(s[..|s| - 1], t[..k] + t[k + 1..], words);
      HitsRemoveAt(t, k, words);
    }
  }
}
