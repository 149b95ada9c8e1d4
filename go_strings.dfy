/**
 * The few functions of Go's `strings` package that the gateway relies on,
 * with the facts about them that the header parser needs.
 */
module GoStrings {

  /** strings.HasPrefix */
  predicate HasPrefix(s: string, prefix: string) {
    |prefix| <= |s| && s[..|prefix|] == prefix
  }

  /** `sub` occurs in `s` starting at index `i`. */
  predicate OccursAt(s: string, sub: string, i: int) {
    0 <= i && i + |sub| <= |s| && s[i..i + |sub|] == sub
  }

  /** strings.Contains: `sub` occurs somewhere in `s` (the empty string occurs everywhere). */
  predicate Contains(s: string, sub: string)
    decreases |s|
  {
    HasPrefix(s, sub) || (s != [] && Contains(s[1..], sub))
  }

  /** Contains agrees with "there is a position where `sub` occurs". */
  lemma {:induction false} ContainsIffOccurs(s: string, sub: string)
    ensures Contains(s, sub) <==> exists i :: OccursAt(s, sub, i)
    decreases |s|
  {
    if HasPrefix(s, sub) {
      assert OccursAt(s, sub, 0);
    } else if s == [] {
      if i :| OccursAt(s, sub, i) {
        assert false;
      }
    } else {
      ContainsIffOccurs(s[1..], sub);
      if Contains(s[1..], sub) {
        var i :| OccursAt(s[1..], sub, i);
        assert s[1..][i..i + |sub|] == s[i + 1..i + 1 + |sub|];
        assert OccursAt(s, sub, i + 1);
      } else {
        if i :| OccursAt(s, sub, i) {
          assert i != 0;
          assert s[i..i + |sub|] == s[1..][i - 1..i - 1 + |sub|];
          assert OccursAt(s[1..], sub, i - 1);
          assert false;
        }
      }
    }
  }

  /** Every character of a contained string is a character of the containing one. */
  lemma {:induction false} ContainsChar(s: string, sub: string, j: int)
    requires Contains(s, sub) && 0 <= j < |sub|
    ensures sub[j] in s
    decreases |s|
  {
    if HasPrefix(s, sub) {
      assert s[j] == sub[j];
    } else {
      ContainsChar(s[1..], sub, j);
    }
  }

  /**
   * The first index of the separator `c` in `s`, or -1 when it does not occur;
   * a helper for stating what the second piece of a split is.
   */
  function IndexOf(s: string, c: char): (i: int)
    ensures -1 <= i < |s|
    ensures i == -1 <==> c !in s
    ensures 0 <= i ==> s[i] == c && c !in s[..i]
    decreases |s|
  {
    if s == [] then -1
    else if s[0] == c then 0
    else
      var j := IndexOf(s[1..], c);
      if j == -1 then -1
      else
        assert s[..j + 1] == [s[0]] + s[1..][..j];
        j + 1
  }

  /** The longest prefix of `s` that does not contain `c`. */
  function TakeUntil(s: string, c: char): (r: string)
    ensures HasPrefix(s, r)
    ensures c !in r
    ensures |r| == |s| || s[|r|] == c
    decreases |s|
  {
    if s == [] || s[0] == c then []
    else [s[0]] + TakeUntil(s[1..], c)
  }

  /** The prefix before the separator is cut at the separator's first index. */
  lemma {:induction false} TakeUntilIndex(s: string, c: char)
    ensures TakeUntil(s, c) == if c in s then s[..IndexOf(s, c)] else s
    decreases |s|
  {
    if s != [] && s[0] != c {
      TakeUntilIndex(s[1..], c);
      if c in s {
        assert c in s[1..] by {
          var k :| 0 <= k < |s| && s[k] == c;
          assert s[1..][k - 1] == c;
        }
        assert s[..IndexOf(s, c)] == [s[0]] + s[1..][..IndexOf(s[1..], c)];
      } else {
        assert s == [s[0]] + s[1..];
      }
    }
  }

  /** A separator at `i` with none before it ends the prefix there. */
  lemma TakeUntilAt(s: string, c: char, i: nat)
    requires i < |s| && s[i] == c && c !in s[..i]
    ensures TakeUntil(s, c) == s[..i]
  {
    TakeUntilIndex(s, c);
  }

  /**
   * strings.Split with a one-character separator: the pieces of `s` between
   * consecutive occurrences of `sep`. There is always at least one piece.
   */
  function Split(s: string, sep: char): (parts: seq<string>)
    ensures |parts| >= 1
    decreases |s|
  {
    if s == [] then [""]
    else
      var rest := Split(s[1..], sep);
      if s[0] == sep then [""] + rest
      else [[s[0]] + rest[0]] + rest[1..]
  }

  /** strings.Join: the elements with `sep` between consecutive ones. */
  function Join(elems: seq<string>, sep: string): string
    decreases |elems|
  {
    if |elems| == 0 then ""
    else if |elems| == 1 then elems[0]
    else elems[0] + sep + Join(elems[1..], sep)
  }

  /** Joining with the empty separator distributes over concatenation of the element lists. */
  lemma {:induction false} JoinConcat(a: seq<string>, b: seq<string>)
    ensures Join(a + b, "") == Join(a, "") + Join(b, "")
    decreases |a|
  {
    if |a| == 0 {
      assert a + b == b;
    } else if |a| == 1 {
      if |b| != 0 {
        assert (a + b)[1..] == b;
      }
    } else {
      JoinConcat(a[1..], b);
      assert (a + b)[1..] == a[1..] + b;
    }
  }

  /** The first piece of a split is everything before the first separator. */
  lemma {:induction false} SplitFirst(s: string, sep: char)
    ensures Split(s, sep)[0] == TakeUntil(s, sep)
    decreases |s|
  {
    if s != [] && s[0] != sep {
      SplitFirst(s[1..], sep);
    }
  }

  /** When the separator occurs, the pieces after the first are the split of what follows it. */
  lemma {:induction false} SplitAfterFirst(s: string, sep: char)
    requires sep in s
    ensures Split(s, sep)[1..] == Split(s[IndexOf(s, sep) + 1..], sep)
    decreases |s|
  {
    if s[0] != sep {
      assert sep in s[1..] by {
        var k :| 0 <= k < |s| && s[k] == sep;
        assert s[1..][k - 1] == sep;
      }
      SplitAfterFirst(s[1..], sep);
      assert s[1..][IndexOf(s[1..], sep) + 1..] == s[IndexOf(s, sep) + 1..];
    }
  }

  /** No piece of a split contains the separator. */
  lemma {:induction false} SplitPartsExcludeSep(s: string, sep: char)
    ensures forall i :: 0 <= i < |Split(s, sep)| ==> sep !in Split(s, sep)[i]
    decreases |s|
  {
    if s != [] {
      SplitPartsExcludeSep(s[1..], sep);
    }
  }

  /** The number of pieces is one more than the number of separators. */
  lemma {:induction false} SplitCount(s: string, sep: char)
    ensures |Split(s, sep)| == multiset(s)[sep] + 1
    decreases |s|
  {
    if s != [] {
      SplitCount(s[1..], sep);
      assert s == [s[0]] + s[1..];
      assert multiset(s) == multiset([s[0]]) + multiset(s[1..]);
    }
  }

  /** Joining the pieces back with the separator gives the original string. */
  lemma {:induction false} JoinSplit(s: string, sep: char)
    ensures Join(Split(s, sep), [sep]) == s
    decreases |s|
  {
    if s != [] {
      var rest := Split(s[1..], sep);
      JoinSplit(s[1..], sep);
      if s[0] == sep {
        assert ([""] + rest)[1..] == rest;
      } else {
        var parts := [[s[0]] + rest[0]] + rest[1..];
        if |rest| == 1 {
          assert Join(parts, [sep]) == [s[0]] + rest[0];
        } else {
          assert parts[1..] == rest[1..];
          assert Join(rest, [sep]) == rest[0] + [sep] + Join(rest[1..], [sep]);
        }
        assert s == [s[0]] + s[1..];
      }
    }
  }
}
