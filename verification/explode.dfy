/**
 * PHP's `explode('__', $token)` as used by the reindex dispatcher, together
 * with its inverse `implode('__', $parts)`.
 *
 * `explode` scans the token from the left and cuts at every non-overlapping
 * occurrence of the two-character separator "__": "a___b" becomes ["a", "_b"],
 * "a____b" becomes ["a", "", "b"] and the empty token becomes [""].
 */
module Explode {

  const Sep: string := "__"

  /** The separator starts at position i of s. */
  predicate SepAt(s: string, i: int)
  {
    0 <= i && i + 1 < |s| && s[i] == '_' && s[i + 1] == '_'
  }

  /** s contains the separator somewhere. */
  predicate HasSep(s: string)
  {
    exists i :: 0 <= i < |s| && SepAt(s, i)
  }

  predicate EndsWithUnderscore(s: string)
  {
    |s| > 0 && s[|s| - 1] == '_'
  }

  /**
   * The shape of every result of `explode('__', _)`: at least one part, no
   * part contains the separator, and no part but the last ends in '_' (an
   * underscore right before a separator would have started the separator
   * one position earlier).
   */
  predicate WellFormedParts(parts: seq<string>)
  {
    && |parts| >= 1
    && (forall k :: 0 <= k < |parts| ==> !HasSep(parts[k]))
    && (forall k :: 0 <= k < |parts| - 1 ==> !EndsWithUnderscore(parts[k]))
  }

  /**
   * `explode('__', s)`. The first part is the longest prefix of s that the
   * leftmost separator ends; when there are further parts, the separator
   * follows it immediately.
   */
  function Split(s: string): (parts: seq<string>)
    ensures |parts| >= 1
    ensures |parts[0]| <= |s| && parts[0] == s[..|parts[0]|]
    ensures |parts| == 1 ==> parts[0] == s
    ensures |parts| >= 2 ==> SepAt(s, |parts[0]|)
    decreases |s|
  {
    if |s| < 2 then [s]
    else if s[0] == '_' && s[1] == '_' then [""] + Split(s[2..])
    else
      var rest := Split(s[1..]);
      [[s[0]] + rest[0]] + rest[1..]
  }

  /** `implode('__', parts)`; the empty list joins to the empty string. */
  function Join(parts: seq<string>): string
    decreases |parts|
  {
    if |parts| == 0 then ""
    else if |parts| == 1 then parts[0]
    else parts[0] + Sep + Join(parts[1..])
  }

  /** The number of non-overlapping occurrences of "__", counted from the left. */
  function Occurrences(s: string): nat
    decreases |s|
  {
    if |s| < 2 then 0
    else if s[0] == '_' && s[1] == '_' then 1 + Occurrences(s[2..])
    else Occurrences(s[1..])
  }

  /** Extending the first part by one character extends the join by that character. */
  lemma {:induction false} JoinConsFirst(c: char, rest: seq<string>)
    requires |rest| >= 1
    ensures Join([[c] + rest[0]] + rest[1..]) == [c] + Join(rest)
  {
    var first := [c] + rest[0];
    var parts := [first] + rest[1..];
    if |rest| == 1 {
      assert parts == [first];
    } else {
      assert parts[0] == first;
      assert parts[1..] == rest[1..];
      calc {
        Join(parts);
        first + Sep + Join(rest[1..]);
        [c] + (rest[0] + Sep + Join(rest[1..]));
        [c] + Join(rest);
      }
    }
  }

  /** Re-joining the parts of a token gives the token back. */
  lemma {:induction false} JoinSplit(s: string)
    ensures Join(Split(s)) == s
    decreases |s|
  {
    if |s| < 2 {
    } else if s[0] == '_' && s[1] == '_' {
      var rest := Split(s[2..]);
      JoinSplit(s[2..]);
      assert ([""] + rest)[1..] == rest;
      assert s == Sep + s[2..];
    } else {
      var rest := Split(s[1..]);
      JoinSplit(s[1..]);
      JoinConsFirst(s[0], rest);
      assert s == [s[0]] + s[1..];
    }
  }

  /** The number of parts is one more than the number of separators. */
  lemma {:induction false} SplitCount(s: string)
    ensures |Split(s)| == Occurrences(s) + 1
    decreases |s|
  {
    if |s| < 2 {
    } else if s[0] == '_' && s[1] == '_' {
      SplitCount(s[2..]);
    } else {
      SplitCount(s[1..]);
    }
  }

  /** Prepending a character c to a separator-free part keeps it separator-free
      unless c and the part's first character form the separator. */
  lemma ConsNoSep(c: char, p: string)
    requires !HasSep(p)
    requires !(c == '_' && |p| > 0 && p[0] == '_')
    ensures !HasSep([c] + p)
  {
    var q := [c] + p;
    forall i | 0 <= i
      ensures !SepAt(q, i)
    {
      if i > 0 && SepAt(q, i) {
        assert SepAt(p, i - 1);
      }
    }
  }

  /** An empty part in front of well-formed parts keeps them well-formed. */
  lemma WellFormedPrependEmpty(rest: seq<string>)
    requires WellFormedParts(rest)
    ensures WellFormedParts([""] + rest)
  {
    var parts := [""] + rest;
    assert !HasSep("");
    assert forall k :: 1 <= k < |parts| ==> parts[k] == rest[k - 1];
  }

  /** Prepending a character to the first of some well-formed parts keeps
      them well-formed, unless it completes a separator. */
  lemma WellFormedExtendFirst(c: char, rest: seq<string>)
    requires WellFormedParts(rest)
    requires !(c == '_' && |rest[0]| > 0 && rest[0][0] == '_')
    requires |rest| >= 2 && |rest[0]| == 0 ==> c != '_'
    ensures WellFormedParts([[c] + rest[0]] + rest[1..])
  {
    var first := [c] + rest[0];
    var parts := [first] + rest[1..];
    ConsNoSep(c, rest[0]);
    assert forall k :: 1 <= k < |parts| ==> parts[k] == rest[k];
    if |rest[0]| > 0 {
      assert first[|first| - 1] == rest[0][|rest[0]| - 1];
    }
  }

  /** Every result of Split has the shape WellFormedParts describes. */
  lemma {:induction false} SplitWellFormed(s: string)
    ensures WellFormedParts(Split(s))
    decreases |s|
  {
    if |s| < 2 {
      forall i | 0 <= i < |s|
        ensures !SepAt(s, i)
      {
      }
    } else if s[0] == '_' && s[1] == '_' {
      SplitWellFormed(s[2..]);
      WellFormedPrependEmpty(Split(s[2..]));
    } else {
      var rest := Split(s[1..]);
      SplitWellFormed(s[1..]);
      if |rest[0]| > 0 {
        assert rest[0][0] == s[1];
      }
      if |rest| >= 2 && |rest[0]| == 0 {
        // the separator follows the empty first part of s[1..], so s[1] == '_'
        assert SepAt(s[1..], 0);
      }
      WellFormedExtendFirst(s[0], rest);
    }
  }

  /** Dropping the first character keeps a part separator-free. */
  lemma NoSepTail(p: string)
    requires |p| > 0 && !HasSep(p)
    ensures !HasSep(p[1..])
  {
    forall i | 0 <= i < |p[1..]|
      ensures !SepAt(p[1..], i)
    {
      assert !SepAt(p, i + 1);
    }
  }

  /** A part without separator is exploded into itself. */
  lemma {:induction false} SplitSingle(p: string)
    requires !HasSep(p)
    ensures Split(p) == [p]
    decreases |p|
  {
    if |p| >= 2 {
      assert !SepAt(p, 0);
      NoSepTail(p);
      SplitSingle(p[1..]);
      assert p == [p[0]] + p[1..];
    }
  }

  /** A non-empty well-formed non-last part does not start the separator
      when followed by it. */
  lemma NoSepAtFront(p: string, t: string)
    requires |p| > 0 && !HasSep(p) && !EndsWithUnderscore(p)
    ensures !SepAt(p + Sep + t, 0)
  {
    var s := p + Sep + t;
    if |p| == 1 {
      assert s[0] == p[0] && p[0] != '_';
    } else {
      assert !SepAt(p, 0);
      assert s[0] == p[0] && s[1] == p[1];
    }
  }

  /** A well-formed non-last part followed by the separator is cut off as the first part. */
  lemma {:induction false} SplitPrefix(p: string, t: string)
    requires !HasSep(p) && !EndsWithUnderscore(p)
    ensures Split(p + Sep + t) == [p] + Split(t)
    decreases |p|
  {
    var s := p + Sep + t;
    if |p| == 0 {
      assert s == Sep + t;
      assert s[2..] == t;
    } else {
      var p' := p[1..];
      NoSepTail(p);
      assert !EndsWithUnderscore(p') by {
        if |p'| > 0 {
          assert p'[|p'| - 1] == p[|p| - 1];
        }
      }
      SplitPrefix(p', t);
      NoSepAtFront(p, t);
      assert s[1..] == p' + Sep + t;
      assert Split(s) == [[s[0]] + p'] + Split(t);
      assert [s[0]] + p' == p;
    }
  }

  /** Exploding the join of well-formed parts gives the parts back. */
  lemma {:induction false} SplitJoin(parts: seq<string>)
    requires WellFormedParts(parts)
    ensures Split(Join(parts)) == parts
    decreases |parts|
  {
    if |parts| == 1 {
      SplitSingle(parts[0]);
    } else {
      var tail := parts[1..];
      assert WellFormedParts(tail) by {
        forall k | 0 <= k < |tail|
          ensures !HasSep(tail[k])
        {
          assert tail[k] == parts[k + 1];
        }
        forall k | 0 <= k < |tail| - 1
          ensures !EndsWithUnderscore(tail[k])
        {
          assert tail[k] == parts[k + 1];
        }
      }
      SplitJoin(tail);
      SplitPrefix(parts[0], Join(tail));
      assert parts == [parts[0]] + tail;
    }
  }

  /** A token is one part exactly when it contains no separator. */
  lemma SplitOnePartIff(s: string)
    ensures |Split(s)| == 1 <==> !HasSep(s)
  {
    if !HasSep(s) {
      SplitSingle(s);
    } else {
      SplitCount(s);
      var i :| SepAt(s, i);
      OccurrencesPositive(s, i);
    }
  }

  /** A separator anywhere in s is counted at least once. */
  lemma {:induction false} OccurrencesPositive(s: string, i: int)
    requires SepAt(s, i)
    ensures Occurrences(s) >= 1
    decreases |s|
  {
    if s[0] == '_' && s[1] == '_' {
    } else {
      assert i >= 1;
      assert SepAt(s[1..], i - 1);
      OccurrencesPositive(s[1..], i - 1);
    }
  }
}
