/**
 * The handful of Python `str` operations the deployment code relies on:
 * `split` with an explicit one-character separator, `lower` (ASCII letters
 * only), `startswith`, `endswith` and the `in` substring test.
 */
module Strings {

  /** Python's `s.split(sep)`: the pieces between occurrences of `sep`, never an empty list. */
  function Split(s: string, sep: char): (parts: seq<string>)
    ensures |parts| >= 1
    ensures forall i :: 0 <= i < |parts| ==> sep !in parts[i]
    decreases |s|
  {
    if |s| == 0 then [""]
    else
      var rest := Split(s[1..], sep);
      if s[0] == sep then [""] + rest
      else [[s[0]] + rest[0]] + rest[1..]
  }

  /** Python's `sep.join(parts)`. */
  function Join(parts: seq<string>, sep: char): string
    requires |parts| >= 1
    decreases |parts|
  {
    if |parts| == 1 then parts[0] else parts[0] + [sep] + Join(parts[1..], sep)
  }

  /** The number of occurrences of `c` in `s`. */
  function Count(s: string, c: char): nat
    decreases |s|
  {
    if |s| == 0 then 0 else (if s[0] == c then 1 else 0) + Count(s[1..], c)
  }

  /** Joining the pieces of a split with the same separator gives back the original text. */
  lemma {:induction false} JoinSplit(s: string, sep: char)
    ensures Join(Split(s, sep), sep) == s
    decreases |s|
  {
    if |s| > 0 {
      JoinSplit(s[1..], sep);
      var rest := Split(s[1..], sep);
      if s[0] == sep {
        assert Split(s, sep) == [""] + rest;
        assert ([""] + rest)[1..] == rest;
      } else {
        var parts := [[s[0]] + rest[0]] + rest[1..];
        assert Split(s, sep) == parts;
        if |rest| == 1 {
          assert Join(parts, sep) == [s[0]] + rest[0];
        } else {
          assert parts[1..] == rest[1..];
          assert Join(rest, sep) == rest[0] + [sep] + Join(rest[1..], sep);
        }
      }
    }
  }

  /** A split yields one more piece than there are separators in the text. */
  lemma {:induction false} SplitLength(s: string, sep: char)
    ensures |Split(s, sep)| == Count(s, sep) + 1
    decreases |s|
  {
    if |s| > 0 {
      SplitLength(s[1..], sep);
    }
  }

  /** The last piece of `s.split(sep)`, i.e. `s.split(sep)[-1]`. */
  function LastSegment(s: string, sep: char): string
  {
    var parts := Split(s, sep);
    parts[|parts| - 1]
  }

  /** The last segment is a separator-free suffix of the text. */
  lemma {:induction false} LastSegmentIsSuffix(s: string, sep: char)
    ensures sep !in LastSegment(s, sep)
    ensures EndsWith(s, LastSegment(s, sep))
    decreases |s|
  {
    if |s| > 0 {
      LastSegmentIsSuffix(s[1..], sep);
      var rest := Split(s[1..], sep);
      var t := LastSegment(s[1..], sep);
      assert s == [s[0]] + s[1..];
      if s[0] == sep || |rest| > 1 {
        assert LastSegment(s, sep) == t;
        assert s[|s| - |t|..] == s[1..][|s[1..]| - |t|..];
      } else {
        assert LastSegment(s, sep) == [s[0]] + rest[0];
        JoinSplit(s[1..], sep);
        assert t == rest[0] == s[1..];
      }
    }
  }

  function LowerChar(c: char): char
  {
    if 'A' <= c <= 'Z' then (c as int - 'A' as int + 'a' as int) as char else c
  }

  /**
   * Python's `s.lower()`, restricted to ASCII letters: no upper-case letter
   * is left, and every other character is kept where it was.
   */
  function Lower(s: string): (r: string)
    ensures |r| == |s|
    ensures forall i :: 0 <= i < |r| ==> !('A' <= r[i] <= 'Z')
    ensures forall i :: 0 <= i < |s| && !('A' <= s[i] <= 'Z') ==> r[i] == s[i]
  {
    seq(|s|, i requires 0 <= i < |s| => LowerChar(s[i]))
  }

  /** Lowering twice is lowering once. */
  lemma LowerIdempotent(s: string)
    ensures Lower(Lower(s)) == Lower(s)
  {
    var r := Lower(s);
    forall i | 0 <= i < |r| ensures Lower(r)[i] == r[i] {
    }
  }

  /**
   * Two texts that differ only in the case of their letters lower to the
   * same text: any spelling of `Authorization` matches `authorization`.
   */
  lemma LowerIgnoresCase(s: string, t: string)
    requires |s| == |t|
    requires forall i :: 0 <= i < |s| ==> LowerChar(s[i]) == LowerChar(t[i])
    ensures Lower(s) == Lower(t)
  {
    forall i | 0 <= i < |s| ensures Lower(s)[i] == Lower(t)[i] {
    }
  }

  predicate StartsWith(s: string, prefix: string)
  {
    |prefix| <= |s| && s[..|prefix|] == prefix
  }

  predicate EndsWith(s: string, suffix: string)
  {
    |suffix| <= |s| && s[|s| - |suffix|..] == suffix
  }

  /** Python's `sub in s`. */
  predicate Contains(s: string, sub: string)
    decreases |s|
  {
    StartsWith(s, sub) || (|s| > 0 && Contains(s[1..], sub))
  }

  /** Nothing contains a longer text. */
  lemma {:induction false} ContainsLength(s: string, sub: string)
    requires Contains(s, sub)
    ensures |sub| <= |s|
    decreases |s|
  {
    if !StartsWith(s, sub) {
      ContainsLength(s[1..], sub);
    }
  }

  lemma NotContainsLonger(s: string, sub: string)
    requires |sub| > |s|
    ensures !Contains(s, sub)
  {
    if Contains(s, sub) {
      ContainsLength(s, sub);
    }
  }

  /** A text that starts with `mid` contains everything `mid` contains. */
  lemma {:induction false} PrefixContains(s: string, mid: string, sub: string)
    requires StartsWith(s, mid) && Contains(mid, sub)
    ensures Contains(s, sub)
    decreases |mid|
  {
    if StartsWith(mid, sub) {
      assert s[..|sub|] == mid[..|mid|][..|sub|];
    } else {
      assert s[1..][..|mid[1..]|] == mid[1..];
      PrefixContains(s[1..], mid[1..], sub);
    }
  }

  /** Substring containment is transitive. */
  lemma {:induction false} ContainsTransitive(s: string, mid: string, sub: string)
    requires Contains(s, mid) && Contains(mid, sub)
    ensures Contains(s, sub)
    decreases |s|
  {
    if StartsWith(s, mid) {
      PrefixContains(s, mid, sub);
    } else {
      ContainsTransitive(s[1..], mid, sub);
    }
  }

  /** Every text contains each of its suffixes. */
  lemma {:induction false} ContainsSuffix(s: string, prefix: string, suffix: string)
    requires s == prefix + suffix
    ensures Contains(s, suffix)
    decreases |prefix|
  {
    if |prefix| == 0 {
      assert s[..|suffix|] == suffix;
    } else {
      assert s[1..] == prefix[1..] + suffix;
      ContainsSuffix(s[1..], prefix[1..], suffix);
    }
  }
}
