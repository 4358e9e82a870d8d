/**
 * The string operations the viewer builds on, with the JavaScript meaning the
 * source relies on: `toLowerCase`, `startsWith`, `includes`, and `split` by a
 * one-character separator (with `parts[parts.length - 1]` and `parts[0]`).
 */
module Text {

  /** Lower-cases one character; only the ASCII letters A-Z change. */
  function LowerChar(c: char): char
  {
    if 'A' <= c <= 'Z' then (c as int + 32) as char else c
  }

  /** `s.toLowerCase()`, character by character. */
  function ToLower(s: string): (r: string)
    ensures |r| == |s|
    ensures forall i :: 0 <= i < |s| ==> r[i] == LowerChar(s[i])
  {
    seq(|s|, i requires 0 <= i < |s| => LowerChar(s[i]))
  }

  lemma ToLowerIdempotent(s: string)
    ensures ToLower(ToLower(s)) == ToLower(s)
  {
  }

  lemma ToLowerAppend(a: string, b: string)
    ensures ToLower(a + b) == ToLower(a) + ToLower(b)
  {
  }

  /** `s.startsWith(p)`. */
  predicate StartsWith(s: string, p: string)
  {
    |p| <= |s| && s[..|p|] == p
  }

  /** `sub` occurs in `s` at offset `i`. */
  predicate OccursAt(s: string, sub: string, i: int)
  {
    0 <= i && i + |sub| <= |s| && s[i..i + |sub|] == sub
  }

  /** `s.includes(sub)`. */
  predicate Contains(s: string, sub: string)
  {
    exists i | 0 <= i <= |s| - |sub| :: OccursAt(s, sub, i)
  }

  /** A string lacking one of the characters of `sub` does not contain `sub`. */
  lemma MissingCharNotContains(s: string, sub: string, k: nat)
    requires k < |sub| && sub[k] !in s
    ensures !Contains(s, sub)
  {
    forall i | 0 <= i <= |s| - |sub|
      ensures !OccursAt(s, sub, i)
    {
      assert s[i..i + |sub|][k] == s[i + k];
    }
  }

  lemma StartsWithContains(s: string, p: string)
    requires StartsWith(s, p)
    ensures Contains(s, p)
  {
    assert OccursAt(s, p, 0);
  }

  /** An occurrence survives lower-casing both strings. */
  lemma ContainsToLower(s: string, sub: string)
    requires Contains(s, sub)
    ensures Contains(ToLower(s), ToLower(sub))
  {
    var i :| 0 <= i <= |s| - |sub| && OccursAt(s, sub, i);
    assert ToLower(s)[i..i + |sub|] == ToLower(s[i..i + |sub|]);
    assert OccursAt(ToLower(s), ToLower(sub), i);
  }

  function Last<T>(xs: seq<T>): T
    requires |xs| > 0
  {
    xs[|xs| - 1]
  }

  /**
   * `s.split(sep)` for a one-character separator: the pieces between the
   * occurrences of `sep`, at least one piece, the empty string giving `[""]`.
   */
  function Split(s: string, sep: char): (parts: seq<string>)
    ensures |parts| >= 1
  {
    if |s| == 0 then [""]
    else
      var rest := Split(s[1..], sep);
      if s[0] == sep then [""] + rest
      else [[s[0]] + rest[0]] + rest[1..]
  }

  /** `parts.join(sep)`: the inverse of `Split`. */
  function Join(parts: seq<string>, sep: char): string
    requires |parts| >= 1
  {
    if |parts| == 1 then parts[0] else parts[0] + [sep] + Join(parts[1..], sep)
  }

  /** `s.split(sep)[0]`: the text before the first `sep`. */
  function FirstSegment(s: string, sep: char): string
  {
    Split(s, sep)[0]
  }

  /** `s.split(sep).pop()`: the text after the last `sep`. */
  function LastSegment(s: string, sep: char): string
  {
    Last(Split(s, sep))
  }

  /** Joining the pieces of a split gives back the original string. */
  lemma {:induction false} SplitJoin(s: string, sep: char)
    ensures Join(Split(s, sep), sep) == s
  {
    if |s| > 0 {
      var rest := Split(s[1..], sep);
      SplitJoin(s[1..], sep);
      if s[0] == sep {
        assert Split(s, sep)[1..] == rest;
      } else {
        var parts := Split(s, sep);
        assert parts[0] == [s[0]] + rest[0];
        if |rest| == 1 {
          assert Join(parts, sep) == [s[0]] + rest[0];
        } else {
          assert parts[1..] == rest[1..];
          assert Join(parts, sep) == [s[0]] + (rest[0] + [sep] + Join(rest[1..], sep));
        }
        assert s == [s[0]] + s[1..];
      }
    }
  }

  /** No piece of a split contains the separator. */
  lemma {:induction false} SplitPartsFree(s: string, sep: char)
    ensures forall k :: 0 <= k < |Split(s, sep)| ==> sep !in Split(s, sep)[k]
  {
    if |s| > 0 {
      SplitPartsFree(s[1..], sep);
    }
  }

  /** The text before the first separator is a prefix of `s` followed by `sep` or by the end. */
  lemma {:induction false} FirstSegmentIsPrefix(s: string, sep: char)
    ensures var f := FirstSegment(s, sep);
      && |f| <= |s| && s[..|f|] == f && sep !in f
      && (|f| < |s| ==> s[|f|] == sep)
      && (sep !in s ==> f == s)
  {
    if |s| > 0 && s[0] != sep {
      FirstSegmentIsPrefix(s[1..], sep);
      var r := FirstSegment(s[1..], sep);
      assert FirstSegment(s, sep) == [s[0]] + r;
      assert s[..1 + |r|] == [s[0]] + s[1..][..|r|];
    }
  }

  /** `s` splits into more than one piece exactly when it contains `sep`. */
  lemma {:induction false} SplitCount(s: string, sep: char)
    ensures |Split(s, sep)| > 1 <==> sep in s
  {
    if |s| > 0 {
      SplitCount(s[1..], sep);
      assert s == [s[0]] + s[1..];
    }
  }

  /**
   * The text after the last separator is a suffix of `s` preceded by `sep`,
   * or all of `s` when `sep` does not occur; `s` splits into more than one
   * piece exactly when it contains `sep`.
   */
  lemma {:induction false} LastSegmentIsSuffix(s: string, sep: char)
    ensures |Split(s, sep)| > 1 <==> sep in s
    ensures var l := LastSegment(s, sep);
      && |l| <= |s| && s[|s| - |l|..] == l && sep !in l
      && (sep in s ==> |l| < |s| && s[|s| - |l| - 1] == sep)
      && (sep !in s ==> l == s)
  {
    SplitCount(s, sep);
    if |s| > 0 {
      LastSegmentIsSuffix(s[1..], sep);
      var rest := Split(s[1..], sep);
      var l' := LastSegment(s[1..], sep);
      assert s[1..][|s| - 1 - |l'|..] == s[|s| - |l'|..];
      assert s == [s[0]] + s[1..];
      if s[0] == sep {
        assert LastSegment(s, sep) == l';
        if sep !in s[1..] {
          assert s[|s| - |l'| - 1] == s[0];
        }
      } else if |rest| == 1 {
        assert LastSegment(s, sep) == [s[0]] + rest[0];
      } else {
        assert LastSegment(s, sep) == l';
      }
    }
  }

  /** The text before the first `sep` of `p + q` is `p` when `p` has no `sep` and `q` starts with one or is empty. */
  lemma {:induction false} FirstSegmentOfConcat(p: string, q: string, sep: char)
    requires sep !in p
    requires q == [] || q[0] == sep
    ensures FirstSegment(p + q, sep) == p
  {
    if p != [] {
      assert (p + q)[1..] == p[1..] + q;
      FirstSegmentOfConcat(p[1..], q, sep);
      assert p == [p[0]] + p[1..];
    } else {
      assert p + q == q;
    }
  }

  /** The text after the last `sep` of `p + [sep] + l` is `l` when `l` has no `sep`. */
  lemma {:induction false} LastSegmentOfConcat(p: string, l: string, sep: char)
    requires sep !in l
    ensures LastSegment(p + [sep] + l, sep) == l
  {
    var s := p + [sep] + l;
    if p == [] {
      assert s[1..] == l;
      LastSegmentIsSuffix(l, sep);
    } else {
      assert s[1..] == p[1..] + [sep] + l;
      LastSegmentOfConcat(p[1..], l, sep);
      LastSegmentIsSuffix(s[1..], sep);
      assert sep in s[1..] by { assert s[1..][|p| - 1] == sep; }
    }
  }

  /** The text after the first `sep`, or `""` when there is none. */
  function AfterFirst(s: string, sep: char): (r: string)
    ensures sep in s ==> |FirstSegment(s, sep)| < |s| && r == s[|FirstSegment(s, sep)| + 1..]
  {
    FirstSegmentIsPrefix(s, sep);
    var f := FirstSegment(s, sep);
    if |f| < |s| then s[|f| + 1..] else ""
  }

  /** A string holding `sep` splits into its first segment and the pieces of the rest. */
  lemma {:induction false} SplitAfterFirst(s: string, sep: char)
    requires sep in s
    ensures Split(s, sep) == [FirstSegment(s, sep)] + Split(AfterFirst(s, sep), sep)
  {
    if s[0] != sep {
      assert sep in s[1..] by {
        var k :| 0 <= k < |s| && s[k] == sep;
        assert s[1..][k - 1] == sep;
      }
      SplitAfterFirst(s[1..], sep);
      var f' := FirstSegment(s[1..], sep);
      assert FirstSegment(s, sep) == [s[0]] + f';
      assert AfterFirst(s, sep) == AfterFirst(s[1..], sep);
    } else {
      assert AfterFirst(s, sep) == s[1..];
    }
  }

  /** The last segment is empty exactly when `s` is empty or ends with `sep`. */
  lemma LastSegmentEmpty(s: string, sep: char)
    ensures LastSegment(s, sep) == "" <==> s == "" || s[|s| - 1] == sep
  {
    LastSegmentIsSuffix(s, sep);
    var l := LastSegment(s, sep);
    if l != "" && s != "" {
      assert l[|l| - 1] == s[|s| - 1];
    }
  }

  /** Lower-cases every piece. */
  function LowerAll(parts: seq<string>): (r: seq<string>)
    ensures |r| == |parts|
    ensures forall k :: 0 <= k < |parts| ==> r[k] == ToLower(parts[k])
  {
    seq(|parts|, k requires 0 <= k < |parts| => ToLower(parts[k]))
  }

  /**
   * Splitting at a separator that is not a letter commutes with lower-casing:
   * the pieces of the lower-cased string are the lower-cased pieces.
   */
  lemma {:induction false} SplitToLower(s: string, sep: char)
    requires !('A' <= sep <= 'Z') && !('a' <= sep <= 'z')
    ensures Split(ToLower(s), sep) == LowerAll(Split(s, sep))
  {
    if |s| > 0 {
      SplitToLower(s[1..], sep);
      var rest := Split(s[1..], sep);
      assert ToLower(s)[1..] == ToLower(s[1..]);
      assert ToLower(s)[0] == sep <==> s[0] == sep;
      if s[0] != sep {
        assert ToLower([s[0]] + rest[0]) == [LowerChar(s[0])] + ToLower(rest[0]);
        assert LowerAll(rest)[1..] == LowerAll(rest[1..]);
      }
    }
  }

  /** The first piece and the last piece follow the same commutation. */
  lemma SegmentsToLower(s: string, sep: char)
    requires !('A' <= sep <= 'Z') && !('a' <= sep <= 'z')
    ensures FirstSegment(ToLower(s), sep) == ToLower(FirstSegment(s, sep))
    ensures LastSegment(ToLower(s), sep) == ToLower(LastSegment(s, sep))
    ensures |Split(ToLower(s), sep)| == |Split(s, sep)|
  {
    SplitToLower(s, sep);
  }
}
