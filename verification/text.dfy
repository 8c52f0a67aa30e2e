/**
 * The string operations the portfolio script relies on: `str.lower`, the
 * `in` substring test, `str.split` on one character and `str.join`.
 * Strings are sequences of characters; lower-casing is restricted to ASCII.
 */
module Text {

  /** An ASCII capital letter. */
  predicate IsUpper(c: char)
  {
    'A' <= c <= 'Z'
  }

  /** `str.lower` on one character, for the ASCII letters only. */
  function LowerChar(c: char): char
  {
    if IsUpper(c) then (c as int + 32) as char else c
  }

  /** `str.lower`: every ASCII capital replaced by its small letter, nothing else touched. */
  function Lower(s: string): (r: string)
    ensures |r| == |s|
    ensures forall i :: 0 <= i < |r| ==> !IsUpper(r[i])
    ensures forall i :: 0 <= i < |s| && IsUpper(s[i]) ==> r[i] as int == s[i] as int + 32 && 'a' <= r[i] <= 'z'
    ensures forall i :: 0 <= i < |s| && !IsUpper(s[i]) ==> r[i] == s[i]
    ensures forall i :: 0 <= i < |s| ==> r[i] == LowerChar(s[i])
  {
    seq(|s|, i requires 0 <= i < |s| => LowerChar(s[i]))
  }

  /** Lower-casing twice is lower-casing once. */
  lemma LowerIdempotent(s: string)
    ensures Lower(Lower(s)) == Lower(s)
  {
  }

  predicate StartsWith(s: string, prefix: string)
  {
    |prefix| <= |s| && s[..|prefix|] == prefix
  }

  /** Python's `part in s`: `part` occurs somewhere in `s` (the empty string occurs everywhere). */
  predicate Contains(s: string, part: string)
    decreases |s|
  {
    StartsWith(s, part) || (|s| > 0 && Contains(s[1..], part))
  }

  /** `part` occurs in `s` starting at index `i`. */
  predicate OccursAt(s: string, part: string, i: int)
  {
    0 <= i && i + |part| <= |s| && s[i..i + |part|] == part
  }

  /** The recursive test agrees with "there is a position where `part` occurs", both ways. */
  lemma {:induction false} ContainsIffOccurs(s: string, part: string)
    ensures Contains(s, part) <==> exists i :: OccursAt(s, part, i)
    decreases |s|
  {
    if Contains(s, part) {
      if StartsWith(s, part) {
        assert OccursAt(s, part, 0);
      } else {
        ContainsIffOccurs(s[1..], part);
        var i :| OccursAt(s[1..], part, i);
        assert s[1..][i..i + |part|] == s[i + 1..i + 1 + |part|];
        assert OccursAt(s, part, i + 1);
      }
    }
    if exists i :: OccursAt(s, part, i) {
      var i :| OccursAt(s, part, i);
      if i == 0 {
        assert StartsWith(s, part);
      } else {
        assert s[1..][i - 1..i - 1 + |part|] == s[i..i + |part|];
        assert OccursAt(s[1..], part, i - 1);
        ContainsIffOccurs(s[1..], part);
      }
    }
  }

  /** Only a string no longer than `s` can occur in it. */
  lemma ContainsFits(s: string, part: string)
    requires Contains(s, part)
    ensures |part| <= |s|
  {
  }
  /** Whatever stands between two strings occurs in their concatenation. */
  lemma ContainsInfix(a: string, b: string, c: string)
    ensures Contains(a + b + c, b)
  {
    var s := a + b + c;
    assert s[|a|..|a| + |b|] == b;
    assert OccursAt(s, b, |a|);
    ContainsIffOccurs(s, b);
  }

  /** Python's `s.split(sep)` for a one-character separator: never empty, no piece holds `sep`. */
  function SplitOn(s: string, sep: char): (parts: seq<string>)
    ensures |parts| >= 1
    ensures forall k :: 0 <= k < |parts| ==> sep !in parts[k]
  {
    if |s| == 0 then [""]
    else
      var rest := SplitOn(s[1..], sep);
      if s[0] == sep then [""] + rest
      else [[s[0]] + rest[0]] + rest[1..]
  }

  /** Python's `sep.join(parts)`: the first piece leads, and every piece and separator is kept. */
  function Join(parts: seq<string>, sep: string): (r: string)
    ensures |parts| > 0 ==> StartsWith(r, parts[0])
    ensures |parts| > 0 ==> |r| >= |parts[0]| + (|parts| - 1) * |sep|
  {
    if |parts| == 0 then ""
    else if |parts| == 1 then parts[0]
    else parts[0] + sep + Join(parts[1..], sep)
  }

  /** Joining the pieces of a split with the same separator gives back the original string. */
  lemma {:induction false} JoinSplit(s: string, sep: char)
    ensures Join(SplitOn(s, sep), [sep]) == s
  {
    if |s| > 0 {
      var rest := SplitOn(s[1..], sep);
      JoinSplit(s[1..], sep);
      if s[0] == sep {
        assert SplitOn(s, sep) == [""] + rest;
        assert s == [sep] + s[1..];
      } else {
        var parts := SplitOn(s, sep);
        assert parts == [[s[0]] + rest[0]] + rest[1..];
        if |rest| == 1 {
          assert s == [s[0]] + s[1..];
        } else {
          assert parts[1..] == rest[1..];
          assert Join(rest, [sep]) == rest[0] + [sep] + Join(rest[1..], [sep]);
          assert s == [s[0]] + s[1..];
        }
      }
    }
  }

  /** Splitting `w + t`, when `w` holds no separator, glues `w` onto the first piece of `t`. */
  lemma {:induction false} SplitPrefix(w: string, t: string, sep: char)
    requires sep !in w
    ensures var rest := SplitOn(t, sep);
            SplitOn(w + t, sep) == [w + rest[0]] + rest[1..]
  {
    if |w| == 0 {
      var rest := SplitOn(t, sep);
      assert w + t == t && w + rest[0] == rest[0];
      assert rest == [rest[0]] + rest[1..];
    } else {
      var rest := SplitOn(t, sep);
      SplitPrefix(w[1..], t, sep);
      assert (w + t)[0] == w[0] && w[0] != sep;
      assert (w + t)[1..] == w[1..] + t;
      var inner := SplitOn(w[1..] + t, sep);
      assert inner == [w[1..] + rest[0]] + rest[1..];
      assert SplitOn(w + t, sep) == [[w[0]] + inner[0]] + inner[1..];
      assert [w[0]] + (w[1..] + rest[0]) == w + rest[0];
    }
  }

  /** A string without the separator splits into itself alone. */
  lemma SplitWithoutSeparator(w: string, sep: char)
    requires sep !in w
    ensures SplitOn(w, sep) == [w]
  {
    SplitPrefix(w, "", sep);
    assert w + "" == w;
  }

  /** Splitting a join gives back the pieces, as long as no piece holds the separator. */
  lemma {:induction false} SplitJoin(parts: seq<string>, sep: char)
    requires |parts| >= 1
    requires forall k :: 0 <= k < |parts| ==> sep !in parts[k]
    ensures SplitOn(Join(parts, [sep]), sep) == parts
  {
    if |parts| == 1 {
      SplitWithoutSeparator(parts[0], sep);
    } else {
      var tail := Join(parts[1..], [sep]);
      SplitJoin(parts[1..], sep);
      SplitPrefix(parts[0], [sep] + tail, sep);
      assert ([sep] + tail)[1..] == tail;
      assert Join(parts, [sep]) == parts[0] + ([sep] + tail);
      assert SplitOn([sep] + tail, sep) == [""] + SplitOn(tail, sep);
      assert parts[0] + "" == parts[0];
      assert parts == [parts[0]] + parts[1..];
    }
  }
}
