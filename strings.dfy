/**
 * Python string operations the core relies on, over `string` (a sequence of
 * Unicode scalar values): `in` between strings, `startswith`, `split` on one
 * character, `strip`, `rstrip` of one character, `join`, ASCII `lower` and the
 * decimal text of an integer.
 */
module Strings {

  /** Python `t in s` for two strings: `t` occurs in `s` at some offset. */
  predicate Contains(s: string, t: string)
    decreases |s|
  {
    t <= s || (|s| > 0 && Contains(s[1..], t))
  }

  /** The offset view of `Contains`: `t` occurs at offset `k`. */
  predicate OccursAt(s: string, t: string, k: nat)
  {
    k + |t| <= |s| && s[k..k + |t|] == t
  }

  /** `Contains` agrees with the offset view in both directions. */
  lemma ContainsIffOccurs(s: string, t: string)
    ensures Contains(s, t) <==> exists k: nat :: OccursAt(s, t, k)
  {
    if Contains(s, t) {
      var k := ContainsWitness(s, t);
    }
    forall k: nat | OccursAt(s, t, k) ensures Contains(s, t) {
      OccursContains(s, t, k);
    }
  }

  lemma {:induction false} ContainsWitness(s: string, t: string) returns (k: nat)
    requires Contains(s, t)
    ensures OccursAt(s, t, k)
    decreases |s|
  {
    if t <= s {
      assert s[0..|t|] == t;
      k := 0;
    } else {
      var j := ContainsWitness(s[1..], t);
      assert s[j + 1..j + 1 + |t|] == s[1..][j..j + |t|];
      k := j + 1;
    }
  }

  lemma {:induction false} OccursContains(s: string, t: string, k: nat)
    requires OccursAt(s, t, k)
    ensures Contains(s, t)
    decreases k
  {
    if k == 0 {
      assert s[..|t|] == t;
    } else {
      var tail := s[1..];
      assert tail[k - 1..k - 1 + |t|] == s[k..k + |t|];
      OccursContains(tail, t, k - 1);
    }
  }

  /** A string occurs in any string that has it as a middle part. */
  lemma {:induction false} ContainsMiddle(a: string, t: string, b: string)
    ensures Contains(a + t + b, t)
    decreases |a|
  {
    if a == [] {
      assert a + t + b == t + b;
      assert t <= t + b;
    } else {
      assert (a + t + b)[1..] == a[1..] + t + b;
      ContainsMiddle(a[1..], t, b);
    }
  }

  /** A string never occurs in a shorter one (unless it is empty). */
  lemma {:induction false} ShorterNotContains(s: string, t: string)
    requires |s| < |t|
    ensures !Contains(s, t)
    decreases |s|
  {
    if |s| > 0 {
      ShorterNotContains(s[1..], t);
    }
  }

  /**
   * If the first character of `t` does not occur in `a`, an occurrence of `t`
   * in `a + b` lies in `b`.
   */
  lemma {:induction false} NotContainsAfterPrefix(a: string, b: string, t: string)
    requires |t| > 0 && t[0] !in a
    requires !Contains(b, t)
    ensures !Contains(a + b, t)
    decreases |a|
  {
    if a == [] {
      assert a + b == b;
    } else {
      assert (a + b)[0] == a[0];
      assert !(t <= a + b);
      assert (a + b)[1..] == a[1..] + b;
      NotContainsAfterPrefix(a[1..], b, t);
    }
  }

  /** A string occurring in `b` occurs in `a + b`. */
  lemma {:induction false} ContainsAppendLeft(a: string, b: string, t: string)
    requires Contains(b, t)
    ensures Contains(a + b, t)
    decreases |a|
  {
    if a != [] {
      assert (a + b)[1..] == a[1..] + b;
      ContainsAppendLeft(a[1..], b, t);
    } else {
      assert a + b == b;
    }
  }

  /** When the first character of `t` is not in `a`, `t` occurs in `a + b` iff it occurs in `b`. */
  lemma ContainsAfterPrefix(a: string, b: string, t: string)
    requires |t| > 0 && t[0] !in a
    ensures Contains(a + b, t) <==> Contains(b, t)
  {
    if Contains(b, t) {
      ContainsAppendLeft(a, b, t);
    } else {
      NotContainsAfterPrefix(a, b, t);
    }
  }

  /** A string whose first character is absent from `s` does not occur in `s`. */
  lemma FirstCharAbsent(s: string, t: string)
    requires |t| > 0 && t[0] !in s
    ensures !Contains(s, t)
  {
    ShorterNotContains([], t);
    assert s + [] == s;
    NotContainsAfterPrefix(s, [], t);
  }

  /** Python `str.lower()` restricted to ASCII letters. */
  function LowerChar(c: char): (r: char)
    ensures 'A' <= c <= 'Z' ==> r as int == c as int + 32
    ensures !('A' <= c <= 'Z') ==> r == c
  {
    if 'A' <= c <= 'Z' then (c as int + 32) as char else c
  }

  function Lower(s: string): (r: string)
    ensures |r| == |s|
    ensures forall i :: 0 <= i < |s| ==> r[i] == LowerChar(s[i])
  {
    if s == [] then [] else [LowerChar(s[0])] + Lower(s[1..])
  }

  function UpperChar(c: char): (r: char)
    ensures 'a' <= c <= 'z' ==> r as int == c as int - 32
    ensures !('a' <= c <= 'z') ==> r == c
  {
    if 'a' <= c <= 'z' then (c as int - 32) as char else c
  }

  /** Python `str.upper()` restricted to ASCII letters. */
  function Upper(s: string): (r: string)
    ensures |r| == |s|
    ensures forall i :: 0 <= i < |s| ==> r[i] == UpperChar(s[i])
  {
    if s == [] then [] else [UpperChar(s[0])] + Upper(s[1..])
  }

  /** Characters for which Python's `str.isspace()` holds: those `str.strip()` removes. */
  predicate IsSpace(c: char)
  {
    || ('\t' <= c <= '\r')
    || ('\U{1C}' <= c <= ' ')
    || c == '\U{85}' || c == '\U{A0}' || c == '\U{1680}'
    || ('\U{2000}' <= c <= '\U{200A}')
    || c == '\U{2028}' || c == '\U{2029}' || c == '\U{202F}' || c == '\U{205F}' || c == '\U{3000}'
  }

  function LStrip(s: string): (r: string)
    ensures r <= s || (exists k :: 0 <= k <= |s| && r == s[k..])
    ensures r != [] ==> !IsSpace(r[0])
    decreases |s|
  {
    if s != [] && IsSpace(s[0]) then LStrip(s[1..]) else s
  }

  function RStrip(s: string): (r: string)
    ensures r <= s
    ensures r != [] ==> !IsSpace(r[|r| - 1])
    decreases |s|
  {
    if s != [] && IsSpace(s[|s| - 1]) then RStrip(s[..|s| - 1]) else s
  }

  /** Python `str.strip()`: no whitespace at either end. */
  function Strip(s: string): (r: string)
    ensures r != [] ==> !IsSpace(r[0]) && !IsSpace(r[|r| - 1])
  {
    RStrip(LStrip(s))
  }

  /** Stripping leading whitespace keeps every occurrence of a word that does not start with whitespace. */
  lemma {:induction false} LStripContains(s: string, t: string)
    requires t != [] && !IsSpace(t[0])
    ensures Contains(LStrip(s), t) <==> Contains(s, t)
    decreases |s|
  {
    if s != [] && IsSpace(s[0]) {
      assert t[0] != s[0];
      LStripContains(s[1..], t);
    }
  }

  /** Dropping a trailing whitespace character keeps every occurrence of a word that does not end with whitespace. */
  lemma DropSpaceContains(s: string, t: string)
    requires t != [] && !IsSpace(t[|t| - 1])
    requires s != [] && IsSpace(s[|s| - 1])
    ensures Contains(s[..|s| - 1], t) <==> Contains(s, t)
  {
    var p := s[..|s| - 1];
    if Contains(s, t) {
      var k := ContainsWitness(s, t);
      assert t[|t| - 1] == s[k + |t| - 1];
      assert k + |t| < |s|;
      assert p[k..k + |t|] == s[k..k + |t|];
      OccursContains(p, t, k);
    }
    if Contains(p, t) {
      var k := ContainsWitness(p, t);
      assert s[k..k + |t|] == p[k..k + |t|];
      OccursContains(s, t, k);
    }
  }

  /** Stripping trailing whitespace keeps every occurrence of a word that does not end with whitespace. */
  lemma {:induction false} RStripContains(s: string, t: string)
    requires t != [] && !IsSpace(t[|t| - 1])
    ensures Contains(RStrip(s), t) <==> Contains(s, t)
    decreases |s|
  {
    if s != [] && IsSpace(s[|s| - 1]) {
      DropSpaceContains(s, t);
      RStripContains(s[..|s| - 1], t);
    }
  }

  /** `t in s.strip()` is `t in s` for a word that neither starts nor ends with whitespace. */
  lemma StripContains(s: string, t: string)
    requires t != [] && !IsSpace(t[0]) && !IsSpace(t[|t| - 1])
    ensures Contains(Strip(s), t) <==> Contains(s, t)
  {
    LStripContains(s, t);
    RStripContains(LStrip(s), t);
  }

  /** Python `s.rstrip(c)`: drop every trailing `c`. */
  function RStripChar(s: string, c: char): (r: string)
    ensures r <= s
    ensures r != [] ==> r[|r| - 1] != c
    ensures forall i :: |r| <= i < |s| ==> s[i] == c
    decreases |s|
  {
    if s != [] && s[|s| - 1] == c then RStripChar(s[..|s| - 1], c) else s
  }

  /** Python `s.split(sep)` for a one-character separator: never empty. */
  function Split(s: string, sep: char): (parts: seq<string>)
    ensures |parts| >= 1
    ensures forall i :: 0 <= i < |parts| ==> sep !in parts[i]
    decreases |s|
  {
    if s == [] then [[]]
    else
      var rest := Split(s[1..], sep);
      if s[0] == sep then [[]] + rest
      else [[s[0]] + rest[0]] + rest[1..]
  }

  /** Python `sep.join(parts)`. */
  function Join(parts: seq<string>, sep: string): (r: string)
  {
    if parts == [] then []
    else if |parts| == 1 then parts[0]
    else parts[0] + sep + Join(parts[1..], sep)
  }

  /** Splitting and joining with the same separator gives back the string. */
  lemma {:induction false} JoinSplit(s: string, sep: char)
    ensures Join(Split(s, sep), [sep]) == s
    decreases |s|
  {
    if s != [] {
      var rest := Split(s[1..], sep);
      JoinSplit(s[1..], sep);
      if s[0] == sep {
        assert Split(s, sep) == [[]] + rest;
      } else {
        var parts := Split(s, sep);
        assert parts == [[s[0]] + rest[0]] + rest[1..];
        if |rest| == 1 {
          assert Join(rest, [sep]) == rest[0];
        } else {
          assert Join(rest, [sep]) == rest[0] + [sep] + Join(rest[1..], [sep]);
          assert parts[1..] == rest[1..];
        }
      }
    }
  }

  /** Joining separator-free parts and splitting again gives back the parts. */
  lemma {:induction false} SplitJoin(parts: seq<string>, sep: char)
    requires |parts| >= 1
    requires forall i :: 0 <= i < |parts| ==> sep !in parts[i]
    ensures Split(Join(parts, [sep]), sep) == parts
    decreases |parts|, |parts[0]|
  {
    if |parts| == 1 {
      SplitNoSep(parts[0], sep);
    } else if parts[0] == [] {
      var tail := Join(parts[1..], [sep]);
      assert Join(parts, [sep]) == [sep] + tail;
      assert ([sep] + tail)[1..] == tail;
      SplitJoin(parts[1..], sep);
      assert parts == [[]] + parts[1..];
    } else {
      var c := parts[0][0];
      var shorter := [parts[0][1..]] + parts[1..];
      assert forall i :: 0 <= i < |shorter| ==> sep !in shorter[i] by {
        forall i | 0 <= i < |shorter| ensures sep !in shorter[i] {
          if i > 0 { assert shorter[i] == parts[i]; }
        }
      }
      SplitJoin(shorter, sep);
      var whole := Join(parts, [sep]);
      assert whole == [c] + Join(shorter, [sep]) by {
        assert parts[0] == [c] + parts[0][1..];
        assert shorter[1..] == parts[1..];
      }
      assert c != sep by { assert c == parts[0][0]; }
      SplitCons(c, Join(shorter, [sep]), sep);
      assert [c] + shorter[0] == parts[0];
      assert shorter[1..] == parts[1..];
      assert parts == [parts[0]] + parts[1..];
    }
  }

  /** A leading character other than the separator joins the first part. */
  lemma SplitCons(c: char, rest: string, sep: char)
    requires c != sep
    ensures Split([c] + rest, sep) == [[c] + Split(rest, sep)[0]] + Split(rest, sep)[1..]
  {
    assert ([c] + rest)[1..] == rest;
  }

  lemma {:induction false} SplitNoSep(s: string, sep: char)
    requires sep !in s
    ensures Split(s, sep) == [s]
    decreases |s|
  {
    if s != [] {
      SplitNoSep(s[1..], sep);
      assert [s[0]] + s[1..] == s;
    }
  }

  /** Python `str(n)` for an integer: optional minus sign, then decimal digits. */
  function IntToString(n: int): (r: string)
    ensures r != []
  {
    if n < 0 then "-" + NatToString(-n) else NatToString(n)
  }

  function NatToString(n: nat): (r: string)
    ensures r != []
    ensures forall i :: 0 <= i < |r| ==> '0' <= r[i] <= '9'
    decreases n
  {
    if n < 10 then [DigitChar(n)] else NatToString(n / 10) + [DigitChar(n % 10)]
  }

  function DigitChar(d: nat): (c: char)
    requires d < 10
    ensures '0' <= c <= '9' && c as int - '0' as int == d
  {
    ('0' as int + d) as char
  }
}
