/**
 * JavaScript strings as the four programs use them: sequences of UTF-16 code
 * units, with the handful of String.prototype operations they call (trim,
 * split on one character, join, toLowerCase, includes, startsWith, padStart).
 */
module JsText {
  /** A UTF-16 code unit, the value charCodeAt returns. */
  type CodeUnit = c: int | 0 <= c < 0x1_0000
  type JsString = seq<CodeUnit>

  /** The code units of a string literal (every literal here is ASCII). */
  function Units(s: string): JsString
  {
    seq(|s|, i requires 0 <= i < |s| => if s[i] as int < 0x1_0000 then s[i] as int else 0xFFFD)
  }

  // trim: the WhiteSpace and LineTerminator code points of ECMAScript
  // (sections 12.2 and 12.3 of ECMA-262), all of which are single code units.

  predicate IsSpace(c: CodeUnit)
  {
    c == 0x09 || c == 0x0B || c == 0x0C || c == 0x20 || c == 0xA0 || c == 0xFEFF
    || c == 0x1680 || (0x2000 <= c <= 0x200A) || c == 0x202F || c == 0x205F || c == 0x3000
    || c == 0x0A || c == 0x0D || c == 0x2028 || c == 0x2029
  }

  predicate AllSpace(s: JsString)
  {
    forall i :: 0 <= i < |s| ==> IsSpace(s[i])
  }

  /** Drops the leading white space: what is left is a suffix of s. */
  function TrimStart(s: JsString): (r: JsString)
    ensures |r| <= |s| && r == s[|s| - |r|..]
  {
    if |s| > 0 && IsSpace(s[0]) then TrimStart(s[1..]) else s
  }

  /** What TrimStart drops is white space, and what it keeps does not start with white space. */
  lemma {:induction false} TrimStartSpec(s: JsString)
    ensures AllSpace(s[..|s| - |TrimStart(s)|])
    ensures |TrimStart(s)| > 0 ==> !IsSpace(TrimStart(s)[0])
    decreases |s|
  {
    if |s| > 0 && IsSpace(s[0]) {
      var r := TrimStart(s[1..]);
      var k := |s| - |r|;
      assert TrimStart(s) == r;
      assert AllSpace(s[..k]) by {
        TrimStartSpec(s[1..]);
        forall i | 0 <= i < k
          ensures IsSpace(s[..k][i])
        {
          if i > 0 {
            assert s[..k][i] == s[1..][..k - 1][i - 1];
          }
        }
      }
      assert |r| > 0 ==> !IsSpace(r[0]) by {
        TrimStartSpec(s[1..]);
      }
    }
  }

  /** Drops the trailing white space: what is left is a prefix of s. */
  function TrimEnd(s: JsString): (r: JsString)
    ensures |r| <= |s| && r == s[..|r|]
  {
    if |s| > 0 && IsSpace(s[|s| - 1]) then TrimEnd(s[..|s| - 1]) else s
  }

  /** What TrimEnd drops is white space, and what it keeps does not end in white space. */
  lemma {:induction false} TrimEndSpec(s: JsString)
    ensures AllSpace(s[|TrimEnd(s)|..])
    ensures |TrimEnd(s)| > 0 ==> !IsSpace(TrimEnd(s)[|TrimEnd(s)| - 1])
    decreases |s|
  {
    if |s| > 0 && IsSpace(s[|s| - 1]) {
      var r := TrimEnd(s[..|s| - 1]);
      var k := |r|;
      assert TrimEnd(s) == r;
      assert AllSpace(s[k..]) by {
        TrimEndSpec(s[..|s| - 1]);
        forall i | 0 <= i < |s| - k
          ensures IsSpace(s[k..][i])
        {
          if i < |s| - 1 - k {
            assert s[k..][i] == s[..|s| - 1][k..][i];
          }
        }
      }
      assert k > 0 ==> !IsSpace(r[k - 1]) by {
        TrimEndSpec(s[..|s| - 1]);
      }
    }
  }

  /** String.prototype.trim. */
  function Trim(s: JsString): (r: JsString)
  {
    TrimEnd(TrimStart(s))
  }

  /** trim keeps a slice s[i..j] of its input, with only white space around it and none at its ends. */
  lemma TrimSlice(s: JsString)
    ensures exists i, j :: 0 <= i <= j <= |s| && Trim(s) == s[i..j] && AllSpace(s[..i]) && AllSpace(s[j..])
    ensures |Trim(s)| > 0 ==> !IsSpace(Trim(s)[0]) && !IsSpace(Trim(s)[|Trim(s)| - 1])
  {
    var t := TrimStart(s);
    var i := |s| - |t|;
    var m := |TrimEnd(t)|;
    TrimStartSpec(s);
    TrimEndSpec(t);
    SliceOfSuffix(s, i, m);
    assert t == s[i..];
    assert Trim(s) == s[i..i + m];
    assert t[m..] == s[i + m..];
    if m > 0 {
      assert Trim(s)[0] == t[0];
    }
  }

  lemma SliceOfSuffix(s: JsString, i: nat, m: nat)
    requires i + m <= |s|
    ensures s[i..][..m] == s[i..i + m] && s[i..][m..] == s[i + m..]
  {
  }

  lemma {:induction false} TrimStartPadded(w: JsString, s: JsString)
    requires AllSpace(w)
    ensures TrimStart(w + s) == TrimStart(s)
    decreases |w|
  {
    if |w| > 0 {
      assert (w + s)[1..] == w[1..] + s;
      TrimStartPadded(w[1..], s);
    } else {
      assert w + s == s;
    }
  }

  lemma {:induction false} TrimEndPadded(s: JsString, w: JsString)
    requires AllSpace(w)
    ensures TrimEnd(s + w) == TrimEnd(s)
    decreases |w|
  {
    if |w| > 0 {
      assert (s + w)[..|s + w| - 1] == s + w[..|w| - 1];
      TrimEndPadded(s, w[..|w| - 1]);
    } else {
      assert s + w == s;
    }
  }

  lemma AllSpaceTrimStart(s: JsString)
    requires AllSpace(s)
    ensures TrimStart(s) == []
  {
  }

  lemma TrimStartGone(s: JsString)
    requires |TrimStart(s)| == 0
    ensures AllSpace(s)
  {
    TrimStartSpec(s);
    assert s[..|s|] == s;
  }

  lemma AllSpaceAppend(s: JsString, w: JsString)
    requires AllSpace(s) && AllSpace(w)
    ensures AllSpace(s + w)
  {
    forall k | 0 <= k < |s + w|
      ensures IsSpace((s + w)[k])
    {
      if k < |s| {
        assert (s + w)[k] == s[k];
      } else {
        assert (s + w)[k] == w[k - |s|];
      }
    }
  }

  lemma TrimEndPaddedTail(s: JsString, w: JsString)
    requires AllSpace(w) && |TrimStart(s)| > 0
    ensures Trim(s + w) == Trim(s)
  {
    var t := TrimStart(s);
    var n := |s| - |t|;
    TrimStartSpec(s);
    assert s == s[..n] + t;
    Regroup(s[..n], t, w);
    TrimStartPadded(s[..n], t + w);
    assert (t + w)[0] == t[0];
    assert TrimStart(t + w) == t + w;
    TrimEndPadded(t, w);
  }

  lemma Regroup<T>(a: seq<T>, b: seq<T>, c: seq<T>)
    ensures (a + b) + c == a + (b + c)
  {
  }

  /** White space added around a string never changes what trim returns. */
  lemma TrimPadded(w1: JsString, s: JsString, w2: JsString)
    requires AllSpace(w1) && AllSpace(w2)
    ensures Trim(w1 + s + w2) == Trim(s)
  {
    Regroup(w1, s, w2);
    TrimStartPadded(w1, s + w2);
    if |TrimStart(s)| > 0 {
      TrimEndPaddedTail(s, w2);
    } else {
      TrimStartGone(s);
      AllSpaceAppend(s, w2);
      AllSpaceTrimStart(s + w2);
    }
  }

  lemma TrimIdempotent(s: JsString)
    ensures Trim(Trim(s)) == Trim(s)
  {
    var r := Trim(s);
    TrimStartSpec(s);
    TrimEndSpec(TrimStart(s));
    if |r| > 0 {
      assert !IsSpace(r[0]);
      assert TrimStart(r) == r;
    }
  }

  /** trim gives the empty string exactly when the input is all white space. */
  lemma TrimEmpty(s: JsString)
    ensures Trim(s) == [] <==> AllSpace(s)
  {
    var t := TrimStart(s);
    var n := |s| - |t|;
    TrimStartSpec(s);
    TrimEndSpec(t);
    if Trim(s) == [] {
      assert t[0..] == t;
      assert |t| == 0;
      forall k | 0 <= k < |s|
        ensures IsSpace(s[k])
      {
        assert s[k] == s[..n][k];
      }
    } else if AllSpace(s) {
      AllSpaceTrimStart(s);
    }
  }

  // split with a separator of one code unit, and join.

  /**
   * String.prototype.split(sep) for a one-unit separator: the pieces between
   * the separators, one more piece than there are separators.
   */
  function Split(s: JsString, sep: CodeUnit): (parts: seq<JsString>)
    ensures |parts| >= 1
  {
    if |s| == 0 then [[]]
    else
      assert s == [s[0]] + s[1..];
      var rest := Split(s[1..], sep);
      if s[0] == sep then [[]] + rest else [[s[0]] + rest[0]] + rest[1..]
  }

  /** Array.prototype.join(sep). */
  function Join(parts: seq<JsString>, sep: CodeUnit): (r: JsString)
  {
    if |parts| == 0 then []
    else if |parts| == 1 then parts[0]
    else parts[0] + [sep] + Join(parts[1..], sep)
  }

  lemma JoinCons(p: JsString, parts: seq<JsString>, sep: CodeUnit)
    requires |parts| > 0
    ensures Join([p] + parts, sep) == p + [sep] + Join(parts, sep)
  {
    assert ([p] + parts)[1..] == parts;
  }

  /** Joining the pieces with the separator gives back the string that was split. */
  lemma {:induction false} JoinSplit(s: JsString, sep: CodeUnit)
    ensures Join(Split(s, sep), sep) == s
    decreases |s|
  {
    if |s| > 0 {
      var rest := Split(s[1..], sep);
      JoinSplit(s[1..], sep);
      if s[0] == sep {
        JoinCons([], rest, sep);
      } else if |rest| > 1 {
        var r0, tl := rest[0], rest[1..];
        assert rest == [r0] + tl;
        JoinCons(r0, tl, sep);
        assert Split(s, sep) == [[s[0]] + r0] + tl;
        JoinCons([s[0]] + r0, tl, sep);
      }
      assert s == [s[0]] + s[1..];
    }
  }

  /** Splitting a join of pieces free of the separator gives back the pieces. */
  lemma {:induction false} SplitJoin(parts: seq<JsString>, sep: CodeUnit)
    requires |parts| >= 1 && forall k :: 0 <= k < |parts| ==> sep !in parts[k]
    ensures Split(Join(parts, sep), sep) == parts
    decreases |parts|, |parts[0]|
  {
    var p := parts[0];
    if |p| > 0 {
      var parts' := [p[1..]] + parts[1..];
      SplitJoin(parts', sep);
      assert Join(parts', sep) == Join(parts, sep)[1..] by {
        if |parts| > 1 {
          JoinCons(p[1..], parts[1..], sep);
          JoinCons(p, parts[1..], sep);
        }
      }
      assert p == [p[0]] + p[1..];
      assert parts == [[p[0]] + parts'[0]] + parts'[1..];
    } else if |parts| > 1 {
      SplitJoin(parts[1..], sep);
      JoinCons(p, parts[1..], sep);
      assert Join(parts, sep)[1..] == Join(parts[1..], sep);
      assert parts == [[]] + parts[1..];
    }
  }

  /** A separator between two strings splits into the pieces of each. */
  lemma {:induction false} SplitAroundSep(a: JsString, b: JsString, sep: CodeUnit)
    ensures Split(a + [sep] + b, sep) == Split(a, sep) + Split(b, sep)
    decreases |a|
  {
    var t := a + [sep] + b;
    if |a| == 0 {
      assert t == [sep] + b;
      assert t[1..] == b;
    } else {
      assert t[1..] == a[1..] + [sep] + b && t[0] == a[0];
      SplitAroundSep(a[1..], b, sep);
      var x, y := Split(a[1..], sep), Split(b, sep);
      assert Split(t[1..], sep) == x + y;
      if a[0] == sep {
        assert Split(t, sep) == [[]] + (x + y);
        Regroup([[]], x, y);
      } else {
        assert (x + y)[0] == x[0];
        assert (x + y)[1..] == x[1..] + y;
        assert Split(t, sep) == [[a[0]] + x[0]] + (x[1..] + y);
        Regroup([[a[0]] + x[0]], x[1..], y);
      }
    }
  }

  /** The pieces that are not empty, in order: `filter(p => p)` on the result of split. */
  function NonEmpty(parts: seq<JsString>): (r: seq<JsString>)
    ensures |r| <= |parts|
    ensures forall k :: 0 <= k < |r| ==> r[k] != [] && r[k] in parts
    ensures forall p :: p in parts && p != [] ==> p in r
  {
    if |parts| == 0 then []
    else if parts[0] == [] then NonEmpty(parts[1..])
    else [parts[0]] + NonEmpty(parts[1..])
  }

  lemma {:induction false} NonEmptyAppend(x: seq<JsString>, y: seq<JsString>)
    ensures NonEmpty(x + y) == NonEmpty(x) + NonEmpty(y)
    decreases |x|
  {
    if |x| == 0 {
      assert x + y == y;
    } else {
      assert (x + y)[1..] == x[1..] + y;
      NonEmptyAppend(x[1..], y);
    }
  }

  lemma {:induction false} NonEmptyKeepsAll(parts: seq<JsString>)
    requires forall k :: 0 <= k < |parts| ==> parts[k] != []
    ensures NonEmpty(parts) == parts
    decreases |parts|
  {
    if |parts| > 0 {
      NonEmptyKeepsAll(parts[1..]);
    }
  }

  // toLowerCase, on the ASCII letters.

  function LowerUnit(c: CodeUnit): CodeUnit
  {
    if 0x41 <= c <= 0x5A then c + 0x20 else c
  }

  function ToLower(s: JsString): (r: JsString)
    ensures |r| == |s|
    ensures forall i :: 0 <= i < |s| ==> r[i] == LowerUnit(s[i])
  {
    seq(|s|, i requires 0 <= i < |s| => LowerUnit(s[i]))
  }

  lemma ToLowerIdempotent(s: JsString)
    ensures ToLower(ToLower(s)) == ToLower(s)
    ensures forall i :: 0 <= i < |s| ==> !(0x41 <= ToLower(s)[i] <= 0x5A)
  {
  }

  // includes and startsWith.

  /** t occurs in s at position i. */
  predicate OccursAt(s: JsString, t: JsString, i: nat)
  {
    i + |t| <= |s| && s[i..i + |t|] == t
  }

  /** String.prototype.includes: t occurs somewhere in s. */
  predicate Includes(s: JsString, t: JsString)
  {
    exists i :: 0 <= i <= |s| - |t| && OccursAt(s, t, i)
  }

  function StartsWith(s: JsString, c: CodeUnit): bool
  {
    |s| > 0 && s[0] == c
  }

  // padStart and the decimal form of a number.

  /** String.prototype.padStart(n): spaces in front of s up to length n. */
  function PadStart(s: JsString, n: nat): (r: JsString)
    ensures |r| == if |s| < n then n else |s|
    ensures r[|r| - |s|..] == s
    ensures forall i :: 0 <= i < |r| - |s| ==> r[i] == 0x20
    ensures AllSpace(r[..|r| - |s|])
  {
    if |s| >= n then s else seq(n - |s|, _ => 0x20) + s
  }

  /** Padding only adds white space in front, which trim takes away again. */
  lemma PadStartTrim(s: JsString, n: nat)
    ensures Trim(PadStart(s, n)) == Trim(s)
  {
    var r := PadStart(s, n);
    var w := r[..|r| - |s|];
    assert r == w + s + [];
    TrimPadded(w, s, []);
  }

  predicate IsDigit(c: CodeUnit) { 0x30 <= c <= 0x39 }

  /** String(n) for a natural number: its decimal digits, without leading zeros. */
  function Decimal(n: nat): (r: JsString)
    ensures |r| > 0 && forall i :: 0 <= i < |r| ==> IsDigit(r[i])
    ensures n > 0 ==> r[0] != 0x30
  {
    if n < 10 then [0x30 + n] else Decimal(n / 10) + [0x30 + n % 10]
  }

  /** The number a string of decimal digits stands for. */
  function DigitsValue(s: JsString): nat
    requires forall i :: 0 <= i < |s| ==> IsDigit(s[i])
  {
    if |s| == 0 then 0
    else
      assert IsDigit(s[|s| - 1]);
      10 * DigitsValue(s[..|s| - 1]) + (s[|s| - 1] as int - 0x30)
  }

  /** Reading the decimal form back gives the number. */
  lemma {:induction false} DecimalValue(n: nat)
    ensures DigitsValue(Decimal(n)) == n
    decreases n
  {
    if n >= 10 {
      DecimalValue(n / 10);
      var r := Decimal(n);
      assert r[..|r| - 1] == Decimal(n / 10);
    }
  }
}
