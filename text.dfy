/** String helpers with Python's meaning: str.split with a one-character
    separator, the substring test `t in s`, str(n), f"{n:0Wd}" and `<` on str. */
module Text {

  /** s.split(sep) (also bytes.split): the pieces between separators, always at least one. */
  function Split<T(==)>(s: seq<T>, sep: T): (r: seq<seq<T>>)
    ensures |r| >= 1
    ensures forall i :: 0 <= i < |r| ==> sep !in r[i]
    ensures Join(r, sep) == s
  {
    if s == [] then [[]]
    else
      var rest := Split(s[1..], sep);
      if s[0] == sep then [[]] + rest
      else [[s[0]] + rest[0]] + rest[1..]
  }

  /** sep.join(pieces): the inverse of Split. */
  function Join<T>(pieces: seq<seq<T>>, sep: T): seq<T>
    requires |pieces| >= 1
  {
    if |pieces| == 1 then pieces[0] else pieces[0] + [sep] + Join(pieces[1..], sep)
  }

  lemma {:induction false} SplitNoSep<T>(s: seq<T>, sep: T)
    requires sep !in s
    ensures Split(s, sep) == [s]
  {
    if s != [] {
      SplitNoSep(s[1..], sep);
      assert [s[0]] + s[1..] == s;
    }
  }

  /** A piece free of the separator, then the separator, is split off unchanged. */
  lemma {:induction false} SplitCons<T>(a: seq<T>, sep: T, b: seq<T>)
    requires sep !in a
    ensures Split(a + [sep] + b, sep) == [a] + Split(b, sep)
  {
    if a == [] {
      assert a + [sep] + b == [sep] + b;
      assert ([sep] + b)[1..] == b;
    } else {
      var s := a + [sep] + b;
      assert s[1..] == a[1..] + [sep] + b;
      SplitCons(a[1..], sep, b);
      assert [a[0]] + a[1..] == a;
    }
  }

  /** The three pieces of x + [sep] + y + [sep] + z when no piece holds sep. */
  lemma Split3<T>(x: seq<T>, y: seq<T>, z: seq<T>, sep: T)
    requires sep !in x && sep !in y && sep !in z
    ensures Split(x + [sep] + y + [sep] + z, sep) == [x, y, z]
  {
    assert x + [sep] + y + [sep] + z == x + [sep] + (y + [sep] + z);
    SplitCons(x, sep, y + [sep] + z);
    SplitCons(y, sep, z);
    SplitNoSep(z, sep);
  }

  predicate IsPrefix<T(==)>(p: seq<T>, s: seq<T>) {
    |p| <= |s| && s[..|p|] == p
  }

  /** Python's `t in s` on strings: t occurs contiguously somewhere in s. */
  predicate Contains<T(==)>(s: seq<T>, t: seq<T>)
    decreases |s|
  {
    IsPrefix(t, s) || (s != [] && Contains(s[1..], t))
  }

  lemma {:induction false} ContainsSuffix<T>(a: seq<T>, t: seq<T>)
    ensures Contains(a + t, t)
  {
    if a == [] {
      assert a + t == t;
    } else {
      assert (a + t)[1..] == a[1..] + t;
      ContainsSuffix(a[1..], t);
    }
  }

  // ---------------------------------------------------------------- digits

  predicate IsDigit(c: char) { '0' <= c <= '9' }

  function Digit(n: nat): (c: char)
    requires n < 10
    ensures IsDigit(c)
  {
    ('0' as int + n) as char
  }

  function DigitValue(c: char): (v: nat)
    requires IsDigit(c)
    ensures v < 10 && Digit(v) == c
  {
    (c as int - '0' as int)
  }

  /** str(n) for a non-negative integer: decimal, no leading zeros. */
  function NatToString(n: nat): (s: string)
    ensures |s| >= 1
    ensures forall i :: 0 <= i < |s| ==> IsDigit(s[i])
  {
    if n < 10 then [Digit(n)] else NatToString(n / 10) + [Digit(n % 10)]
  }

  /** The number a string of decimal digits denotes. */
  function Value(s: string): nat
    requires forall i :: 0 <= i < |s| ==> IsDigit(s[i])
  {
    if s == [] then 0 else Value(s[..|s| - 1]) * 10 + DigitValue(s[|s| - 1])
  }

  lemma {:induction false} NatToStringValue(n: nat)
    ensures Value(NatToString(n)) == n
  {
    if n >= 10 {
      NatToStringValue(n / 10);
      var s := NatToString(n);
      assert s[..|s| - 1] == NatToString(n / 10);
    }
  }

  function Zeros(k: nat): (s: string)
    ensures |s| == k && forall i :: 0 <= i < k ==> s[i] == '0'
  {
    if k == 0 then [] else Zeros(k - 1) + ['0']
  }

  /** f"{n:0{w}d}": str(n) left-padded with zeros to at least w characters. */
  function Pad(n: nat, w: nat): (s: string)
    ensures |s| >= w
    ensures forall i :: 0 <= i < |s| ==> IsDigit(s[i])
  {
    var digits := NatToString(n);
    (if |digits| < w then Zeros(w - |digits|) else []) + digits
  }

  /** Below 100, f"{n:02d}" is exactly the two decimal digits of n. */
  lemma Pad2Digits(n: nat)
    requires n < 100
    ensures Pad(n, 2) == [Digit(n / 10), Digit(n % 10)]
  {
    if n >= 10 {
      assert NatToString(n) == NatToString(n / 10) + [Digit(n % 10)];
    }
  }

  lemma NatToStringStep(n: nat)
    requires n >= 10
    ensures NatToString(n) == NatToString(n / 10) + [Digit(n % 10)]
  {
  }

  /** Below 10000, f"{n:04d}" is exactly the four decimal digits of n. */
  lemma Pad4Digits(n: nat)
    requires n < 10000
    ensures Pad(n, 4) == [Digit(n / 1000), Digit(n / 100 % 10), Digit(n / 10 % 10), Digit(n % 10)]
  {
    var q1, q2, q3 := n / 10, n / 100, n / 1000;
    assert q1 / 10 == q2 && q2 / 10 == q3;
    assert q1 % 10 == n / 10 % 10 && q2 % 10 == n / 100 % 10;
    if n >= 1000 {
      NatToStringStep(n);
      NatToStringStep(q1);
      NatToStringStep(q2);
      assert NatToString(q3) == [Digit(q3)];
    } else if n >= 100 {
      NatToStringStep(n);
      NatToStringStep(q1);
      assert NatToString(q2) == [Digit(q2)];
      assert q3 == 0;
    } else if n >= 10 {
      NatToStringStep(n);
      assert NatToString(q1) == [Digit(q1)];
      assert q2 == 0 && q3 == 0;
    } else {
      assert q1 == 0 && q2 == 0 && q3 == 0;
    }
  }

  lemma DigitRoundTrip(n: nat)
    requires n < 10
    ensures DigitValue(Digit(n)) == n
  {
  }

  lemma {:induction false} ValueZeros(k: nat)
    ensures Value(Zeros(k)) == 0
  {
    if k > 0 {
      assert Zeros(k)[..k - 1] == Zeros(k - 1);
      ValueZeros(k - 1);
    }
  }

  /** Leading zeros do not change the number a digit string denotes. */
  lemma {:induction false} ValueLeadingZeros(k: nat, s: string)
    requires forall i :: 0 <= i < |s| ==> IsDigit(s[i])
    ensures forall i :: 0 <= i < |Zeros(k) + s| ==> IsDigit((Zeros(k) + s)[i])
    ensures Value(Zeros(k) + s) == Value(s)
  {
    var z := Zeros(k) + s;
    assert forall i :: 0 <= i < |z| ==> IsDigit(z[i]) by {
      forall i | 0 <= i < |z| ensures IsDigit(z[i]) {
        if i < k { assert z[i] == '0'; } else { assert z[i] == s[i - k]; }
      }
    }
    if s == [] {
      assert z == Zeros(k);
      ValueZeros(k);
    } else {
      var f := s[..|s| - 1];
      assert z[..|z| - 1] == Zeros(k) + f;
      ValueLeadingZeros(k, f);
    }
  }

  lemma PadValue(n: nat, w: nat)
    ensures Value(Pad(n, w)) == n
  {
    var digits := NatToString(n);
    NatToStringValue(n);
    if |digits| < w {
      ValueLeadingZeros(w - |digits|, digits);
    } else {
      assert Pad(n, w) == digits;
    }
  }

  // ---------------------------------------------------------------- ordering

  /** Python's `s < t` on str: lexicographic by code point. */
  predicate LexLess(s: string, t: string)
    decreases |s|
  {
    if s == [] then t != []
    else t != [] && (s[0] < t[0] || (s[0] == t[0] && LexLess(s[1..], t[1..])))
  }

  predicate LexLe(s: string, t: string) { s == t || LexLess(s, t) }

  lemma {:induction false} LexLessIrreflexive(s: string)
    ensures !LexLess(s, s)
  {
    if s != [] { LexLessIrreflexive(s[1..]); }
  }

  lemma {:induction false} LexLessTotal(s: string, t: string)
    ensures s == t || LexLess(s, t) || LexLess(t, s)
  {
    if s != [] && t != [] && s[0] == t[0] {
      LexLessTotal(s[1..], t[1..]);
      if s[1..] == t[1..] {
        assert s == [s[0]] + s[1..] && t == [t[0]] + t[1..];
      }
    }
  }

  lemma {:induction false} LexLessTransitive(s: string, t: string, u: string)
    requires LexLess(s, t) && LexLess(t, u)
    ensures LexLess(s, u)
  {
    if s != [] && s[0] == t[0] && t[0] == u[0] {
      LexLessTransitive(s[1..], t[1..], u[1..]);
    }
  }

  lemma {:induction false} LexLessAsymmetric(s: string, t: string)
    requires LexLess(s, t)
    ensures !LexLess(t, s)
  {
    if s != [] && s[0] == t[0] {
      LexLessAsymmetric(s[1..], t[1..]);
    }
  }

  /** Comparing two strings with a common-length head decides on the head first. */
  lemma {:induction false} LexLessConcat(a: string, x: string, b: string, y: string)
    requires |a| == |b|
    ensures LexLess(a + x, b + y) <==> LexLess(a, b) || (a == b && LexLess(x, y))
  {
    if a == [] {
      assert a + x == x && b + y == y;
    } else {
      assert (a + x)[0] == a[0] && (b + y)[0] == b[0];
      assert (a + x)[1..] == a[1..] + x && (b + y)[1..] == b[1..] + y;
      LexLessConcat(a[1..], x, b[1..], y);
      if a[0] == b[0] && a[1..] == b[1..] {
        assert a == [a[0]] + a[1..] && b == [b[0]] + b[1..];
      }
      if a == b { LexLessIrreflexive(a); }
    }
  }

  /** Digit strings of one length compare as strings exactly as their numbers compare. */
  lemma {:induction false} LexLessDigits(s: string, t: string)
    requires |s| == |t|
    requires forall i :: 0 <= i < |s| ==> IsDigit(s[i])
    requires forall i :: 0 <= i < |t| ==> IsDigit(t[i])
    ensures LexLess(s, t) <==> Value(s) < Value(t)
    ensures s == t <==> Value(s) == Value(t)
    decreases |s|
  {
    if s == [] {
    } else {
      var s', t' := s[..|s| - 1], t[..|t| - 1];
      var c, e := s[|s| - 1], t[|t| - 1];
      assert s == s' + [c] && t == t' + [e];
      LexLessDigits(s', t');
      LexLessConcat(s', [c], t', [e]);
      assert LexLess([c], [e]) <==> c < e by {
        assert [c][1..] == [] && [e][1..] == [];
      }
      var vc, ve := DigitValue(c), DigitValue(e);
      assert c < e <==> vc < ve;
      assert c == e <==> vc == ve;
      LexLessTotal(s', t');
      if s' != t' {
        if LexLess(t', s') { LexLessDigits(t', s'); }
      }
    }
  }
}
