/** Character and string helpers the tracker borrows from JavaScript's
    `String` prototype: `trim`, `toLowerCase`, `toUpperCase`, comparison of
    strings with `<` (as `Array.prototype.sort` does), number-to-string
    conversion and `padStart`.  Case mapping is the ASCII part of the Unicode
    mapping. */
module Text {

  predicate IsDigit(c: char) { '0' <= c <= '9' }

  predicate AllDigits(s: string) { forall i :: 0 <= i < |s| ==> IsDigit(s[i]) }

  /** The characters `String.prototype.trim` removes, restricted to the
      ASCII controls, the space, no-break space and the byte order mark. */
  predicate IsSpace(c: char) {
    c == ' ' || c == '\t' || c == '\n' || c == '\r' || c == '\U{000B}' || c == '\U{000C}'
    || c == '\U{00A0}' || c == '\U{FEFF}'
  }

  function LowerChar(c: char): char {
    if 'A' <= c <= 'Z' then (c as int + 32) as char else c
  }

  function UpperChar(c: char): char {
    if 'a' <= c <= 'z' then (c as int - 32) as char else c
  }

  /** `s.toLowerCase()`: every upper-case letter is replaced, nothing else moves. */
  function ToLower(s: string): (r: string)
    ensures |r| == |s|
    ensures forall i :: 0 <= i < |s| ==> r[i] == LowerChar(s[i])
  {
    seq(|s|, i requires 0 <= i < |s| => LowerChar(s[i]))
  }

  /** `trimStart`: drops the leading whitespace and nothing else. */
  function TrimStart(s: string): (r: string)
    ensures |r| <= |s| && r == s[|s| - |r|..]
    ensures forall i :: 0 <= i < |s| - |r| ==> IsSpace(s[i])
    ensures r == [] || !IsSpace(r[0])
  {
    if s != [] && IsSpace(s[0]) then TrimStart(s[1..]) else s
  }

  /** `trimEnd`: drops the trailing whitespace and nothing else. */
  function TrimEnd(s: string): (r: string)
    ensures |r| <= |s| && r == s[..|r|]
    ensures forall i :: |r| <= i < |s| ==> IsSpace(s[i])
    ensures r == [] || !IsSpace(r[|r| - 1])
  {
    if s != [] && IsSpace(s[|s| - 1]) then TrimEnd(s[..|s| - 1]) else s
  }

  /** `s.trim()`. */
  function Trim(s: string): string {
    TrimEnd(TrimStart(s))
  }

  /** A trimmed string is empty exactly when the input is all whitespace;
      this is what `!x.trim()` tests in the CSV validator. */
  lemma TrimEmptyIff(s: string)
    ensures Trim(s) == [] <==> forall i :: 0 <= i < |s| ==> IsSpace(s[i])
  {
    AllSpaceTrimsAway(s);
  }

  lemma {:induction false} AllSpaceTrimsAway(s: string)
    ensures (forall i :: 0 <= i < |s| ==> IsSpace(s[i])) ==> TrimStart(s) == []
  {
    if s != [] {
      AllSpaceTrimsAway(s[1..]);
      assert (forall i :: 0 <= i < |s| ==> IsSpace(s[i])) ==> (forall i :: 0 <= i < |s[1..]| ==> IsSpace(s[1..][i]));
    }
  }

  /** Trimming twice is trimming once. */
  lemma TrimIdempotent(s: string)
    ensures Trim(Trim(s)) == Trim(s)
  {
    var t := Trim(s);
    if t != [] {
      assert !IsSpace(t[0]) by {
        var a := TrimStart(s);
        assert t == a[..|t|];
      }
    }
  }

  /** String `<` of JavaScript: lexicographic order on characters, a proper
      prefix sorting first. */
  predicate StrLess(a: string, b: string) {
    if a == [] then b != []
    else if b == [] then false
    else if a[0] != b[0] then a[0] < b[0]
    else StrLess(a[1..], b[1..])
  }

  predicate StrLessEq(a: string, b: string) { a == b || StrLess(a, b) }

  lemma {:induction false} StrLessIrreflexive(a: string)
    ensures !StrLess(a, a)
  {
    if a != [] { StrLessIrreflexive(a[1..]); }
  }

  lemma {:induction false} StrLessTransitive(a: string, b: string, c: string)
    requires StrLess(a, b) && StrLess(b, c)
    ensures StrLess(a, c)
  {
    if a != [] && b != [] && c != [] && a[0] == b[0] && b[0] == c[0] {
      StrLessTransitive(a[1..], b[1..], c[1..]);
    }
  }

  lemma {:induction false} StrLessTotal(a: string, b: string)
    ensures a == b || StrLess(a, b) || StrLess(b, a)
  {
    if a != [] && b != [] && a[0] == b[0] {
      StrLessTotal(a[1..], b[1..]);
      if a[1..] == b[1..] {
        assert a == [a[0]] + a[1..] && b == [b[0]] + b[1..];
      }
    }
  }

  lemma StrLessAsymmetric(a: string, b: string)
    requires StrLess(a, b)
    ensures !StrLess(b, a)
  {
    if StrLess(b, a) {
      StrLessTransitive(a, b, a);
      StrLessIrreflexive(a);
    }
  }

  function DigitChar(d: nat): char
    requires d < 10
  {
    ('0' as int + d) as char
  }

  /** `n.toString()` for a non-negative integer. */
  function NatToString(n: nat): (r: string)
    ensures r != [] && AllDigits(r)
    ensures n < 10 ==> |r| == 1
    ensures 10 <= n ==> |r| == |NatToString(n / 10)| + 1
    decreases n
  {
    if n < 10 then [DigitChar(n)] else NatToString(n / 10) + [DigitChar(n % 10)]
  }

  /** The value of a string of decimal digits (`parseInt` on such a string). */
  function DigitsValue(s: string): nat
    requires AllDigits(s)
  {
    if s == [] then 0 else 10 * DigitsValue(s[..|s| - 1]) + (s[|s| - 1] as int - '0' as int)
  }

  /** `parseInt(n.toString()) == n`. */
  lemma {:induction false} NatToStringRoundTrip(n: nat)
    ensures DigitsValue(NatToString(n)) == n
    decreases n
  {
    var s := NatToString(n);
    if n >= 10 {
      NatToStringRoundTrip(n / 10);
      assert s[..|s| - 1] == NatToString(n / 10);
    }
  }

  /** Four-digit years print with four digits. */
  lemma NatToStringLength4(n: nat)
    requires 1000 <= n <= 9999
    ensures |NatToString(n)| == 4
  {
    assert |NatToString(n / 1000)| == 1;
    assert |NatToString(n / 100)| == 2 by { assert (n / 100) / 10 == n / 1000; }
    assert |NatToString(n / 10)| == 3 by { assert (n / 10) / 10 == n / 100; }
  }

  /** Two digit strings of one length with one value are the same string. */
  lemma {:induction false} DigitsValueInjective(a: string, b: string)
    requires AllDigits(a) && AllDigits(b) && |a| == |b|
    requires DigitsValue(a) == DigitsValue(b)
    ensures a == b
  {
    if a != [] {
      var n := |a| - 1;
      assert a[..n] + [a[n]] == a && b[..n] + [b[n]] == b;
      DigitsValueInjective(a[..n], b[..n]);
    }
  }

  /** `s.padStart(2, '0')`. */
  function PadStart2(s: string): (r: string)
    ensures |s| >= 2 ==> r == s
    ensures |s| < 2 ==> |r| == 2 && r[2 - |s|..] == s && forall i :: 0 <= i < 2 - |s| ==> r[i] == '0'
  {
    if |s| >= 2 then s else seq(2 - |s|, _ => '0') + s
  }
  /** The number of occurrences of `c` in `s`. */
  function Count(s: string, c: char): nat {
    if s == [] then 0 else Count(s[..|s| - 1], c) + (if s[|s| - 1] == c then 1 else 0)
  }

  /** `s.split(sep)` for a one-character separator: the pieces between the
      separators, one more piece than separators, the empty string giving
      one empty piece. */
  function Split(s: string, sep: char): (r: seq<string>)
    ensures |r| == Count(s, sep) + 1
    ensures forall i :: 0 <= i < |r| ==> sep !in r[i]
    ensures r[|r| - 1] == [] <==> s == [] || s[|s| - 1] == sep
  {
    if s == [] then [[]]
    else
      var init, c := Split(s[..|s| - 1], sep), s[|s| - 1];
      if c == sep then init + [[]]
      else init[..|init| - 1] + [init[|init| - 1] + [c]]
  }

  /** `ws.join(sep)`. */
  function Join(ws: seq<string>, sep: char): string
    requires |ws| >= 1
  {
    if |ws| == 1 then ws[0] else Join(ws[..|ws| - 1], sep) + [sep] + ws[|ws| - 1]
  }

  /** Appending a character to the last piece appends it to the joined text. */
  lemma JoinExtendLast(ws: seq<string>, sep: char, c: char)
    requires |ws| >= 1
    ensures Join(ws[..|ws| - 1] + [ws[|ws| - 1] + [c]], sep) == Join(ws, sep) + [c]
  {
    var ws' := ws[..|ws| - 1] + [ws[|ws| - 1] + [c]];
    if |ws| > 1 {
      assert ws'[..|ws'| - 1] == ws[..|ws| - 1];
    }
  }

  /** Joining the pieces of a split gives back the text. */
  lemma {:induction false} JoinSplit(s: string, sep: char)
    ensures Join(Split(s, sep), sep) == s
  {
    if s != [] {
      var init, c := s[..|s| - 1], s[|s| - 1];
      JoinSplit(init, sep);
      var w := Split(init, sep);
      if c == sep {
        assert (w + [[]])[..|w|] == w;
      } else {
        JoinExtendLast(w, sep, c);
      }
      assert init + [c] == s;
    }
  }

  /** Splitting after a separator and a separator-free piece adds that piece. */
  lemma {:induction false} SplitAppendPiece(a: string, b: string, sep: char)
    requires sep !in b
    ensures Split(a + [sep] + b, sep) == Split(a, sep) + [b]
    decreases |b|
  {
    if b == [] {
      assert a + [sep] + b == a + [sep];
      SplitSnocSeparator(a, sep);
    } else {
      var b', c := b[..|b| - 1], b[|b| - 1];
      var r := Split(a + [sep] + b', sep);
      calc {
        Split(a + [sep] + b, sep);
        == { assert a + [sep] + b == (a + [sep] + b') + [c]; }
        Split((a + [sep] + b') + [c], sep);
        == { SplitSnoc(a + [sep] + b', c, sep); }
        r[..|r| - 1] + [r[|r| - 1] + [c]];
        == { SplitAppendPiece(a, b', sep); assert r[..|r| - 1] == Split(a, sep); }
        Split(a, sep) + [b' + [c]];
        == { assert b' + [c] == b; }
        Split(a, sep) + [b];
      }
    }
  }

  /** A trailing separator opens a new, empty piece. */
  lemma SplitSnocSeparator(s: string, sep: char)
    ensures Split(s + [sep], sep) == Split(s, sep) + [[]]
  {
    assert (s + [sep])[..|s + [sep]| - 1] == s;
  }

  /** Any other trailing character extends the last piece. */
  lemma SplitSnoc(s: string, c: char, sep: char)
    requires c != sep
    ensures var r := Split(s, sep); Split(s + [c], sep) == r[..|r| - 1] + [r[|r| - 1] + [c]]
  {
    assert (s + [c])[..|s + [c]| - 1] == s;
  }

  /** Splitting a join of separator-free pieces gives back the pieces. */
  lemma {:induction false} SplitJoin(ws: seq<string>, sep: char)
    requires |ws| >= 1
    requires forall i :: 0 <= i < |ws| ==> sep !in ws[i]
    ensures Split(Join(ws, sep), sep) == ws
  {
    if |ws| == 1 {
      SplitNoSeparator(ws[0], sep);
    } else {
      var init, last := ws[..|ws| - 1], ws[|ws| - 1];
      forall i | 0 <= i < |init| ensures sep !in init[i] {
        assert init[i] == ws[i];
      }
      calc {
        Split(Join(ws, sep), sep);
        ==
        Split(Join(init, sep) + [sep] + last, sep);
        == { SplitAppendPiece(Join(init, sep), last, sep); }
        Split(Join(init, sep), sep) + [last];
        == { SplitJoin(init, sep); }
        init + [last];
        == 
        ws;
      }
    }
  }

  /** Text without the separator is a single piece. */
  lemma {:induction false} SplitNoSeparator(s: string, sep: char)
    requires sep !in s
    ensures Split(s, sep) == [s]
  {
    if s != [] {
      SplitNoSeparator(s[..|s| - 1], sep);
      assert s[..|s| - 1] + [s[|s| - 1]] == s;
    }
  }

  /** `xs.filter(keep)` on a list of strings. */
  function KeepIf(xs: seq<string>, keep: string -> bool): (r: seq<string>)
    ensures |r| <= |xs|
    ensures forall i :: 0 <= i < |r| ==> keep(r[i]) && r[i] in xs
    ensures forall l :: l in xs && keep(l) ==> l in r
  {
    if xs == [] then []
    else if keep(xs[0]) then [xs[0]] + KeepIf(xs[1..], keep)
    else KeepIf(xs[1..], keep)
  }
}
