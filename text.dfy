/** String vocabulary shared by the templates: occurrence, prefixes and suffixes,
    Python's `str.join`, ASCII `str.lower` and decimal `str(int)`. */
module Text {

  /** `sub` occurs in `s` at offset `i`. */
  predicate ContainsAt(s: string, sub: string, i: nat) {
    i + |sub| <= |s| && s[i..i + |sub|] == sub
  }

  /** Python's `sub in s`. */
  predicate Contains(s: string, sub: string) {
    exists i: nat | i <= |s| :: ContainsAt(s, sub, i)
  }

  /** Python's `s.startswith(pre)`. */
  predicate StartsWith(s: string, pre: string) {
    |pre| <= |s| && s[..|pre|] == pre
  }

  /** Python's `s.endswith(suf)`. */
  predicate EndsWith(s: string, suf: string) {
    |suf| <= |s| && s[|s| - |suf|..] == suf
  }

  lemma InfixAt(a: string, b: string, c: string)
    ensures ContainsAt(a + b + c, b, |a|)
    ensures Contains(a + b + c, b)
  {
    assert (a + b + c)[|a|..|a| + |b|] == b;
    assert ContainsAt(a + b + c, b, |a|);
  }

  lemma SuffixAt(a: string, w: string)
    ensures ContainsAt(a + w, w, |a|)
  {
    assert (a + w)[|a|..|a| + |w|] == w;
  }

  /** An occurrence survives appending text on the right. */
  lemma ExtendRight(s: string, t: string, w: string, i: nat)
    requires ContainsAt(s, w, i)
    ensures ContainsAt(s + t, w, i)
  {
    assert (s + t)[i..i + |w|] == s[i..i + |w|];
  }

  /** An occurrence survives prepending text on the left, shifted by its length. */
  lemma ExtendLeft(a: string, s: string, w: string, i: nat)
    requires ContainsAt(s, w, i)
    ensures ContainsAt(a + s, w, |a| + i)
  {
    assert (a + s)[|a| + i..|a| + i + |w|] == s[i..i + |w|];
  }

  /** Two occurrences side by side are an occurrence of the two together. */
  lemma Adjacent(s: string, a: string, b: string, i: nat)
    requires ContainsAt(s, a, i) && ContainsAt(s, b, i + |a|)
    ensures ContainsAt(s, a + b, i)
  {
    assert s[i..i + |a + b|] == s[i..i + |a|] + s[i + |a|..i + |a| + |b|];
  }

  /** Three occurrences side by side are an occurrence of the three together. */
  lemma Adjacent3(s: string, a: string, b: string, c: string, i: nat)
    requires ContainsAt(s, a, i) && ContainsAt(s, b, i + |a|) && ContainsAt(s, c, i + |a| + |b|)
    ensures ContainsAt(s, a + b + c, i)
  {
    Adjacent(s, a, b, i);
    Adjacent(s, a + b, c, i);
  }

  /** An occurrence inside an occurrence is an occurrence. */
  lemma Inside(s: string, w: string, v: string, i: nat, j: nat)
    requires ContainsAt(s, w, i) && ContainsAt(w, v, j)
    ensures ContainsAt(s, v, i + j) && Contains(s, v)
  {
    forall t | 0 <= t < |v|
      ensures s[i + j + t] == v[t]
    {
      assert s[i..i + |w|][j + t] == w[j + t];
      assert w[j..j + |v|][t] == v[t];
    }
    assert s[i + j..i + j + |v|] == v;
    assert ContainsAt(s, v, i + j);
  }

  /** Text around `p` that cannot start `w`, and that `w` cannot run into, adds no
      occurrence of `w`: every occurrence lies within `p`. */
  lemma OnlyInside(h: string, p: string, t: string, w: string)
    requires |w| > 0 && w[0] !in h && w[0] !in t
    requires |t| > 0 ==> t[0] !in w[1..]
    ensures Contains(h + p + t, w) ==> Contains(p, w)
  {
    var s := h + p + t;
    if Contains(s, w) {
      var i: nat :| i <= |s| && ContainsAt(s, w, i);
      forall j | 0 <= j < |w|
        ensures s[i + j] == w[j]
      {
        assert s[i..i + |w|][j] == w[j];
      }
      forall j | 1 <= j < |w|
        ensures w[j] in w[1..]
      {
        assert w[1..][j - 1] == w[j];
      }
      assert |h| <= i < |h| + |p|;
      assert |t| > 0 ==> s[|h| + |p|] == t[0];
      assert i + |w| <= |h| + |p|;
      assert p[i - |h|..i - |h| + |w|] == s[i..i + |w|];
      assert ContainsAt(p, w, i - |h|);
    }
  }

  /** An occurrence that reaches the end is a suffix. */
  lemma AtEnd(s: string, w: string, i: nat)
    requires ContainsAt(s, w, i) && i + |w| == |s|
    ensures EndsWith(s, w)
  {
  }

  /** A prefix of a prefix is a prefix. */
  lemma PrefixOfPrefix(s: string, x: string, y: string)
    requires StartsWith(s, x + y)
    ensures StartsWith(s, x)
  {
    assert s[..|x|] == (x + y)[..|x|];
  }

  /** A string that lacks one of the characters of `w` does not contain `w`. */
  lemma LacksChar(s: string, w: string, j: nat)
    requires j < |w| && w[j] !in s
    ensures !Contains(s, w)
  {
  }

  /** A text in which the one-character separator does not occur, found in a joined
      string, lies within one of the pieces. */
  lemma {:induction false} JoinKeepsApart(pieces: seq<string>, sep: string, w: string)
    requires |sep| == 1 && |w| > 0 && sep[0] !in w
    requires Contains(Join(pieces, sep), w)
    ensures exists k :: 0 <= k < |pieces| && Contains(pieces[k], w)
  {
    var s := Join(pieces, sep);
    var i: nat :| i <= |s| && ContainsAt(s, w, i);
    if |pieces| == 1 {
      assert Contains(pieces[0], w);
    } else {
      var p, rest := pieces[0], Join(pieces[1..], sep);
      assert s == p + sep + rest;
      assert s[|p|] == sep[0];
      forall j | 0 <= j < |w|
        ensures s[i + j] == w[j]
      {
        assert s[i..i + |w|][j] == w[j];
      }
      assert !(i <= |p| < i + |w|);
      if i + |w| <= |p| {
        assert p[i..i + |w|] == s[i..i + |w|];
        assert ContainsAt(p, w, i);
      } else {
        var i' := i - |p| - 1;
        assert rest[i'..i' + |w|] == s[i..i + |w|];
        assert ContainsAt(rest, w, i');
        JoinKeepsApart(pieces[1..], sep, w);
        var k :| 0 <= k < |pieces[1..]| && Contains(pieces[1..][k], w);
        assert Contains(pieces[k + 1], w);
      }
    }
  }

  /** Python's `sep.join(pieces)`. */
  function Join(pieces: seq<string>, sep: string): string
  {
    if |pieces| == 0 then ""
    else if |pieces| == 1 then pieces[0]
    else pieces[0] + sep + Join(pieces[1..], sep)
  }

  /** Offset at which piece `k` starts in `Join(pieces, sep)`. */
  function PieceStart(pieces: seq<string>, sep: string, k: nat): nat
    requires k < |pieces|
  {
    if k == 0 then 0 else |pieces[0]| + |sep| + PieceStart(pieces[1..], sep, k - 1)
  }

  /** A later piece starts after an earlier one, its separator included. */
  lemma {:induction false} PieceStartGrows(pieces: seq<string>, sep: string, i: nat, j: nat)
    requires i < j < |pieces|
    ensures PieceStart(pieces, sep, i) + |pieces[i]| + |sep| <= PieceStart(pieces, sep, j)
  {
    if i > 0 {
      PieceStartGrows(pieces[1..], sep, i - 1, j - 1);
      assert pieces[1..][i - 1] == pieces[i];
    }
  }

  /** The first piece starts the joined string, and a separator follows it unless it
      is the only one. */
  lemma JoinFirst(pieces: seq<string>, sep: string)
    requires |pieces| > 0
    ensures ContainsAt(Join(pieces, sep), pieces[0], 0)
    ensures |pieces| > 1 ==> ContainsAt(Join(pieces, sep), sep, |pieces[0]|)
    ensures |pieces| == 1 ==> |pieces[0]| == |Join(pieces, sep)|
  {
    if |pieces| > 1 {
      var s := pieces[0] + sep + Join(pieces[1..], sep);
      assert Join(pieces, sep) == s;
      assert s[..|pieces[0]|] == pieces[0];
      assert s[|pieces[0]|..|pieces[0]| + |sep|] == sep;
    }
  }

  /** The joined string lays its pieces out in order: piece `k` at `PieceStart`, a
      separator right after every piece but the last, and the last piece at the end. */
  lemma {:induction false} JoinLayout(pieces: seq<string>, sep: string, k: nat)
    requires k < |pieces|
    ensures ContainsAt(Join(pieces, sep), pieces[k], PieceStart(pieces, sep, k))
    ensures k + 1 < |pieces| ==>
      ContainsAt(Join(pieces, sep), sep, PieceStart(pieces, sep, k) + |pieces[k]|)
      && PieceStart(pieces, sep, k + 1) == PieceStart(pieces, sep, k) + |pieces[k]| + |sep|
    ensures k + 1 == |pieces| ==> PieceStart(pieces, sep, k) + |pieces[k]| == |Join(pieces, sep)|
  {
    if k == 0 {
      JoinFirst(pieces, sep);
    } else {
      var head := pieces[0] + sep;
      var rest := Join(pieces[1..], sep);
      var i := PieceStart(pieces[1..], sep, k - 1);
      assert Join(pieces, sep) == head + rest;
      assert pieces[1..][k - 1] == pieces[k];
      JoinLayout(pieces[1..], sep, k - 1);
      ExtendLeft(head, rest, pieces[k], i);
      if k + 1 < |pieces| {
        ExtendLeft(head, rest, sep, i + |pieces[k]|);
      }
    }
  }

  /** With a non-empty separator, an inner piece lies strictly after the first piece
      and strictly before the last. */
  lemma PieceInside(pieces: seq<string>, sep: string, k: nat)
    requires 0 < k < |pieces| - 1 && |sep| > 0
    ensures |pieces[0]| < PieceStart(pieces, sep, k)
    ensures PieceStart(pieces, sep, k) + |pieces[k]| < |Join(pieces, sep)| - |pieces[|pieces| - 1]|
  {
    PieceStartGrows(pieces, sep, 0, k);
    PieceStartGrows(pieces, sep, k, |pieces| - 1);
    JoinLayout(pieces, sep, |pieces| - 1);
  }

  /** An empty piece between two others shows as a blank line: two separators in a
      row, then the piece after it, which ends the string when it is the last. */
  lemma JoinBlank(pieces: seq<string>, sep: string, k: nat)
    requires k + 2 < |pieces| && pieces[k + 1] == ""
    ensures ContainsAt(Join(pieces, sep), sep + sep + pieces[k + 2], PieceStart(pieces, sep, k) + |pieces[k]|)
    ensures PieceStart(pieces, sep, k + 2) == PieceStart(pieces, sep, k) + |pieces[k]| + |sep| + |sep|
    ensures k + 3 == |pieces| ==> EndsWith(Join(pieces, sep), sep + sep + pieces[k + 2])
  {
    var s := Join(pieces, sep);
    var i := PieceStart(pieces, sep, k) + |pieces[k]|;
    JoinLayout(pieces, sep, k);
    JoinLayout(pieces, sep, k + 1);
    JoinLayout(pieces, sep, k + 2);
    Adjacent3(s, sep, sep, pieces[k + 2], i);
    if k + 3 == |pieces| {
      AtEnd(s, sep + sep + pieces[k + 2], i);
    }
  }

  /** Two joins that agree on every piece but piece `k` are equal only when piece `k`
      agrees too: a joined string determines any one piece given the others. */
  lemma {:induction false} JoinDeterminesPiece(xs: seq<string>, ys: seq<string>, sep: string, k: nat)
    requires |xs| == |ys| && k < |xs|
    requires forall i | 0 <= i < |xs| && i != k :: xs[i] == ys[i]
    requires Join(xs, sep) == Join(ys, sep)
    ensures xs[k] == ys[k]
  {
    if |xs| == 1 {
    } else if k == 0 {
      assert xs[1..] == ys[1..];
      var rest := sep + Join(xs[1..], sep);
      assert Join(xs, sep) == xs[0] + rest;
      assert Join(ys, sep) == ys[0] + rest;
      assert |xs[0]| == |ys[0]|;
      assert (xs[0] + rest)[..|xs[0]|] == xs[0];
      assert (ys[0] + rest)[..|ys[0]|] == ys[0];
    } else {
      var head := xs[0] + sep;
      assert ys[0] + sep == head;
      assert Join(xs, sep) == head + Join(xs[1..], sep);
      assert Join(ys, sep) == head + Join(ys[1..], sep);
      assert (head + Join(xs[1..], sep))[|head|..] == Join(xs[1..], sep);
      assert (head + Join(ys[1..], sep))[|head|..] == Join(ys[1..], sep);
      forall i | 0 <= i < |xs[1..]| && i != k - 1
        ensures xs[1..][i] == ys[1..][i]
      {
        assert xs[1..][i] == xs[i + 1] && ys[1..][i] == ys[i + 1];
      }
      JoinDeterminesPiece(xs[1..], ys[1..], sep, k - 1);
    }
  }

  // ---- ASCII lowercasing -------------------------------------------------

  predicate IsUpperAscii(c: char) {
    'A' <= c <= 'Z'
  }

  function LowerChar(c: char): (d: char)
    ensures !IsUpperAscii(d)
    ensures !IsUpperAscii(c) ==> d == c
  {
    if IsUpperAscii(c) then (c as int + 32) as char else c
  }

  /** `s.lower()`, restricted to the ASCII letters A-Z. */
  function Lower(s: string): (r: string)
    ensures |r| == |s|
    ensures forall i :: 0 <= i < |s| ==> r[i] == LowerChar(s[i])
  {
    if s == [] then [] else [LowerChar(s[0])] + Lower(s[1..])
  }

  predicate IsLower(s: string) {
    forall i :: 0 <= i < |s| ==> !IsUpperAscii(s[i])
  }

  /** A string without upper-case letters is its own lowercase. */
  lemma {:induction false} LowerIdentity(s: string)
    requires IsLower(s)
    ensures Lower(s) == s
  {
    if s != [] {
      assert IsLower(s[1..]) by {
        forall i | 0 <= i < |s[1..]| ensures !IsUpperAscii(s[1..][i]) {
          assert s[1..][i] == s[i + 1];
        }
      }
      LowerIdentity(s[1..]);
      assert s == [s[0]] + s[1..];
    }
  }

  // ---- decimal rendering of integers -------------------------------------

  predicate IsDigit(c: char) {
    '0' <= c <= '9'
  }

  predicate IsDigits(s: string) {
    forall i :: 0 <= i < |s| ==> IsDigit(s[i])
  }

  /** The shape of `str(n)`: an optional minus sign, then digits without a
      superfluous leading zero. */
  predicate IsNumeral(s: string) {
    var digits := if |s| > 0 && s[0] == '-' then s[1..] else s;
    |digits| > 0 && IsDigits(digits) && (digits[0] == '0' ==> digits == "0")
      && (|s| > 0 && s[0] == '-' ==> digits != "0")
  }

  function DigitChar(d: nat): (c: char)
    requires d < 10
    ensures IsDigit(c)
  {
    ('0' as int + d) as char
  }

  function DigitValue(c: char): (d: nat)
    requires IsDigit(c)
    ensures d < 10
  {
    c as int - '0' as int
  }

  /** Decimal digits of a natural number, most significant first. */
  function NatToString(n: nat): (r: string)
    ensures |r| > 0
  {
    if n < 10 then [DigitChar(n)] else NatToString(n / 10) + [DigitChar(n % 10)]
  }

  /** Python's `str(n)` for an `int`. */
  function IntToString(n: int): string
  {
    if n < 0 then "-" + NatToString(-n) else NatToString(n)
  }

  /** `str(n)` for a natural number is all digits, with no superfluous leading zero. */
  lemma {:induction false} NatToStringDigits(n: nat)
    ensures IsDigits(NatToString(n))
    ensures NatToString(n)[0] == '0' ==> n == 0 && NatToString(n) == "0"
  {
    if n >= 10 {
      NatToStringDigits(n / 10);
      var s := NatToString(n);
      assert s == NatToString(n / 10) + [DigitChar(n % 10)];
      assert s[0] == NatToString(n / 10)[0];
    }
  }

  /** `str(n)` is a numeral. */
  lemma IntToStringIsNumeral(n: int)
    ensures IsNumeral(IntToString(n))
  {
    if n < 0 {
      NatToStringDigits(-n);
      assert IntToString(n)[1..] == NatToString(-n);
    } else {
      NatToStringDigits(n);
    }
  }

  function ParseDigits(s: string): nat
    requires IsDigits(s)
  {
    if s == [] then 0 else 10 * ParseDigits(s[..|s| - 1]) + DigitValue(s[|s| - 1])
  }

  /** Python's `int(s)` on a numeral. */
  function ParseInt(s: string): int
    requires IsNumeral(s)
  {
    if s[0] == '-' then -(ParseDigits(s[1..]) as int) else ParseDigits(s)
  }

  lemma {:induction false} NatRoundTrip(n: nat)
    ensures IsDigits(NatToString(n)) && ParseDigits(NatToString(n)) == n
  {
    NatToStringDigits(n);
    if n >= 10 {
      var s := NatToString(n);
      assert s[..|s| - 1] == NatToString(n / 10);
      NatRoundTrip(n / 10);
    }
  }

  /** Reading back `str(n)` gives `n`. */
  lemma IntRoundTrip(n: int)
    ensures IsNumeral(IntToString(n)) && ParseInt(IntToString(n)) == n
  {
    IntToStringIsNumeral(n);
    if n < 0 {
      assert IntToString(n)[1..] == NatToString(-n);
      NatRoundTrip(-n);
    } else {
      NatRoundTrip(n);
    }
  }

  /** Different integers render differently. */
  lemma IntToStringInjective(a: int, b: int)
    ensures IntToString(a) == IntToString(b) <==> a == b
  {
    if IntToString(a) == IntToString(b) {
      IntRoundTrip(a);
      IntRoundTrip(b);
    }
  }
}
