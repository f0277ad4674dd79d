/**
 * The string handling the converter borrows from Rust's standard library:
 * UTF-8 byte length, `trim`, `split`, `replace`, `strip_prefix`, and the
 * decimal, zero-padded and lower-case hexadecimal renderings of `format!`.
 */
module Text {
  import opened Wrappers

  /** An unsigned byte: one unit of a UTF-8 encoding or of a digest. */
  type byte = x: int | 0 <= x < 256

  /** Rust's `i32`, the type of positions and counts in an input row. */
  type i32 = x: int | -0x8000_0000 <= x < 0x8000_0000

  const I32_MAX: int := 0x7fff_ffff

  // ----- UTF-8 -----

  /** The UTF-8 encoding of one Unicode scalar value. */
  function Utf8Char(c: char): (r: seq<byte>)
    ensures 1 <= |r| <= 4
    ensures |r| == 1 <==> c as int < 0x80
  {
    var cp := c as int;
    if cp < 0x80 then [cp]
    else if cp < 0x800 then [0xC0 + cp / 0x40, 0x80 + cp % 0x40]
    else if cp < 0x1_0000 then [0xE0 + cp / 0x1000, 0x80 + (cp / 0x40) % 0x40, 0x80 + cp % 0x40]
    else [0xF0 + cp / 0x4_0000, 0x80 + (cp / 0x1000) % 0x40, 0x80 + (cp / 0x40) % 0x40, 0x80 + cp % 0x40]
  }

  /** The bytes a Rust `String` holds for `s`; `str::len` is their number. */
  function Utf8Encode(s: string): seq<byte>
  {
    if s == [] then [] else Utf8Char(s[0]) + Utf8Encode(s[1..])
  }

  /** What the variant classifier needs of byte lengths: zero only for the
      empty string, one only for a single ASCII character, never fewer bytes
      than characters. */
  lemma {:induction false} Utf8Length(s: string)
    ensures |Utf8Encode(s)| >= |s|
    ensures |Utf8Encode(s)| == 0 <==> s == []
    ensures |Utf8Encode(s)| == 1 <==> |s| == 1 && s[0] as int < 0x80
  {
    if s != [] {
      Utf8Length(s[1..]);
    }
  }

  // ----- character classes -----

  /** ASCII decimal digit (the converter's patterns are meant for ASCII codes). */
  predicate IsDigit(c: char) { '0' <= c <= '9' }

  predicate IsAsciiUpper(c: char) { 'A' <= c <= 'Z' }

  predicate AllDigits(s: string) { forall i :: 0 <= i < |s| ==> IsDigit(s[i]) }

  /** The characters with the Unicode White_Space property, which Rust's
      `char::is_whitespace` (and so `str::trim`) recognises. */
  predicate IsWhitespace(c: char)
  {
    '\t' <= c <= '\r' || c == ' ' || c == '\U{0085}' || c == '\U{00A0}' || c == '\U{1680}' ||
    '\U{2000}' <= c <= '\U{200A}' || c == '\U{2028}' || c == '\U{2029}' || c == '\U{202F}' ||
    c == '\U{205F}' || c == '\U{3000}'
  }

  // ----- trim -----

  function TrimStart(s: string): (r: string)
    ensures |r| <= |s| && r == s[|s| - |r|..]
    ensures forall i :: 0 <= i < |s| - |r| ==> IsWhitespace(s[i])
    ensures r == [] || !IsWhitespace(r[0])
  {
    if s != [] && IsWhitespace(s[0]) then TrimStart(s[1..]) else s
  }

  function TrimEnd(s: string): (r: string)
    ensures |r| <= |s| && r == s[..|r|]
    ensures forall i :: |r| <= i < |s| ==> IsWhitespace(s[i])
    ensures r == [] || !IsWhitespace(r[|r| - 1])
  {
    if s != [] && IsWhitespace(s[|s| - 1]) then TrimEnd(s[..|s| - 1]) else s
  }

  /** `r` is `s` with the whitespace-only runs `s[..i]` and `s[i + |r|..]` cut off. */
  predicate TrimmedFrom(s: string, r: string, i: int)
  {
    0 <= i <= |s| - |r| && r == s[i..i + |r|]
    && (forall k :: 0 <= k < i ==> IsWhitespace(s[k]))
    && (forall k :: i + |r| <= k < |s| ==> IsWhitespace(s[k]))
  }

  /** `str::trim`: the longest infix of `s` that neither starts nor ends with
      whitespace, everything cut off on either side being whitespace. */
  function Trim(s: string): (r: string)
    ensures r == [] || (!IsWhitespace(r[0]) && !IsWhitespace(r[|r| - 1]))
    ensures exists i :: TrimmedFrom(s, r, i)
  {
    var t := TrimStart(s);
    TrimBothEnds(s, t, TrimEnd(t));
    TrimEnd(t)
  }

  /** Trimming the start and then the end cuts only whitespace off either side. */
  lemma TrimBothEnds(s: string, t: string, r: string)
    requires t == TrimStart(s) && r == TrimEnd(t)
    ensures r == [] || (!IsWhitespace(r[0]) && !IsWhitespace(r[|r| - 1]))
    ensures TrimmedFrom(s, r, |s| - |t|)
  {
    InfixOf(s, t, r);
    TrimEndKeepsRightWhitespace(s, t);
    TrimEndKeepsFirst(t);
  }

  /** A prefix of a suffix is an infix. */
  lemma InfixOf(s: string, t: string, r: string)
    requires |t| <= |s| && t == s[|s| - |t|..] && |r| <= |t| && r == t[..|r|]
    ensures r == s[|s| - |t|..|s| - |t| + |r|]
  {
  }

  lemma TrimEndKeepsRightWhitespace(s: string, t: string)
    requires t == TrimStart(s)
    ensures forall k :: |s| - |t| + |TrimEnd(t)| <= k < |s| ==> IsWhitespace(s[k])
  {
    var r := TrimEnd(t);
    var i := |s| - |t|;
    assert t == s[i..];
    forall k | i + |r| <= k < |s|
      ensures IsWhitespace(s[k])
    {
      assert IsWhitespace(t[k - i]);
    }
  }

  lemma TrimEndKeepsFirst(t: string)
    requires t == [] || !IsWhitespace(t[0])
    ensures TrimEnd(t) == [] || !IsWhitespace(TrimEnd(t)[0])
  {
    var r := TrimEnd(t);
    if r != [] && |r| < |t| {
      assert r[0] == t[0];
    }
  }

  // ----- join and split -----

  /** `[..].join(sep)`: the parts in order with `sep` between neighbours. */
  function Join(parts: seq<string>, sep: string): string
  {
    if |parts| == 0 then ""
    else if |parts| == 1 then parts[0]
    else parts[0] + sep + Join(parts[1..], sep)
  }

  lemma {:induction false} JoinSnoc(parts: seq<string>, p: string, sep: string)
    requires |parts| > 0
    ensures Join(parts + [p], sep) == Join(parts, sep) + sep + p
  {
    if |parts| > 1 {
      assert (parts + [p])[1..] == parts[1..] + [p];
      JoinSnoc(parts[1..], p, sep);
    }
  }

  /** `str::split` on a one-character separator: at least one piece, and no
      piece holds the separator. */
  function Split(s: string, sep: char): (r: seq<string>)
    ensures |r| >= 1
    ensures forall i :: 0 <= i < |r| ==> sep !in r[i]
  {
    if s == [] then [""]
    else
      var rest := Split(s[1..], sep);
      assert s == [s[0]] + s[1..];
      if s[0] == sep then [""] + rest
      else [[s[0]] + rest[0]] + rest[1..]
  }

  /** There is one piece more than there are separators. */
  lemma {:induction false} SplitCount(s: string, sep: char)
    ensures |Split(s, sep)| == multiset(s)[sep] + 1
  {
    if s != [] {
      SplitCount(s[1..], sep);
      assert s == [s[0]] + s[1..];
    }
  }

  /** Splitting loses nothing: joining the pieces with the separator gives `s` back. */
  lemma {:induction false} SplitJoin(s: string, sep: char)
    ensures Join(Split(s, sep), [sep]) == s
  {
    if s != [] {
      SplitJoin(s[1..], sep);
      var rest := Split(s[1..], sep);
      var r := Split(s, sep);
      if s[0] == sep {
        assert r == [""] + rest;
        assert r[1..] == rest;
      } else {
        assert r == [[s[0]] + rest[0]] + rest[1..];
        JoinPrepend(s[0], rest, [sep]);
      }
      assert s == [s[0]] + s[1..];
    }
  }

  /** Prepending a character to the first part prepends it to the joined text. */
  lemma JoinPrepend(c: char, rest: seq<string>, sep: string)
    requires rest != []
    ensures Join([[c] + rest[0]] + rest[1..], sep) == [c] + Join(rest, sep)
  {
    var r := [[c] + rest[0]] + rest[1..];
    assert r[0] == [c] + rest[0] && r[1..] == rest[1..];
  }

  /** A text without the separator is a single piece. */
  lemma {:induction false} SplitNoSep(s: string, sep: char)
    requires sep !in s
    ensures Split(s, sep) == [s]
  {
    if s != [] {
      assert sep !in s[1..] by { assert forall c :: c in s[1..] ==> c in s; }
      SplitNoSep(s[1..], sep);
      assert s == [s[0]] + s[1..];
    }
  }


  /** A separator after a piece without one closes that piece. */
  lemma {:induction false} SplitAfter(a: string, b: string, sep: char)
    requires sep !in a
    ensures Split(a + [sep] + b, sep) == [a] + Split(b, sep)
  {
    var s := a + [sep] + b;
    if a == [] {
      assert s[0] == sep && s[1..] == b;
    } else {
      assert s[0] == a[0] && s[1..] == a[1..] + [sep] + b;
      assert sep !in a[1..] by { assert forall c :: c in a[1..] ==> c in a; }
      SplitAfter(a[1..], b, sep);
      assert [a[0]] + a[1..] == a;
    }
  }

  /** Splitting a text that starts with `c`: a separator opens a new first piece, any other character joins the first. */
  lemma SplitCons(c: char, t: string, sep: char)
    ensures Split([c] + t, sep) ==
      if c == sep then [""] + Split(t, sep) else [[c] + Split(t, sep)[0]] + Split(t, sep)[1..]
  {
    assert ([c] + t)[1..] == t;
  }

  /** A separator before a last piece without one opens that piece. */
  lemma {:induction false} SplitBefore(a: string, b: string, sep: char)
    requires sep !in b
    ensures Split(a + [sep] + b, sep) == Split(a, sep) + [b]
  {
    if a == [] {
      assert a + [sep] + b == [sep] + b;
      SplitCons(sep, b, sep);
      SplitNoSep(b, sep);
    } else {
      var c, t := a[0], a[1..];
      assert a == [c] + t;
      assert a + [sep] + b == [c] + (t + [sep] + b);
      SplitCons(c, t + [sep] + b, sep);
      SplitCons(c, t, sep);
      SplitBefore(t, b, sep);
      var rest := Split(t, sep);
      if c != sep {
        assert (rest + [b])[0] == rest[0];
        assert (rest + [b])[1..] == rest[1..] + [b];
      }
    }
  }

  /** Joining pieces that do not hold the separator and splitting again gives the pieces back. */
  lemma {:induction false} JoinSplit(parts: seq<string>, sep: char)
    requires |parts| >= 1 && forall i :: 0 <= i < |parts| ==> sep !in parts[i]
    ensures Split(Join(parts, [sep]), sep) == parts
  {
    if |parts| == 1 {
      SplitNoSep(parts[0], sep);
    } else {
      JoinSplit(parts[1..], sep);
      SplitAfter(parts[0], Join(parts[1..], [sep]), sep);
      assert parts[0] + [sep] + Join(parts[1..], [sep]) == Join(parts, [sep]);
      assert [parts[0]] + parts[1..] == parts;
    }
  }

  /** `s.split(sep).map(|x| x.trim())`: the pieces in order, each trimmed. */
  function SplitTrimmed(s: string, sep: char): (r: seq<string>)
    ensures |r| == |Split(s, sep)| == multiset(s)[sep] + 1
    ensures forall i :: 0 <= i < |r| ==> r[i] == Trim(Split(s, sep)[i])
  {
    SplitCount(s, sep);
    var pieces := Split(s, sep);
    seq(|pieces|, i requires 0 <= i < |pieces| => Trim(pieces[i]))
  }

  // ----- replace -----

  /** True when `pat` occurs in `s` at index `i`. */
  predicate OccursAt(s: string, pat: string, i: int)
  {
    0 <= i && i + |pat| <= |s| && s[i..i + |pat|] == pat
  }

  /** `str::replace(pat, "")`: every occurrence found scanning left to right,
      without overlaps, is removed; nothing else changes. */
  function RemoveAll(s: string, pat: string): (r: string)
    requires |pat| > 0
    ensures |r| <= |s|
    ensures (forall i :: !OccursAt(s, pat, i)) ==> r == s
  {
    if |s| < |pat| then s
    else if s[..|pat|] == pat then
      assert OccursAt(s, pat, 0);
      RemoveAll(s[|pat|..], pat)
    else
      assert forall i :: OccursAt(s[1..], pat, i) ==> OccursAt(s, pat, i + 1) by {
        forall i | OccursAt(s[1..], pat, i) ensures OccursAt(s, pat, i + 1) {
          assert s[i + 1..i + 1 + |pat|] == s[1..][i..i + |pat|];
        }
      }
      [s[0]] + RemoveAll(s[1..], pat)
  }

  /**
   * `str::replace` as Rust writes it: the text before the first occurrence
   * is kept, that occurrence is dropped, and the search resumes after it.
   * With the no-occurrence case of `RemoveAll`'s contract this fixes the
   * result on every input.
   */
  lemma RemoveAllFirst(s: string, pat: string, i: nat)
    requires |pat| > 0 && OccursAt(s, pat, i)
    requires forall j :: 0 <= j < i ==> !OccursAt(s, pat, j)
    ensures RemoveAll(s, pat) == s[..i] + RemoveAll(s[i + |pat|..], pat)
  {
    assert s == s[..i] + pat + s[i + |pat|..];
    RemoveAllAfter(s[..i], pat, s[i + |pat|..]);
  }

  /** The same, with the text cut at its first occurrence: `a`, the occurrence, `b`. */
  lemma {:induction false} RemoveAllAfter(a: string, pat: string, b: string)
    requires |pat| > 0
    requires forall j :: 0 <= j < |a| ==> !OccursAt(a + pat + b, pat, j)
    ensures RemoveAll(a + pat + b, pat) == a + RemoveAll(b, pat)
  {
    if a == [] {
      var s := a + pat + b;
      assert s[..|pat|] == pat && s[|pat|..] == b;
    } else {
      var c, rest := a[0], a[1..];
      var t := rest + pat + b;
      assert a + pat + b == [c] + t;
      forall j | 0 <= j < |rest|
        ensures !OccursAt(t, pat, j)
      {
        OccursShift(c, t, pat, j);
      }
      RemoveAllAfter(rest, pat, b);
      RemoveAllKeeps(c, t, pat);
      ConsAppend(c, rest, RemoveAll(b, pat), a);
    }
  }

  /** Regrouping a character, a text and a tail. */
  lemma ConsAppend(c: char, rest: string, x: string, a: string)
    requires a == [c] + rest
    ensures [c] + (rest + x) == a + x
  {
  }

  /** Where no occurrence starts, the first character is kept. */
  lemma RemoveAllKeeps(c: char, t: string, pat: string)
    requires |pat| > 0 && !OccursAt([c] + t, pat, 0)
    ensures RemoveAll([c] + t, pat) == [c] + RemoveAll(t, pat)
  {
    var s := [c] + t;
    assert s[0] == c && s[1..] == t;
  }

  /** An occurrence in `t` is an occurrence one place further on in `[c] + t`. */
  lemma OccursShift(c: char, t: string, pat: string, j: nat)
    ensures OccursAt(t, pat, j) <==> OccursAt([c] + t, pat, j + 1)
  {
    if j + |pat| <= |t| {
      assert ([c] + t)[j + 1..j + 1 + |pat|] == t[j..j + |pat|];
    }
  }

  /** One pass, no rescan: removing `chr` from `cchrhr` leaves the `chr` the removal formed. */
  lemma RemoveAllOnePass()
    ensures RemoveAll("cchrhr", "chr") == "chr"
  {
    var s := "cchrhr";
    assert !OccursAt(s, "chr", 0);
    RemoveAllFirst(s, "chr", 1);
    assert s[4..] == "hr";
  }

  /** `str::strip_prefix`. */
  function StripPrefix(s: string, p: string): (r: Option<string>)
    ensures r.Some? <==> p <= s
    ensures r.Some? ==> p + r.value == s
  {
    if p <= s then Some(s[|p|..]) else None
  }

  // ----- decimal -----

  function DigitChar(d: nat): (c: char)
    requires d < 10
    ensures IsDigit(c)
  {
    ('0' as int + d) as char
  }

  function DigitValue(c: char): (d: nat)
    requires IsDigit(c)
    ensures d < 10
  {
    c as int - '0' as int
  }

  /** `Display` of an unsigned integer: decimal digits, most significant first. */
  function NatToString(n: nat): (r: string)
    ensures |r| >= 1 && AllDigits(r)
    ensures |r| > 1 ==> r[0] != '0'
  {
    if n < 10 then [DigitChar(n)] else NatToString(n / 10) + [DigitChar(n % 10)]
  }

  /** The number a string of decimal digits denotes. */
  function DecimalValue(ds: string): nat
    requires AllDigits(ds)
  {
    if ds == [] then 0 else DecimalValue(ds[..|ds| - 1]) * 10 + DigitValue(ds[|ds| - 1])
  }

  lemma {:induction false} DecimalRoundTrip(n: nat)
    ensures DecimalValue(NatToString(n)) == n
  {
    if n >= 10 {
      var r := NatToString(n);
      assert r[..|r| - 1] == NatToString(n / 10);
      DecimalRoundTrip(n / 10);
    }
  }

  /** `Display` of a signed integer: a minus sign before the magnitude when negative. */
  function IntToString(x: int): (r: string)
    ensures x >= 0 ==> r == NatToString(x)
    ensures x < 0 ==> r == "-" + NatToString(-x)
  {
    if x < 0 then "-" + NatToString(-x) else NatToString(x)
  }

  /** `format!("{:0>2}", s)`: fill with '0' on the left up to width two. */
  function PadZero2(s: string): (r: string)
    ensures |r| == if |s| < 2 then 2 else |s|
    ensures r[|r| - |s|..] == s
    ensures forall i :: 0 <= i < |r| - |s| ==> r[i] == '0'
  {
    if |s| < 2 then seq(2 - |s|, _ => '0') + s else s
  }

  // ----- lower-case hexadecimal -----

  predicate IsLowerHexDigit(c: char) { IsDigit(c) || 'a' <= c <= 'f' }

  function HexDigit(d: nat): (c: char)
    requires d < 16
    ensures IsLowerHexDigit(c)
  {
    if d < 10 then DigitChar(d) else ('a' as int + d - 10) as char
  }

  function HexValue(c: char): (d: nat)
    requires IsLowerHexDigit(c)
    ensures d < 16
  {
    if IsDigit(c) then DigitValue(c) else c as int - 'a' as int + 10
  }

  /** `format!("{:x}", digest)`: two lower-case hex digits per byte, high nibble first. */
  function LowerHex(bytes: seq<byte>): (r: string)
    ensures |r| == 2 * |bytes|
    ensures forall i :: 0 <= i < |r| ==> IsLowerHexDigit(r[i])
  {
    if bytes == [] then "" else [HexDigit(bytes[0] / 16), HexDigit(bytes[0] % 16)] + LowerHex(bytes[1..])
  }

  /** Reads a lower-case hex string back into bytes. */
  function ParseHex(s: string): seq<byte>
    requires |s| % 2 == 0
    requires forall i :: 0 <= i < |s| ==> IsLowerHexDigit(s[i])
  {
    if s == [] then [] else [HexValue(s[0]) * 16 + HexValue(s[1])] + ParseHex(s[2..])
  }

  /** The hex rendering loses nothing: parsing it gives the digest back. */
  lemma {:induction false} HexRoundTrip(bytes: seq<byte>)
    ensures ParseHex(LowerHex(bytes)) == bytes
  {
    if bytes != [] {
      var r := LowerHex(bytes);
      assert r[2..] == LowerHex(bytes[1..]);
      HexRoundTrip(bytes[1..]);
    }
  }

  /** Texts that start with prefixes differing at some position differ. */
  lemma DifferentPrefixes(a: string, b: string, x: string, y: string, k: nat)
    requires k < |a| && k < |b| && a[k] != b[k]
    ensures a + x != b + y
  {
    assert (a + x)[k] == a[k] && (b + y)[k] == b[k];
  }
}
