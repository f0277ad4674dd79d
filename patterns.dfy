/**
 * The handful of regular expressions the converter applies, each written
 * out as the match a leftmost-first engine finds. `\d` is read as an ASCII
 * digit throughout.
 */
module Patterns {
  import opened Wrappers
  import opened Text

  /** The length of the run of digits that starts at `i`. */
  function DigitRun(s: string, i: nat): (n: nat)
    requires i <= |s|
    ensures i + n <= |s|
    ensures forall j :: i <= j < i + n ==> IsDigit(s[j])
    ensures i + n == |s| || !IsDigit(s[i + n])
    decreases |s| - i
  {
    if i < |s| && IsDigit(s[i]) then 1 + DigitRun(s, i + 1) else 0
  }

  /** The unanchored patterns searched for in a cell. */
  datatype Pattern =
    | Icd10   // [A-Z]\d+(\.[-\d+])?
    | MeshId  // [CD]\d+
    | Digits  // \d+
    | HgncId  // HGNC:(\d+)

  /** The character class `[-\d+]` of the ICD-10 suffix. */
  predicate IsIcd10SuffixChar(c: char) { c == '-' || IsDigit(c) || c == '+' }

  /** Whether a match of `p` starts at `i`. */
  predicate MatchesAt(p: Pattern, s: string, i: nat)
  {
    match p
    case Icd10 => i + 1 < |s| && IsAsciiUpper(s[i]) && IsDigit(s[i + 1])
    case MeshId => i + 1 < |s| && (s[i] == 'C' || s[i] == 'D') && IsDigit(s[i + 1])
    case Digits => i < |s| && IsDigit(s[i])
    case HgncId => i + 5 < |s| && s[i..i + 5] == "HGNC:" && IsDigit(s[i + 5])
  }

  /** Where the match starting at `i` ends: greedy repetition, then the optional group when it fits. */
  function MatchEnd(p: Pattern, s: string, i: nat): (e: nat)
    requires MatchesAt(p, s, i)
    ensures i < e <= |s|
  {
    match p
    case Icd10 =>
      var j := i + 1 + DigitRun(s, i + 1);
      if j + 1 < |s| && s[j] == '.' && IsIcd10SuffixChar(s[j + 1]) then j + 2 else j
    case MeshId => i + 1 + DigitRun(s, i + 1)
    case Digits => i + DigitRun(s, i)
    case HgncId => i + 5 + DigitRun(s, i + 5)
  }

  /** The first position at or after `k` where a match starts. */
  function Leftmost(p: Pattern, s: string, k: nat): (r: Option<nat>)
    requires k <= |s|
    ensures r.Some? ==> k <= r.value < |s| && MatchesAt(p, s, r.value)
    ensures r.Some? ==> forall j :: k <= j < r.value ==> !MatchesAt(p, s, j)
    ensures r.None? ==> forall j :: k <= j ==> !MatchesAt(p, s, j)
    decreases |s| - k
  {
    if k == |s| then None
    else if MatchesAt(p, s, k) then Some(k)
    else Leftmost(p, s, k + 1)
  }

  /** `Regex::captures(..)` followed by `caps[0]`: the text of the leftmost match, if any. */
  function Find(p: Pattern, s: string): (r: Option<string>)
    ensures r.Some? <==> exists i :: MatchesAt(p, s, i)
    ensures r.Some? ==> var i := Leftmost(p, s, 0).value; r.value == s[i..MatchEnd(p, s, i)]
  {
    match Leftmost(p, s, 0)
    case None => None
    case Some(i) => Some(s[i..MatchEnd(p, s, i)])
  }

  /** Whatever position holds the first match, `Find` returns that match's text. */
  lemma FindFirstMatch(p: Pattern, s: string, i: nat)
    requires MatchesAt(p, s, i) && forall j :: 0 <= j < i ==> !MatchesAt(p, s, j)
    ensures Find(p, s) == Some(s[i..MatchEnd(p, s, i)])
  {
    var k := Leftmost(p, s, 0).value;
    assert !(k < i) && !(i < k);
  }

  /** The leftmost run of digits (`\d+`) is non-empty, all digits, preceded by no digit and not followed by one. */
  lemma FindDigits(s: string)
    requires Find(Digits, s).Some?
    ensures var t := Find(Digits, s).value; t != [] && AllDigits(t)
    ensures var i := Leftmost(Digits, s, 0).value; var t := Find(Digits, s).value;
      i + |t| <= |s| && t == s[i..i + |t|]
    ensures var i := Leftmost(Digits, s, 0).value; forall j :: 0 <= j < i ==> !IsDigit(s[j])
    ensures var i := Leftmost(Digits, s, 0).value; var t := Find(Digits, s).value;
      i + |t| == |s| || !IsDigit(s[i + |t|])
  {
    var i := Leftmost(Digits, s, 0).value;
    var e := MatchEnd(Digits, s, i);
    var t := s[i..e];
    assert Find(Digits, s).value == t;
    forall j | 0 <= j < i
      ensures !IsDigit(s[j])
    {
      assert !MatchesAt(Digits, s, j);
    }
    assert forall k :: 0 <= k < |t| ==> t[k] == s[i + k];
    assert |t| == e - i;
  }

  /** The shape of a whole ICD-10 match: a capital, digits, then possibly `.` and one of `-`, a digit, `+`. */
  predicate Icd10Code(t: string)
  {
    |t| >= 2 && IsAsciiUpper(t[0]) && IsDigit(t[1]) &&
    (AllDigits(t[1..]) || (|t| >= 4 && AllDigits(t[1..|t| - 2]) && t[|t| - 2] == '.' && IsIcd10SuffixChar(t[|t| - 1])))
  }

  /** The shape of a whole MeSH match: `C` or `D` followed by digits only. */
  predicate MeshCode(t: string)
  {
    |t| >= 2 && (t[0] == 'C' || t[0] == 'D') && AllDigits(t[1..])
  }

  /** An ICD-10 code found by the pattern has the code's shape. */
  lemma FindIcd10(s: string)
    requires Find(Icd10, s).Some?
    ensures Icd10Code(Find(Icd10, s).value)
  {
    var i := Leftmost(Icd10, s, 0).value;
    var j := i + 1 + DigitRun(s, i + 1);
    var t := Find(Icd10, s).value;
    assert t == s[i..MatchEnd(Icd10, s, i)];
    assert forall k :: 1 <= k < j - i ==> t[k] == s[i + k];
    if MatchEnd(Icd10, s, i) == j {
      assert t[1..] == s[i + 1..j];
    } else {
      assert t[1..|t| - 2] == s[i + 1..j];
    }
  }

  /** A MeSH identifier found by the pattern has the identifier's shape. */
  lemma FindMesh(s: string)
    requires Find(MeshId, s).Some?
    ensures MeshCode(Find(MeshId, s).value)
  {
    var i := Leftmost(MeshId, s, 0).value;
    var t := Find(MeshId, s).value;
    assert t[1..] == s[i + 1..MatchEnd(MeshId, s, i)];
  }

  /** The captured group of `HGNC:(\d+)`: the digits after the leftmost `HGNC:` that is followed by a digit. */
  function HgncNumber(s: string): (r: Option<string>)
    ensures r.Some? <==> exists i :: MatchesAt(HgncId, s, i)
    ensures r.Some? ==> r.value != [] && AllDigits(r.value)
    ensures r.Some? ==> var i := Leftmost(HgncId, s, 0).value; r.value == s[i + 5..MatchEnd(HgncId, s, i)]
  {
    match Leftmost(HgncId, s, 0)
    case None => None
    case Some(i) => Some(s[i + 5..MatchEnd(HgncId, s, i)])
  }

  /** Whatever position holds the first `HGNC:<digit>`, the capture is the digit run after that `HGNC:`. */
  lemma HgncNumberFirstMatch(s: string, i: nat)
    requires MatchesAt(HgncId, s, i) && forall j :: 0 <= j < i ==> !MatchesAt(HgncId, s, j)
    ensures HgncNumber(s) == Some(s[i + 5..MatchEnd(HgncId, s, i)])
  {
    var k := Leftmost(HgncId, s, 0).value;
    assert !(k < i) && !(i < k);
  }

  /** `^[CN]+\d{4,7}$`: one or more of `C`/`N`, then four to seven digits, and nothing else. */
  predicate IsMedGenCid(s: string)
  {
    exists k :: 1 <= k <= |s| && (forall j :: 0 <= j < k ==> s[j] == 'C' || s[j] == 'N') &&
      AllDigits(s[k..]) && 4 <= |s| - k <= 7
  }

  /** The length of the leading run of `C`/`N`. */
  function LetterRun(s: string): (n: nat)
    ensures n <= |s|
    ensures forall j :: 0 <= j < n ==> s[j] == 'C' || s[j] == 'N'
    ensures n == |s| || (s[n] != 'C' && s[n] != 'N')
  {
    if s != [] && (s[0] == 'C' || s[0] == 'N') then 1 + LetterRun(s[1..]) else 0
  }

  /** A decision procedure for `IsMedGenCid`: letters and digits do not overlap, so the split point is the letter run. */
  predicate MedGenCid(s: string)
  {
    var k := LetterRun(s);
    1 <= k && AllDigits(s[k..]) && 4 <= |s| - k <= 7
  }

  lemma MedGenCidDecides(s: string)
    ensures MedGenCid(s) <==> IsMedGenCid(s)
  {
    var k := LetterRun(s);
    if MedGenCid(s) {
      assert 1 <= k <= |s| && (forall j :: 0 <= j < k ==> s[j] == 'C' || s[j] == 'N') &&
        AllDigits(s[k..]) && 4 <= |s| - k <= 7;
    }
    if IsMedGenCid(s) {
      var k' :| 1 <= k' <= |s| && (forall j :: 0 <= j < k' ==> s[j] == 'C' || s[j] == 'N') &&
        AllDigits(s[k'..]) && 4 <= |s| - k' <= 7;
      assert IsDigit(s[k']) by {
        assert s[k'..][0] == s[k'];
      }
      assert k < |s| ==> s[k] != 'C' && s[k] != 'N';
      assert k' == k;
    }
  }

  /** `^\d{4,7}$`. */
  predicate IsMedGenUid(s: string) { AllDigits(s) && 4 <= |s| <= 7 }

  /** `^PS\d+$`. */
  predicate IsOmimPs(s: string) { |s| >= 3 && s[..2] == "PS" && AllDigits(s[2..]) }

  /** `^\d+$`. */
  predicate IsOmimNumber(s: string) { |s| >= 1 && AllDigits(s) }

  /**
   * `^"?(.*)"?$` and its group: `.` stops at a line feed and `$` is the end
   * of the text, so the pattern matches exactly the texts without a line
   * feed, and the group is the text less an optional leading quote.
   */
  function AliasGroup(s: string): (r: Option<string>)
    ensures r.Some? <==> '\n' !in s
    ensures r.Some? && s != [] && s[0] == '"' ==> r.value == s[1..]
    ensures r.Some? && (s == [] || s[0] != '"') ==> r.value == s
  {
    if '\n' in s then None
    else if s != [] && s[0] == '"' then Some(s[1..])
    else Some(s)
  }
}
