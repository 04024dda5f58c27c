/**
 * Character classes and string helpers shared by the validators, the
 * sanitisers and the query filters. A `char` is a Unicode scalar value; where
 * the code measures a string with `.length` (directly or through a schema's
 * `min`/`max`) the model uses `Utf16Length`, which counts UTF-16 code units as
 * JavaScript does. Case folding is the ASCII folding that a non-unicode
 * regular expression with the `i` flag and an ASCII pattern performs.
 */
module Strings {
  import opened Wrappers

  predicate IsUpper(c: char) { 'A' <= c <= 'Z' }
  predicate IsLower(c: char) { 'a' <= c <= 'z' }
  predicate IsDigit(c: char) { '0' <= c <= '9' }
  predicate IsAlnum(c: char) { IsUpper(c) || IsLower(c) || IsDigit(c) }
  /** The regular-expression class `\w`. */
  predicate IsWordChar(c: char) { IsAlnum(c) || c == '_' }
  /** `[0-9A-F]` under the `i` flag. */
  predicate IsHexDigit(c: char) { IsDigit(c) || 'a' <= c <= 'f' || 'A' <= c <= 'F' }

  /**
   * The white space that `String.prototype.trim` removes and that the class
   * `\s` matches: the ECMAScript WhiteSpace and LineTerminator code points.
   */
  predicate IsSpace(c: char) {
    var n := c as int;
    (9 <= n <= 13) || n == 32 || n == 0xA0 || n == 0x1680 || (0x2000 <= n <= 0x200A)
    || n == 0x2028 || n == 0x2029 || n == 0x202F || n == 0x205F || n == 0x3000 || n == 0xFEFF
  }

  function Lower(c: char): (r: char)
    ensures IsUpper(c) ==> IsLower(r) && r as int == c as int + 32
    ensures !IsUpper(c) ==> r == c
  {
    if IsUpper(c) then (c as int + 32) as char else c
  }

  function LowerStr(s: string): (r: string)
    ensures |r| == |s|
    ensures forall i :: 0 <= i < |s| ==> r[i] == Lower(s[i])
  {
    seq(|s|, i requires 0 <= i < |s| => Lower(s[i]))
  }

  predicate StartsWith(s: string, p: string) {
    |p| <= |s| && s[..|p|] == p
  }

  predicate EndsWith(s: string, p: string) {
    |p| <= |s| && s[|s| - |p|..] == p
  }

  /** `s` begins with `p`, ignoring ASCII case. */
  predicate StartsWithCI(s: string, p: string) {
    |p| <= |s| && LowerStr(s[..|p|]) == LowerStr(p)
  }

  /** One differing character (ignoring case) rules a prefix out. */
  lemma StartsWithCIMismatch(s: string, p: string, k: nat)
    requires k < |p| <= |s| && Lower(s[k]) != Lower(p[k])
    ensures !StartsWithCI(s, p)
  {
    assert LowerStr(s[..|p|])[k] == Lower(s[k]);
  }

  /** `p` occurs in `s` at index `i`. */
  predicate OccursAt(s: string, p: string, i: int) {
    0 <= i <= |s| - |p| && s[i..i + |p|] == p
  }

  predicate Contains(s: string, p: string) {
    exists i | 0 <= i <= |s| - |p| :: OccursAt(s, p, i)
  }

  /** `s` contains `p`, ignoring ASCII case (SQL `ilike '%p%'` without wildcards in p). */
  predicate ContainsCI(s: string, p: string) {
    exists i | 0 <= i <= |s| :: StartsWithCI(s[i..], p)
  }

  /** The least index at or after `from` where `p` occurs in `s` ignoring case. */
  function FindCI(s: string, p: string, from: nat): (r: Option<nat>)
    requires from <= |s|
    ensures r.Some? ==> from <= r.value && r.value + |p| <= |s| && StartsWithCI(s[r.value..], p)
    ensures r.Some? ==> forall k :: from <= k < r.value ==> !StartsWithCI(s[k..], p)
    ensures r.None? ==> forall k :: from <= k <= |s| ==> !StartsWithCI(s[k..], p)
    decreases |s| - from
  {
    if StartsWithCI(s[from..], p) then Some(from)
    else if from == |s| then None
    else FindCI(s, p, from + 1)
  }

  /** When `p` does not occur in `s`, it neither begins `s` nor occurs in its tail. */
  lemma NotContainsCITail(s: string, p: string)
    requires !ContainsCI(s, p)
    ensures !StartsWithCI(s, p)
    ensures s != [] ==> !ContainsCI(s[1..], p)
  {
    assert s[0..] == s;
    if s != [] {
      forall i | 0 <= i <= |s[1..]| ensures !StartsWithCI(s[1..][i..], p) {
        assert s[1..][i..] == s[i + 1..];
      }
    }
  }

  function TrimStart(s: string): (r: string)
    ensures |r| <= |s| && r == s[|s| - |r|..]
    ensures r == [] || !IsSpace(r[0])
    ensures forall i :: 0 <= i < |s| - |r| ==> IsSpace(s[i])
  {
    if s != [] && IsSpace(s[0]) then TrimStart(s[1..]) else s
  }

  function TrimEnd(s: string): (r: string)
    ensures |r| <= |s| && r == s[..|r|]
    ensures r == [] || !IsSpace(r[|r| - 1])
    ensures forall i :: |r| <= i < |s| ==> IsSpace(s[i])
  {
    if s != [] && IsSpace(s[|s| - 1]) then TrimEnd(s[..|s| - 1]) else s
  }

  /** `String.prototype.trim`. */
  function Trim(s: string): (r: string)
    ensures |r| <= |s|
    ensures r == [] || (!IsSpace(r[0]) && !IsSpace(r[|r| - 1]))
  {
    TrimEnd(TrimStart(s))
  }

  lemma {:induction false} TrimStartNoop(s: string)
    requires s == [] || !IsSpace(s[0])
    ensures TrimStart(s) == s
  {
  }

  lemma {:induction false} TrimEndNoop(s: string)
    requires s == [] || !IsSpace(s[|s| - 1])
    ensures TrimEnd(s) == s
  {
  }

  /** Trimming a string without surrounding white space changes nothing. */
  lemma TrimNoop(s: string)
    requires s == [] || (!IsSpace(s[0]) && !IsSpace(s[|s| - 1]))
    ensures Trim(s) == s
  {
    TrimStartNoop(s);
    TrimEndNoop(s);
  }

  /** `trim` is idempotent. */
  lemma TrimIdempotent(s: string)
    ensures Trim(Trim(s)) == Trim(s)
  {
    TrimNoop(Trim(s));
  }

  /** The first occurrence of `p` in `s` (exact case), if any. */
  function IndexOf(s: string, p: string, from: nat): (r: Option<nat>)
    requires from <= |s|
    ensures r.Some? ==> from <= r.value && r.value + |p| <= |s| && s[r.value..r.value + |p|] == p
    ensures r.Some? ==> forall k :: from <= k < r.value ==> !StartsWith(s[k..], p)
    ensures r.None? ==> forall k :: from <= k <= |s| ==> !StartsWith(s[k..], p)
    decreases |s| - from
  {
    if StartsWith(s[from..], p) then Some(from)
    else if from == |s| then None
    else IndexOf(s, p, from + 1)
  }

  /** `p` occurs at `i` and nowhere before it. */
  predicate FirstOccurrence(s: string, p: string, i: int) {
    OccursAt(s, p, i) && forall k | 0 <= k < i :: !OccursAt(s, p, k)
  }

  lemma OccursAtIffStartsWith(s: string, p: string, k: nat)
    requires k <= |s|
    ensures OccursAt(s, p, k) <==> StartsWith(s[k..], p)
  {
    if |p| <= |s| - k {
      assert s[k..][..|p|] == s[k..k + |p|];
    }
  }

  /** A string that contains `p` has a first occurrence of it. */
  lemma {:induction false} FirstOccurrenceExists(s: string, p: string)
    requires Contains(s, p)
    ensures exists i | 0 <= i <= |s| - |p| :: FirstOccurrence(s, p, i)
  {
    var j := IndexOf(s, p, 0);
    var w :| 0 <= w <= |s| - |p| && OccursAt(s, p, w);
    OccursAtIffStartsWith(s, p, w);
    forall k | 0 <= k < j.value ensures !OccursAt(s, p, k) {
      OccursAtIffStartsWith(s, p, k);
    }
    assert FirstOccurrence(s, p, j.value);
  }

  /** `String.prototype.replace` with a string pattern: only the first occurrence is replaced. */
  function ReplaceFirst(s: string, p: string, rep: string): (r: string)
    ensures !Contains(s, p) ==> r == s
    ensures forall i :: FirstOccurrence(s, p, i) ==> r == s[..i] + rep + s[i + |p|..]
    ensures |r| == (if Contains(s, p) then |s| - |p| + |rep| else |s|)
  {
    match IndexOf(s, p, 0)
    case None =>
      assert !Contains(s, p) by {
        forall k | 0 <= k <= |s| - |p| ensures !OccursAt(s, p, k) {
          OccursAtIffStartsWith(s, p, k);
        }
      }
      s
    case Some(j) =>
      forall k | 0 <= k < j ensures !OccursAt(s, p, k) {
        OccursAtIffStartsWith(s, p, k);
      }
      assert OccursAt(s, p, j);
      s[..j] + rep + s[j + |p|..]
  }

  /** A character's width in UTF-16 code units: two outside the Basic Multilingual Plane. */
  function Utf16Width(c: char): nat {
    if c as int >= 0x10000 then 2 else 1
  }

  /** `String.prototype.length`: the number of UTF-16 code units. */
  function Utf16Length(s: string): (n: nat)
    ensures |s| <= n <= 2 * |s|
    ensures n == |s| <==> forall i :: 0 <= i < |s| ==> s[i] as int < 0x10000
  {
    if s == [] then 0
    else
      var rest := Utf16Length(s[1..]);
      assert forall i :: 1 <= i < |s| ==> s[1..][i - 1] == s[i];
      Utf16Width(s[0]) + rest
  }

  /** Decimal rendering of a natural number. */
  function NatToString(n: nat): (r: string)
    ensures |r| >= 1
    ensures forall i :: 0 <= i < |r| ==> IsDigit(r[i])
  {
    var d := ['0' + (n % 10) as char];
    if n < 10 then d else NatToString(n / 10) + d
  }

  /** The number a string of decimal digits denotes. */
  function DecimalValue(s: string): nat
    requires forall i :: 0 <= i < |s| ==> IsDigit(s[i])
  {
    if s == [] then 0
    else
      assert IsDigit(s[|s| - 1]);
      DecimalValue(s[..|s| - 1]) * 10 + (s[|s| - 1] as int - '0' as int)
  }

  /** The rendering denotes `n` and starts with `0` only for zero itself. */
  lemma {:induction false} NatToStringDenotes(n: nat)
    ensures DecimalValue(NatToString(n)) == n
    ensures NatToString(n)[0] == '0' <==> n == 0
  {
    var r := NatToString(n);
    if n >= 10 {
      NatToStringDenotes(n / 10);
      assert r[..|r| - 1] == NatToString(n / 10);
      assert r[0] == NatToString(n / 10)[0];
    } else {
      assert r[..0] == [];
    }
  }

  /** Different numbers render differently. */
  lemma NatToStringInjective(a: nat, b: nat)
    ensures NatToString(a) == NatToString(b) ==> a == b
  {
    NatToStringDenotes(a);
    NatToStringDenotes(b);
  }
}

/**
 * The parts of a parsed URL that the code reads. Parsing itself (the WHATWG
 * `new URL(...)` constructor) is not modelled: every operation that parses a
 * URL takes the parser as a function parameter, `None` meaning "throws".
 */
module Urls {
  import opened Wrappers
  import opened Strings

  datatype UrlParts = UrlParts(protocol: string, hostname: string, href: string)

  type UrlParser = string -> Option<UrlParts>

  /** `/^https?:\/\//i`: an `http://` or `https://` prefix in any case. */
  predicate HasHttpPrefixCI(s: string) {
    StartsWithCI(s, "http://") || StartsWithCI(s, "https://")
  }
}
