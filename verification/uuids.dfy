/**
 * Entity UUIDs as the server writes and reads them: `uuid.hex` (32
 * lower-case hex digits) when saving, `uuid.UUID(s)` when loading
 * (server/entitybasic.py), and the client's `dialoguechoose|<hex>|...`.
 */
module Uuids {
  import opened Wrappers
  import opened Json
  import opened Text

  /** 16 to the power `n`. */
  function Pow16(n: nat): (p: nat)
    ensures p >= 1
  {
    if n == 0 then 1 else 16 * Pow16(n - 1)
  }

  const UUID_LIMIT: nat := 0x1_0000_0000_0000_0000_0000_0000_0000_0000

  /** A UUID as its 128-bit integer value. */
  type Uuid = u: nat | u < UUID_LIMIT

  /** A digit or one of a to f: what `uuid.hex` writes. */
  predicate IsLowerHex(c: char)
  {
    '0' <= c <= '9' || 'a' <= c <= 'f'
  }

  /** The lower-case hex digit for a value below 16. */
  function HexChar(d: nat): (c: char)
    requires d < 16
    ensures IsLowerHex(c)
  {
    if d < 10 then ('0' as int + d) as char else ('a' as int + d - 10) as char
  }

  /** The last `n` hex digits of `u`, most significant first, zero-padded. */
  function HexDigits(u: nat, n: nat): (s: string)
    ensures |s| == n
    ensures forall i :: 0 <= i < |s| ==> IsLowerHex(s[i])
  {
    if n == 0 then "" else HexDigits(u / 16, n - 1) + [HexChar(u % 16)]
  }

  /** `uuid.hex`. */
  function Hex(u: Uuid): (s: string)
    ensures |s| == 32 && '-' !in s && '|' !in s
    ensures forall i :: 0 <= i < |s| ==> IsLowerHex(s[i])
  {
    HexDigits(u, 32)
  }

  /** The value of one hex digit of either case. */
  function DigitValue(c: char): (r: Option<nat>)
    ensures r.Some? ==> r.value < 16
  {
    if '0' <= c <= '9' then Some(c as nat - '0' as nat)
    else if 'a' <= c <= 'f' then Some(c as nat - 'a' as nat + 10)
    else if 'A' <= c <= 'F' then Some(c as nat - 'A' as nat + 10)
    else None
  }

  /** `int(s, 16)` on a string of plain hex digits; None on any other character. */
  function ParseHex(s: string): (r: Option<nat>)
    ensures r.Some? ==> r.value < Pow16(|s|)
  {
    if |s| == 0 then Some(0)
    else match (ParseHex(s[..|s| - 1]), DigitValue(s[|s| - 1]))
      case (Some(hi), Some(d)) => Some(hi * 16 + d)
      case _ => None
  }

  /** `s.replace(c, "")`: every `c` dropped, the rest kept in order. */
  function WithoutChar(s: string, c: char): (r: string)
    ensures c !in r
    ensures |r| <= |s|
  {
    if |s| == 0 then ""
    else if s[0] == c then WithoutChar(s[1..], c)
    else [s[0]] + WithoutChar(s[1..], c)
  }

  /**
   * `s.replace(pat, "")` for a non-empty `pat`: occurrences are found from
   * the left, without overlapping, and dropped.
   */
  function RemoveAll(s: string, pat: string): (r: string)
    requires |pat| > 0
    ensures |r| <= |s|
    decreases |s|
  {
    if |s| < |pat| then s
    else if s[0] == pat[0] && s[..|pat|] == pat then RemoveAll(s[|pat|..], pat)
    else [s[0]] + RemoveAll(s[1..], pat)
  }

  predicate IsBrace(c: char)
  {
    c == '{' || c == '}'
  }

  /** `s.strip("{}")`: braces dropped from both ends. */
  function StripBraces(s: string): (r: string)
    ensures |r| <= |s|
  {
    StripBack(StripFront(s))
  }

  function StripFront(s: string): (r: string)
    ensures |r| <= |s|
    ensures |r| > 0 ==> !IsBrace(r[0])
    decreases |s|
  {
    if |s| > 0 && IsBrace(s[0]) then StripFront(s[1..]) else s
  }

  function StripBack(s: string): (r: string)
    ensures |r| <= |s|
    ensures |r| > 0 ==> !IsBrace(r[|r| - 1])
    decreases |s|
  {
    if |s| > 0 && IsBrace(s[|s| - 1]) then StripBack(s[..|s| - 1]) else s
  }

  /**
   * What `uuid.UUID` keeps of its argument before counting: `urn:` and
   * `uuid:` removed wherever they occur, braces stripped from both ends,
   * then every hyphen dropped.
   */
  function Normalised(s: string): string
  {
    WithoutChar(StripBraces(Unprefixed(s)), '-')
  }

  /** `s.replace('urn:', '').replace('uuid:', '')`. */
  function Unprefixed(s: string): string
  {
    RemoveAll(RemoveAll(s, "urn:"), "uuid:")
  }

  /**
   * Python's rule for the digits of `int(t, 16)`: at least one, never two
   * underscores in a row, none at the end, and one at the front only right
   * after a `0x` prefix.
   */
  predicate Underscored(t: string, prefixed: bool)
  {
    |t| > 0 && t[|t| - 1] != '_' && (t[0] == '_' ==> prefixed) && NoDoubleUnderscore(t)
  }

  predicate NoDoubleUnderscore(t: string)
    decreases |t|
  {
    |t| < 2 || (!(t[0] == '_' && t[1] == '_') && NoDoubleUnderscore(t[1..]))
  }

  lemma {:induction false} NoUnderscoreAtAll(t: string)
    requires '_' !in t
    ensures NoDoubleUnderscore(t)
    decreases |t|
  {
    if |t| >= 2 {
      assert '_' !in t[1..];
      NoUnderscoreAtAll(t[1..]);
    }
  }

  /**
   * `int(s, 16)`: white space around an optional sign, an optional `0x` or
   * `0X` prefix, then hex digits of either case with single underscores
   * between them; None (ValueError) on anything else.
   */
  function PyHexInt(s: string): Option<int>
  {
    SignedHex(TrimEnd(TrimStart(s)))
  }

  /** An optional sign, then the digits. */
  function SignedHex(t: string): Option<int>
  {
    var signed := |t| > 0 && (t[0] == '+' || t[0] == '-');
    match PrefixedHex(if signed then t[1..] else t)
    case Some(v) => Some(if signed && t[0] == '-' then -(v as int) else v as int)
    case None => None
  }

  /** An optional `0x` or `0X`, then hex digits with single underscores between them. */
  function PrefixedHex(body: string): Option<nat>
  {
    var prefixed := |body| >= 2 && body[0] == '0' && (body[1] == 'x' || body[1] == 'X');
    var digits := if prefixed then body[2..] else body;
    if Underscored(digits, prefixed) then ParseHex(WithoutChar(digits, '_')) else None
  }

  /**
   * `uuid.UUID(value)`: after `Normalised`, exactly 32 characters are
   * required, `int(..., 16)` must read them, and the value must fit in 128
   * bits (ValueError otherwise). A JSON null is refused with TypeError
   * (no argument given) and any other non-string with AttributeError (it
   * has no `replace`).
   */
  function ParseUuid(j: Json): (r: Result<Uuid>)
    ensures j.JNull? ==> r == Err(TypeError)
    ensures !j.JNull? && !j.JStr? ==> r == Err(AttributeError)
    ensures r.Ok? ==> j.JStr? && |Normalised(j.s)| == 32 && PyHexInt(Normalised(j.s)) == Some(r.value as int)
    ensures j.JStr? && (|Normalised(j.s)| != 32 || PyHexInt(Normalised(j.s)).None?) ==> r == Err(ValueError)
  {
    if j.JNull? then Err(TypeError)
    else if !j.JStr? then Err(AttributeError)
    else
      var digits := Normalised(j.s);
      if |digits| != 32 then Err(ValueError)
      else match PyHexInt(digits)
        case Some(v) => if 0 <= v < UUID_LIMIT then Ok(v) else Err(ValueError)
        case None => Err(ValueError)
  }

  lemma {:induction false} DigitValueOfHex(d: nat)
    requires d < 16
    ensures DigitValue(HexChar(d)) == Some(d)
  {
  }

  /** Reading back `n` written digits gives the value, when it fits in `n` digits. */
  lemma {:induction false} ParseHexDigits(u: nat, n: nat)
    requires u < Pow16(n)
    ensures ParseHex(HexDigits(u, n)) == Some(u)
  {
    if n > 0 {
      var s := HexDigits(u, n);
      assert s[..|s| - 1] == HexDigits(u / 16, n - 1);
      assert s[|s| - 1] == HexChar(u % 16);
      var hi, d := DivDigit(u, n);
      ParseHexDigits(hi, n - 1);
      DigitValueOfHex(d);
      ParseHexStep(s, hi, d, u);
    }
  }

  /** Dropping the last hex digit of a value below 16 to the `n`. */
  lemma DivDigit(u: nat, n: nat) returns (hi: nat, d: nat)
    requires n > 0 && u < Pow16(n)
    ensures hi == u / 16 && d == u % 16
    ensures hi < Pow16(n - 1) && d < 16 && u == hi * 16 + d
  {
    hi, d := u / 16, u % 16;
  }

  /** `ParseHex` reads the front, then the last digit. */
  lemma ParseHexStep(s: string, hi: nat, d: nat, v: nat)
    requires |s| > 0 && ParseHex(s[..|s| - 1]) == Some(hi) && DigitValue(s[|s| - 1]) == Some(d)
    requires v == hi * 16 + d
    ensures ParseHex(s) == Some(v)
  {
  }

  lemma {:induction false} WithoutCharNone(s: string, c: char)
    requires c !in s
    ensures WithoutChar(s, c) == s
  {
    if |s| > 0 {
      WithoutCharNone(s[1..], c);
      assert [s[0]] + s[1..] == s;
    }
  }

  /** A pattern holding a character the text lacks is never found in it. */
  lemma {:induction false} RemoveAllNone(s: string, pat: string, c: char)
    requires |pat| > 0 && c in pat && c !in s
    ensures RemoveAll(s, pat) == s
    decreases |s|
  {
    if |s| >= |pat| {
      assert c !in s[..|pat|];
      RemoveAllNone(s[1..], pat, c);
      assert [s[0]] + s[1..] == s;
    }
  }

  /** A leading occurrence is dropped. */
  lemma RemoveAllFront(pat: string, s: string)
    requires |pat| > 0
    ensures RemoveAll(pat + s, pat) == RemoveAll(s, pat)
  {
    assert (pat + s)[..|pat|] == pat;
    assert (pat + s)[|pat|..] == s;
  }

  /** A character put in front of a text `replace` leaves alone is kept when no match starts at it. */
  lemma RemoveAllKeep(c: char, t: string, pat: string)
    requires |pat| >= 2 && |t| + 1 >= |pat| && RemoveAll(t, pat) == t
    requires c != pat[0] || t[0] != pat[1]
    ensures RemoveAll([c] + t, pat) == [c] + t
  {
    assert ([c] + t)[1..] == t;
    assert ([c] + t)[..|pat|][1] == t[0];
  }

  /** Plain lower-case hex digits have no prefix and no underscore to skip. */
  lemma PrefixedPlain(h: string)
    requires |h| >= 2 && forall i :: 0 <= i < |h| ==> IsLowerHex(h[i])
    ensures PrefixedHex(h) == ParseHex(h)
  {
    assert '_' !in h;
    NoUnderscoreAtAll(h);
    WithoutCharNone(h, '_');
    assert IsLowerHex(h[1]) && IsLowerHex(h[|h| - 1]);
  }

  /** A string of lower-case hex digits is read by `int(..., 16)` as plain digits. */
  lemma PyHexIntPlain(h: string)
    requires |h| >= 2 && forall i :: 0 <= i < |h| ==> IsLowerHex(h[i])
    ensures PyHexInt(h) == if ParseHex(h).Some? then Some(ParseHex(h).value as int) else None
  {
    PrefixedPlain(h);
    UnsignedPlain(h);
  }

  /** Text that starts and ends with a hex digit is read without trimming or a sign. */
  lemma UnsignedPlain(h: string)
    requires |h| >= 2 && IsLowerHex(h[0]) && IsLowerHex(h[|h| - 1])
    ensures PyHexInt(h) == if PrefixedHex(h).Some? then Some(PrefixedHex(h).value as int) else None
  {
    TrimNothing(h);
  }

  lemma {:induction false} Pow16Add(a: nat, b: nat)
    ensures Pow16(a + b) == Pow16(a) * Pow16(b)
  {
    if a > 0 {
      Pow16Add(a - 1, b);
      assert Pow16(a + b) == 16 * Pow16(a - 1 + b);
      assert 16 * (Pow16(a - 1) * Pow16(b)) == (16 * Pow16(a - 1)) * Pow16(b);
    }
  }

  /** 16 to the 32nd is the number of 128-bit values. */
  lemma Pow16Of32()
    ensures Pow16(32) == UUID_LIMIT
  {
    assert Pow16(4) == 0x1_0000;
    Pow16Add(4, 4);
    Pow16Add(8, 8);
    Pow16Add(16, 16);
  }

  /** Lower-case hex digits are already what `uuid.UUID` keeps of them. */
  lemma NormalisedPlain(h: string)
    requires |h| > 0 && forall i :: 0 <= i < |h| ==> IsLowerHex(h[i])
    ensures Unprefixed(h) == h && Normalised(h) == h
  {
    assert ':' !in h;
    RemoveAllNone(h, "urn:", ':');
    RemoveAllNone(h, "uuid:", ':');
    NormalisedOf(h, h);
  }

  /** Once the prefixes are gone, plain hex digits are kept as they are. */
  lemma NormalisedOf(s: string, h: string)
    requires |h| > 0 && forall i :: 0 <= i < |h| ==> IsLowerHex(h[i])
    requires Unprefixed(s) == h
    ensures Normalised(s) == h
  {
    assert IsLowerHex(h[0]) && IsLowerHex(h[|h| - 1]);
    assert StripBraces(h) == h;
    assert '-' !in h;
    WithoutCharNone(h, '-');
  }

  /** `uuid.UUID` of a string whose normalised form is read as a 128-bit value. */
  lemma ParseUuidOf(s: string, v: int)
    requires |Normalised(s)| == 32 && PyHexInt(Normalised(s)) == Some(v) && 0 <= v < UUID_LIMIT
    ensures ParseUuid(JStr(s)) == Ok(v)
  {
  }

  /** 32 lower-case hex digits are read by `uuid.UUID` as their value. */
  lemma PlainParses(h: string, v: nat)
    requires |h| == 32 && forall i :: 0 <= i < |h| ==> IsLowerHex(h[i])
    requires ParseHex(h) == Some(v) && v < UUID_LIMIT
    ensures ParseUuid(JStr(h)) == Ok(v)
  {
    NormalisedPlain(h);
    PyHexIntPlain(h);
    ParseUuidOf(h, v);
  }

  /** Saving a UUID as `uuid.hex` and loading it with `uuid.UUID` gives it back. */
  lemma HexRoundTrip(u: Uuid)
    ensures ParseUuid(JStr(Hex(u))) == Ok(u)
  {
    Pow16Of32();
    ParseHexDigits(u, 32);
    PlainParses(Hex(u), u);
  }

  /** Removing `urn:` from `urn:uuid:` and a text without colons leaves `uuid:` and the text. */
  lemma RemoveUrn(h: string)
    requires |h| >= 4 && ':' !in h
    ensures RemoveAll("urn:uuid:" + h, "urn:") == "uuid:" + h
  {
    var s := "urn:uuid:" + h;
    assert s[..4] == "urn:" && s[4..] == "uuid:" + h;
    assert RemoveAll(s, "urn:") == RemoveAll(s[4..], "urn:");
    UuidKept(h);
  }

  /** `urn:` does not occur in `uuid:` and a text without colons. */
  lemma UuidKept(h: string)
    requires |h| >= 4 && ':' !in h
    ensures RemoveAll("uuid:" + h, "urn:") == "uuid:" + h
  {
    var t := "id:" + h;
    assert RemoveAll(['u'] + t, "urn:") == ['u'] + t by {
      IdKept(h);
      RemoveAllKeep('u', t, "urn:");
    }
    assert RemoveAll(['u'] + (['u'] + t), "urn:") == ['u'] + (['u'] + t) by {
      RemoveAllKeep('u', ['u'] + t, "urn:");
    }
    assert ['u'] + (['u'] + t) == "uuid:" + h;
  }

  /** `urn:` does not occur in `id:` and a text without colons. */
  lemma IdKept(h: string)
    requires |h| >= 4 && ':' !in h
    ensures RemoveAll("id:" + h, "urn:") == "id:" + h
  {
    RemoveAllNone(h, "urn:", ':');
    RemoveAllKeep(':', h, "urn:");
    RemoveAllKeep('d', [':'] + h, "urn:");
    RemoveAllKeep('i', ['d'] + ([':'] + h), "urn:");
    assert ['i'] + (['d'] + ([':'] + h)) == "id:" + h;
  }

  /** `uuid.UUID` drops a leading `urn:uuid:` before counting. */
  lemma UrnNormalised(h: string)
    requires |h| >= 4 && forall i :: 0 <= i < |h| ==> IsLowerHex(h[i])
    ensures Normalised("urn:uuid:" + h) == h
  {
    assert ':' !in h;
    RemoveUrn(h);
    RemoveAllFront("uuid:", h);
    RemoveAllNone(h, "uuid:", ':');
    NormalisedOf("urn:uuid:" + h, h);
  }

  /** `uuid.UUID` strips braces before counting. */
  lemma BracesNormalised(h: string)
    requires |h| > 0 && forall i :: 0 <= i < |h| ==> IsLowerHex(h[i])
    ensures Normalised("{" + h + "}") == h
  {
    var b := "{" + h + "}";
    assert ':' !in b;
    RemoveAllNone(b, "urn:", ':');
    RemoveAllNone(b, "uuid:", ':');
    BracesStripped(h);
    assert '-' !in h;
    WithoutCharNone(h, '-');
  }

  lemma BracesStripped(h: string)
    requires |h| > 0 && IsLowerHex(h[0]) && IsLowerHex(h[|h| - 1])
    ensures StripBraces("{" + h + "}") == h
  {
    var b := "{" + h + "}";
    var t := h + "}";
    assert b[0] == '{' && b[1..] == t;
    assert StripFront(b) == StripFront(t);
    assert t[0] == h[0];
    assert StripFront(t) == t;
    assert t[|t| - 1] == '}' && t[..|t| - 1] == h;
    assert StripBack(t) == StripBack(h);
    assert StripBack(h) == h;
  }

  /**
   * `uuid.UUID` also takes the hex form behind a `urn:uuid:` prefix or
   * between braces.
   */
  lemma WrappedHexRoundTrip(u: Uuid)
    ensures ParseUuid(JStr("urn:uuid:" + Hex(u))) == Ok(u)
    ensures ParseUuid(JStr("{" + Hex(u) + "}")) == Ok(u)
  {
    var h := Hex(u);
    Pow16Of32();
    ParseHexDigits(u, 32);
    PyHexIntPlain(h);
    UrnNormalised(h);
    ParseUuidOf("urn:uuid:" + h, u);
    BracesNormalised(h);
    ParseUuidOf("{" + h + "}", u);
  }

  /**
   * The 32 characters counted need not all be digits: `int(..., 16)` also
   * takes a `+` sign or white space in front of 31 digits.
   */
  lemma LenientPrefix(c: char, h: string, v: nat)
    requires c == '+' || c == ' '
    requires |h| == 31 && forall i :: 0 <= i < |h| ==> IsLowerHex(h[i])
    requires ParseHex(h) == Some(v)
    ensures ParseUuid(JStr([c] + h)) == Ok(v)
  {
    LenientNormalised(c, h);
    LenientReads(c, h);
    PyHexIntPlain(h);
    assert Pow16(32) == 16 * Pow16(31);
    Pow16Of32();
    ParseUuidOf([c] + h, v);
  }

  /** A sign or a space in front of hex digits survives normalising. */
  lemma LenientNormalised(c: char, h: string)
    requires c == '+' || c == ' '
    requires |h| > 0 && forall i :: 0 <= i < |h| ==> IsLowerHex(h[i])
    ensures Normalised([c] + h) == [c] + h
  {
    var s := [c] + h;
    assert s[1..] == h;
    assert ':' !in s && '-' !in s;
    RemoveAllNone(s, "urn:", ':');
    RemoveAllNone(s, "uuid:", ':');
    assert IsLowerHex(s[|s| - 1]);
    assert StripBraces(s) == s;
    WithoutCharNone(s, '-');
  }

  /** `int(..., 16)` skips a leading space and accepts a leading `+`. */
  lemma LenientReads(c: char, h: string)
    requires c == '+' || c == ' '
    requires |h| >= 2 && IsLowerHex(h[0]) && IsLowerHex(h[|h| - 1])
    ensures PyHexInt([c] + h) == PyHexInt(h)
  {
    if c == ' ' {
      SpaceReads(h);
    } else {
      PlusReads(h);
    }
  }

  lemma SpaceReads(h: string)
    requires |h| >= 2 && IsLowerHex(h[0]) && IsLowerHex(h[|h| - 1])
    ensures PyHexInt([' '] + h) == PyHexInt(h)
  {
    var s := [' '] + h;
    assert s[1..] == h;
    assert TrimStart(s) == TrimStart(h);
  }

  lemma PlusReads(h: string)
    requires |h| >= 2 && IsLowerHex(h[0]) && IsLowerHex(h[|h| - 1])
    ensures PyHexInt(['+'] + h) == PyHexInt(h)
  {
    var s := ['+'] + h;
    assert s[|s| - 1] == h[|h| - 1];
    UntrimmedReads(s);
    UntrimmedReads(h);
    PlusSigned(h);
  }

  /** Text with no white space at either end is read as it stands. */
  lemma UntrimmedReads(s: string)
    requires |s| > 0 && !IsSpace(s[0]) && !IsSpace(s[|s| - 1])
    ensures PyHexInt(s) == SignedHex(s)
  {
    TrimNothing(s);
  }

  /** A `+` before a hex digit changes nothing. */
  lemma PlusSigned(h: string)
    requires |h| > 0 && IsLowerHex(h[0])
    ensures SignedHex(['+'] + h) == SignedHex(h)
  {
    assert (['+'] + h)[1..] == h;
  }

  /** Distinct UUIDs have distinct hex forms. */
  lemma HexInjective(u: Uuid, v: Uuid)
    ensures Hex(u) == Hex(v) ==> u == v
  {
    HexRoundTrip(u);
    HexRoundTrip(v);
  }
}
