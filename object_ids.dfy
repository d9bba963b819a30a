/**
 * Store identifiers and their string form.
 *
 * The document store generates an identifier for every record; the
 * endpoints hand it to callers as a string (`str(_id)`) and turn that string
 * back into an identifier before updating a slot (`ObjectId(str(...))`).
 * Identifiers are modelled as natural numbers written in lower-case
 * hexadecimal, and the round trip is proved.
 */
module ObjectIds {
  import opened Wrappers

  predicate IsHexChar(c: char) {
    '0' <= c <= '9' || 'a' <= c <= 'f'
  }

  /** The value of one hexadecimal digit, `None` for any other character. */
  function DigitValue(c: char): (r: Option<nat>)
    ensures r.Some? <==> IsHexChar(c)
    ensures r.Some? ==> r.value < 16
  {
    if '0' <= c <= '9' then Some(c as nat - '0' as nat)
    else if 'a' <= c <= 'f' then Some(c as nat - 'a' as nat + 10)
    else None
  }

  /** The digit character for `d`; reading it back gives `d`. */
  function HexDigit(d: nat): (c: char)
    requires d < 16
    ensures IsHexChar(c) && DigitValue(c) == Some(d)
  {
    if d < 10 then ('0' as nat + d) as char else ('a' as nat + d - 10) as char
  }

  /** `str(oid)`: the identifier as a non-empty string of hex digits. */
  function IdString(n: nat): (s: string)
    ensures |s| >= 1
    ensures forall i :: 0 <= i < |s| ==> IsHexChar(s[i])
    decreases n
  {
    if n < 16 then [HexDigit(n)] else IdString(n / 16) + [HexDigit(n % 16)]
  }

  /** `ObjectId(s)`: succeeds exactly on non-empty strings of hex digits. */
  function ParseObjectId(s: string): (r: Option<nat>)
    ensures r.Some? <==> |s| >= 1 && forall i :: 0 <= i < |s| ==> IsHexChar(s[i])
    decreases |s|
  {
    if |s| == 0 then None
    else
      var last := DigitValue(s[|s| - 1]);
      if last.None? then None
      else if |s| == 1 then Some(last.value)
      else
        match ParseObjectId(s[..|s| - 1])
        case None => None
        case Some(p) => Some(p * 16 + last.value)
  }

  /** Parsing the string form of an identifier gives the identifier back. */
  lemma {:induction false} ParseIdString(n: nat)
    ensures ParseObjectId(IdString(n)) == Some(n)
    decreases n
  {
    if n >= 16 {
      ParseIdString(n / 16);
      var s := IdString(n);
      assert s[..|s| - 1] == IdString(n / 16);
      assert DigitValue(s[|s| - 1]) == Some(n % 16);
    }
  }

  /** Distinct identifiers have distinct string forms. */
  lemma IdStringInjective(m: nat, n: nat)
    ensures IdString(m) == IdString(n) ==> m == n
  {
    ParseIdString(m);
    ParseIdString(n);
  }
}
