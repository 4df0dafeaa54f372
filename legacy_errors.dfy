/** The older injector's error codes and how show_error_message reports
    them: the injector's and the game's own codes through a string table,
    anything else through the system's message or a hexadecimal fallback. */
module LegacyErrors {
  import opened Wrappers

  /** A UTF-16 code unit, as a WCHAR holds it. */
  type WChar = x: int | 0 <= x < 0x1_0000

  /** The codes strictly between EC_MIN and 0, in declaration order. */
  datatype ErrorCode =
    | VirtualProtectFailed
    | CreateProcessFailed
    | VirtualAllocFailed
    | WriteProcMemFailed
    | SetThreadCtxFailed
    | SteamApiInitFailed
    | EosAuthLoginFailed

  const EcSuccess: int := 0
  const EcMin: int := -8

  /** The enumerator value: one past EC_MIN for the first, counting up. */
  function CodeOf(e: ErrorCode): int
  {
    match e
    case VirtualProtectFailed => -7
    case CreateProcessFailed => -6
    case VirtualAllocFailed => -5
    case WriteProcMemFailed => -4
    case SetThreadCtxFailed => -3
    case SteamApiInitFailed => -2
    case EosAuthLoginFailed => -1
  }

  /** error_code_strings, one entry per code, in declaration order. */
  const ErrorStrings: seq<string> := [
    "Failed to change PE section protection",
    "Failed to create game process",
    "Failed to allocate memory in game process",
    "Failed to write image to game process",
    "Failed to modify game thread context",
    "Steam API initialization failed",
    "Epic Games authentication failed"]

  /** The message each code is meant to show, stated per code. */
  function Describe(e: ErrorCode): string
  {
    match e
    case VirtualProtectFailed => "Failed to change PE section protection"
    case CreateProcessFailed => "Failed to create game process"
    case VirtualAllocFailed => "Failed to allocate memory in game process"
    case WriteProcMemFailed => "Failed to write image to game process"
    case SetThreadCtxFailed => "Failed to modify game thread context"
    case SteamApiInitFailed => "Steam API initialization failed"
    case EosAuthLoginFailed => "Epic Games authentication failed"
  }

  /** The table lookup of show_error_message: taken for codes strictly
      between EC_MIN and 0, at index code + (number of entries). */
  function TableMessage(code: int): (m: Option<string>)
    ensures m.Some? <==> EcMin < code < EcSuccess
  {
    if code < 0 && code > EcMin then Some(ErrorStrings[code + |ErrorStrings|]) else None
  }

  /** Every declared code takes the table branch, at an index within the
      table, and shows the string declared at its own position. */
  lemma ErrorTableIndex(e: ErrorCode)
    ensures 0 <= CodeOf(e) + |ErrorStrings| < |ErrorStrings|
    ensures TableMessage(CodeOf(e)) == Some(Describe(e))
  {
  }

  /** The table branch is taken by the declared codes and no other. */
  lemma TableCodesDeclared(code: int)
    requires TableMessage(code).Some?
    ensures exists e :: CodeOf(e) == code
  {
    var e := match code
      case -7 => VirtualProtectFailed
      case -6 => CreateProcessFailed
      case -5 => VirtualAllocFailed
      case -4 => WriteProcMemFailed
      case -3 => SetThreadCtxFailed
      case -2 => SteamApiInitFailed
      case _ => EosAuthLoginFailed;
    assert CodeOf(e) == code;
  }

  // ---------------------------------------------------------------------
  // The hexadecimal fallback

  /** The character for a digit value as main.c computes it: '0' + v up to
      9 and '7' + v above, truncated to a WCHAR. */
  function DigitUnit(v: nat): WChar
  {
    (if v > 9 then '7' as int + v else '0' as int + v) % 0x1_0000
  }

  /** The value of a hexadecimal digit character, or 16 for any other. */
  function HexValue(w: WChar): nat
  {
    if '0' as int <= w <= '9' as int then w - '0' as int
    else if 'A' as int <= w <= 'F' as int then w - 'A' as int + 10
    else 16
  }

  lemma DigitUnitHex(v: nat)
    requires v < 16
    ensures HexValue(DigitUnit(v)) == v
  {
  }

  /** The eight digits written over "00000000" as the source has them: every
      position but the last shifts the masked top nibble, `code & 0xF0000000`
      (the code rounded down to a multiple of 2^28), instead of its own
      nibble, and the last takes `code & 0xF`, so only the top nibble and
      the bottom nibble of the code reach the text. A right shift by k is a
      division by 2^k. */
  function ShownDigitsAsWritten(code: nat): (s: seq<WChar>)
    requires code < 0x1_0000_0000
    ensures |s| == 8
  {
    var top := code / 0x1000_0000 * 0x1000_0000;
    [ DigitUnit(top / 0x1000_0000), DigitUnit(top / 0x100_0000),
      DigitUnit(top / 0x10_0000), DigitUnit(top / 0x1_0000),
      DigitUnit(top / 0x1000), DigitUnit(top / 0x100),
      DigitUnit(top / 0x10), DigitUnit(code % 16) ]
  }

  /** As written, codes 0x10 and 0 show the same digits, and code
      0x10000000 shows 'G' (71) as its second digit, which is no hexadecimal
      digit at all. */
  lemma ShownDigitsCollide()
    ensures ShownDigitsAsWritten(0x10) == ShownDigitsAsWritten(0)
    ensures ShownDigitsAsWritten(0x1000_0000)[1] == 'G' as int
    ensures HexValue(ShownDigitsAsWritten(0x1000_0000)[1]) == 16
  {
  }

  /** The nibbles of a 32-bit code, least significant first: nibble k is
      (code >> 4k) & 0xF, taken here by repeated division by 16. */
  function Nibbles(code: nat): (n: seq<nat>)
    ensures |n| == 8
  {
    var q1 := code / 16; var q2 := q1 / 16; var q3 := q2 / 16; var q4 := q3 / 16;
    var q5 := q4 / 16; var q6 := q5 / 16; var q7 := q6 / 16;
    [code % 16, q1 % 16, q2 % 16, q3 % 16, q4 % 16, q5 % 16, q6 % 16, q7 % 16]
  }

  /** The eight digits the fallback is meant to show: each nibble of the
      code, most significant first. */
  function ShownDigits(code: nat): (s: seq<WChar>)
    ensures |s| == 8
  {
    var n := Nibbles(code);
    [ DigitUnit(n[7]), DigitUnit(n[6]), DigitUnit(n[5]), DigitUnit(n[4]),
      DigitUnit(n[3]), DigitUnit(n[2]), DigitUnit(n[1]), DigitUnit(n[0]) ]
  }

  predicate HexDigits(s: seq<WChar>)
  {
    forall i :: 0 <= i < |s| ==> HexValue(s[i]) < 16
  }

  /** Eight hexadecimal digits read back as a number, most significant
      first. */
  function ParseHex8(s: seq<WChar>): nat
    requires |s| == 8 && HexDigits(s)
  {
    ((((((HexValue(s[0]) * 16 + HexValue(s[1])) * 16 + HexValue(s[2])) * 16 + HexValue(s[3])) * 16
      + HexValue(s[4])) * 16 + HexValue(s[5])) * 16 + HexValue(s[6])) * 16 + HexValue(s[7])
  }

  lemma Reassemble(code: nat)
    requires code < 0x1_0000_0000
    ensures var n := Nibbles(code);
      ((((((n[7] * 16 + n[6]) * 16 + n[5]) * 16 + n[4]) * 16 + n[3]) * 16 + n[2]) * 16 + n[1]) * 16 + n[0] == code
  {
    var q1 := code / 16; var q2 := q1 / 16; var q3 := q2 / 16; var q4 := q3 / 16;
    var q5 := q4 / 16; var q6 := q5 / 16; var q7 := q6 / 16;
    assert q7 < 16;
  }

  /** Every 32-bit code shows as hexadecimal digits that read back as the
      code itself, so no two codes share a message. */
  lemma ShownDigitsRoundTrip(code: nat)
    requires code < 0x1_0000_0000
    ensures HexDigits(ShownDigits(code))
    ensures ParseHex8(ShownDigits(code)) == code
  {
    var n := Nibbles(code);
    DigitUnitHex(n[0]); DigitUnitHex(n[1]); DigitUnitHex(n[2]); DigitUnitHex(n[3]);
    DigitUnitHex(n[4]); DigitUnitHex(n[5]); DigitUnitHex(n[6]); DigitUnitHex(n[7]);
    Reassemble(code);
  }

  /** "Game process exited with code 0x" followed by the digits. */
  const FallbackPrefix: string := "Game process exited with code 0x"

  /** A string as the WCHARs of a wide literal, one per character. */
  function Units(s: string): (u: seq<WChar>)
    ensures |u| == |s|
  {
    if s == [] then [] else [s[0] as int % 0x1_0000] + Units(s[1..])
  }

  /** What show_error_message puts in the message box for a code: the table
      string, else the system's text for the code (None when
      FormatMessageW fails), else the hexadecimal fallback, whose eight
      digits are given. */
  function MessageFor(code: int, systemText: Option<seq<WChar>>, digits: seq<WChar>): seq<WChar>
  {
    match TableMessage(code)
    case Some(text) => Units(text)
    case None =>
      match systemText
      case Some(text) => text
      case None => Units(FallbackPrefix) + digits
  }

  /** The code as the DWORD FormatMessageW and the fallback see: its 32-bit
      two's complement. */
  function Pattern(code: int): nat
  {
    code % 0x1_0000_0000
  }

  /** show_error_message as written, with the fallback digits of main.c. */
  function ErrorMessageAsWritten(code: int, systemText: Option<seq<WChar>>): seq<WChar>
    requires -0x8000_0000 <= code < 0x8000_0000
  {
    MessageFor(code, systemText, ShownDigitsAsWritten(Pattern(code)))
  }

  /** show_error_message with each nibble in its own digit. */
  function IntendedErrorMessage(code: int, systemText: Option<seq<WChar>>): seq<WChar>
    requires -0x8000_0000 <= code < 0x8000_0000
  {
    MessageFor(code, systemText, ShownDigits(Pattern(code)))
  }

  /** As written, a declared code shows its table string and any other
      code the system's text when there is one. */
  lemma ErrorMessageAsWrittenTable(code: int, systemText: Option<seq<WChar>>)
    requires -0x8000_0000 <= code < 0x8000_0000
    ensures forall e :: CodeOf(e) == code ==> ErrorMessageAsWritten(code, systemText) == Units(Describe(e))
    ensures TableMessage(code).None? && systemText.Some? ==>
      ErrorMessageAsWritten(code, systemText) == systemText.value
  {
    forall e | CodeOf(e) == code
      ensures ErrorMessageAsWritten(code, systemText) == Units(Describe(e))
    {
      ErrorTableIndex(e);
    }
  }

  /** As written, the fallback text's first digit is the top nibble of the
      code's pattern and its last digit the bottom nibble. */
  lemma ErrorMessageAsWrittenFallback(code: int)
    requires -0x8000_0000 <= code < 0x8000_0000
    requires TableMessage(code).None?
    ensures var m := ErrorMessageAsWritten(code, None);
      var n := |FallbackPrefix|;
      && |m| == n + 8
      && m[..n] == Units(FallbackPrefix)
      && HexValue(m[n]) == Pattern(code) / 0x1000_0000
      && HexValue(m[n + 7]) == Pattern(code) % 16
  {
    var m := ErrorMessageAsWritten(code, None);
    var d := ShownDigitsAsWritten(Pattern(code));
    var u := Units(FallbackPrefix);
    FallbackText(code);
    assert m == u + d;
    AsWrittenEnds(Pattern(code));
    assert m[..|u|] == u;
    assert m[|u|] == d[0];
    assert m[|u| + 7] == d[7];
  }

  /** Outside the table and without system text, the message is the
      fallback prefix and the digits as written. */
  lemma FallbackText(code: int)
    requires -0x8000_0000 <= code < 0x8000_0000
    requires TableMessage(code).None?
    ensures ErrorMessageAsWritten(code, None) == Units(FallbackPrefix) + ShownDigitsAsWritten(Pattern(code))
  {
  }

  /** The first digit as written is the top nibble and the last the bottom
      nibble. */
  lemma AsWrittenEnds(code: nat)
    requires code < 0x1_0000_0000
    ensures HexValue(ShownDigitsAsWritten(code)[0]) == code / 0x1000_0000
    ensures HexValue(ShownDigitsAsWritten(code)[7]) == code % 16
  {
    var t := code / 0x1000_0000;
    assert t * 0x1000_0000 / 0x1000_0000 == t;
    DigitUnitHex(t);
    DigitUnitHex(code % 16);
  }

  /** As written, codes 0x10 and 0, neither of which has a table string,
      show the same fallback text. */
  lemma FallbackAsWrittenCollides()
    ensures TableMessage(0x10).None? && TableMessage(0).None?
    ensures ErrorMessageAsWritten(0x10, None) == ErrorMessageAsWritten(0, None)
  {
    assert Pattern(0x10) == 0x10 && Pattern(0) == 0;
    FallbackText(0x10);
    FallbackText(0);
    ShownDigitsCollide();
  }

  /** With a digit for each nibble, a code outside the table whose system
      text is unavailable is shown as its 32-bit pattern in hexadecimal,
      readable back from the last eight characters. */
  lemma FallbackShowsCode(code: int)
    requires -0x8000_0000 <= code < 0x8000_0000
    requires TableMessage(code).None?
    ensures var m := IntendedErrorMessage(code, None);
      && |m| >= 8
      && HexDigits(m[|m| - 8..])
      && ParseHex8(m[|m| - 8..]) == Pattern(code)
  {
    var d := ShownDigits(Pattern(code));
    var m := IntendedErrorMessage(code, None);
    var u := Units(FallbackPrefix);
    IntendedFallbackText(code);
    assert m[|u|..] == d;
    ShownDigitsRoundTrip(Pattern(code));
  }

  /** Outside the table and without system text, the intended message is
      the fallback prefix and a digit per nibble. */
  lemma IntendedFallbackText(code: int)
    requires -0x8000_0000 <= code < 0x8000_0000
    requires TableMessage(code).None?
    ensures IntendedErrorMessage(code, None) == Units(FallbackPrefix) + ShownDigits(Pattern(code))
  {
  }
}
