/**
 * `decodeURIComponent`, which the report page applies to the `discord_auth` value after
 * `URLSearchParams` has already decoded it once. Each `%XY` is a byte; bytes below 0x80 stand
 * for themselves, and larger ones must form the UTF-8 encoding of one Unicode scalar value. A
 * `%` not followed by two hex digits, or bytes that are not such an encoding, make the call
 * throw (`None` here).
 */
module Uri {
  import opened Wrappers
  import opened Hex

  /** The byte written by a leading `%XY`. */
  function PercentByte(s: string): (r: Option<nat>)
    ensures r.Some? ==> |s| >= 3 && s[0] == '%' && r.value < 256
  {
    if |s| >= 3 && s[0] == '%' && IsHexDigit(s[1]) && IsHexDigit(s[2])
    then Some(16 * HexValue(s[1]) + HexValue(s[2]))
    else None
  }

  /** `count` continuation bytes `10xxxxxx`, their six bits appended to `acc`. */
  function Continuation(s: string, count: nat, acc: nat): (r: Option<nat>)
    ensures r.Some? ==> |s| >= 3 * count
    decreases count
  {
    if count == 0 then Some(acc)
    else
      match PercentByte(s)
      case None => None
      case Some(b) =>
        if 0x80 <= b < 0xC0 then Continuation(s[3..], count - 1, acc * 64 + (b - 0x80)) else None
  }

  /** `cp` is a Unicode scalar value whose shortest UTF-8 encoding has `n` bytes. */
  predicate ValidScalar(cp: int, n: nat) {
    && 2 <= n <= 4
    && (n == 2 ==> 0x80 <= cp < 0x800)
    && (n == 3 ==> 0x800 <= cp < 0x10000)
    && (n == 4 ==> 0x10000 <= cp < 0x110000)
    && !(0xD800 <= cp < 0xE000)
  }

  /** The number of bytes a UTF-8 sequence with this leading byte has; 0 for no valid lead. */
  function SequenceLength(b: nat): nat {
    if 0xC0 <= b < 0xE0 then 2 else if 0xE0 <= b < 0xF0 then 3 else if 0xF0 <= b < 0xF8 then 4 else 0
  }

  function DecodeComponent(s: string): (r: Option<string>)
    ensures '%' !in s ==> r == Some(s)
    ensures r.Some? ==> |r.value| <= |s|
    decreases |s|
  {
    if s == [] then Some("")
    else if s[0] != '%' then
      match DecodeComponent(s[1..])
      case None => None
      case Some(t) => assert [s[0]] + s[1..] == s; Some([s[0]] + t)
    else
      match PercentByte(s)
      case None => None
      case Some(b) =>
        if b < 0x80 then
          match DecodeComponent(s[3..])
          case None => None
          case Some(t) => Some([b as char] + t)
        else
          var n := SequenceLength(b);
          if n == 0 then None
          else
            var lead: nat := if n == 2 then b - 0xC0 else if n == 3 then b - 0xE0 else b - 0xF0;
            match Continuation(s[3..], n - 1, lead)
            case None => None
            case Some(cp) =>
              if !ValidScalar(cp, n) then None
              else
                match DecodeComponent(s[3..][3 * (n - 1)..])
                case None => None
                case Some(t) => Some([cp as char] + t)
  }

  /** A `%` that does not start an escape makes the decode throw, wherever it stands. */
  lemma {:induction false} MalformedEscapeThrows(a: string, b: string)
    requires '%' !in a
    requires !(|b| >= 2 && IsHexDigit(b[0]) && IsHexDigit(b[1]))
    ensures DecodeComponent(a + "%" + b) == None
  {
    if a == [] {
      assert a + "%" + b == "%" + b;
    } else {
      assert (a + "%" + b)[0] == a[0];
      assert (a + "%" + b)[1..] == a[1..] + "%" + b;
      MalformedEscapeThrows(a[1..], b);
    }
  }

  /** The name part `50%` of a username makes the decode throw. */
  lemma MalformedExample()
    ensures DecodeComponent("50%#0") == None
  {
    assert "50%#0" == "50" + "%" + "#0";
    MalformedEscapeThrows("50", "#0");
  }

  /** An ASCII escape is interpreted: `a%41#0` becomes `aA#0`. */
  lemma AsciiEscapeExample()
    ensures DecodeComponent("a%41#0") == Some("aA#0")
  {
    var s := "a%41#0";
    var t := s[1..];
    assert t == "%41#0";
    assert PercentByte(t) == Some(65);
    assert t[3..] == "#0";
    assert DecodeComponent(t) == Some(['A'] + "#0");
    assert s[0] == 'a';
    assert ['a'] + (['A'] + "#0") == "aA#0";
  }

  /** A two-byte UTF-8 sequence: `%C3%A8` becomes U+00E8. */
  lemma Utf8Example()
    ensures DecodeComponent("%C3%A8") == Some("\U{E8}")
  {
    var u := "%C3%A8";
    var v := u[3..];
    assert v == "%A8";
    assert PercentByte(u) == Some(0xC3);
    assert PercentByte(v) == Some(0xA8);
    assert v[3..] == "";
    assert Continuation(v, 1, 3) == Some(0xE8);
    assert ValidScalar(0xE8, 2);
    assert (0xE8 as char) == '\U{E8}';
    assert [0xE8 as char] + "" == "\U{E8}";
  }
}
