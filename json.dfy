/**
 * The part of JSON that the report page writes into and reads back from browser storage and
 * from the OAuth redirect: `null`, and flat objects whose members are strings or `null`.
 * `Stringify` follows `JSON.stringify`, escapes included. `Parse` decodes every JSON string
 * escape and rejects raw control characters inside strings as `JSON.parse` does; it returns
 * `None` where `JSON.parse` would throw and, as a modelling simplification, on every text
 * outside this subset (whitespace between tokens, numbers, booleans, nesting).
 */
module Json {
  import opened Wrappers
  import opened Hex

  /** A property read off a JavaScript value: absent, `null`, or a string. */
  datatype Prop = Undefined | Null | Str(s: string)

  /** JavaScript truthiness of a property value. */
  predicate Truthy(p: Prop) {
    p.Str? && p.s != ""
  }

  /** `String(p)`, the text a template string or `FormData.append` makes of the value. */
  function ToText(p: Prop): string {
    match p
    case Undefined => "undefined"
    case Null => "null"
    case Str(s) => s
  }

  datatype Scalar = SNull | SStr(s: string)
  datatype Member = Member(key: string, value: Scalar)
  datatype Value = NullValue | Object(members: seq<Member>)

  function ScalarProp(v: Scalar): Prop {
    match v
    case SNull => Null
    case SStr(s) => Str(s)
  }

  /** The members `JSON.stringify` writes for one property: none when the property is `undefined`. */
  function Entry(key: string, p: Prop): (ms: seq<Member>)
    ensures p.Undefined? <==> ms == []
    ensures ms != [] ==> ms == [Member(key, if p.Null? then SNull else SStr(p.s))]
  {
    match p
    case Undefined => []
    case Null => [Member(key, SNull)]
    case Str(s) => [Member(key, SStr(s))]
  }

  /** Reading `obj[key]`: the last member with that key wins, as with `JSON.parse`. */
  function Get(ms: seq<Member>, key: string): (p: Prop)
    ensures p.Undefined? <==> forall i :: 0 <= i < |ms| ==> ms[i].key != key
  {
    if ms == [] then Undefined
    else if ms[|ms| - 1].key == key then ScalarProp(ms[|ms| - 1].value)
    else Get(ms[..|ms| - 1], key)
  }

  /** A key set only in the members appended last reads from them; otherwise from before. */
  lemma {:induction false} GetAppend(ms: seq<Member>, extra: seq<Member>, key: string)
    ensures Get(ms + extra, key) == if Get(extra, key).Undefined? then Get(ms, key) else Get(extra, key)
    decreases |extra|
  {
    if extra == [] {
      assert ms + extra == ms;
    } else {
      var last := |extra| - 1;
      var all := ms + extra;
      assert all[|all| - 1] == extra[last];
      assert all[..|all| - 1] == ms + extra[..last];
      GetAppend(ms, extra[..last], key);
    }
  }

  /** A single entry reads back under its own key and nowhere else. */
  lemma GetEntry(k: string, p: Prop, key: string)
    ensures Get(Entry(k, p), key) == if k == key then p else Undefined
  {
  }

  // ---------------------------------------------------------------- writing

  const Backspace := '\U{8}'
  const FormFeed := '\U{C}'

  /** The characters `JSON.stringify` writes as a backslash and one letter. */
  function ShortEscape(c: char): Option<char> {
    if c == '"' then Some('"')
    else if c == '\\' then Some('\\')
    else if c == Backspace then Some('b')
    else if c == FormFeed then Some('f')
    else if c == '\n' then Some('n')
    else if c == '\r' then Some('r')
    else if c == '\t' then Some('t')
    else None
  }

  /** One character of a string's contents as `JSON.stringify` writes it: the short escapes,
    * `\u00xx` in lower-case hex for the other control characters, and every other character as
    * it is. */
  function EscapeChar(c: char): (r: string)
    ensures |r| > 0 && (r[0] == '\\' || (r == [c] && c >= ' ' && c != '"'))
  {
    match ShortEscape(c)
    case Some(e) => ['\\', e]
    case None =>
      if c < ' ' then ['\\', 'u', '0', '0', LowerHexDigit(c as int / 16), LowerHexDigit(c as int % 16)]
      else [c]
  }

  /** String contents, escaped. */
  function Escape(s: string): string {
    if s == [] then "" else EscapeChar(s[0]) + Escape(s[1..])
  }

  function Quote(s: string): string {
    "\"" + Escape(s) + "\""
  }

  function EncodeScalar(v: Scalar): string {
    match v
    case SNull => "null"
    case SStr(s) => Quote(s)
  }

  function EncodeMember(m: Member): string {
    Quote(m.key) + ":" + EncodeScalar(m.value)
  }

  function EncodeMembers(ms: seq<Member>): string {
    if ms == [] then ""
    else if |ms| == 1 then EncodeMember(ms[0])
    else EncodeMember(ms[0]) + "," + EncodeMembers(ms[1..])
  }

  /** `JSON.stringify` on the subset. */
  function Stringify(v: Value): (r: string)
    ensures r != ""
  {
    match v
    case NullValue => "null"
    case Object(ms) => "{" + EncodeMembers(ms) + "}"
  }

  // ---------------------------------------------------------------- reading

  /** The character a backslash and one letter stand for; `\/` included. */
  function ShortUnescape(e: char): Option<char> {
    if e == '"' then Some('"')
    else if e == '\\' then Some('\\')
    else if e == '/' then Some('/')
    else if e == 'b' then Some(Backspace)
    else if e == 'f' then Some(FormFeed)
    else if e == 'n' then Some('\n')
    else if e == 'r' then Some('\r')
    else if e == 't' then Some('\t')
    else None
  }

  /** The text after a backslash: the character the escape stands for and what follows it. */
  function Unescape(s: string): (r: Option<(char, string)>)
    ensures r.Some? ==> |r.value.1| < |s|
  {
    if s == [] then None
    else if s[0] == 'u' then
      if |s| >= 5 && IsHexDigit(s[1]) && IsHexDigit(s[2]) && IsHexDigit(s[3]) && IsHexDigit(s[4]) then
        var v := 4096 * HexValue(s[1]) + 256 * HexValue(s[2]) + 16 * HexValue(s[3]) + HexValue(s[4]);
        if 0xD800 <= v < 0xE000 then None else Some((v as char, s[5..]))
      else None
    else
      match ShortUnescape(s[0])
      case Some(c) => Some((c, s[1..]))
      case None => None
  }

  /** The text after an opening quote: the decoded contents and what follows the closing quote. */
  function ParseStringTail(s: string): (r: Option<(string, string)>)
    ensures r.Some? ==> |r.value.1| < |s|
  {
    if s == [] then None
    else if s[0] == '"' then Some(("", s[1..]))
    else if s[0] == '\\' then
      match Unescape(s[1..])
      case None => None
      case Some(e) =>
        match ParseStringTail(e.1)
        case None => None
        case Some(p) => Some(([e.0] + p.0, p.1))
    else if s[0] < ' ' then None
    else
      match ParseStringTail(s[1..])
      case None => None
      case Some(p) => Some(([s[0]] + p.0, p.1))
  }

  function ParseString(s: string): (r: Option<(string, string)>)
    ensures r.Some? ==> |r.value.1| < |s|
  {
    if |s| > 0 && s[0] == '"' then ParseStringTail(s[1..]) else None
  }

  function ParseScalar(s: string): (r: Option<(Scalar, string)>)
    ensures r.Some? ==> |r.value.1| < |s|
  {
    if |s| >= 4 && s[..4] == "null" then Some((SNull, s[4..]))
    else
      match ParseString(s)
      case None => None
      case Some(p) => Some((SStr(p.0), p.1))
  }

  function ParseMember(s: string): (r: Option<(Member, string)>)
    ensures r.Some? ==> |r.value.1| < |s|
  {
    match ParseString(s)
    case None => None
    case Some(k) =>
      if |k.1| > 0 && k.1[0] == ':' then
        match ParseScalar(k.1[1..])
        case None => None
        case Some(v) => Some((Member(k.0, v.0), v.1))
      else None
  }

  /** Members separated by `,` up to and including the closing `}`. */
  function ParseMembers(s: string): (r: Option<(seq<Member>, string)>)
    ensures r.Some? ==> |r.value.1| < |s|
    decreases |s|
  {
    match ParseMember(s)
    case None => None
    case Some(m) =>
      if |m.1| > 0 && m.1[0] == ',' then
        match ParseMembers(m.1[1..])
        case None => None
        case Some(ms) => Some(([m.0] + ms.0, ms.1))
      else if |m.1| > 0 && m.1[0] == '}' then Some(([m.0], m.1[1..]))
      else None
  }

  /** `JSON.parse` on the subset: `None` where it would throw. */
  function Parse(s: string): Option<Value> {
    if s == "null" then Some(NullValue)
    else if s == "{}" then Some(Object([]))
    else if |s| > 0 && s[0] == '{' then
      match ParseMembers(s[1..])
      case Some(ms) => if ms.1 == "" then Some(Object(ms.0)) else None
      case None => None
    else None
  }

  // ---------------------------------------------------------------- round trip

  /** Each escape `JSON.stringify` writes decodes back to its character. */
  lemma EscapeCharDecodes(c: char, t: string)
    ensures EscapeChar(c)[0] == '\\' ==> Unescape(EscapeChar(c)[1..] + t) == Some((c, t))
  {
    var r := EscapeChar(c);
    if ShortEscape(c).Some? {
      var u := r[1..] + t;
      assert u[0] == ShortEscape(c).value && u[1..] == t;
    } else if c < ' ' {
      var hi, lo := c as int / 16, c as int % 16;
      var u := r[1..] + t;
      assert u[0] == 'u' && u[1] == '0' && u[2] == '0';
      assert u[3] == LowerHexDigit(hi) && u[4] == LowerHexDigit(lo);
      assert u[5..] == t;
      assert 16 * hi + lo == c as int;
    }
  }

  /** One encoded character followed by a decodable tail decodes to that character and the tail. */
  lemma TailStep(c: char, t: string, contents: string, rest: string)
    requires ParseStringTail(t) == Some((contents, rest))
    ensures ParseStringTail(EscapeChar(c) + t) == Some(([c] + contents, rest))
  {
    var r := EscapeChar(c);
    var u := r + t;
    if r[0] == '\\' {
      assert u[0] == '\\' && u[1..] == r[1..] + t;
      EscapeCharDecodes(c, t);
    } else {
      assert u[0] == c;
      assert u[1..] == t;
    }
  }

  /** The escapes on concrete text: a tab is written `\t`, U+0001 as `\u0001`, and a raw tab
    * inside a string is refused. */
  lemma ControlCharacterExamples()
    ensures Quote("\t") == "\"\\t\""
    ensures Quote("\U{1}") == "\"\\u0001\""
    ensures ParseString("\"\t\"") == None
  {
    assert Escape("\t") == EscapeChar('\t') + Escape([]);
    assert Escape("\U{1}") == EscapeChar('\U{1}') + Escape([]);
    assert EscapeChar('\U{1}') == ['\\', 'u', '0', '0', LowerHexDigit(0), LowerHexDigit(1)];
  }

  lemma EscapeUnfold(s: string, rest: string)
    requires s != []
    ensures Escape(s) + "\"" + rest == EscapeChar(s[0]) + (Escape(s[1..]) + "\"" + rest)
  {
  }

  lemma {:induction false} StringTailRoundTrip(s: string, rest: string)
    ensures ParseStringTail(Escape(s) + "\"" + rest) == Some((s, rest))
  {
    if s == [] {
      var u := "\"" + rest;
      assert Escape(s) + "\"" + rest == u;
      assert u[0] == '"' && u[1..] == rest;
    } else {
      var tail := s[1..];
      StringTailRoundTrip(tail, rest);
      EscapeUnfold(s, rest);
      TailStep(s[0], Escape(tail) + "\"" + rest, tail, rest);
      assert [s[0]] + tail == s;
    }
  }

  lemma QuoteRoundTrip(s: string, rest: string)
    ensures ParseString(Quote(s) + rest) == Some((s, rest))
  {
    assert Quote(s) + rest == "\"" + (Escape(s) + "\"" + rest);
    StringTailRoundTrip(s, rest);
  }

  lemma ScalarRoundTrip(v: Scalar, rest: string)
    ensures ParseScalar(EncodeScalar(v) + rest) == Some((v, rest))
  {
    match v
    case SNull =>
      assert (EncodeScalar(v) + rest)[..4] == "null";
      assert (EncodeScalar(v) + rest)[4..] == rest;
    case SStr(s) =>
      assert (Quote(s) + rest)[0] == '"';
      QuoteRoundTrip(s, rest);
  }

  lemma MemberRoundTrip(m: Member, rest: string)
    ensures ParseMember(EncodeMember(m) + rest) == Some((m, rest))
  {
    var tail := EncodeScalar(m.value) + rest;
    assert EncodeMember(m) + rest == Quote(m.key) + (":" + tail);
    QuoteRoundTrip(m.key, ":" + tail);
    assert (":" + tail)[1..] == tail;
    ScalarRoundTrip(m.value, rest);
  }

  lemma EncodeMembersOne(ms: seq<Member>, rest: string)
    requires |ms| == 1
    ensures EncodeMembers(ms) + "}" + rest == EncodeMember(ms[0]) + ("}" + rest)
  {
  }

  lemma EncodeMembersCons(ms: seq<Member>, rest: string)
    requires |ms| >= 2
    ensures EncodeMembers(ms) + "}" + rest == EncodeMember(ms[0]) + ("," + (EncodeMembers(ms[1..]) + "}" + rest))
  {
    var first, others := EncodeMember(ms[0]), EncodeMembers(ms[1..]);
    assert EncodeMembers(ms) == first + "," + others;
    Regroup(first, ",", others, "}", rest);
  }

  /** Proof plumbing: associativity of concatenation, stated once on abstract strings. */
  lemma Regroup(a: string, b: string, c: string, d: string, e: string)
    ensures a + b + c + d + e == a + (b + (c + d + e))
  {
  }

  lemma {:induction false} MembersRoundTrip(ms: seq<Member>, rest: string)
    requires ms != []
    ensures ParseMembers(EncodeMembers(ms) + "}" + rest) == Some((ms, rest))
  {
    if |ms| == 1 {
      var after := "}" + rest;
      EncodeMembersOne(ms, rest);
      MemberRoundTrip(ms[0], after);
      assert after[1..] == rest;
      MembersClose(EncodeMember(ms[0]) + after, ms[0], after);
      assert [ms[0]] == ms;
    } else {
      var tail := EncodeMembers(ms[1..]) + "}" + rest;
      var after := "," + tail;
      EncodeMembersCons(ms, rest);
      MemberRoundTrip(ms[0], after);
      assert after[1..] == tail;
      MembersRoundTrip(ms[1..], rest);
      MembersContinue(EncodeMember(ms[0]) + after, ms[0], after, ms[1..], rest);
      assert [ms[0]] + ms[1..] == ms;
    }
  }

  lemma MembersClose(s: string, m: Member, after: string)
    requires ParseMember(s) == Some((m, after))
    requires |after| > 0 && after[0] == '}'
    ensures ParseMembers(s) == Some(([m], after[1..]))
  {
  }

  lemma MembersContinue(s: string, m: Member, after: string, ms: seq<Member>, rest: string)
    requires ParseMember(s) == Some((m, after))
    requires |after| > 0 && after[0] == ','
    requires ParseMembers(after[1..]) == Some((ms, rest))
    ensures ParseMembers(s) == Some(([m] + ms, rest))
  {
  }

  /** Whatever `Stringify` writes, `Parse` reads back unchanged. */
  lemma RoundTrip(v: Value)
    ensures Parse(Stringify(v)) == Some(v)
  {
    match v
    case NullValue =>
    case Object(ms) =>
      if ms != [] {
        var s := Stringify(v);
        assert s == "{" + (EncodeMembers(ms) + "}" + "");
        assert s[1..] == EncodeMembers(ms) + "}" + "";
        MembersRoundTrip(ms, "");
        assert EncodeMember(ms[0])[0] == '"';
        assert s[1] == '"';
      }
  }
}
