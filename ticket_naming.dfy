/**
 * How the ticket route derives a ticket channel's name from the Discord username
 * (`username#discriminator`): the part before the first `#`, lower-cased, with every character
 * outside `[a-z0-9]` removed, after the prefix `ticket-`.
 *
 * Lower-casing is modelled as far as the strip after it can tell: ASCII capitals, and the two
 * non-ASCII letters whose lower-case form contains ASCII letters (KELVIN SIGN U+212A becomes
 * `k`; LATIN CAPITAL LETTER I WITH DOT ABOVE U+0130 becomes `i` followed by U+0307). Every other
 * character stays outside ASCII when lower-cased, so the model keeps it as it is; the strip
 * removes it either way.
 */
module TicketNaming {

  const TicketPrefix := "ticket-"

  /** `u.split('#')[0]`: the longest prefix of `u` without a `#`. */
  function UsernamePart(u: string): (r: string)
    ensures |r| <= |u| && r == u[..|r|]
    ensures '#' !in r
    ensures |r| < |u| ==> u[|r|] == '#'
  {
    if u == [] || u[0] == '#' then "" else [u[0]] + UsernamePart(u[1..])
  }

  predicate IsUpperAscii(c: char) {
    'A' <= c <= 'Z'
  }

  /** The characters `/[^a-z0-9]/` does not match. */
  predicate IsLowerAlnum(c: char) {
    'a' <= c <= 'z' || '0' <= c <= '9'
  }

  const KelvinSign := '\U{212A}'
  const CapitalIWithDot := '\U{0130}'
  const CombiningDotAbove := '\U{0307}'

  /** What `toLowerCase()` makes of one character, up to characters outside ASCII. */
  function LowerText(c: char): (r: string)
    ensures 1 <= |r| <= 2
    ensures '#' in r <==> c == '#'
    ensures forall i :: 0 <= i < |r| ==> !IsUpperAscii(r[i])
  {
    if IsUpperAscii(c) then [(c as int + 32) as char]
    else if c == KelvinSign then "k"
    else if c == CapitalIWithDot then ['i', CombiningDotAbove]
    else [c]
  }

  /** `toLowerCase()`: each character replaced by its lower-case text. */
  function ToLowerCase(s: string): (r: string)
    ensures |r| >= |s|
    ensures '#' in r <==> '#' in s
    ensures forall i :: 0 <= i < |r| ==> !IsUpperAscii(r[i])
  {
    if s == [] then "" else LowerText(s[0]) + ToLowerCase(s[1..])
  }

  /** `replace(/[^a-z0-9]/g, '')`. */
  function StripNonAlnum(s: string): (r: string)
    ensures |r| <= |s|
    ensures forall i :: 0 <= i < |r| ==> IsLowerAlnum(r[i])
  {
    if s == [] then ""
    else if IsLowerAlnum(s[0]) then [s[0]] + StripNonAlnum(s[1..])
    else StripNonAlnum(s[1..])
  }

  function Sanitize(s: string): string {
    StripNonAlnum(ToLowerCase(s))
  }

  /** The channel name the ticket route uses for a Discord username. */
  function ChannelName(discordUsername: string): string {
    TicketPrefix + Sanitize(UsernamePart(discordUsername))
  }

  // ---------------------------------------------------------------- properties

  /** The channel name is `ticket-` followed only by characters in `[a-z0-9]`. */
  lemma ChannelNameShape(u: string)
    ensures |ChannelName(u)| >= |TicketPrefix| && ChannelName(u)[..|TicketPrefix|] == TicketPrefix
    ensures forall i :: |TicketPrefix| <= i < |ChannelName(u)| ==> IsLowerAlnum(ChannelName(u)[i])
  {
    var s := Sanitize(UsernamePart(u));
    assert forall i :: |TicketPrefix| <= i < |ChannelName(u)| ==> ChannelName(u)[i] == s[i - |TicketPrefix|];
  }

  /** Stripping keeps the kept characters in order: it distributes over concatenation. */
  lemma {:induction false} StripConcat(a: string, b: string)
    ensures StripNonAlnum(a + b) == StripNonAlnum(a) + StripNonAlnum(b)
  {
    if a != [] {
      assert (a + b)[1..] == a[1..] + b;
      StripConcat(a[1..], b);
    } else {
      assert a + b == b;
    }
  }

  /** A string already in `[a-z0-9]*` is left alone by stripping. */
  lemma {:induction false} StripFixesAlnum(s: string)
    requires forall i :: 0 <= i < |s| ==> IsLowerAlnum(s[i])
    ensures StripNonAlnum(s) == s
  {
    if s != [] {
      StripFixesAlnum(s[1..]);
      assert [s[0]] + s[1..] == s;
    }
  }

  /** ... and by lower-casing. */
  lemma {:induction false} LowerFixesAlnum(s: string)
    requires forall i :: 0 <= i < |s| ==> IsLowerAlnum(s[i])
    ensures ToLowerCase(s) == s
  {
    if s != [] {
      LowerFixesAlnum(s[1..]);
      assert [s[0]] + s[1..] == s;
    }
  }

  /** Lower-casing distributes over concatenation. */
  lemma {:induction false} LowerConcat(a: string, b: string)
    ensures ToLowerCase(a + b) == ToLowerCase(a) + ToLowerCase(b)
  {
    if a == [] {
      assert a + b == b;
    } else {
      assert (a + b)[0] == a[0];
      assert (a + b)[1..] == a[1..] + b;
      LowerConcat(a[1..], b);
    }
  }

  /** Lower-casing twice is lower-casing once. */
  lemma {:induction false} LowerIdempotent(s: string)
    ensures ToLowerCase(ToLowerCase(s)) == ToLowerCase(s)
  {
    if s != [] {
      var t := LowerText(s[0]);
      LowerIdempotent(s[1..]);
      LowerConcat(t, ToLowerCase(s[1..]));
      if |t| == 1 {
        assert ToLowerCase(t) == LowerText(t[0]) + ToLowerCase(t[1..]);
      } else {
        assert t == ['i', CombiningDotAbove];
        assert ToLowerCase(t) == LowerText('i') + ToLowerCase([CombiningDotAbove]);
        assert ToLowerCase([CombiningDotAbove]) == LowerText(CombiningDotAbove) + ToLowerCase([]);
      }
    }
  }

  /** The two non-ASCII letters that survive as ASCII letters in the channel name. */
  lemma NonAsciiLettersFold()
    ensures Sanitize([KelvinSign]) == "k"
    ensures Sanitize([CapitalIWithDot]) == "i"
  {
    assert ToLowerCase([KelvinSign]) == LowerText(KelvinSign) + ToLowerCase([]);
    assert ToLowerCase([CapitalIWithDot]) == LowerText(CapitalIWithDot) + ToLowerCase([]);
    var t := ['i', CombiningDotAbove];
    assert ToLowerCase([CapitalIWithDot]) == t;
    assert t[1..] == [CombiningDotAbove];
    assert !IsLowerAlnum(CombiningDotAbove);
    assert StripNonAlnum([CombiningDotAbove]) == StripNonAlnum([]) == "";
    assert StripNonAlnum(t) == ['i'] + StripNonAlnum(t[1..]);
  }

  /** Stripping removes exactly the characters outside `[a-z0-9]`: a string of only such characters vanishes. */
  lemma {:induction false} StripDropsOthers(s: string)
    requires forall i :: 0 <= i < |s| ==> !IsLowerAlnum(s[i])
    ensures StripNonAlnum(s) == ""
  {
    if s != [] {
      StripDropsOthers(s[1..]);
    }
  }

  /** Sanitising a sanitised suffix again changes nothing. */
  lemma SanitizeIdempotent(s: string)
    ensures Sanitize(Sanitize(s)) == Sanitize(s)
  {
    var t := Sanitize(s);
    LowerFixesAlnum(t);
    StripFixesAlnum(t);
  }

  /** The name depends only on the text before the first `#`. */
  lemma {:induction false} UsernamePartOfPlain(u: string, rest: string)
    requires '#' !in u
    ensures UsernamePart(u) == u
    ensures UsernamePart(u + "#" + rest) == u
  {
    var whole := u + "#" + rest;
    var q := UsernamePart(whole);
    assert whole[|u|] == '#';
    assert q == whole[..|u|] == u;
  }

  /** The discriminator never reaches the name: `u#d` and `u` name the same ticket. */
  lemma DiscriminatorIgnored(u: string, d: string)
    requires '#' !in u
    ensures ChannelName(u + "#" + d) == ChannelName(u)
  {
    UsernamePartOfPlain(u, d);
  }

  /** Letter case is folded: a username and its lower-cased form name the same ticket. */
  lemma CaseIgnored(u: string)
    ensures ChannelName(ToLowerCase(u)) == ChannelName(u)
  {
    LowerPreservesSplit(u);
    LowerIdempotent(UsernamePart(u));
  }

  /** Text without `#` in front is kept whole by the split. */
  lemma {:induction false} UsernamePartAfter(a: string, rest: string)
    requires '#' !in a
    ensures UsernamePart(a + rest) == a + UsernamePart(rest)
  {
    if a == [] {
      assert a + rest == rest;
    } else {
      assert (a + rest)[0] == a[0];
      assert (a + rest)[1..] == a[1..] + rest;
      UsernamePartAfter(a[1..], rest);
      assert [a[0]] + (a[1..] + UsernamePart(rest)) == a + UsernamePart(rest);
    }
  }

  lemma {:induction false} LowerPreservesSplit(u: string)
    ensures UsernamePart(ToLowerCase(u)) == ToLowerCase(UsernamePart(u))
  {
    if u != [] {
      var t := LowerText(u[0]);
      if u[0] == '#' {
        assert t == "#";
        assert ToLowerCase(u) == "#" + ToLowerCase(u[1..]);
      } else {
        LowerPreservesSplit(u[1..]);
        UsernamePartAfter(t, ToLowerCase(u[1..]));
        assert UsernamePart(u) == [u[0]] + UsernamePart(u[1..]);
        assert ToLowerCase([u[0]] + UsernamePart(u[1..])) == t + ToLowerCase(UsernamePart(u[1..])) by {
          assert ([u[0]] + UsernamePart(u[1..]))[0] == u[0];
          assert ([u[0]] + UsernamePart(u[1..]))[1..] == UsernamePart(u[1..]);
        }
      }
    }
  }

  /** The worked example: Discord user `Steve#1` gets the channel `ticket-steve`. */
  lemma SteveExample()
    ensures ChannelName("Steve#1") == "ticket-steve"
  {
    UsernamePartOfPlain("Steve", "1");
    assert "Steve" + "#" + "1" == "Steve#1";
    assert "Steve"[1..] == "teve";
    LowerFixesAlnum("teve");
    assert ToLowerCase("Steve") == LowerText('S') + ToLowerCase("teve");
    assert LowerText('S') == "s";
    assert "s" + "teve" == "steve";
    StripFixesAlnum("steve");
  }
}
