/** `validateIdentifier` of the bot whitelist page (pages/BotActivity.tsx): an identifier is either
    IP-shaped (only digits, dots and slashes), in which case it must be a dotted quad of octets
    0-255 optionally followed by a prefix length `/0`..`/32` (the prefix notation of section 3.1
    of RFC 4632, with leading zeros refused), or free text of at least 3 characters once trimmed.

    The two regular expressions are read as "split on the separator, then every piece matches
    one of the listed alternatives". That reading is exact, because no alternative matches a
    dot or a slash; the contract of `Split` and the lemma `SplitOfJoin` below are the facts it rests on. */
module Identifier {
  import opened Types
  import opened Text

  const FormatError := "Invalid format. Must be a valid IPv4 address (e.g., 192.168.1.1) or CIDR block (e.g., 10.0.0.0/24)."
  const LengthError := "User Agent string must be at least 3 characters long."

  // ---- splitting and joining ----

  function Join(parts: seq<string>, sep: char): string
    requires |parts| >= 1
  {
    if |parts| == 1 then parts[0] else parts[0] + [sep] + Join(parts[1..], sep)
  }

  /** The pieces between occurrences of `sep`; joining them back with `sep` gives `s` again. */
  function Split(s: string, sep: char): (parts: seq<string>)
    ensures |parts| >= 1
    ensures forall k :: 0 <= k < |parts| ==> sep !in parts[k]
    ensures Join(parts, sep) == s
    decreases |s|
  {
    if s == [] then [[]]
    else
      var rest := Split(s[1..], sep);
      if s[0] == sep then
        assert Join([[]] + rest, sep) == [sep] + Join(rest, sep) by {
          assert ([[]] + rest)[1..] == rest;
        }
        [[]] + rest
      else
        var parts := [[s[0]] + rest[0]] + rest[1..];
        assert Join(parts, sep) == [s[0]] + Join(rest, sep) by {
          if |rest| > 1 {
            assert parts[1..] == rest[1..];
          }
        }
        parts
  }

  /** Splitting text that starts with a separator-free piece `a` puts `a` in front of the first piece. */
  lemma {:induction false} SplitPrefix(a: string, t: string, sep: char)
    requires sep !in a
    ensures Split(a + t, sep) == [a + Split(t, sep)[0]] + Split(t, sep)[1..]
    decreases |a|
  {
    if a != [] {
      var st := Split(t, sep);
      assert (a + t)[0] == a[0] && (a + t)[1..] == a[1..] + t;
      SplitPrefix(a[1..], t, sep);
      var rest := Split(a[1..] + t, sep);
      assert rest[0] == a[1..] + st[0] && rest[1..] == st[1..];
      assert Split(a + t, sep) == [[a[0]] + rest[0]] + rest[1..];
      assert [a[0]] + (a[1..] + st[0]) == a + st[0];
      assert [[a[0]] + rest[0]] + rest[1..] == [a + st[0]] + st[1..];
    } else {
      var st := Split(t, sep);
      assert a + t == t && a + st[0] == st[0];
      assert [st[0]] + st[1..] == st;
    }
  }

  /** Joining separator-free pieces and splitting again gives back the same pieces. */
  lemma {:induction false} SplitOfJoin(parts: seq<string>, sep: char)
    requires |parts| >= 1
    requires forall k :: 0 <= k < |parts| ==> sep !in parts[k]
    ensures Split(Join(parts, sep), sep) == parts
    decreases |parts|
  {
    if |parts| == 1 {
      SplitPrefix(parts[0], [], sep);
      assert parts[0] + [] == parts[0];
    } else {
      var tail := Join(parts[1..], sep);
      SplitOfJoin(parts[1..], sep);
      assert parts[0] + [sep] + tail == parts[0] + ([sep] + tail);
      SplitPrefix(parts[0], [sep] + tail, sep);
      assert ([sep] + tail)[1..] == tail;
      assert Split([sep] + tail, sep) == [[]] + parts[1..];
      assert parts[0] + [] == parts[0];
    }
  }

  // ---- the shape test and the two grammars ----

  predicate IsIpStructureChar(c: char)
  {
    IsDigit(c) || c == '.' || c == '/'
  }

  /** `/^[\d\./]+$/`: non-empty and made only of digits, dots and slashes. */
  predicate IsIpStructure(s: string)
  {
    |s| > 0 && forall i :: 0 <= i < |s| ==> IsIpStructureChar(s[i])
  }

  /** The token matches one of `25[0-5]`, `2[0-4]\d`, `1\d\d`, `[1-9]\d`, `\d`. */
  predicate OctetToken(t: string)
  {
    || (|t| == 3 && t[0] == '2' && t[1] == '5' && '0' <= t[2] <= '5')
    || (|t| == 3 && t[0] == '2' && '0' <= t[1] <= '4' && IsDigit(t[2]))
    || (|t| == 3 && t[0] == '1' && IsDigit(t[1]) && IsDigit(t[2]))
    || (|t| == 2 && '1' <= t[0] <= '9' && IsDigit(t[1]))
    || (|t| == 1 && IsDigit(t[0]))
  }

  /** The token matches one of `3[0-2]`, `[12]?\d`. */
  predicate PrefixToken(t: string)
  {
    || (|t| == 2 && t[0] == '3' && '0' <= t[1] <= '2')
    || (|t| == 2 && (t[0] == '1' || t[0] == '2') && IsDigit(t[1]))
    || (|t| == 1 && IsDigit(t[0]))
  }

  /** The whole string matches the IPv4 expression: four octet tokens joined by dots. */
  predicate IsIpv4(s: string)
  {
    var p := Split(s, '.');
    |p| == 4 && OctetToken(p[0]) && OctetToken(p[1]) && OctetToken(p[2]) && OctetToken(p[3])
  }

  /** The whole string matches the CIDR expression: an IPv4 address, one slash, a prefix token. */
  predicate IsCidr(s: string)
  {
    var p := Split(s, '/');
    |p| == 2 && IsIpv4(p[0]) && PrefixToken(p[1])
  }

  /** `validateIdentifier`: `None` stands for `null` (accepted), `Some(message)` for the error returned. */
  function ValidateIdentifier(value: string): (r: Option<string>)
    ensures r == None || r == Some(FormatError) || r == Some(LengthError)
    ensures r == Some(FormatError) <==> IsIpStructure(value) && !IsIpv4(value) && !IsCidr(value)
    ensures r == Some(LengthError) <==> !IsIpStructure(value) && Utf16Length(Trim(value)) < 3
  {
    if IsIpStructure(value) then
      if !IsIpv4(value) && !IsCidr(value) then Some(FormatError) else None
    else if Utf16Length(Trim(value)) < 3 then Some(LengthError)
    else None
  }

  // ---- what the alternatives denote ----

  lemma DecimalValue1(t: string)
    requires |t| == 1 && AllDigits(t)
    ensures DecimalValue(t) == DigitValue(t[0])
  {
    assert t[..0] == [];
  }

  lemma DecimalValue2(t: string)
    requires |t| == 2 && AllDigits(t)
    ensures DecimalValue(t) == 10 * DigitValue(t[0]) + DigitValue(t[1])
  {
    DecimalValue1(t[..1]);
  }

  lemma DecimalValue3(t: string)
    requires |t| == 3 && AllDigits(t)
    ensures DecimalValue(t) == 100 * DigitValue(t[0]) + 10 * DigitValue(t[1]) + DigitValue(t[2])
  {
    DecimalValue2(t[..2]);
  }

  /** The octet alternatives accept exactly the texts of the numbers 0 to 255 written without leading zeros. */
  lemma OctetTokenIsByte(t: string)
    ensures OctetToken(t) <==> IsCanonicalDecimal(t) && DecimalValue(t) <= 255
  {
    if OctetToken(t) {
      assert AllDigits(t);
      if |t| == 3 { DecimalValue3(t); }
      if |t| == 2 { DecimalValue2(t); }
      if |t| == 1 { DecimalValue1(t); }
    }
    if IsCanonicalDecimal(t) && DecimalValue(t) <= 255 {
      if |t| == 1 {
      } else if |t| == 2 {
        DecimalValue2(t);
      } else if |t| == 3 {
        DecimalValue3(t);
      } else {
        DecimalValueBounds(t);
        assert false;
      }
    }
  }

  /** The prefix alternatives accept exactly the texts of the numbers 0 to 32 written without leading zeros. */
  lemma PrefixTokenIsLength(t: string)
    ensures PrefixToken(t) <==> IsCanonicalDecimal(t) && DecimalValue(t) <= 32
  {
    if PrefixToken(t) {
      assert AllDigits(t);
      if |t| == 2 { DecimalValue2(t); }
      if |t| == 1 { DecimalValue1(t); }
    }
    if IsCanonicalDecimal(t) && DecimalValue(t) <= 32 {
      if |t| == 1 {
      } else if |t| == 2 {
        DecimalValue2(t);
      } else {
        DecimalValueBounds(t);
        assert false;
      }
    }
  }

  /** A token of two or more characters that starts with `0` is never an octet nor a prefix length. */
  lemma LeadingZeroRejected(t: string)
    requires |t| >= 2 && t[0] == '0'
    ensures !OctetToken(t) && !PrefixToken(t)
  {
  }

  // ---- the denotation: addresses and blocks ----

  datatype Ipv4Address = Ipv4Address(a: nat, b: nat, c: nat, d: nat)

  /** An address together with its prefix length: the text `a.b.c.d/p`. */
  datatype CidrBlock = CidrBlock(address: Ipv4Address, prefix: nat)

  predicate ValidAddress(q: Ipv4Address)
  {
    q.a <= 255 && q.b <= 255 && q.c <= 255 && q.d <= 255
  }

  predicate ValidBlock(k: CidrBlock)
  {
    ValidAddress(k.address) && k.prefix <= 32
  }

  function AddressParts(q: Ipv4Address): seq<string>
  {
    [Decimal(q.a), Decimal(q.b), Decimal(q.c), Decimal(q.d)]
  }

  function RenderAddress(q: Ipv4Address): string
  {
    Join(AddressParts(q), '.')
  }

  function RenderBlock(k: CidrBlock): string
  {
    RenderAddress(k.address) + "/" + Decimal(k.prefix)
  }

  /** Reads a string that the IPv4 expression matches as the address it writes. */
  function ParseAddress(s: string): (r: Option<Ipv4Address>)
    ensures r.Some? <==> IsIpv4(s)
  {
    if IsIpv4(s) then
      var p := Split(s, '.');
      Some(Ipv4Address(DecimalValue(p[0]), DecimalValue(p[1]), DecimalValue(p[2]), DecimalValue(p[3])))
    else None
  }

  /** Reads a string that the CIDR expression matches as the block it writes. */
  function ParseBlock(s: string): (r: Option<CidrBlock>)
    ensures r.Some? <==> IsCidr(s)
  {
    if IsCidr(s) then
      var p := Split(s, '/');
      Some(CidrBlock(ParseAddress(p[0]).value, DecimalValue(p[1])))
    else None
  }

  lemma {:induction false} JoinAvoids(parts: seq<string>, sep: char, c: char)
    requires |parts| >= 1 && c != sep
    requires forall k :: 0 <= k < |parts| ==> c !in parts[k]
    ensures c !in Join(parts, sep)
    decreases |parts|
  {
    if |parts| > 1 {
      JoinAvoids(parts[1..], sep, c);
    }
  }

  lemma RenderedAddressHasNoSlash(q: Ipv4Address)
    ensures '/' !in RenderAddress(q)
  {
    DecimalHasOnlyDigits(q.a);
    DecimalHasOnlyDigits(q.b);
    DecimalHasOnlyDigits(q.c);
    DecimalHasOnlyDigits(q.d);
    JoinAvoids(AddressParts(q), '.', '/');
  }

  /** Every valid address written out is matched by the IPv4 expression and reads back as itself. */
  lemma {:induction false} ParseRenderAddress(q: Ipv4Address)
    requires ValidAddress(q)
    ensures ParseAddress(RenderAddress(q)) == Some(q)
  {
    var p := AddressParts(q);
    DecimalHasOnlyDigits(q.a);
    DecimalHasOnlyDigits(q.b);
    DecimalHasOnlyDigits(q.c);
    DecimalHasOnlyDigits(q.d);
    SplitOfJoin(p, '.');
    OctetTokenIsByte(p[0]);
    OctetTokenIsByte(p[1]);
    OctetTokenIsByte(p[2]);
    OctetTokenIsByte(p[3]);
  }

  /** Whatever the IPv4 expression matches is a valid address written out. */
  lemma {:induction false} RenderParseAddress(s: string)
    requires IsIpv4(s)
    ensures ValidAddress(ParseAddress(s).value) && RenderAddress(ParseAddress(s).value) == s
  {
    var p := Split(s, '.');
    OctetTokenIsByte(p[0]);
    OctetTokenIsByte(p[1]);
    OctetTokenIsByte(p[2]);
    OctetTokenIsByte(p[3]);
    DecimalOfValue(p[0]);
    DecimalOfValue(p[1]);
    DecimalOfValue(p[2]);
    DecimalOfValue(p[3]);
    assert AddressParts(ParseAddress(s).value) == p;
  }

  lemma {:induction false} ParseRenderBlock(k: CidrBlock)
    requires ValidBlock(k)
    ensures ParseBlock(RenderBlock(k)) == Some(k)
  {
    var addr := RenderAddress(k.address);
    var pre := Decimal(k.prefix);
    RenderedAddressHasNoSlash(k.address);
    DecimalHasOnlyDigits(k.prefix);
    assert RenderBlock(k) == Join([addr, pre], '/');
    SplitOfJoin([addr, pre], '/');
    ParseRenderAddress(k.address);
    PrefixTokenIsLength(pre);
  }

  lemma {:induction false} RenderParseBlock(s: string)
    requires IsCidr(s)
    ensures ValidBlock(ParseBlock(s).value) && RenderBlock(ParseBlock(s).value) == s
  {
    var p := Split(s, '/');
    RenderParseAddress(p[0]);
    PrefixTokenIsLength(p[1]);
    DecimalOfValue(p[1]);
    assert Join(p, '/') == p[0] + "/" + p[1];
  }

  lemma RenderedIsIpStructure(s: string)
    requires IsIpv4(s) || IsCidr(s)
    ensures IsIpStructure(s)
  {
    var dots := Split(s, '.');
    if IsIpv4(s) {
      RenderParseAddress(s);
    } else {
      RenderParseBlock(s);
    }
    assert |s| > 0;
    forall i | 0 <= i < |s| ensures IsIpStructureChar(s[i]) {
      IpCharsAreStructural(s, i);
    }
  }

  /** Every character of a matched address or block is a digit, a dot or a slash. */
  lemma IpCharsAreStructural(s: string, i: int)
    requires IsIpv4(s) || IsCidr(s)
    requires 0 <= i < |s|
    ensures IsIpStructureChar(s[i])
  {
    if IsIpv4(s) {
      TokensAreStructural(Split(s, '.'), '.', i);
    } else {
      var p := Split(s, '/');
      assert Join(p[1..], '/') == p[1];
      assert s == p[0] + (['/'] + p[1]);
      if i < |p[0]| {
        assert s[i] == p[0][i];
        TokensAreStructural(Split(p[0], '.'), '.', i);
      } else if i > |p[0]| {
        assert s[i] == p[1][i - |p[0]| - 1];
      }
    }
  }

  lemma {:induction false} TokensAreStructural(parts: seq<string>, sep: char, i: int)
    requires |parts| >= 1
    requires sep == '.' || sep == '/'
    requires forall k :: 0 <= k < |parts| ==> OctetToken(parts[k])
    requires 0 <= i < |Join(parts, sep)|
    ensures IsIpStructureChar(Join(parts, sep)[i])
    decreases |parts|
  {
    if |parts| > 1 {
      var j := Join(parts, sep);
      assert j == parts[0] + ([sep] + Join(parts[1..], sep));
      if i > |parts[0]| {
        TokensAreStructural(parts[1..], sep, i - |parts[0]| - 1);
      }
    }
  }

  // ---- the properties the validator promises ----

  /** An IP-shaped identifier is accepted exactly when it is a valid address, or a valid address with
      a prefix length of at most 32, written in canonical decimal; otherwise the format error is returned. */
  lemma IpShapedAcceptance(v: string)
    requires IsIpStructure(v)
    ensures ValidateIdentifier(v) != Some(LengthError)
    ensures ValidateIdentifier(v) == None <==>
      (exists q :: ValidAddress(q) && RenderAddress(q) == v) ||
      (exists k :: ValidBlock(k) && RenderBlock(k) == v)
  {
    if IsIpv4(v) {
      RenderParseAddress(v);
    } else if IsCidr(v) {
      RenderParseBlock(v);
    }
    if exists q :: ValidAddress(q) && RenderAddress(q) == v {
      var q :| ValidAddress(q) && RenderAddress(q) == v;
      ParseRenderAddress(q);
    }
    if exists k :: ValidBlock(k) && RenderBlock(k) == v {
      var k :| ValidBlock(k) && RenderBlock(k) == v;
      ParseRenderBlock(k);
    }
  }

  /** Every valid address and every valid block is accepted. */
  lemma ValidAddressesAccepted(q: Ipv4Address, k: CidrBlock)
    requires ValidAddress(q) && ValidBlock(k)
    ensures ValidateIdentifier(RenderAddress(q)) == None
    ensures ValidateIdentifier(RenderBlock(k)) == None
  {
    ParseRenderAddress(q);
    ParseRenderBlock(k);
    RenderedIsIpStructure(RenderAddress(q));
    RenderedIsIpStructure(RenderBlock(k));
  }

  /** Any identifier holding a character other than a digit, dot or slash is free text: it is accepted
      exactly when its trimmed length is at least 3, and otherwise the length message is returned. */
  lemma FreeTextAcceptance(v: string, i: int)
    requires 0 <= i < |v| && !IsIpStructureChar(v[i])
    ensures ValidateIdentifier(v) == None <==> Utf16Length(Trim(v)) >= 3
    ensures ValidateIdentifier(v) != None ==> ValidateIdentifier(v) == Some(LengthError)
  {
  }

  /** Free text of at least 3 characters with no white space at either end is accepted as it stands. */
  lemma UnpaddedFreeTextAccepted(v: string)
    requires |v| >= 3 && !IsIpStructureChar(v[0])
    requires !IsJsWhitespace(v[0]) && !IsJsWhitespace(v[|v| - 1])
    ensures ValidateIdentifier(v) == None
  {
    TrimKeepsUnpadded(v);
  }

  // ---- boundary cases ----

  lemma SplitOf(parts: seq<string>, sep: char, s: string)
    requires |parts| >= 1 && Join(parts, sep) == s
    requires forall k :: 0 <= k < |parts| ==> sep !in parts[k]
    ensures Split(s, sep) == parts
  {
    SplitOfJoin(parts, sep);
  }

  /** The lowest address is accepted. */
  lemma AcceptsZeroAddress()
    ensures ValidateIdentifier("0.0.0.0") == None
  {
    var zero := Ipv4Address(0, 0, 0, 0);
    assert RenderAddress(zero) == "0.0.0.0";
    ValidAddressesAccepted(zero, CidrBlock(zero, 0));
  }

  /** The highest address is accepted. */
  lemma AcceptsTopAddress()
    ensures ValidateIdentifier("255.255.255.255") == None
  {
    var top := Ipv4Address(255, 255, 255, 255);
    assert Decimal(255) == "255";
    assert RenderAddress(top) == "255.255.255.255";
    ValidAddressesAccepted(top, CidrBlock(top, 0));
  }

  /** The longest prefix length is accepted. */
  lemma AcceptsLongestPrefix()
    ensures ValidateIdentifier("10.0.0.0/32") == None
  {
    var net := CidrBlock(Ipv4Address(10, 0, 0, 0), 32);
    assert Decimal(10) == "10" && Decimal(32) == "32";
    assert RenderBlock(net) == "10.0.0.0/32";
    ValidAddressesAccepted(net.address, net);
  }

  /** An IP-shaped string whose pieces, split at the dots and at the slashes, fit neither grammar
      gets the format error. */
  lemma FormatErrorFromPieces(v: string, dots: seq<string>, slashes: seq<string>)
    requires IsIpStructure(v)
    requires |dots| >= 1 && Join(dots, '.') == v && forall k :: 0 <= k < |dots| ==> '.' !in dots[k]
    requires |slashes| >= 1 && Join(slashes, '/') == v && forall k :: 0 <= k < |slashes| ==> '/' !in slashes[k]
    requires !(|dots| == 4 && OctetToken(dots[0]) && OctetToken(dots[1]) && OctetToken(dots[2]) && OctetToken(dots[3]))
    requires !(|slashes| == 2 && IsIpv4(slashes[0]) && PrefixToken(slashes[1]))
    ensures ValidateIdentifier(v) == Some(FormatError)
  {
    SplitOfJoin(dots, '.');
    SplitOfJoin(slashes, '/');
  }

  /** An octet above 255 gives the format error. */
  lemma RejectsOctetAbove255()
    ensures ValidateIdentifier("256.1.1.1") == Some(FormatError)
  {
    FormatErrorFromPieces("256.1.1.1", ["256", "1", "1", "1"], ["256.1.1.1"]);
  }

  /** Three octets are not an address. */
  lemma RejectsThreeOctets()
    ensures ValidateIdentifier("1.2.3") == Some(FormatError)
  {
    FormatErrorFromPieces("1.2.3", ["1", "2", "3"], ["1.2.3"]);
  }

  /** A prefix length above 32 gives the format error. */
  lemma RejectsPrefixAbove32()
    ensures ValidateIdentifier("10.0.0.0/33") == Some(FormatError)
  {
    assert !PrefixToken("33");
    FormatErrorFromPieces("10.0.0.0/33", ["10", "0", "0", "0/33"], ["10.0.0.0", "33"]);
  }

  /** A leading zero is refused in an octet. */
  lemma RejectsLeadingZeroOctet()
    ensures ValidateIdentifier("01.2.3.4") == Some(FormatError)
  {
    FormatErrorFromPieces("01.2.3.4", ["01", "2", "3", "4"], ["01.2.3.4"]);
  }

  /** A leading zero is refused in a prefix length. */
  lemma RejectsLeadingZeroPrefix()
    ensures ValidateIdentifier("10.0.0.0/05") == Some(FormatError)
  {
    assert !PrefixToken("05");
    FormatErrorFromPieces("10.0.0.0/05", ["10", "0", "0", "0/05"], ["10.0.0.0", "05"]);
  }

  /** The empty string is not IP-shaped (the character class needs at least one character), so it
      gets the length message. */
  lemma RejectsEmpty()
    ensures ValidateIdentifier("") == Some(LengthError)
  {
  }

  /** A user-agent text with a slash and dots is free text, and accepted. */
  lemma AcceptsUserAgent()
    ensures ValidateIdentifier("Bot/1.0") == None
  {
    var v := "Bot/1.0";
    assert !IsIpStructureChar(v[0]);
    TrimKeepsUnpadded(v);
  }

  /** Text of at least 3 characters after one leading space, with no white space at its ends, is accepted. */
  lemma PaddedFreeTextAccepted(v: string)
    requires |v| >= 4 && v[0] == ' ' && !IsJsWhitespace(v[1]) && !IsJsWhitespace(v[|v| - 1])
    ensures ValidateIdentifier(v) == None
  {
    var t := v[1..];
    assert [' '] + t == v;
    assert t[0] == v[1] && t[|t| - 1] == v[|v| - 1];
    TrimLeadingSpace(t);
    assert Utf16Length(Trim(v)) >= |t| >= 3;
    FreeTextAcceptance(v, 0);
  }

  /** A leading space makes an address free text; trimming only matters for the length. */
  lemma AcceptsPaddedAddress()
    ensures ValidateIdentifier(" 1.2.3.4") == None
  {
    PaddedFreeTextAccepted(" 1.2.3.4");
  }
}
