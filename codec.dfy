/**
 * The channel-identity codec: a (channel kind, instance id) pair becomes one
 * wire channel name, `kind`, then the separator, then the id rendered as a
 * string. No escaping and no validation is performed. Decoding never happens
 * in the system; the split function below is only a reference partner used
 * to state when the encoding is unambiguous.
 */
module Codec {
  import opened Wrappers

  /** The seven separator characters the factory option admits. */
  const AllowedSeparators: string := "_-=@,.;"

  /** The factory's `channel_id_separator` option, one constructor per admitted literal. */
  datatype Separator = Underscore | Hyphen | Equals | At | Comma | Dot | Semicolon {
    function Char(): (c: char)
      ensures c in AllowedSeparators
    {
      match this
      case Underscore => '_'
      case Hyphen => '-'
      case Equals => '='
      case At => '@'
      case Comma => ','
      case Dot => '.'
      case Semicolon => ';'
    }
  }

  /** The separator used when the option is omitted. */
  const DefaultSeparator: Separator := Dot

  /**
   * The literal-union type of the option: a string is an admitted separator
   * exactly when it is a one-character string holding one of the seven characters.
   */
  function ParseSeparator(s: string): (r: Option<Separator>)
    ensures r.Some? <==> |s| == 1 && s[0] in AllowedSeparators
    ensures r.Some? ==> [r.value.Char()] == s
  {
    if s == "_" then Some(Underscore)
    else if s == "-" then Some(Hyphen)
    else if s == "=" then Some(Equals)
    else if s == "@" then Some(At)
    else if s == "," then Some(Comma)
    else if s == "." then Some(Dot)
    else if s == ";" then Some(Semicolon)
    else None
  }

  /** Every separator is admitted by the option type and is read back as itself. */
  lemma SeparatorRoundTrip(sep: Separator)
    ensures ParseSeparator([sep.Char()]) == Some(sep)
  {
  }

  /** Distinct separators are distinct characters. */
  lemma SeparatorCharInjective(a: Separator, b: Separator)
    requires a.Char() == b.Char()
    ensures a == b
  {
    SeparatorRoundTrip(a);
    SeparatorRoundTrip(b);
  }

  /** The default separator is the dot. */
  lemma DefaultIsDot()
    ensures DefaultSeparator.Char() == '.'
    ensures ParseSeparator(".") == Some(DefaultSeparator)
  {
  }

  // ---------------------------------------------------------------------
  // Decimal rendering of integer ids

  predicate IsDigit(ch: char) {
    '0' <= ch <= '9'
  }

  predicate AllDigits(s: string) {
    forall i :: 0 <= i < |s| ==> IsDigit(s[i])
  }

  function DigitChar(d: nat): (ch: char)
    requires d < 10
    ensures IsDigit(ch) && ch as int - '0' as int == d
  {
    ('0' as int + d) as char
  }

  function DigitValue(ch: char): (d: nat)
    requires IsDigit(ch)
    ensures d < 10
  {
    ch as int - '0' as int
  }

  /** The decimal rendering of a natural number: digits only, no leading zero. */
  function NatToDecimal(n: nat): (r: string)
    ensures |r| >= 1 && AllDigits(r)
    ensures n > 0 ==> r[0] != '0'
    ensures n < 10 <==> |r| == 1
    decreases n
  {
    if n < 10 then [DigitChar(n)] else NatToDecimal(n / 10) + [DigitChar(n % 10)]
  }

  /** The value a digit string denotes, its last digit being the least significant. */
  function DecimalValue(s: string): nat
    requires AllDigits(s)
  {
    if s == [] then 0 else DecimalValue(s[..|s| - 1]) * 10 + DigitValue(s[|s| - 1])
  }

  /** Reading back the decimal rendering yields the number rendered. */
  lemma {:induction false} DecimalRoundTrip(n: nat)
    ensures DecimalValue(NatToDecimal(n)) == n
  {
    var r := NatToDecimal(n);
    if n >= 10 {
      DecimalRoundTrip(n / 10);
      assert r[..|r| - 1] == NatToDecimal(n / 10);
      assert DigitValue(r[|r| - 1]) == n % 10;
    } else {
      assert r[..|r| - 1] == [];
    }
  }

  /** JavaScript's rendering of an integer-valued number: a minus sign, then the digits of the magnitude. */
  function IntToDecimal(n: int): (r: string)
    ensures |r| >= 1
    ensures r[0] == '-' <==> n < 0
    ensures n >= 0 ==> AllDigits(r) && r == NatToDecimal(n)
    ensures n < 0 ==> AllDigits(r[1..]) && r[1..] == NatToDecimal(-n)
  {
    if n < 0 then "-" + NatToDecimal(-n) else NatToDecimal(n)
  }

  /** Distinct integers render to distinct strings. */
  lemma IntToDecimalInjective(m: int, n: int)
    requires IntToDecimal(m) == IntToDecimal(n)
    ensures m == n
  {
    var r := IntToDecimal(m);
    if m < 0 {
      assert n < 0;
      DecimalRoundTrip(-m);
      DecimalRoundTrip(-n);
    } else {
      assert n >= 0;
      DecimalRoundTrip(m);
      DecimalRoundTrip(n);
    }
  }

  // ---------------------------------------------------------------------
  // Instance ids and wire names

  /** The id argument of `joinChannel`, `leaveChannel` and `invoke`: a string or an integer. */
  datatype InstanceId = StrId(s: string) | IntId(n: int)

  /**
   * The id as a template string renders it: a string verbatim, with no
   * escaping; an integer as its decimal digits, after a `-` when negative.
   */
  function IdString(id: InstanceId): (r: string)
    ensures id.StrId? ==> r == id.s
    ensures id.IntId? ==> r == IntToDecimal(id.n)
    ensures id.IntId? && id.n >= 0 ==> AllDigits(r) && DecimalValue(r) == id.n
    ensures id.IntId? && id.n < 0 ==> |r| >= 2 && r[0] == '-' && AllDigits(r[1..]) && DecimalValue(r[1..]) == -id.n
  {
    match id
    case StrId(s) => s
    case IntId(n) =>
      DecimalRoundTrip(if n < 0 then -n else n);
      IntToDecimal(n)
  }

  /**
   * The wire channel name of a channel identity: the kind, then the
   * separator character, then the id string, with nothing added or escaped.
   */
  function WireName(kind: string, sep: Separator, id: InstanceId): (r: string)
    ensures |r| == |kind| + 1 + |IdString(id)|
    ensures r[..|kind|] == kind
    ensures r[|kind|] == sep.Char()
    ensures r[|kind| + 1..] == IdString(id)
  {
    kind + [sep.Char()] + IdString(id)
  }

  /** The wire names of a sequence of ids, in order: element i encodes ids[i]. */
  function WireNames(kind: string, sep: Separator, ids: seq<InstanceId>): (r: seq<string>)
    ensures |r| == |ids|
    ensures forall i :: 0 <= i < |ids| ==> r[i] == WireName(kind, sep, ids[i])
  {
    if ids == [] then [] else [WireName(kind, sep, ids[0])] + WireNames(kind, sep, ids[1..])
  }

  /** Encoding a concatenation of id lists concatenates the encodings. */
  lemma WireNamesAppend(kind: string, sep: Separator, a: seq<InstanceId>, b: seq<InstanceId>)
    ensures WireNames(kind, sep, a + b) == WireNames(kind, sep, a) + WireNames(kind, sep, b)
  {
    var l, r := WireNames(kind, sep, a + b), WireNames(kind, sep, a) + WireNames(kind, sep, b);
    assert |l| == |r|;
    forall i | 0 <= i < |l| ensures l[i] == r[i] {
      if i < |a| {
        assert (a + b)[i] == a[i];
      } else {
        assert (a + b)[i] == b[i - |a|];
      }
    }
  }

  /** A name is in the encoded list exactly when it encodes one of the ids. */
  lemma WireNamesMembership(kind: string, sep: Separator, ids: seq<InstanceId>, name: string)
    ensures name in WireNames(kind, sep, ids) <==> exists id :: id in ids && name == WireName(kind, sep, id)
  {
    var r := WireNames(kind, sep, ids);
    if name in r {
      var i :| 0 <= i < |r| && r[i] == name;
      assert ids[i] in ids;
    }
    if exists id :: id in ids && name == WireName(kind, sep, id) {
      var id :| id in ids && name == WireName(kind, sep, id);
      var i :| 0 <= i < |ids| && ids[i] == id;
      assert r[i] == name;
    }
  }

  // ---------------------------------------------------------------------
  // Reference decoding, used only to state when the encoding is unambiguous

  /** Splits a string at the first occurrence of `c`. */
  function SplitAtFirst(s: string, c: char): (r: Option<(string, string)>)
    ensures r.None? <==> c !in s
    ensures r.Some? ==> s == r.value.0 + [c] + r.value.1 && c !in r.value.0
  {
    if s == [] then None
    else if s[0] == c then Some(([], s[1..]))
    else
      match SplitAtFirst(s[1..], c)
      case None => None
      case Some(p) => Some(([s[0]] + p.0, p.1))
  }

  /** Splitting `prefix + [c] + rest` at `c` recovers both parts when `c` does not occur in `prefix`. */
  lemma {:induction false} SplitAtFirstRecovers(prefix: string, c: char, rest: string)
    requires c !in prefix
    ensures SplitAtFirst(prefix + [c] + rest, c) == Some((prefix, rest))
  {
    var s := prefix + [c] + rest;
    if prefix == [] {
      assert s[0] == c && s[1..] == rest;
    } else {
      assert s[0] == prefix[0] != c;
      assert s[1..] == prefix[1..] + [c] + rest;
      SplitAtFirstRecovers(prefix[1..], c, rest);
      assert [prefix[0]] + prefix[1..] == prefix;
    }
  }

  /** When the separator does not occur in the kind, splitting a wire name at it recovers the kind and the id string. */
  lemma WireNameSplits(kind: string, sep: Separator, id: InstanceId)
    requires sep.Char() !in kind
    ensures SplitAtFirst(WireName(kind, sep, id), sep.Char()) == Some((kind, IdString(id)))
  {
    SplitAtFirstRecovers(kind, sep.Char(), IdString(id));
  }

  /**
   * Two identities whose kinds are free of the separator share a wire name
   * only when they have the same kind and render their ids to the same string.
   */
  lemma WireNameInjective(k1: string, k2: string, sep: Separator, i1: InstanceId, i2: InstanceId)
    requires sep.Char() !in k1 && sep.Char() !in k2
    requires WireName(k1, sep, i1) == WireName(k2, sep, i2)
    ensures k1 == k2 && IdString(i1) == IdString(i2)
  {
    WireNameSplits(k1, sep, i1);
    WireNameSplits(k2, sep, i2);
  }

  /** Integer ids render injectively, so among integer ids the identity is fully recovered. */
  lemma IntIdWireNameInjective(k1: string, k2: string, sep: Separator, m: int, n: int)
    requires sep.Char() !in k1 && sep.Char() !in k2
    requires WireName(k1, sep, IntId(m)) == WireName(k2, sep, IntId(n))
    ensures k1 == k2 && m == n
  {
    WireNameInjective(k1, k2, sep, IntId(m), IntId(n));
    IntToDecimalInjective(m, n);
  }

  /** Known limitation: a kind that contains the separator makes two identities collide. */
  lemma SeparatorInKindCollides()
    ensures WireName("a.b", Dot, StrId("c")) == WireName("a", Dot, StrId("b.c"))
    ensures "a.b" != "a"
  {
  }

  /** Known limitation: a string id and the integer it spells collide. */
  lemma StringAndIntIdsCollide(kind: string, sep: Separator, n: int)
    ensures WireName(kind, sep, StrId(IntToDecimal(n))) == WireName(kind, sep, IntId(n))
    ensures StrId(IntToDecimal(n)) != IntId(n)
  {
  }
}
