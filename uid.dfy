/**
 * The canonical text form of a raw uid, `'-'.join(map(str, raw_uid))`,
 * and a parser that inverts it, so that comparing canonical strings is the
 * same as comparing raw uids.
 */
module Uid {
  import opened Types

  predicate IsDigit(c: char) {
    '0' <= c <= '9'
  }

  predicate AllDigits(s: string) {
    forall i :: 0 <= i < |s| ==> IsDigit(s[i])
  }

  function DigitChar(d: nat): (c: char)
    requires d < 10
    ensures IsDigit(c)
  {
    ('0' as int + d) as char
  }

  /** `str(n)` for a non-negative int: decimal digits without leading zeros. */
  function Decimal(n: nat): (r: string)
    ensures |r| >= 1 && AllDigits(r)
    ensures r[0] == '0' ==> n == 0 && |r| == 1
    decreases n
  {
    if n < 10 then [DigitChar(n)] else Decimal(n / 10) + [DigitChar(n % 10)]
  }

  /** The number a string of decimal digits denotes. */
  function DecimalValue(s: string): nat
    requires AllDigits(s)
  {
    if s == [] then 0 else 10 * DecimalValue(s[..|s| - 1]) + (s[|s| - 1] as int - '0' as int)
  }

  lemma {:induction false} DecimalRoundTrip(n: nat)
    ensures DecimalValue(Decimal(n)) == n
    decreases n
  {
    if n >= 10 {
      var r := Decimal(n);
      assert r[..|r| - 1] == Decimal(n / 10);
      DecimalRoundTrip(n / 10);
    }
  }

  /** The registry key of a raw uid: its byte values in decimal, joined by '-'. */
  function Canonical(raw: seq<byte>): (r: string)
    ensures raw == [] <==> r == []
  {
    if raw == [] then []
    else if |raw| == 1 then Decimal(raw[0])
    else Decimal(raw[0]) + "-" + Canonical(raw[1..])
  }

  /** The position of the first '-' in `s`, or `|s|` when there is none. */
  function IndexOfDash(s: string): (i: nat)
    ensures i <= |s|
    ensures i < |s| ==> s[i] == '-'
    ensures forall k :: 0 <= k < i ==> s[k] != '-'
  {
    if s == [] || s[0] == '-' then 0 else 1 + IndexOfDash(s[1..])
  }

  /** One field of a canonical uid: a decimal number below 256. */
  function ParseByte(s: string): Option<byte> {
    if s != [] && AllDigits(s) && DecimalValue(s) < 256 then Some(DecimalValue(s)) else None
  }

  /** The raw uid a canonical string stands for, if it is one. */
  function ParseUid(s: string): Option<seq<byte>> {
    if s == [] then Some([]) else ParseFields(s)
  }

  function ParseFields(s: string): Option<seq<byte>>
    decreases |s|
  {
    var i := IndexOfDash(s);
    match ParseByte(s[..i])
    case None => None
    case Some(b) =>
      if i == |s| then Some([b])
      else
        match ParseFields(s[i + 1..])
        case None => None
        case Some(rest) => Some([b] + rest)
  }

  lemma ParseByteDecimal(b: byte)
    ensures ParseByte(Decimal(b)) == Some(b)
  {
    DecimalRoundTrip(b);
  }

  /** A run of digits holds no '-': the search for one passes over it. */
  lemma {:induction false} IndexOfDashSkipsDigits(d: string, t: string)
    requires AllDigits(d)
    ensures IndexOfDash(d + t) == |d| + IndexOfDash(t)
  {
    if d != [] {
      assert (d + t)[1..] == d[1..] + t;
      IndexOfDashSkipsDigits(d[1..], t);
    } else {
      assert d + t == t;
    }
  }

  /** The first '-' of `Decimal(b) + "-" + rest` is the one after the number. */
  lemma DashAfterDecimal(b: byte, rest: string)
    ensures IndexOfDash(Decimal(b) + "-" + rest) == |Decimal(b)|
  {
    assert Decimal(b) + "-" + rest == Decimal(b) + ("-" + rest);
    IndexOfDashSkipsDigits(Decimal(b), "-" + rest);
  }

  lemma NoDashInDecimal(b: byte)
    ensures IndexOfDash(Decimal(b)) == |Decimal(b)|
  {
    assert Decimal(b) + [] == Decimal(b);
    IndexOfDashSkipsDigits(Decimal(b), []);
  }

  /** Parsing the canonical form gives the raw uid back. */
  lemma {:induction false} ParseCanonical(raw: seq<byte>)
    ensures ParseUid(Canonical(raw)) == Some(raw)
  {
    if raw != [] {
      ParseFieldsCanonical(raw);
    }
  }

  lemma {:induction false} ParseFieldsCanonical(raw: seq<byte>)
    requires raw != []
    ensures ParseFields(Canonical(raw)) == Some(raw)
  {
    if |raw| == 1 {
      ParseFieldsLast(raw[0]);
      assert [raw[0]] == raw;
    } else {
      ParseFieldsCons(raw[0], Canonical(raw[1..]));
      ParseFieldsCanonical(raw[1..]);
      assert [raw[0]] + raw[1..] == raw;
    }
  }

  /** The last field of a canonical uid parses to its byte. */
  lemma ParseFieldsLast(b: byte)
    ensures ParseFields(Decimal(b)) == Some([b])
  {
    var d := Decimal(b);
    ParseByteDecimal(b);
    NoDashInDecimal(b);
    assert d[..|d|] == d;
  }

  /** A field followed by '-' parses to its byte, followed by what the rest parses to. */
  lemma ParseFieldsCons(b: byte, rest: string)
    ensures ParseFields(Decimal(b) + "-" + rest)
      == match ParseFields(rest) case None => None case Some(r) => Some([b] + r)
  {
    var d := Decimal(b);
    var s := d + "-" + rest;
    ParseByteDecimal(b);
    DashAfterDecimal(b, rest);
    assert s[..|d|] == d;
    assert s[|d| + 1..] == rest;
  }

  /** Two raw uids have the same canonical string only if they are the same uid. */
  lemma CanonicalInjective(a: seq<byte>, b: seq<byte>)
    ensures Canonical(a) == Canonical(b) <==> a == b
  {
    ParseCanonical(a);
    ParseCanonical(b);
  }
}
