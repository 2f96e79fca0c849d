/** The order id handed to the payment gateway, and how a notification is traced back to its order. */
module PaymentId {
  import opened Common

  type Nibble = n: nat | n < 16

  // The 128 bits of a UUID, most significant first.
  type Uuid = u: seq<Nibble> | |u| == 32 witness seq(32, _ => 0)

  const DIGITS: string := "0123456789abcdef"

  function HexDigit(n: Nibble): char {
    DIGITS[n]
  }

  function Hex(u: seq<Nibble>): (s: string)
    ensures |s| == |u|
    ensures forall i :: 0 <= i < |s| ==> s[i] == HexDigit(u[i])
  {
    if u == [] then "" else [HexDigit(u[0])] + Hex(u[1..])
  }

  // The canonical text of section 4 of RFC 9562: groups of 8, 4, 4, 4 and 12 digits.
  function Text(u: Uuid): string {
    var h := Hex(u);
    h[..8] + "-" + h[8..12] + "-" + h[12..16] + "-" + h[16..20] + "-" + h[20..]
  }

  // strings.ReplaceAll(s, "-", "")
  function WithoutDashes(s: string): string {
    if s == "" then "" else (if s[0] == '-' then "" else [s[0]]) + WithoutDashes(s[1..])
  }

  function Decimal(n: nat): (s: string)
    ensures |s| >= 1
    ensures forall i :: 0 <= i < |s| ==> '0' <= s[i] <= '9'
  {
    if n < 10 then ['0' + n as char] else Decimal(n / 10) + ['0' + (n % 10) as char]
  }

  // The id `CreatePaymentToken` sends.
  function GatewayId(u: Uuid, timestamp: nat): string {
    "ORD" + "_" + (WithoutDashes(Text(u)) + "_" + Decimal(timestamp))
  }

  // The form used before, which notifications may still carry.
  function OldGatewayId(u: Uuid, timestamp: nat): string {
    Text(u) + "_" + Decimal(timestamp)
  }

  // ---- reading a notification ----

  function UntilUnderscore(s: string): (k: nat)
    ensures k <= |s| && '_' !in s[..k] && (k < |s| ==> s[k] == '_')
  {
    if s == "" || s[0] == '_' then 0 else 1 + UntilUnderscore(s[1..])
  }

  // strings.Split(s, "_")
  function Split(s: string): (parts: seq<string>)
    ensures |parts| >= 1
    decreases |s|
  {
    var k := UntilUnderscore(s);
    if k == |s| then [s] else [s[..k]] + Split(s[k + 1..])
  }

  function Value(c: char): Option<Nibble> {
    if '0' <= c <= '9' then Some(c as int - '0' as int)
    else if 'a' <= c <= 'f' then Some(c as int - 'a' as int + 10)
    else if 'A' <= c <= 'F' then Some(c as int - 'A' as int + 10)
    else None
  }

  function Values(s: string): (r: Option<seq<Nibble>>)
    ensures r.Some? ==> |r.value| == |s|
  {
    if s == "" then Some([])
    else
      var first, rest := Value(s[0]), Values(s[1..]);
      if first.Some? && rest.Some? then Some([first.value] + rest.value) else None
  }

  function Lower(c: char): char {
    if 'A' <= c <= 'Z' then (c as int + 32) as char else c
  }

  function LowerCase(s: string): (r: string)
    ensures |r| == |s|
    ensures forall i :: 0 <= i < |s| ==> r[i] == Lower(s[i])
  {
    if s == "" then "" else [Lower(s[0])] + LowerCase(s[1..])
  }

  // The dashed form at the head of `s`.
  function ParseDashed(s: string): (r: Option<seq<Nibble>>)
    requires |s| >= 36
    ensures r.Some? ==> |r.value| == 32
  {
    if s[8] != '-' || s[13] != '-' || s[18] != '-' || s[23] != '-' then None
    else Values(s[..8] + s[9..13] + s[14..18] + s[19..23] + s[24..36])
  }

  // uuid.Parse: canonical, URN, braced, or 32 digits.
  function Parse(s: string): (r: Option<seq<Nibble>>)
    ensures r.Some? ==> |r.value| == 32
  {
    if |s| == 36 then ParseDashed(s)
    else if |s| == 45 then (if LowerCase(s[..9]) == "urn:uuid:" then ParseDashed(s[9..]) else None)
    else if |s| == 38 then ParseDashed(s[1..])
    else if |s| == 32 then Values(s)
    else None
  }

  // The part of `HandleMidtransNotification` that names the order.
  function OrderOf(raw: string): Option<seq<Nibble>> {
    var parts := Split(raw);
    if |parts| >= 2 && parts[0] == "ORD" then Parse(parts[1]) else Parse(parts[0])
  }

  // ---- round trips ----

  lemma ValueOfDigit(n: Nibble)
    ensures Value(HexDigit(n)) == Some(n)
  {
    if n < 10 {
      assert HexDigit(n) == "0123456789"[n];
    }
  }

  lemma {:induction false} ValuesOfHex(u: seq<Nibble>)
    ensures Values(Hex(u)) == Some(u)
  {
    if u != [] {
      ValuesOfHex(u[1..]);
      ValueOfDigit(u[0]);
      assert [u[0]] + u[1..] == u;
    }
  }

  lemma HexPlain(u: seq<Nibble>)
    ensures '-' !in Hex(u) && '_' !in Hex(u)
  {
    forall i | 0 <= i < |u| ensures Hex(u)[i] != '-' && Hex(u)[i] != '_' {
      assert Hex(u)[i] == DIGITS[u[i]];
    }
  }

  lemma {:induction false} DashesJoin(a: string, b: string)
    ensures WithoutDashes(a + b) == WithoutDashes(a) + WithoutDashes(b)
  {
    if a == "" {
      assert a + b == b;
    } else {
      assert (a + b)[1..] == a[1..] + b;
      DashesJoin(a[1..], b);
    }
  }

  lemma {:induction false} NoDashes(s: string)
    requires '-' !in s
    ensures WithoutDashes(s) == s
  {
    if s != "" { NoDashes(s[1..]); }
  }

  lemma LoneDash()
    ensures WithoutDashes("-") == ""
  {
    assert "-"[1..] == "";
  }

  lemma DashThenPlain(a: string, b: string)
    requires '-' !in b
    ensures WithoutDashes(a + "-" + b) == WithoutDashes(a) + b
  {
    DashesJoin(a + "-", b);
    DashesJoin(a, "-");
    LoneDash();
    NoDashes(b);
    assert WithoutDashes(a) + "" == WithoutDashes(a);
  }

  lemma GroupsRejoin(h: string)
    requires |h| == 32
    ensures h[..8] + h[8..12] + h[12..16] + h[16..20] + h[20..] == h
  {
  }

  lemma GroupsCompact(a: string, b: string, c: string, d: string, e: string)
    requires '-' !in a && '-' !in b && '-' !in c && '-' !in d && '-' !in e
    ensures WithoutDashes(a + "-" + b + "-" + c + "-" + d + "-" + e) == a + b + c + d + e
  {
    NoDashes(a);
    DashThenPlain(a, b);
    DashThenPlain(a + "-" + b, c);
    DashThenPlain(a + "-" + b + "-" + c, d);
    DashThenPlain(a + "-" + b + "-" + c + "-" + d, e);
  }

  lemma CompactIsHex(u: Uuid)
    ensures WithoutDashes(Text(u)) == Hex(u)
  {
    var h := Hex(u);
    HexPlain(u);
    GroupsCompact(h[..8], h[8..12], h[12..16], h[16..20], h[20..]);
    GroupsRejoin(h);
  }

  lemma ParseOfText(u: Uuid)
    ensures Parse(Text(u)) == Some(u)
  {
    var h, s := Hex(u), Text(u);
    assert s[..8] == h[..8] && s[9..13] == h[8..12] && s[14..18] == h[12..16] && s[19..23] == h[16..20]
           && s[24..36] == h[20..];
    GroupsRejoin(h);
    ValuesOfHex(u);
  }

  lemma SplitFirst(a: string, b: string)
    requires '_' !in a
    ensures Split(a + "_" + b) == [a] + Split(b)
  {
    var s := a + "_" + b;
    var k := UntilUnderscore(s);
    assert s[|a|] == '_';
    assert s[..|a|] == a && s[|a| + 1..] == b;
  }

  lemma SplitOne(s: string)
    requires '_' !in s
    ensures Split(s) == [s]
  {
  }

  lemma DecimalPlain(n: nat)
    ensures '_' !in Decimal(n)
  {
  }

  // A first part that is not "ORD" names the order itself; after "ORD" the second part does.
  lemma OrderOfParts(first: string, second: string, rest: string)
    requires '_' !in first && '_' !in second && '_' !in rest
    ensures OrderOf(first + "_" + second) == Parse(if first == "ORD" then second else first)
    ensures first == "ORD" ==> OrderOf(first + "_" + (second + "_" + rest)) == Parse(second)
  {
    SplitFirst(first, second);
    SplitOne(second);
    SplitFirst(first, second + "_" + rest);
    SplitFirst(second, rest);
  }

  /** A notification for an id this service sent is traced to the order it was sent for. */
  lemma NotificationFindsOrder(u: Uuid, timestamp: nat)
    ensures OrderOf(GatewayId(u, timestamp)) == Some(u)
  {
    CompactIsHex(u);
    HexPlain(u);
    DecimalPlain(timestamp);
    OrderOfParts("ORD", Hex(u), Decimal(timestamp));
    ValuesOfHex(u);
  }

  /** So is one for an id in the form used before. */
  lemma OldNotificationFindsOrder(u: Uuid, timestamp: nat)
    ensures OrderOf(OldGatewayId(u, timestamp)) == Some(u)
  {
    var h := Hex(u);
    HexPlain(u);
    assert '_' !in Text(u);
    assert |Text(u)| == 36;
    DecimalPlain(timestamp);
    OrderOfParts(Text(u), Decimal(timestamp), "");
    ParseOfText(u);
  }

  /** Two orders never share a gateway id, whichever forms and times are used. */
  lemma GatewayIdsDistinct(u: Uuid, v: Uuid, t: nat, t': nat)
    requires u != v
    ensures GatewayId(u, t) != GatewayId(v, t')
    ensures GatewayId(u, t) != OldGatewayId(v, t')
    ensures OldGatewayId(u, t) != OldGatewayId(v, t')
  {
    NotificationFindsOrder(u, t);
    NotificationFindsOrder(v, t');
    OldNotificationFindsOrder(u, t);
    OldNotificationFindsOrder(v, t');
  }

  // ---- every text that names a UUID ----

  // A digit is read in either case.
  lemma DigitIff(c: char, n: Nibble)
    ensures Value(c) == Some(n) <==> Lower(c) == HexDigit(n)
  {
    ValueOfDigit(n);
    assert HexDigit(n) in DIGITS;
    assert forall i :: 0 <= i < |DIGITS| ==> Lower(DIGITS[i]) == DIGITS[i];
    assert Value(Lower(c)) == Value(c);
  }

  lemma {:induction false} ValuesIff(s: string, u: seq<Nibble>)
    ensures Values(s) == Some(u) <==> LowerCase(s) == Hex(u)
  {
    if s != "" && u != [] {
      var l, h := LowerCase(s[1..]), Hex(u[1..]);
      ValuesIff(s[1..], u[1..]);
      DigitIff(s[0], u[0]);
      assert ([Lower(s[0])] + l)[1..] == l && ([HexDigit(u[0])] + h)[1..] == h;
      assert u == [u[0]] + u[1..];
      if Values(s) == Some(u) { assert ([Value(s[0]).value] + Values(s[1..]).value)[1..] == Values(s[1..]).value; }
    }
  }

  function WithoutSeparators(s: string): string
    requires |s| == 36
  {
    s[..8] + s[9..13] + s[14..18] + s[19..23] + s[24..]
  }

  lemma TextIff(l: string, u: Uuid)
    requires |l| == 36
    ensures l == Text(u) <==> l[8] == l[13] == l[18] == l[23] == '-' && WithoutSeparators(l) == Hex(u)
  {
    var h, w := Hex(u), WithoutSeparators(l);
    assert w[..8] == l[..8] && w[8..12] == l[9..13] && w[12..16] == l[14..18] && w[16..20] == l[19..23]
           && w[20..] == l[24..];
    GroupsRejoin(h);
    if l == Text(u) {
      assert l[..8] == h[..8] && l[9..13] == h[8..12] && l[14..18] == h[12..16] && l[19..23] == h[16..20]
             && l[24..] == h[20..];
    }
    if l[8] == l[13] == l[18] == l[23] == '-' {
      assert l == l[..8] + "-" + l[9..13] + "-" + l[14..18] + "-" + l[19..23] + "-" + l[24..];
    }
  }

  lemma DashedIff(s: string, u: Uuid)
    requires |s| >= 36
    ensures ParseDashed(s) == Some(u) <==> LowerCase(s[..36]) == Text(u)
  {
    var t := s[..36];
    var l := LowerCase(t);
    assert WithoutSeparators(t) == s[..8] + s[9..13] + s[14..18] + s[19..23] + s[24..36];
    assert LowerCase(WithoutSeparators(t)) == WithoutSeparators(l);
    ValuesIff(WithoutSeparators(t), u);
    TextIff(l, u);
  }

  lemma UrnIff(s: string, u: Uuid)
    requires |s| == 45
    ensures LowerCase(s) == "urn:uuid:" + Text(u) <==>
            LowerCase(s[..9]) == "urn:uuid:" && LowerCase(s[9..]) == Text(u)
  {
    var l := LowerCase(s);
    assert l[..9] == LowerCase(s[..9]) && l[9..] == LowerCase(s[9..]);
    assert l == l[..9] + l[9..];
    var urn := "urn:uuid:" + Text(u);
    assert urn[..9] == "urn:uuid:" && urn[9..] == Text(u);
  }

  /** Exactly the texts that name a UUID, in either case: the canonical one, the same as a URN, the same between
      any two characters, and the digits alone. */
  lemma ParseIff(s: string, u: Uuid)
    ensures Parse(s) == Some(u) <==>
            || LowerCase(s) == Text(u)
            || LowerCase(s) == "urn:uuid:" + Text(u)
            || (|s| == 38 && LowerCase(s[1..37]) == Text(u))
            || LowerCase(s) == Hex(u)
  {
    assert |Text(u)| == 36 && |"urn:uuid:" + Text(u)| == 45;
    if |s| == 36 {
      DashedIff(s, u);
      assert s[..36] == s;
    } else if |s| == 32 {
      ValuesIff(s, u);
    } else if |s| == 38 {
      DashedIff(s[1..], u);
      assert s[1..][..36] == s[1..37];
    } else if |s| == 45 {
      DashedIff(s[9..], u);
      assert s[9..][..36] == s[9..];
      UrnIff(s, u);
    }
  }

  // ---- the time in the id ----

  function Number(s: string): nat
    requires forall i :: 0 <= i < |s| ==> '0' <= s[i] <= '9'
  {
    if s == "" then 0 else 10 * Number(s[..|s| - 1]) + (s[|s| - 1] as int - '0' as int)
  }

  lemma {:induction false} NumberOfDecimal(n: nat)
    ensures Number(Decimal(n)) == n
  {
    var s := Decimal(n);
    if n < 10 {
      assert s[..0] == "" && Number("") == 0;
    } else {
      NumberOfDecimal(n / 10);
      assert s[..|s| - 1] == Decimal(n / 10);
    }
  }

  lemma GatewayIdLiteral(u: Uuid, t: nat)
    ensures GatewayId(u, t) == "ORD_" + Hex(u) + "_" + Decimal(t)
  {
    CompactIsHex(u);
    assert "ORD" + "_" == "ORD_";
  }

  /** Two attempts to pay share an id exactly if they are for one order and in one second. */
  lemma GatewayIdSameIff(u: Uuid, v: Uuid, t: nat, t': nat)
    ensures GatewayId(u, t) == GatewayId(v, t') <==> u == v && t == t'
  {
    if u != v {
      GatewayIdsDistinct(u, v, t, t');
    } else if GatewayId(u, t) == GatewayId(u, t') {
      GatewayIdLiteral(u, t);
      GatewayIdLiteral(u, t');
      SameTail("ORD_" + Hex(u) + "_", Decimal(t), Decimal(t'));
      NumberOfDecimal(t);
      NumberOfDecimal(t');
    }
  }

  lemma SameTail(head: string, a: string, b: string)
    requires head + a == head + b
    ensures a == b
  {
    assert (head + a)[|head|..] == a && (head + b)[|head|..] == b;
  }

  // ---- the gateway's limit of 50 characters ----

  function Power10(k: nat): nat {
    if k == 0 then 1 else 10 * Power10(k - 1)
  }

  lemma {:induction false} DecimalLength(n: nat, k: nat)
    requires k >= 1
    ensures |Decimal(n)| <= k <==> n < Power10(k)
    decreases k
  {
    if k == 1 {
      assert Power10(1) == 10 * Power10(0);
      if n >= 10 { assert |Decimal(n)| == |Decimal(n / 10)| + 1; }
    } else if n < 10 {
      PowerAtLeast10(k);
    } else {
      DecimalLength(n / 10, k - 1);
      assert Power10(k) == 10 * Power10(k - 1);
    }
  }

  lemma {:induction false} PowerAtLeast10(k: nat)
    requires k >= 1
    ensures Power10(k) >= 10
  {
    if k > 1 { PowerAtLeast10(k - 1); }
  }

  /** The id fits exactly while the timestamp has at most 13 digits; a clock in seconds has 10 until 2286. */
  lemma FitsIff(u: Uuid, timestamp: nat)
    ensures |GatewayId(u, timestamp)| <= 50 <==> timestamp < 10_000_000_000_000
    ensures timestamp < 10_000_000_000 ==> |GatewayId(u, timestamp)| <= 47
  {
    CompactIsHex(u);
    DecimalLength(timestamp, 13);
    DecimalLength(timestamp, 10);
    assert Power10(5) == 100_000;
    assert Power10(10) == 10_000_000_000 by { assert Power10(7) == 10_000_000; }
    assert Power10(13) == 10_000_000_000_000;
  }
}
