/**
 First-contact quote ids: the string a payer presents with an admission payment, bound to one
 recipient, one sender and a five-minute window.
 */
module AdmissionQuote {
  import opened Common

  const EXPIRY: nat := 300
  const MAX_LENGTH: nat := 190

  // ---- Decimal numbers ----

  predicate IsDigit(c: char) { '0' <= c <= '9' }

  predicate AllDigits(s: string) { forall c :: c in s ==> IsDigit(c) }

  function Decimal(n: nat): (s: string)
    ensures s != [] && AllDigits(s)
  {
    if n < 10 then ['0' + n as char] else Decimal(n / 10) + ['0' + (n % 10) as char]
  }

  function Value(s: string): nat
    requires AllDigits(s)
  {
    if s == [] then 0 else
      assert AllDigits(s[..|s| - 1]);
      assert s[|s| - 1] in s;
      Value(s[..|s| - 1]) * 10 + (s[|s| - 1] - '0') as nat
  }

  lemma {:induction false} ValueOfDecimal(n: nat)
    ensures Value(Decimal(n)) == n
  {
    if n < 10 {
      assert Decimal(n)[..0] == [];
    } else {
      ValueOfDecimal(n / 10);
      assert Decimal(n)[..|Decimal(n)| - 1] == Decimal(n / 10);
    }
  }

  function Power(k: nat): nat { if k == 0 then 1 else 10 * Power(k - 1) }

  lemma {:induction false} DecimalIsShort(n: nat, k: nat)
    requires k >= 1 && n < Power(k)
    ensures |Decimal(n)| <= k
  {
    if n >= 10 { DecimalIsShort(n / 10, k - 1); }
  }

  lemma U64IsShort(n: nat)
    requires n <= U64_MAX
    ensures |Decimal(n)| <= 20
  {
    assert Power(5) == 100_000;
    assert Power(10) == 10_000_000_000;
    assert Power(15) == 1_000_000_000_000_000;
    assert Power(20) == 100_000_000_000_000_000_000;
    DecimalIsShort(n, 20);
  }

  /** Unsigned 64-bit parsing: an optional plus sign, at least one digit, no overflow. */
  function ParseU64(s: string): Option<nat> {
    var digits := if s != [] && s[0] == '+' then s[1..] else s;
    if digits == [] || !AllDigits(digits) || Value(digits) > U64_MAX then None else Some(Value(digits))
  }

  lemma ParsePrinted(n: nat)
    requires n <= U64_MAX
    ensures ParseU64(Decimal(n)) == Some(n)
  {
    assert Decimal(n)[0] in Decimal(n);
    ValueOfDecimal(n);
  }

  // ---- Quote ids ----

  predicate IsHex(c: char) { IsDigit(c) || 'a' <= c <= 'f' || 'A' <= c <= 'F' }

  /** A node id prints as 64 hex digits. */
  predicate IsNodeId(s: string) { |s| == 64 && forall c :: c in s ==> IsHex(c) }

  predicate IsNonce(s: string) { |s| == 32 && forall c :: c in s ==> IsHex(c) }

  function Prefix(recipient: string, sender: string): string { "v1:" + recipient + ":" + sender + ":" }

  function RequestId(recipient: string, sender: string, now: nat, nonce: string): string {
    Prefix(recipient, sender) + Decimal(now) + ":" + nonce
  }

  /** The position of the first colon, or the length. */
  function Colon(s: string): (i: nat)
    ensures i <= |s| && (i < |s| ==> s[i] == ':') && forall j :: 0 <= j < i ==> s[j] != ':'
  {
    if s == [] || s[0] == ':' then 0 else 1 + Colon(s[1..])
  }

  /** A quote issued at `issued` is good for five minutes, if its expiry fits 64 bits. */
  function Window(issued: Option<nat>, now: nat): Option<nat> {
    match issued
    case None => None
    case Some(t) => if t + EXPIRY <= U64_MAX && t <= now < t + EXPIRY then Some(t + EXPIRY) else None
  }

  /** What follows the prefix: an issue time, a colon, a nonce. */
  function Tail(rest: string, now: nat): Option<nat> {
    var i := Colon(rest);
    if i == |rest| || !IsNonce(rest[i + 1..]) then None else Window(ParseU64(rest[..i]), now)
  }

  function ExpiresAt(id: string, recipient: string, sender: string, now: nat): Option<nat> {
    var prefix := Prefix(recipient, sender);
    if |id| > MAX_LENGTH || !(prefix <= id) then None else Tail(id[|prefix|..], now)
  }

  /** Two prefixes of one string name the same endpoints. */
  lemma PrefixNamesEndpoints(id: string, r: string, s: string, r': string, s': string)
    requires |r| == |r'| == |s| == |s'| == 64 && Prefix(r, s) <= id && Prefix(r', s') <= id
    ensures r == r' && s == s'
  {
    assert r == id[3..67] && r' == id[3..67];
    assert s == id[68..132] && s' == id[68..132];
  }

  lemma TailReads(text: string, nonce: string, now: nat)
    requires ':' !in text && IsNonce(nonce)
    ensures Tail(text + ":" + nonce, now) == Window(ParseU64(text), now)
  {
    var rest := text + ":" + nonce;
    assert rest[|text|] == ':' && forall j :: 0 <= j < |text| ==> rest[j] == text[j];
    assert rest[..|text|] == text && rest[|text| + 1..] == nonce;
  }

  lemma ReadsOwn(r: string, s: string, tail: string, now: nat)
    requires |Prefix(r, s) + tail| <= MAX_LENGTH
    ensures ExpiresAt(Prefix(r, s) + tail, r, s, now) == Tail(tail, now)
  {
    hide Prefix, Tail;
    var id := Prefix(r, s) + tail;
    assert Prefix(r, s) <= id && id[|Prefix(r, s)|..] == tail;
  }

  lemma ReadsOnlyOwn(r: string, s: string, tail: string, r': string, s': string, now: nat)
    requires IsNodeId(r) && IsNodeId(s) && IsNodeId(r') && IsNodeId(s') && (r != r' || s != s')
    ensures ExpiresAt(Prefix(r, s) + tail, r', s', now) == None
  {
    var id := Prefix(r, s) + tail;
    assert Prefix(r, s) <= id;
    if Prefix(r', s') <= id { PrefixNamesEndpoints(id, r, s, r', s'); }
  }

  lemma PrintedFits(r: string, s: string, issued: nat, nonce: string)
    requires IsNodeId(r) && IsNodeId(s) && IsNonce(nonce) && issued <= U64_MAX
    ensures var tail := Decimal(issued) + ":" + nonce;
            RequestId(r, s, issued, nonce) == Prefix(r, s) + tail && |Prefix(r, s) + tail| <= MAX_LENGTH
  {
    U64IsShort(issued);
    assert RequestId(r, s, issued, nonce) == Prefix(r, s) + (Decimal(issued) + ":" + nonce);
  }

  /**
   Reading back a printed id succeeds exactly for its own endpoints, within five minutes of issue
   and if the expiry fits 64 bits, and then gives the expiry.
   */
  lemma ReadingBackAQuote(r: string, s: string, issued: nat, nonce: string, r': string, s': string, now: nat)
    requires IsNodeId(r) && IsNodeId(s) && IsNodeId(r') && IsNodeId(s') && IsNonce(nonce) && issued <= U64_MAX
    ensures ExpiresAt(RequestId(r, s, issued, nonce), r', s', now)
         == if r == r' && s == s' && issued + 300 <= U64_MAX && issued <= now < issued + 300
             then Some(issued + 300) else None
  {
    hide IsNodeId, IsNonce, Prefix, RequestId, Tail, ExpiresAt, Decimal;
    var tail := Decimal(issued) + ":" + nonce;
    PrintedFits(r, s, issued, nonce);
    if r == r' && s == s' {
      ReadsOwn(r, s, tail, now);
      assert ':' !in Decimal(issued);
      TailReads(Decimal(issued), nonce, now);
      ParsePrinted(issued);
    } else {
      ReadsOnlyOwn(r, s, tail, r', s', now);
    }
  }

  /** An id accepted for one recipient and sender is accepted for no other pair, at any time. */
  lemma QuoteBindsItsEndpoints(id: string, r: string, s: string, now: nat, r': string, s': string, later: nat)
    requires IsNodeId(r) && IsNodeId(s) && IsNodeId(r') && IsNodeId(s')
    requires ExpiresAt(id, r, s, now).Some? && ExpiresAt(id, r', s', later).Some?
    ensures r == r' && s == s' && ExpiresAt(id, r, s, now) == ExpiresAt(id, r', s', later)
  {
    PrefixNamesEndpoints(id, r, s, r', s');
  }

  /** The ids the parser takes: any spelling of the issue time that 64-bit parsing takes. */
  ghost predicate Written(id: string, r: string, s: string, text: string, nonce: string) {
    ':' !in text && IsNonce(nonce) && |id| <= MAX_LENGTH && id == Prefix(r, s) + (text + ":" + nonce)
  }

  lemma AcceptsExactlyTheWritten(id: string, r: string, s: string, now: nat, expiry: nat)
    ensures ExpiresAt(id, r, s, now) == Some(expiry)
            <==> exists text, nonce :: Written(id, r, s, text, nonce) && Window(ParseU64(text), now) == Some(expiry)
  {
    hide IsNonce, Prefix, ParseU64;
    if ExpiresAt(id, r, s, now) == Some(expiry) {
      var rest := id[|Prefix(r, s)|..];
      var i := Colon(rest);
      assert id == Prefix(r, s) + rest && rest == rest[..i] + ":" + rest[i + 1..];
      assert Written(id, r, s, rest[..i], rest[i + 1..]);
    }
    forall text, nonce | Written(id, r, s, text, nonce) && Window(ParseU64(text), now) == Some(expiry)
      ensures ExpiresAt(id, r, s, now) == Some(expiry)
    {
      ReadsOwn(r, s, text + ":" + nonce, now);
      TailReads(text, nonce, now);
    }
  }

  /** A spelling the printer never produces and the parser takes. */
  lemma ParserIsMoreLiberalThanPrinter(n: nat)
    ensures ParseU64("+007") == Some(7) && Decimal(n) != "+007"
  {
    assert "+007"[1..] == "007" && "007"[..2] == "00" && "00"[..1] == "0" && "0"[..0] == "";
    assert Value("007") == 7;
    assert '+' in "+007";
  }
}
