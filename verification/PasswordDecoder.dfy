/**
 The decoder that turns the raw JSON spelling of a password into the password, straight into one
 preallocated buffer. The grammar is that of strings in section 7 of RFC 8259; a character is a
 Unicode scalar value.
 */
module PasswordDecoder {
  import opened Common

  // ---- The grammar ----

  /** One character of a JSON string as it may be written. */
  datatype Spelling =
    | Plain(c: char)
    | Short(letter: char)
    | Hex(digits: string)
    | Pair(high: string, low: string)

  function HexDigit(c: char): (v: Option<nat>)
    ensures v.Some? ==> v.value < 16
  {
    if '0' <= c <= '9' then Some((c - '0') as nat)
    else if 'a' <= c <= 'f' then Some((c - 'a') as nat + 10)
    else if 'A' <= c <= 'F' then Some((c - 'A') as nat + 10)
    else None
  }

  predicate IsQuad(d: string) { |d| == 4 && forall i :: 0 <= i < 4 ==> HexDigit(d[i]).Some? }

  function QuadValue(d: string): (v: nat)
    requires IsQuad(d)
    ensures v < 0x10000
  {
    HexDigit(d[0]).value * 4096 + HexDigit(d[1]).value * 256 + HexDigit(d[2]).value * 16 + HexDigit(d[3]).value
  }

  predicate IsHigh(v: nat) { 0xD800 <= v <= 0xDBFF }

  predicate IsLow(v: nat) { 0xDC00 <= v <= 0xDFFF }

  const SHORT: map<char, char> :=
    map['"' := '"', '\\' := '\\', '/' := '/', 'b' := '\U{08}', 'f' := '\U{0C}', 'n' := '\n', 'r' := '\r', 't' := '\t']

  predicate Correct(u: Spelling) {
    match u
    case Plain(c) => c != '"' && c != '\\' && c >= ' '
    case Short(letter) => letter in SHORT
    case Hex(d) => IsQuad(d) && !IsHigh(QuadValue(d)) && !IsLow(QuadValue(d))
    case Pair(h, l) => IsQuad(h) && IsQuad(l) && IsHigh(QuadValue(h)) && IsLow(QuadValue(l))
  }

  function Written(u: Spelling): string {
    match u
    case Plain(c) => [c]
    case Short(letter) => ['\\', letter]
    case Hex(d) => "\\u" + d
    case Pair(h, l) => "\\u" + h + "\\u" + l
  }

  /** The code point a surrogate pair stands for. */
  function Combined(high: nat, low: nat): (v: nat)
    requires IsHigh(high) && IsLow(low)
    ensures 0x10000 <= v <= 0x10FFFF
  {
    0x10000 + (high - 0xD800) * 1024 + low - 0xDC00
  }

  function Meant(u: Spelling): char
    requires Correct(u)
  {
    match u
    case Plain(c) => c
    case Short(letter) => SHORT[letter]
    case Hex(d) => QuadValue(d) as char
    case Pair(h, l) => Combined(QuadValue(h), QuadValue(l)) as char
  }

  predicate AllCorrect(us: seq<Spelling>) { forall u :: u in us ==> Correct(u) }

  function WrittenAll(us: seq<Spelling>): string {
    if us == [] then [] else Written(us[0]) + WrittenAll(us[1..])
  }

  function MeantAll(us: seq<Spelling>): string
    requires AllCorrect(us)
  {
    if us == [] then [] else [Meant(us[0])] + MeantAll(us[1..])
  }

  // ---- What the decoder does ----

  function QuadAt(t: string): Option<nat> {
    if |t| >= 4 && IsQuad(t[..4]) then Some(QuadValue(t[..4])) else None
  }

  /** After `\u`: the scalar and how many more characters it took. */
  function AfterU(t: string): Option<(char, nat)> {
    match QuadAt(t)
    case None => None
    case Some(v) =>
      if IsHigh(v) then
        if |t| >= 6 && t[4] == '\\' && t[5] == 'u' && QuadAt(t[6..]).Some? && IsLow(QuadAt(t[6..]).value)
        then Some((Combined(v, QuadAt(t[6..]).value) as char, 10)) else None
      else if IsLow(v) then None
      else Some((v as char, 4))
  }

  /** One turn of the loop: the character pushed and the characters read. */
  function Next(t: string): (r: Option<(char, nat)>)
    requires t != []
    ensures r.Some? ==> 1 <= r.value.1 <= |t|
  {
    if t[0] != '\\' then if t[0] == '"' || t[0] < ' ' then None else Some((t[0], 1))
    else if |t| < 2 then None
    else if t[1] == 'u' then
      match AfterU(t[2..]) case None => None case Some(p) => Some((p.0, p.1 + 2))
    else if t[1] in SHORT then Some((SHORT[t[1]], 2))
    else None
  }

  function Body(t: string): Option<string>
    decreases |t|
  {
    if t == [] then Some([]) else
      match Next(t)
      case None => None
      case Some(p) => match Body(t[p.1..]) case None => None case Some(s) => Some([p.0] + s)
  }

  predicate Quoted(raw: string) { |raw| >= 2 && raw[0] == '"' && raw[|raw| - 1] == '"' }

  function Inner(raw: string): string
    requires Quoted(raw)
  {
    raw[1..|raw| - 1]
  }

  function DecodePassword(raw: string): Option<string> { if Quoted(raw) then Body(Inner(raw)) else None }

  // ---- Exactness ----

  lemma PairReads(h: string, l: string, rest: string)
    requires Correct(Pair(h, l))
    ensures AfterU(h + "\\u" + l + rest) == Some((Meant(Pair(h, l)), 10)) && |h| == |l| == 4
  {
    var t := h + "\\u" + l + rest;
    assert t[..4] == h && t[6..] == l + rest && (l + rest)[..4] == l;
    assert t[4] == '\\' && t[5] == 'u';
    hide IsQuad, QuadValue;
  }

  lemma HexReads(d: string, rest: string)
    requires Correct(Hex(d))
    ensures AfterU(d + rest) == Some((Meant(Hex(d)), 4)) && |d| == 4
  {
    assert (d + rest)[..4] == d;
  }

  lemma EscapeReads(tail: string)
    requires AfterU(tail).Some?
    ensures Next("\\u" + tail) == Some((AfterU(tail).value.0, AfterU(tail).value.1 + 2))
  {
    hide AfterU;
    assert ("\\u" + tail)[2..] == tail;
  }

  lemma NextReads(u: Spelling, rest: string)
    requires Correct(u)
    ensures Next(Written(u) + rest) == Some((Meant(u), |Written(u)|))
  {
    match u
    case Plain(_) =>
    case Short(_) =>
    case Hex(d) =>
      hide *;
      HexReads(d, rest);
      EscapeReads(d + rest);
      WrittenHex(d, rest);
    case Pair(h, l) =>
      hide *;
      PairReads(h, l, rest);
      EscapeReads(h + "\\u" + l + rest);
      WrittenPair(h, l, rest);
  }

  lemma WrittenHex(d: string, rest: string)
    ensures Written(Hex(d)) == "\\u" + d && Written(Hex(d)) + rest == "\\u" + (d + rest)
  {
  }

  lemma WrittenPair(h: string, l: string, rest: string)
    ensures |Written(Pair(h, l))| == 4 + |h| + |l|
    ensures Written(Pair(h, l)) + rest == "\\u" + (h + "\\u" + l + rest)
  {
  }

  /** What a successful turn of the loop has read is one correct spelling of what it pushed. */
  function SpellingAt(t: string): (u: Spelling)
    requires t != [] && Next(t).Some?
    ensures Correct(u) && Written(u) == t[..Next(t).value.1] && Meant(u) == Next(t).value.0
  {
    if t[0] != '\\' then Plain(t[0])
    else if t[1] != 'u' then Short(t[1])
    else if Next(t).value.1 == 6 then assert t[2..][..4] == t[2..6]; Hex(t[2..6])
    else
      assert t[2..][..4] == t[2..6] && t[2..][6..][..4] == t[8..12];
      assert t[..12] == "\\u" + t[2..6] + "\\u" + t[8..12];
      Pair(t[2..6], t[8..12])
  }

  lemma {:induction false} BodyReads(us: seq<Spelling>)
    requires AllCorrect(us)
    ensures Body(WrittenAll(us)) == Some(MeantAll(us))
  {
    if us != [] {
      assert us[0] in us && AllCorrect(us[1..]);
      var rest := WrittenAll(us[1..]);
      BodyReads(us[1..]);
      NextReads(us[0], rest);
      assert WrittenAll(us) == Written(us[0]) + rest;
      assert WrittenAll(us)[|Written(us[0])|..] == rest;
    }
  }

  function Spellings(t: string): (us: seq<Spelling>)
    requires Body(t).Some?
    decreases |t|
  {
    if t == [] then [] else [SpellingAt(t)] + Spellings(t[Next(t).value.1..])
  }

  lemma {:induction false} BodyIsSpelled(t: string)
    requires Body(t).Some?
    ensures AllCorrect(Spellings(t)) && WrittenAll(Spellings(t)) == t && MeantAll(Spellings(t)) == Body(t).value
    decreases |t|
  {
    if t != [] {
      var n := Next(t).value.1;
      BodyIsSpelled(t[n..]);
      var us := Spellings(t);
      assert us[1..] == Spellings(t[n..]);
      assert t == t[..n] + t[n..];
    }
  }

  ghost predicate Spells(raw: string, us: seq<Spelling>, s: string) {
    AllCorrect(us) && raw == "\"" + WrittenAll(us) + "\"" && s == MeantAll(us)
  }

  lemma SpelledIsAccepted(raw: string, us: seq<Spelling>, s: string)
    requires Spells(raw, us, s)
    ensures DecodePassword(raw) == Some(s)
  {
    hide Body, WrittenAll, MeantAll, Correct;
    assert Quoted(raw) && Inner(raw) == WrittenAll(us);
    BodyReads(us);
  }

  lemma AcceptedIsSpelled(raw: string)
    requires DecodePassword(raw).Some?
    ensures Spells(raw, Spellings(Inner(raw)), DecodePassword(raw).value)
  {
    hide Body, WrittenAll, MeantAll, Correct, Spellings;
    BodyIsSpelled(Inner(raw));
    assert raw == "\"" + Inner(raw) + "\"";
  }

  /** Accepts exactly the quoted strings of the grammar, and returns what they mean. */
  lemma AcceptsExactlyTheGrammar(raw: string, s: string)
    ensures DecodePassword(raw) == Some(s) <==> exists us :: Spells(raw, us, s)
  {
    hide Spells, DecodePassword, Spellings;
    if DecodePassword(raw).Some? { AcceptedIsSpelled(raw); }
    forall us | Spells(raw, us, s) ensures DecodePassword(raw) == Some(s) { SpelledIsAccepted(raw, us, s); }
  }

  // ---- Every string can be written, and comes back ----

  function HexChar(v: nat): (c: char)
    requires v < 16
    ensures HexDigit(c) == Some(v)
  {
    if v < 10 then '0' + v as char else 'a' + (v - 10) as char
  }

  /** The usual way to write a character: escaped only where it must be. */
  function Usual(c: char): (u: Spelling)
    ensures Correct(u) && Meant(u) == c
  {
    if c == '"' || c == '\\' then Short(c)
    else if c < ' ' then
      var d := ['0', '0', HexChar(c as nat / 16), HexChar(c as nat % 16)];
      assert QuadValue(d) == c as nat;
      Hex(d)
    else Plain(c)
  }

  function UsualAll(s: string): seq<Spelling> { seq(|s|, i requires 0 <= i < |s| => Usual(s[i])) }

  lemma {:induction false} UsualMeansItself(s: string)
    ensures AllCorrect(UsualAll(s)) && MeantAll(UsualAll(s)) == s
  {
    if s != [] {
      UsualMeansItself(s[1..]);
      assert UsualAll(s)[1..] == UsualAll(s[1..]);
      assert s == [s[0]] + s[1..];
    }
  }

  lemma DecodeInvertsEscape(s: string)
    ensures DecodePassword("\"" + WrittenAll(UsualAll(s)) + "\"") == Some(s)
  {
    UsualMeansItself(s);
    SpelledIsAccepted("\"" + WrittenAll(UsualAll(s)) + "\"", UsualAll(s), s);
  }

  // ---- The buffer ----

  /** Bytes of a character in UTF-8. */
  function Width(c: char): nat {
    if c as nat < 0x80 then 1 else if c as nat < 0x800 then 2 else if c as nat < 0x10000 then 3 else 4
  }

  function Bytes(s: string): nat { if s == [] then 0 else Width(s[0]) + Bytes(s[1..]) }

  lemma {:induction false} BytesAppend(s: string, t: string)
    ensures Bytes(s + t) == Bytes(s) + Bytes(t)
  {
    if s == [] {
      assert s + t == t;
    } else {
      assert (s + t)[1..] == s[1..] + t;
      BytesAppend(s[1..], t);
    }
  }

  lemma {:induction false} BytesAtLeast(s: string)
    ensures Bytes(s) >= |s|
  {
    if s != [] { BytesAtLeast(s[1..]); }
  }

  /** No turn of the loop pushes more bytes than it read. */
  lemma TurnShrinks(t: string)
    requires t != [] && Next(t).Some?
    ensures var (c, n) := Next(t).value; Width(c) + Bytes(t[n..]) <= Bytes(t)
  {
    var n := Next(t).value.1;
    BytesAppend(t[..n], t[n..]);
    assert t == t[..n] + t[n..];
    if n == 1 { assert t[..1] == [t[0]]; } else { BytesAtLeast(t[..n]); }
  }

  /** The scan for four hex digits. */
  method Quad(t: string) returns (v: Option<nat>)
    ensures v == QuadAt(t)
  {
    var n := 0;
    for i := 0 to 4
      invariant i <= |t| && forall j :: 0 <= j < i ==> HexDigit(t[j]).Some?
      invariant n == (if i > 0 then HexDigit(t[0]).value else 0)
      * (if i == 4 then 4096 else if i == 3 then 256 else if i == 2 then 16 else 1)
      + (if i > 1 then HexDigit(t[1]).value else 0) * (if i == 4 then 256 else if i == 3 then 16 else 1)
      + (if i > 2 then HexDigit(t[2]).value else 0) * (if i == 4 then 16 else 1)
      + (if i > 3 then HexDigit(t[3]).value else 0)
    {
      if i == |t| || HexDigit(t[i]).None? {
        assert |t| >= 4 ==> t[..4][i] == t[i];
        return None;
      }
      n := n * 16 + HexDigit(t[i]).value;
    }
    v := Some(n);
  }

  method ScalarAfterU(t: string) returns (r: Option<(char, nat)>)
    ensures r == AfterU(t)
  {
    var high := Quad(t);
    if high.None? { return None; }
    if IsLow(high.value) { return None; }
    if !IsHigh(high.value) { return Some((high.value as char, 4)); }
    if |t| < 6 || t[4] != '\\' || t[5] != 'u' { return None; }
    var low := Quad(t[6..]);
    if low.None? || !IsLow(low.value) { return None; }
    r := Some((Combined(high.value, low.value) as char, 10));
  }

  function Joined(done: string, rest: Option<string>): Option<string> {
    match rest case None => None case Some(s) => Some(done + s)
  }

  lemma TurnJoins(done: string, t: string)
    requires t != [] && Next(t).Some?
    ensures var (c, n) := Next(t).value; Joined(done, Body(t)) == Joined(done + [c], Body(t[n..]))
  {
    hide Next;
    var (c, n) := Next(t).value;
    if Body(t[n..]).Some? {
      var s := Body(t[n..]).value;
      assert done + ([c] + s) == (done + [c]) + s;
    }
  }

  /** One turn as the loop takes it. */
  method Turn(t: string) returns (r: Option<(char, nat)>)
    requires t != []
    ensures r == Next(t)
  {
    if t[0] != '\\' {
      if t[0] == '"' || t[0] < ' ' { return None; }
      return Some((t[0], 1));
    }
    if |t| < 2 { return None; }
    if t[1] == 'u' {
      var p := ScalarAfterU(t[2..]);
      if p.None? { return None; }
      return Some((p.value.0, p.value.1 + 2));
    }
    if t[1] !in SHORT { return None; }
    r := Some((SHORT[t[1]], 2));
  }

  /**
   The loop of `decode_password`: at every turn the bytes pushed and the bytes still to read together
   fit the capacity reserved at the start, so the buffer is never moved.
   */
  method DecodeBody(inner: string) returns (password: Option<string>)
    ensures password == Body(inner)
    ensures password.Some? ==> Bytes(password.value) <= Bytes(inner)
  {
    hide Next, Body, Bytes, Width;
    ghost var capacity := Bytes(inner);
    var buffer, i := "", 0;
    assert inner[0..] == inner && forall s :: "" + s == s;
    assert Bytes("") == 0 by { NoBytes(); }
    while i < |inner|
      invariant 0 <= i <= |inner|
      invariant Bytes(buffer) + Bytes(inner[i..]) <= capacity
      invariant Body(inner) == Joined(buffer, Body(inner[i..]))
      decreases |inner| - i
    {
      var r := Turn(inner[i..]);
      if r.None? {
        FailedTurn(inner[i..]);
        return None;
      }
      var (c, n) := r.value;
      TurnShrinks(inner[i..]);
      TurnJoins(buffer, inner[i..]);
      BytesAppend(buffer, [c]);
      OneByteString(c);
      assert inner[i..][n..] == inner[i + n..];
      buffer, i := buffer + [c], i + n;
    }
    FailedTurn(inner[i..]);
    assert inner[i..] == [] && buffer + [] == buffer;
    NoBytes();
    password := Some(buffer);
  }

  lemma NoBytes()
    ensures Bytes("") == 0
  {
  }

  lemma OneByteString(c: char)
    ensures Bytes([c]) == Width(c)
  {
  }

  lemma FailedTurn(t: string)
    ensures t == [] ==> Body(t) == Some([])
    ensures t != [] && Next(t).None? ==> Body(t) == None
  {
  }

  method Decode(raw: string) returns (password: Option<string>)
    ensures password == DecodePassword(raw)
    ensures password.Some? ==> Bytes(password.value) <= Bytes(raw) - 2
  {
    hide Body;
    if |raw| < 2 || raw[0] != '"' || raw[|raw| - 1] != '"' { return None; }
    var inner := Inner(raw);
    assert Bytes(inner) == Bytes(raw) - 2 by {
      assert raw == ['"'] + inner + ['"'];
      BytesAppend(['"'] + inner, ['"']);
      BytesAppend(['"'], inner);
    }
    password := DecodeBody(inner);
  }
}
