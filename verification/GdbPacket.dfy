/**
 The GDB remote serial protocol: how the stub frames and escapes what it sends and
 takes apart what it receives, byte by byte (gdbstub.c).  The packets follow
 "Debugging with GDB", Appendix E, "GDB Remote Serial Protocol", Overview.
 */
module GdbPacket {
  import opened Basics

  const DOLLAR: Byte := 36 // '$'
  const HASH: Byte := 35 // '#'
  const STAR: Byte := 42 // '*'
  const BRACE: Byte := 125 // '}'
  const PLUS: Byte := 43 // '+'
  const MINUS: Byte := 45 // '-'
  const SPACE: Byte := 32 // ' '
  const MAX_PACKET_LENGTH := 4096

  // ----- hexadecimal digits and sums -----

  function FromHex(v: Byte): (r: Byte)
    ensures r < 16
  {
    if 48 <= v <= 57 then v - 48
    else if 65 <= v <= 70 then v - 55
    else if 97 <= v <= 102 then v - 87
    else 0
  }

  function ToHex(v: Byte): Byte
    requires v < 16
  {
    if v < 10 then v + 48 else v + 87
  }

  predicate IsXDigit(v: Byte) { 48 <= v <= 57 || 65 <= v <= 70 || 97 <= v <= 102 }

  lemma {:induction false} HexRoundTrip(v: Byte)
    requires v < 16
    ensures IsXDigit(ToHex(v)) && FromHex(ToHex(v)) == v
  {}

  function Sum(s: seq<Byte>): nat {
    if s == [] then 0 else Sum(s[..|s| - 1]) + s[|s| - 1]
  }

  lemma {:induction false} SumConcat(a: seq<Byte>, b: seq<Byte>)
    ensures Sum(a + b) == Sum(a) + Sum(b)
    decreases |b|
  {
    if b == [] {
      assert a + b == a;
    } else {
      assert (a + b)[..|a + b| - 1] == a + b[..|b| - 1];
      SumConcat(a, b[..|b| - 1]);
    }
  }

  /** c ^ 0x20 */
  function Flip(c: Byte): Byte { if (c / 32) % 2 == 1 then c - 32 else c + 32 }

  lemma {:induction false} FlipFlip(c: Byte)
    ensures Flip(Flip(c)) == c
  {}

  // ----- sending -----

  predicate Special(c: Byte) { c == HASH || c == DOLLAR || c == STAR || c == BRACE }

  function Escaped(mem: seq<Byte>): seq<Byte> {
    if mem == [] then []
    else Escaped(mem[..|mem| - 1]) + (if Special(mem[|mem| - 1]) then [BRACE, Flip(mem[|mem| - 1])] else [mem[|mem| - 1]])
  }

  /** memtox */
  method Memtox(mem: seq<Byte>) returns (buf: seq<Byte>)
    ensures buf == Escaped(mem)
  {
    buf := [];
    for i := 0 to |mem|
      invariant buf == Escaped(mem[..i])
    {
      assert mem[..i + 1][..i] == mem[..i];
      var c := mem[i];
      if Special(c) {
        buf := buf + [BRACE];
        buf := buf + [Flip(c)];
      } else {
        buf := buf + [c];
      }
    }
    assert mem[..|mem|] == mem;
  }

  /** The packet for a body: its checksum is the sum of its bytes modulo 256. */
  function Framed(body: seq<Byte>): seq<Byte> {
    [DOLLAR] + body + [HASH, ToHex(Sum(body) % 256 / 16), ToHex(Sum(body) % 16)]
  }

  /** A byte as the signed char it is read through. */
  function Signed(c: Byte): int { if c < 128 then c else c - 256 }

  /** put_packet_binary: the sum of signed chars, shifted and masked, has the same
      two digits as the sum of the bytes. */
  method PutPacketBinary(buf: seq<Byte>) returns (packet: seq<Byte>)
    ensures packet == Framed(buf)
  {
    packet := [DOLLAR] + buf;
    var csum := 0;
    ghost var k := 0;
    for i := 0 to |buf|
      invariant csum == Sum(buf[..i]) - 256 * k
    {
      assert buf[..i + 1][..i] == buf[..i];
      csum := csum + Signed(buf[i]);
      k := if buf[i] < 128 then k else k + 1;
    }
    assert buf[..|buf|] == buf;
    SameDigits(csum, Sum(buf), k);
    packet := packet + [HASH, ToHex(csum / 16 % 16), ToHex(csum % 16)];
  }

  lemma {:induction false} SameDigits(c: int, s: nat, k: int)
    requires c == s - 256 * k
    ensures c / 16 % 16 == s % 256 / 16 && c % 16 == s % 16
  {
    var q := s / 256;
    var r := s % 256;
    assert c == 256 * (q - k) + r;
    assert c / 16 == 16 * (q - k) + r / 16;
  }

  // ----- receiving -----

  datatype State = Idle | GetLine | GetLineEsc | GetLineRle | Chksum1 | Chksum2

  /** What handling a packet did: the reply kept for retransmission, if any, and
      whether the machine runs now. */
  datatype Answer = Answer(reply: seq<Byte>, running: bool)

  /** The receiver: the line collected so far, both checksums, the unacknowledged
      reply, everything sent, and the packets handed to gdb_handle_packet. */
  datatype Recv = Recv(state: State, line: seq<Byte>, sum: nat, csum: Byte, last: seq<Byte>, running: bool,
                       sent: seq<Byte>, handled: seq<seq<Byte>>)

  /** The rest of the stub: it may answer each packet, and report that the machine has
      stopped, in the light of all packets before. */
  datatype Handler = Handler(answer: seq<seq<Byte>> -> Answer, stopped: seq<seq<Byte>> -> seq<Byte>)

  function Repeated(c: Byte, n: nat): seq<Byte> { seq(n, i => c) }

  function Handled(r: Recv, h: Handler): Recv {
    var all := r.handled + [r.line];
    r.(state := Idle, handled := all, sent := r.sent + [PLUS] + h.answer(all).reply, last := h.answer(all).reply,
       running := h.answer(all).running)
  }

  function LineStep(r: Recv, ch: Byte, h: Handler): Recv {
    match r.state
    case Idle =>
      if ch == DOLLAR then r.(line := [], sum := 0, state := GetLine) else r
    case GetLine =>
      if ch == BRACE then r.(state := GetLineEsc, sum := r.sum + ch)
      else if ch == STAR then r.(state := GetLineRle, sum := r.sum + ch)
      else if ch == HASH then r.(state := Chksum1)
      else if |r.line| >= MAX_PACKET_LENGTH - 1 then r.(state := Idle)
      else r.(line := r.line + [ch], sum := r.sum + ch)
    case GetLineEsc =>
      if ch == HASH then r.(state := Chksum1)
      else if |r.line| >= MAX_PACKET_LENGTH - 1 then r.(state := Idle)
      else r.(line := r.line + [Flip(ch)], sum := r.sum + ch, state := GetLine)
    case GetLineRle =>
      if ch < SPACE || ch == HASH || ch == DOLLAR || ch > 126 then r.(state := GetLine)
      else if |r.line| + (ch - SPACE + 3) >= MAX_PACKET_LENGTH - 1 then r.(state := Idle)
      else if |r.line| < 1 then r.(state := GetLine)
      else r.(line := r.line + Repeated(r.line[|r.line| - 1], ch - SPACE + 3), sum := r.sum + ch, state := GetLine)
    case Chksum1 =>
      if !IsXDigit(ch) then r.(state := GetLine) else r.(csum := FromHex(ch) * 16, state := Chksum2)
    case Chksum2 =>
      if !IsXDigit(ch) then r.(state := GetLine)
      else
        var r' := r.(csum := r.csum / 16 * 16 + FromHex(ch));
        if r'.csum != r.sum % 256 then r'.(sent := r.sent + [MINUS], state := Idle) else Handled(r', h)
  }

  /** vm_stop, and the stop reply that gdb_vm_state_change sends for it. */
  function Stopped(r: Recv, h: Handler): Recv {
    var reply := h.stopped(r.handled);
    r.(running := false, sent := r.sent + reply, last := if reply == [] then r.last else reply)
  }

  /** gdb_read_byte */
  function Step(r: Recv, ch: Byte, h: Handler): Recv {
    var r1 := if r.last == [] then r
              else r.(sent := if ch == MINUS then r.sent + r.last else r.sent,
                      last := if ch == PLUS || ch == DOLLAR then [] else r.last);
    if r.last != [] && ch != DOLLAR then r1
    else if r1.running then Stopped(r1, h)
    else LineStep(r1, ch, h)
  }

  function Feed(r: Recv, s: seq<Byte>, h: Handler): Recv
    decreases |s|
  {
    if s == [] then r else Feed(Step(r, s[0], h), s[1..], h)
  }

  lemma {:induction false} FeedConcat(r: Recv, a: seq<Byte>, b: seq<Byte>, h: Handler)
    ensures Feed(r, a + b, h) == Feed(Feed(r, a, h), b, h)
    decreases |a|
  {
    if a == [] {
      assert a + b == b;
    } else {
      assert (a + b)[1..] == a[1..] + b;
      FeedConcat(Step(r, a[0], h), a[1..], b, h);
    }
  }

  /** Whatever is received, the line never outgrows the buffer. */
  lemma {:induction false} LineBounded(r: Recv, s: seq<Byte>, h: Handler)
    requires |r.line| <= MAX_PACKET_LENGTH - 1
    ensures |Feed(r, s, h).line| <= MAX_PACKET_LENGTH - 1
    decreases |s|
  {
    if s != [] { LineBounded(Step(r, s[0], h), s[1..], h); }
  }

  // ----- what a line encodes -----

  /** One unit of a packet body: a plain character, an escaped one, or a repetition
      of the last character. */
  datatype Token = Plain(c: Byte) | Escape(c: Byte) | Run(count: nat)

  function Wire(t: Token): seq<Byte>
    requires Sendable(t)
  {
    match t
    case Plain(c) => [c]
    case Escape(c) => [BRACE, Flip(c)]
    case Run(n) => [STAR, n - 3 + SPACE]
  }

  predicate Sendable(t: Token) {
    match t
    case Plain(c) => c != BRACE && c != STAR && c != HASH
    case Escape(c) => Flip(c) != HASH
    case Run(n) => 3 <= n <= 97 && n - 3 + SPACE != HASH && n - 3 + SPACE != DOLLAR
  }

  predicate AllSendable(ts: seq<Token>) { forall i :: 0 <= i < |ts| ==> Sendable(ts[i]) }

  function WireAll(ts: seq<Token>): seq<Byte>
    requires AllSendable(ts)
  {
    if ts == [] then [] else Wire(ts[0]) + WireAll(ts[1..])
  }

  /** What one token stands for after a line; nothing when the buffer is full or
      there is no character to repeat. */
  function Meaning(line: seq<Byte>, t: Token): Option<seq<Byte>> {
    match t
    case Plain(c) => if |line| < MAX_PACKET_LENGTH - 1 then Some(line + [c]) else None
    case Escape(c) => if |line| < MAX_PACKET_LENGTH - 1 then Some(line + [c]) else None
    case Run(n) => if 0 < |line| && |line| + n < MAX_PACKET_LENGTH - 1 then Some(line + Repeated(line[|line| - 1], n)) else None
  }

  function MeaningAll(line: seq<Byte>, ts: seq<Token>): Option<seq<Byte>>
    decreases |ts|
  {
    if ts == [] then Some(line)
    else match Meaning(line, ts[0])
         case None => None
         case Some(line') => MeaningAll(line', ts[1..])
  }

  /** The receiver waits for the next token of a line, with the machine stopped and
      no reply outstanding. */
  predicate Receiving(r: Recv) { r.state.GetLine? && r.last == [] && !r.running }

  lemma {:induction false} TokenReceived(r: Recv, t: Token, h: Handler)
    requires Receiving(r) && Sendable(t) && Meaning(r.line, t).Some?
    ensures Feed(r, Wire(t), h) == r.(line := Meaning(r.line, t).value, sum := r.sum + Sum(Wire(t)))
  {
    var w := Wire(t);
    assert |w| == 1 ==> w[1..] == [] && Sum(w) == w[0] by { if |w| == 1 { SumOne(w); } }
    if |w| == 2 {
      SumTwo(w);
      assert w[1..][1..] == [];
      if t.Escape? { FlipFlip(t.c); }
      assert Feed(r, w, h) == Feed(Step(r, w[0], h), w[1..], h);
      assert Feed(Step(r, w[0], h), w[1..], h) == Step(Step(r, w[0], h), w[1], h);
    } else {
      assert Feed(r, w, h) == Step(r, w[0], h);
    }
  }

  lemma {:induction false} SumOne(w: seq<Byte>)
    requires |w| == 1
    ensures Sum(w) == w[0]
  {
    assert w[..0] == [];
  }

  lemma {:induction false} SumTwo(w: seq<Byte>)
    requires |w| == 2
    ensures Sum(w) == (w[0] as int) + w[1]
  {
    SumOne(w[..1]);
  }

  lemma {:induction false} LineReceived(r: Recv, ts: seq<Token>, h: Handler)
    requires Receiving(r) && AllSendable(ts) && MeaningAll(r.line, ts).Some?
    ensures Feed(r, WireAll(ts), h) == r.(line := MeaningAll(r.line, ts).value, sum := r.sum + Sum(WireAll(ts)))
    decreases |ts|
  {
    if ts != [] {
      TokenReceived(r, ts[0], h);
      var r' := Feed(r, Wire(ts[0]), h);
      FeedConcat(r, Wire(ts[0]), WireAll(ts[1..]), h);
      SumConcat(Wire(ts[0]), WireAll(ts[1..]));
      LineReceived(r', ts[1..], h);
    }
  }

  /** A packet with any body and any two checksum digits. */
  function Packet(body: seq<Byte>, hi: Byte, lo: Byte): seq<Byte> { [DOLLAR] + body + [HASH, hi, lo] }

  /** The checksum decides: for every body of tokens that fits, and every two
      digits, the packet is acknowledged and handed over, decoded, exactly when the
      digits spell the sum of the body modulo 256; else it is refused, and nothing
      is handed over. */
  lemma {:induction false} AcknowledgedIff(r: Recv, ts: seq<Token>, hi: Byte, lo: Byte, h: Handler)
    requires r.state.Idle? && r.last == [] && !r.running && AllSendable(ts) && MeaningAll([], ts).Some? && IsXDigit(hi) && IsXDigit(lo)
    ensures var r' := Feed(r, Packet(WireAll(ts), hi, lo), h);
      var line := MeaningAll([], ts).value;
      if FromHex(hi) * 16 + FromHex(lo) == Sum(WireAll(ts)) % 256 then
        && r'.handled == r.handled + [line] && r'.sent == r.sent + [PLUS] + h.answer(r.handled + [line]).reply && r'.state.Idle?
        && r'.line == line && r'.last == h.answer(r'.handled).reply && r'.running == h.answer(r'.handled).running
      else
        r'.handled == r.handled && r'.sent == r.sent + [MINUS] && r'.state.Idle?
  {
    var body := WireAll(ts);
    var w := [DOLLAR] + body;
    assert Packet(body, hi, lo) == w + [HASH, hi, lo];
    hide Packet, WireAll, Sum, MeaningAll, Feed;
    FeedConcat(r, w, [HASH, hi, lo], h);
    BodyReceived(r, ts, h);
    FeedThree(Feed(r, w, h), HASH, hi, lo, h);
  }

  lemma {:induction false} BodyReceived(r: Recv, ts: seq<Token>, h: Handler)
    requires r.state.Idle? && r.last == [] && !r.running && AllSendable(ts) && MeaningAll([], ts).Some?
    ensures Feed(r, [DOLLAR] + WireAll(ts), h) == r.(line := MeaningAll([], ts).value, sum := Sum(WireAll(ts)), state := GetLine)
  {
    var body := WireAll(ts);
    var r1 := r.(line := [], sum := 0, state := GetLine);
    var w := [DOLLAR] + body;
    assert w[0] == DOLLAR && w[1..] == body;
    assert Step(r, DOLLAR, h) == r1;
    assert Feed(r, w, h) == Feed(r1, body, h);
    LineReceived(r1, ts, h);
  }

  lemma {:induction false} FeedThree(r: Recv, a: Byte, b: Byte, c: Byte, h: Handler)
    ensures Feed(r, [a, b, c], h) == Step(Step(Step(r, a, h), b, h), c, h)
  {
    assert [a, b, c][1..] == [b, c] && [b, c][1..] == [c] && [c][1..] == [];
    assert Feed(r, [a, b, c], h) == Feed(Step(r, a, h), [b, c], h);
    assert Feed(Step(r, a, h), [b, c], h) == Feed(Step(Step(r, a, h), b, h), [c], h);
  }

  // ----- escaping is undone -----

  function TokenOf(c: Byte): Token { if Special(c) then Escape(c) else Plain(c) }

  function Tokens(mem: seq<Byte>): seq<Token> { seq(|mem|, i requires 0 <= i < |mem| => TokenOf(mem[i])) }

  lemma {:induction false} WireConcat(a: seq<Token>, b: seq<Token>)
    requires AllSendable(a) && AllSendable(b)
    ensures AllSendable(a + b) && WireAll(a + b) == WireAll(a) + WireAll(b)
    decreases |a|
  {
    if a == [] {
      assert a + b == b;
    } else {
      assert (a + b)[1..] == a[1..] + b;
      WireConcat(a[1..], b);
    }
  }

  lemma {:induction false} EscapedIsWire(mem: seq<Byte>)
    ensures AllSendable(Tokens(mem)) && Escaped(mem) == WireAll(Tokens(mem))
    decreases |mem|
  {
    if mem != [] {
      var n := |mem| - 1;
      EscapedIsWire(mem[..n]);
      assert Tokens(mem) == Tokens(mem[..n]) + [TokenOf(mem[n])];
      WireConcat(Tokens(mem[..n]), [TokenOf(mem[n])]);
      assert [TokenOf(mem[n])][1..] == [];
    }
  }

  lemma {:induction false} TokensMeaning(line: seq<Byte>, mem: seq<Byte>)
    ensures MeaningAll(line, Tokens(mem)) == if mem == [] || |line| + |mem| <= MAX_PACKET_LENGTH - 1 then Some(line + mem) else None
    decreases |mem|
  {
    if mem == [] {
      assert line + mem == line;
    } else {
      assert Tokens(mem)[1..] == Tokens(mem[1..]);
      if |line| < MAX_PACKET_LENGTH - 1 {
        TokensMeaning(line + [mem[0]], mem[1..]);
        assert line + [mem[0]] + mem[1..] == line + mem;
      }
    }
  }

  lemma {:induction false} Nibbles(n: nat)
    ensures n % 256 / 16 * 16 + n % 16 == n % 256
  {
    assert n % 256 % 16 == n % 16;
  }

  /** The digits put_packet_binary appends are the ones that are accepted. */
  lemma {:induction false} FramedPacket(body: seq<Byte>)
    ensures var hi, lo := ToHex(Sum(body) % 256 / 16), ToHex(Sum(body) % 16);
      Framed(body) == Packet(body, hi, lo) && IsXDigit(hi) && IsXDigit(lo) && FromHex(hi) * 16 + FromHex(lo) == Sum(body) % 256
  {
    HexRoundTrip(Sum(body) % 256 / 16);
    HexRoundTrip(Sum(body) % 16);
    Nibbles(Sum(body));
  }

  /** What the stub would send as a packet it also receives: every payload that fits
      the buffer comes back unchanged. */
  lemma {:induction false} PacketRoundTrip(r: Recv, payload: seq<Byte>, h: Handler)
    requires r.state.Idle? && r.last == [] && !r.running && |payload| <= MAX_PACKET_LENGTH - 1
    ensures var r' := Feed(r, Framed(Escaped(payload)), h);
      && r'.handled == r.handled + [payload] && r'.sent == r.sent + [PLUS] + h.answer(r.handled + [payload]).reply
      && r'.state.Idle? && r'.line == payload
      && r'.last == h.answer(r'.handled).reply && r'.running == h.answer(r'.handled).running
  {
    hide Feed, Sum, ToHex, FromHex, Framed, Packet;
    EscapedIsWire(payload);
    TokensMeaning([], payload);
    assert [] + payload == payload;
    var body := Escaped(payload);
    FramedPacket(body);
    AcknowledgedIff(r, Tokens(payload), ToHex(Sum(body) % 256 / 16), ToHex(Sum(body) % 16), h);
  }

  lemma {:induction false} IdleSkips(r: Recv, s: seq<Byte>, h: Handler)
    requires r.state.Idle? && r.last == [] && !r.running && DOLLAR !in s
    ensures Feed(r, s, h) == r
    decreases |s|
  {
    if s != [] { IdleSkips(r, s[1..], h); }
  }

  lemma {:induction false} NoDollar(mem: seq<Byte>)
    ensures DOLLAR !in Escaped(mem)
    decreases |mem|
  {
    if mem != [] { NoDollar(mem[..|mem| - 1]); }
  }

  lemma {:induction false} EscapedConcat(a: seq<Byte>, b: seq<Byte>)
    ensures Escaped(a + b) == Escaped(a) + Escaped(b)
  {
    EscapedIsWire(a);
    EscapedIsWire(b);
    EscapedIsWire(a + b);
    assert Tokens(a + b) == Tokens(a) + Tokens(b);
    WireConcat(Tokens(a), Tokens(b));
  }

  /** One character too many sends the receiver back to idle. */
  lemma {:induction false} OneTooMany(r: Recv, c: Byte, h: Handler)
    requires Receiving(r) && |r.line| == MAX_PACKET_LENGTH - 1
    ensures var r' := Feed(r, Escaped([c]), h);
      r'.state.Idle? && r'.last == [] && !r'.running && r'.handled == r.handled && r'.sent == r.sent
  {
    assert [c][..0] == [];
    var w := Escaped([c]);
    if Special(c) {
      assert w == [BRACE, Flip(c)] && w[1..] == [Flip(c)] && [Flip(c)][1..] == [];
      assert Feed(r, w, h) == Feed(Step(r, BRACE, h), [Flip(c)], h);
      assert Feed(Step(r, BRACE, h), [Flip(c)], h) == Step(Step(r, BRACE, h), Flip(c), h);
    } else {
      assert w == [c] && w[1..] == [];
      assert Feed(r, w, h) == Step(r, c, h);
    }
  }

  /** A longer payload is dropped whole: no byte of it is handed over and nothing is
      sent, whatever its checksum. */
  lemma {:induction false} TooLongIsDropped(r: Recv, payload: seq<Byte>, hi: Byte, lo: Byte, h: Handler)
    requires r.state.Idle? && r.last == [] && !r.running && |payload| > MAX_PACKET_LENGTH - 1 && IsXDigit(hi) && IsXDigit(lo)
    ensures var r' := Feed(r, Packet(Escaped(payload), hi, lo), h);
      r'.handled == r.handled && r'.sent == r.sent && r'.state.Idle?
  {
    hide Special, Sum, FromHex;
    var a, c, b := payload[..MAX_PACKET_LENGTH - 1], payload[MAX_PACKET_LENGTH - 1], payload[MAX_PACKET_LENGTH..];
    assert payload == a + [c] + b;
    EscapedConcat(a + [c], b);
    EscapedConcat(a, [c]);
    var rest := Escaped(b) + [HASH, hi, lo];
    var head := [DOLLAR] + Escaped(a);
    assert Packet(Escaped(payload), hi, lo) == head + (Escaped([c]) + rest);
    FeedConcat(r, head, Escaped([c]) + rest, h);
    HeadReceived(r, a, h);
    var r1 := Feed(r, head, h);
    FeedConcat(r1, Escaped([c]), rest, h);
    OneTooMany(r1, c, h);
    NoDollar(b);
    IdleSkips(Feed(r1, Escaped([c]), h), rest, h);
  }

  lemma {:induction false} HeadReceived(r: Recv, a: seq<Byte>, h: Handler)
    requires r.state.Idle? && r.last == [] && !r.running && |a| <= MAX_PACKET_LENGTH - 1
    ensures var r' := Feed(r, [DOLLAR] + Escaped(a), h);
      Receiving(r') && r'.line == a && r'.handled == r.handled && r'.sent == r.sent
  {
    EscapedIsWire(a);
    TokensMeaning([], a);
    assert [] + a == a;
    BodyReceived(r, Tokens(a), h);
  }

  // ----- retransmission -----

  /** While a reply is unacknowledged, everything up to the next '+' or '$' only has
      it sent again, once for each '-'. */
  lemma {:induction false} Unacknowledged(r: Recv, s: seq<Byte>, h: Handler)
    requires r.last != [] && PLUS !in s && DOLLAR !in s
    ensures Feed(r, s, h) == r.(sent := r.sent + Resent(r.last, s))
    decreases |s|
  {
    if s == [] {
      assert r.sent + [] == r.sent;
    } else {
      var r1 := Step(r, s[0], h);
      Unacknowledged(r1, s[1..], h);
      assert r1.sent + Resent(r.last, s[1..]) == r.sent + Resent(r.last, s);
    }
  }

  function Resent(last: seq<Byte>, s: seq<Byte>): seq<Byte> {
    if s == [] then [] else (if s[0] == MINUS then last else []) + Resent(last, s[1..])
  }

  // ----- the line while a packet comes in -----

  lemma {:induction false} FeedNext(r: Recv, s: seq<Byte>, i: nat, h: Handler)
    requires i < |s|
    ensures Feed(r, s[..i + 1], h) == Step(Feed(r, s[..i], h), s[i], h)
  {
    assert s[..i + 1] == s[..i] + [s[i]];
    FeedConcat(r, s[..i], [s[i]], h);
    var r' := Feed(r, s[..i], h);
    assert [s[i]][1..] == [] && Feed(r', [s[i]], h) == Feed(Step(r', s[i], h), [], h);
  }

  lemma {:induction false} FeedNone(r: Recv, h: Handler)
    ensures Feed(r, [], h) == r
  {}

  lemma {:induction false} BeforeLast(r: Recv, payload: seq<Byte>, h: Handler)
    requires r.state.Idle? && r.last == [] && !r.running && |payload| <= MAX_PACKET_LENGTH - 1
    ensures var packet := Framed(Escaped(payload)); Feed(r, packet[..|packet| - 1], h).state.Chksum2?
  {
    var packet := Framed(Escaped(payload));
    FramedPacket(Escaped(payload));
    var head := [DOLLAR] + Escaped(payload);
    HeadReceived(r, payload, h);
    hide Feed;
    assert packet[..|head|] == head;
    FeedNext(r, packet, |head|, h);
    FeedNext(r, packet, |head| + 1, h);
  }

  lemma {:induction false} OnlyDollarShrinks(r: Recv, s: seq<Byte>, h: Handler)
    requires DOLLAR !in s
    ensures |r.line| <= |Feed(r, s, h).line|
    decreases |s|
  {
    if s != [] { OnlyDollarShrinks(Step(r, s[0], h), s[1..], h); }
  }

  lemma {:induction false} PrefixBounded(r: Recv, packet: seq<Byte>, k: nat, h: Handler)
    requires 0 < k <= |packet| && DOLLAR !in packet[1..]
    ensures |Feed(r, packet[..k], h).line| <= |Feed(r, packet, h).line|
  {
    assert packet == packet[..k] + packet[k..];
    assert forall x :: x in packet[k..] ==> x in packet[1..];
    FeedConcat(r, packet[..k], packet[k..], h);
    OnlyDollarShrinks(Feed(r, packet[..k], h), packet[k..], h);
  }

  lemma {:induction false} FramedDollar(payload: seq<Byte>)
    ensures var packet := Framed(Escaped(payload)); packet != [] && DOLLAR !in packet[1..]
  {
    NoDollar(payload);
  }

  // ----- the receiver as the program has it -----

  class Server {
    var state: State
    const lineBuf: array<Byte>
    var lineBufIndex: nat
    var lineSum: nat
    var lineCsum: Byte
    var lastPacket: seq<Byte>
    var running: bool
    var sent: seq<Byte>
    var handled: seq<seq<Byte>>
    const handler: Handler

    /** The line always leaves room for its terminating NUL, and the last byte of the
        buffer never is anything else. */
    ghost predicate Valid()
      reads this, lineBuf
    {
      && lineBuf.Length == MAX_PACKET_LENGTH && lineBufIndex <= MAX_PACKET_LENGTH - 1
      && lineBuf[MAX_PACKET_LENGTH - 1] == 0
    }

    /** What lies behind the line and its NUL is what earlier lines have left there. */
    twostate predicate KeptBehind()
      requires old(Valid()) && Valid()
      reads this, lineBuf
    {
      forall x :: lineBufIndex < x < MAX_PACKET_LENGTH ==> lineBuf[x] == old(lineBuf[x])
    }

    ghost function View(): Recv
      requires Valid()
      reads this, lineBuf
    {
      Recv(state, lineBuf[..lineBufIndex], lineSum, lineCsum, lastPacket, running, sent, handled)
    }

    constructor (h: Handler)
      ensures Valid() && View() == Recv(Idle, [], 0, 0, [], false, [], []) && handler == h && fresh(lineBuf)
    {
      state, lineBufIndex, lineSum, lineCsum, lastPacket, running := Idle, 0, 0, 0, [], false;
      lineBuf := new Byte[MAX_PACKET_LENGTH](i => 0);
      sent, handled, handler := [], [], h;
    }

    method PutChar(ch: Byte)
      requires Valid() && lineBufIndex < MAX_PACKET_LENGTH - 1
      modifies this`lineBufIndex, lineBuf
      ensures Valid() && lineBuf[..lineBufIndex] == old(lineBuf[..lineBufIndex]) + [ch] && KeptBehind()
    {
      lineBuf[lineBufIndex] := ch;
      lineBufIndex := lineBufIndex + 1;
    }

    /** memset of the last character over the next n places. */
    method PutRepeats(n: nat)
      requires Valid() && 0 < lineBufIndex && lineBufIndex + n < MAX_PACKET_LENGTH - 1
      modifies this`lineBufIndex, lineBuf
      ensures Valid() && KeptBehind()
      ensures lineBuf[..lineBufIndex] == old(lineBuf[..lineBufIndex]) + Repeated(old(lineBuf[lineBufIndex - 1]), n)
    {
      var c := lineBuf[lineBufIndex - 1];
      ghost var before := lineBuf[..lineBufIndex];
      for i := 0 to n
        invariant lineBufIndex == |before| && lineBuf[..lineBufIndex + i] == before + Repeated(c, i)
        invariant forall x :: lineBufIndex + i <= x < MAX_PACKET_LENGTH ==> lineBuf[x] == old(lineBuf[x])
      {
        lineBuf[lineBufIndex + i] := c;
        assert Repeated(c, i + 1) == Repeated(c, i) + [c];
      }
      lineBufIndex := lineBufIndex + n;
    }

    /** A repeat count in a run-length sequence. */
    method ReadRepeat(ch: Byte)
      requires Valid() && state.GetLineRle?
      modifies this`state, this`lineBufIndex, this`lineSum, lineBuf
      ensures Valid() && KeptBehind() && !state.Chksum2? && View() == LineStep(old(View()), ch, handler)
    {
      if ch < SPACE || ch == HASH || ch == DOLLAR || ch > 126 {
        state := GetLine;
      } else {
        var repeat := ch - SPACE + 3;
        if lineBufIndex + repeat >= lineBuf.Length - 1 {
          state := Idle;
        } else if lineBufIndex < 1 {
          state := GetLine;
        } else {
          PutRepeats(repeat);
          lineSum := lineSum + ch;
          state := GetLine;
        }
      }
    }

    /** The last digit of the checksum, or-ed into the low half of line_csum. */
    method ReadLastDigit(ch: Byte)
      requires Valid() && state.Chksum2?
      requires lineBuf[lineBufIndex] == 0
      modifies this
      ensures Valid() && KeptBehind() && !state.Chksum2? && View() == LineStep(old(View()), ch, handler)
    {
      if !IsXDigit(ch) {
        state := GetLine;
      } else {
        lineCsum := lineCsum / 16 * 16 + FromHex(ch);
        if lineCsum != lineSum % 256 {
          sent := sent + [MINUS];
          state := Idle;
        } else {
          sent := sent + [PLUS];
          handled := handled + [lineBuf[..lineBufIndex]];
          var answer := handler.answer(handled);
          sent := sent + answer.reply;
          lastPacket := answer.reply;
          running := answer.running;
          state := Idle;
        }
      }
    }

    /** The switch on the receive state.  A complete packet is handed over with the
        NUL behind it; what the stub does with it is told by the handler. */
    method ReadLineByte(ch: Byte)
      requires Valid()
      requires state.Chksum2? ==> lineBuf[lineBufIndex] == 0
      modifies this, lineBuf
      ensures Valid() && KeptBehind() && View() == LineStep(old(View()), ch, handler)
      ensures state.Chksum2? || old(state.Chksum2?) ==> lineBuf[lineBufIndex] == 0
    {
      match state {
        case Idle =>
          if ch == DOLLAR {
            lineBufIndex := 0;
            lineSum := 0;
            state := GetLine;
          }
        case GetLine =>
          if ch == BRACE {
            state := GetLineEsc;
            lineSum := lineSum + ch;
          } else if ch == STAR {
            state := GetLineRle;
            lineSum := lineSum + ch;
          } else if ch == HASH {
            state := Chksum1;
          } else if lineBufIndex >= lineBuf.Length - 1 {
            state := Idle;
          } else {
            PutChar(ch);
            lineSum := lineSum + ch;
          }
        case GetLineEsc =>
          if ch == HASH {
            state := Chksum1;
          } else if lineBufIndex >= lineBuf.Length - 1 {
            state := Idle;
          } else {
            PutChar(Flip(ch));
            lineSum := lineSum + ch;
            state := GetLine;
          }
        case GetLineRle =>
          ReadRepeat(ch);
        case Chksum1 =>
          if !IsXDigit(ch) {
            state := GetLine;
          } else {
            lineBuf[lineBufIndex] := 0;
            lineCsum := FromHex(ch) * 16;
            state := Chksum2;
          }
        case Chksum2 =>
          ReadLastDigit(ch);
      }
    }

    /** gdb_read_byte */
    method ReadByte(ch: Byte)
      requires Valid()
      requires state.Chksum2? ==> lineBuf[lineBufIndex] == 0
      modifies this, lineBuf
      ensures Valid() && KeptBehind() && View() == Step(old(View()), ch, handler)
      ensures state.Chksum2? || old(state.Chksum2?) ==> lineBuf[lineBufIndex] == 0
    {
      if |lastPacket| > 0 {
        if ch == MINUS {
          sent := sent + lastPacket;
        }
        if ch == PLUS || ch == DOLLAR {
          lastPacket := [];
        }
        if ch != DOLLAR {
          return;
        }
      }
      if running {
        running := false;
        var reply := handler.stopped(handled);
        sent := sent + reply;
        if reply != [] {
          lastPacket := reply;
        }
      } else {
        ReadLineByte(ch);
      }
    }

    /** gdb_chr_receive */
    method Receive(buf: seq<Byte>)
      requires Valid() && (state.Chksum2? ==> lineBuf[lineBufIndex] == 0)
      modifies this, lineBuf
      ensures Valid() && View() == Feed(old(View()), buf, handler)
      ensures state.Chksum2? ==> lineBuf[lineBufIndex] == 0
    {
      for i := 0 to |buf|
        invariant Valid() && (state.Chksum2? ==> lineBuf[lineBufIndex] == 0)
        invariant Feed(View(), buf[i..], handler) == Feed(old(View()), buf, handler)
      {
        assert buf[i..][0] == buf[i] && buf[i..][1..] == buf[i + 1..];
        ReadByte(buf[i]);
      }
      assert buf[|buf|..] == [];
    }

    /** The bytes of one packet, received while nothing is outstanding: its payload is
        handed over, and in the buffer it is followed by a NUL and by whatever earlier
        packets have left there. */
    method ReceivePayload(payload: seq<Byte>)
      requires Valid() && state.Idle? && lastPacket == [] && !running && |payload| <= MAX_PACKET_LENGTH - 1
      modifies this, lineBuf
      ensures Valid() && View() == Feed(old(View()), Framed(Escaped(payload)), handler)
      ensures state.Idle? && handled == old(handled) + [payload]
      ensures lastPacket == handler.answer(handled).reply && running == handler.answer(handled).running
      ensures lineBuf[..] == payload + [0] + old(lineBuf[..])[|payload| + 1..]
    {
      hide Feed, Framed, Step;
      ghost var r := View();
      var packet := Framed(Escaped(payload));
      PacketRoundTrip(r, payload, handler);
      FramedDollar(payload);
      BeforeLast(r, payload, handler);
      assert Feed(r, packet[..0], handler) == r by { FeedNone(r, handler); }
      for i := 0 to |packet|
        invariant Valid() && (state.Chksum2? ==> lineBuf[lineBufIndex] == 0)
        invariant View() == Feed(r, packet[..i], handler)
        invariant forall x :: |payload| < x < MAX_PACKET_LENGTH ==> lineBuf[x] == old(lineBuf[x])
        invariant i == |packet| ==> lineBuf[lineBufIndex] == 0
      {
        ReadByte(packet[i]);
        FeedNext(r, packet, i, handler);
        PrefixBounded(r, packet, i + 1, handler);
      }
      assert packet[..|packet|] == packet;
    }
  }
}
