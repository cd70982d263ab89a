// The wire format of NetWork/LConnector.cpp and the parser it runs over its
// receive buffer: a two-byte little-endian length that counts itself, then the
// payload.
module Framing {

  newtype byte = x: int | 0 <= x < 256

  const HEADER: nat := 2
  const MAX_PACKET_LEN: nat := 8192
  const MAX_USHORT: nat := 65535
  const RECV_BUFFER_LEN: nat := 131072

  // What a packet can carry: its total length must fit the header.
  type Payload = p: seq<byte> | |p| + HEADER <= MAX_USHORT witness []

  // A packet handed to the logic thread. A length field below 2 makes
  // DirectSetData refuse the data, so the packet is queued empty and flagged.
  datatype Packet = Packet(payload: seq<byte>, flawed: bool)

  // The outcome of one parser call: packets queued and bytes consumed, or the
  // connection found broken after some packets had been queued.
  datatype Parsed = Parsed(packets: seq<Packet>, used: nat) | Broken(packets: seq<Packet>)

  function LengthField(s: seq<byte>): (n: nat)
    requires |s| >= HEADER
    ensures n <= MAX_USHORT
  {
    s[0] as nat + 256 * (s[1] as nat)
  }

  function Encode(p: Payload): (s: seq<byte>)
    ensures |s| == |p| + HEADER
  {
    var n := |p| + HEADER;
    [(n % 256) as byte, (n / 256) as byte] + p
  }

  // Bytes that do not hold a whole frame yet.
  predicate Stuck(s: seq<byte>) {
    |s| < HEADER || |s| < LengthField(s)
  }

  function EncodeAll(ps: seq<Payload>): seq<byte> {
    if ps == [] then [] else Encode(ps[0]) + EncodeAll(ps[1..])
  }

  function PacketOf(s: seq<byte>, n: nat): Packet
    requires n <= |s|
  {
    if n < HEADER then Packet([], true) else Packet(s[HEADER..n], false)
  }

  // The pool of receive packets as one call finds it: the size of its largest
  // class, above which every request is refused (NetWork/LPacketPoolManager.h),
  // and how many requests of other sizes will still be met.
  datatype Pool = Pool(largest: nat, left: nat) {
    function Less(): Pool
      requires left > 0
    {
      Pool(largest, left - 1)
    }

    predicate Gives(n: nat) {
      n <= largest && left > 0
    }
  }

  // The longest frame that is received however the stream is cut.
  function Limit(largest: nat): nat {
    if largest < MAX_PACKET_LEN then largest else MAX_PACKET_LEN
  }

  // The while loop of the parser.
  function Drain(s: seq<byte>, pool: Pool): (r: Parsed)
    ensures r.Parsed? ==> r.used <= |s|
    decreases pool.left
  {
    if Stuck(s) then
      Parsed([], 0)
    else if !pool.Gives(LengthField(s)) then
      Broken([])
    else
      var n := LengthField(s);
      var p := PacketOf(s, n);
      match Drain(s[n..], pool.Less())
      case Parsed(ps, used) => Parsed([p] + ps, n + used)
      case Broken(ps) => Broken([p] + ps)
  }

  // ParseRecvedData: two bytes or fewer wait, and only the first length is
  // held against the maximum.
  function Parse(s: seq<byte>, pool: Pool): (r: Parsed)
    ensures r.Parsed? ==> r.used <= |s|
  {
    if |s| <= HEADER then Parsed([], 0)
    else if LengthField(s) > MAX_PACKET_LEN then Broken([])
    else Drain(s, pool)
  }

  // ---- Encoding ---------------------------------------------------------------

  lemma {:induction false} EncodeHeader(p: Payload, rest: seq<byte>)
    ensures var s := Encode(p) + rest;
      && LengthField(s) == |p| + HEADER
      && s[HEADER..|p| + HEADER] == p
      && s[|p| + HEADER..] == rest
  {
  }

  lemma {:induction false} Associates(a: seq<byte>, b: seq<byte>, c: seq<byte>)
    ensures a + (b + c) == (a + b) + c
  {
  }

  lemma {:induction false} EncodeAllCons(ps: seq<Payload>)
    requires ps != []
    ensures EncodeAll(ps) == Encode(ps[0]) + EncodeAll(ps[1..])
  {
  }

  lemma {:induction false} EncodeAllConcat(ps: seq<Payload>, qs: seq<Payload>)
    ensures EncodeAll(ps + qs) == EncodeAll(ps) + EncodeAll(qs)
  {
    if ps == [] {
      assert ps + qs == qs;
    } else {
      hide *;
      EncodeAllConcat(ps[1..], qs);
      assert (ps + qs)[1..] == ps[1..] + qs;
      EncodeAllCons(ps + qs);
      EncodeAllCons(ps);
      Associates(Encode(ps[0]), EncodeAll(ps[1..]), EncodeAll(qs));
    }
  }

  // The wire layout: the low byte of the total length, then the high one, then
  // the payload.
  lemma {:induction false} WireLayout(p: Payload)
    ensures var s := Encode(p);
      && s[0] as nat + 256 * (s[1] as nat) == |s| == |p| + 2
      && s[2..] == p
  {
  }

  // A frame whose length field does not cover the field itself comes out as an
  // empty flagged packet, and the next frame starts that many bytes on.
  lemma {:induction false} ShortLengthIsFlawed(s: seq<byte>, pool: Pool)
    requires |s| > HEADER && s[1] == 0 && s[0] < 2 && pool.Gives(s[0] as nat)
    ensures Parse(s, pool).packets == [Packet([], true)] + Drain(s[s[0]..], pool.Less()).packets
  {
    hide Drain;
    DrainTakes(s, pool);
  }

  // The format is a prefix code: bytes that start like the encoding of `qs`
  // and hold the encoding of `ps` hold the first packets of `qs`.
  lemma {:induction false} PrefixCode(ps: seq<Payload>, tail: seq<byte>, qs: seq<Payload>)
    requires EncodeAll(ps) + tail <= EncodeAll(qs)
    ensures ps <= qs
    ensures tail <= EncodeAll(qs[|ps|..])
  {
    if ps == [] {
      assert EncodeAll(ps) + tail == tail;
      assert qs[0..] == qs;
    } else {
      var whole, s := EncodeAll(qs), EncodeAll(ps) + tail;
      var rest := EncodeAll(ps[1..]) + tail;
      assert s == Encode(ps[0]) + rest;
      EncodeHeader(ps[0], rest);
      assert |whole| >= HEADER && whole[0] == s[0] && whole[1] == s[1];
      EncodeHeader(qs[0], EncodeAll(qs[1..]));
      assert LengthField(whole) == LengthField(s);
      var n := |ps[0]| + HEADER;
      assert whole[..n] == s[..n];
      assert ps[0] == s[HEADER..n] == whole[HEADER..n] == qs[0];
      assert rest == s[n..] <= whole[n..] == EncodeAll(qs[1..]);
      PrefixCode(ps[1..], tail, qs[1..]);
      assert qs[1..][|ps[1..]|..] == qs[|ps|..];
    }
  }

  // ---- One turn of the loop -----------------------------------------------------

  lemma {:induction false} DrainTakes(s: seq<byte>, pool: Pool)
    requires !Stuck(s) && pool.Gives(LengthField(s))
    ensures var n := LengthField(s); var r, d := Drain(s, pool), Drain(s[n..], pool.Less());
      && r.packets == [PacketOf(s, n)] + d.packets
      && r.Parsed? == d.Parsed?
      && (r.Parsed? ==> r.used == n + d.used)
  {
  }

  lemma {:induction false} DrainStarved(s: seq<byte>, pool: Pool)
    requires !Stuck(s) && !pool.Gives(LengthField(s))
    ensures Drain(s, pool) == Broken([])
  {
  }

  lemma {:induction false} DrainStops(s: seq<byte>, pool: Pool)
    requires Stuck(s)
    ensures Drain(s, pool) == Parsed([], 0)
  {
  }

  // ---- The receive buffer never fills up --------------------------------------

  lemma {:induction false} DrainLeavesLittle(s: seq<byte>, pool: Pool)
    ensures var r := Drain(s, pool); r.Parsed? ==> |s| - r.used < MAX_USHORT
    decreases pool.left
  {
    if !Stuck(s) && pool.Gives(LengthField(s)) {
      DrainLeavesLittle(s[LengthField(s)..], pool.Less());
    }
  }

  // Whatever the bytes, a call that succeeds leaves less than the largest frame.
  lemma {:induction false} ParseLeavesLittle(s: seq<byte>, pool: Pool)
    ensures var r := Parse(s, pool); r.Parsed? ==> |s| - r.used < MAX_USHORT
  {
    DrainLeavesLittle(s, pool);
  }

  // ---- Termination ---------------------------------------------------------------

  // The loop comes to a frame whose length field is zero.
  predicate MeetsZero(s: seq<byte>, largest: nat)
    decreases |s|
  {
    && HEADER <= |s| && LengthField(s) <= |s| && LengthField(s) <= largest
    && (LengthField(s) == 0 || MeetsZero(s[LengthField(s)..], largest))
  }

  lemma {:induction false} ZeroSpins(s: seq<byte>, pool: Pool)
    requires MeetsZero(s, pool.largest)
    ensures Drain(s, pool).Broken? && |Drain(s, pool).packets| == pool.left
    decreases pool.left
  {
    if pool.left != 0 {
      if LengthField(s) == 0 {
        assert s[0..] == s;
      }
      ZeroSpins(s[LengthField(s)..], pool.Less());
    }
  }

  lemma {:induction false} EndsWithoutZero(s: seq<byte>, pool: Pool)
    requires !MeetsZero(s, pool.largest)
    ensures |Drain(s, pool).packets| <= |s|
    decreases |s|
  {
    if !Stuck(s) && pool.Gives(LengthField(s)) {
      EndsWithoutZero(s[LengthField(s)..], pool.Less());
    }
  }

  // With more packets than bytes the loop ends by itself exactly when it meets
  // no zero length; when it meets one it goes on until no packet is left.
  lemma {:induction false} LoopEnds(s: seq<byte>, pool: Pool)
    requires |s| < pool.left
    ensures MeetsZero(s, pool.largest) <==> |Drain(s, pool).packets| == pool.left
    ensures MeetsZero(s, pool.largest) ==> Drain(s, pool).Broken?
    ensures !MeetsZero(s, pool.largest) ==> |Drain(s, pool).packets| <= |s|
  {
    if MeetsZero(s, pool.largest) {
      ZeroSpins(s, pool);
    } else {
      EndsWithoutZero(s, pool);
    }
  }
}
