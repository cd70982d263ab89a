// Streams that encode payloads: what one call makes of the beginning of one.
module Streams {
  import opened Framing
  import opened Chunking

  // The payloads as packets.
  function Clean(ps: seq<Payload>): (r: seq<Packet>)
    ensures |r| == |ps|
    ensures forall i | 0 <= i < |ps| :: r[i] == Packet(ps[i], false)
  {
    if ps == [] then [] else [Packet(ps[0], false)] + Clean(ps[1..])
  }

  lemma {:induction false} CleanConcat(ps: seq<Payload>, qs: seq<Payload>)
    ensures Clean(ps + qs) == Clean(ps) + Clean(qs)
  {
  }

  lemma {:induction false} CleanSplits(qs: seq<Payload>, k: nat, j: nat)
    requires k + j <= |qs|
    ensures Clean(qs[..k]) + Clean(qs[k..][..j]) == Clean(qs[..k + j])
    ensures qs[k..][j..] == qs[k + j..]
  {
  }

  // Every frame is at most `limit` bytes long.
  predicate Within(ps: seq<Payload>, limit: nat) {
    forall i :: 0 <= i < |ps| ==> |ps[i]| + HEADER <= limit
  }

  lemma {:induction false} FirstEncoded(s: seq<byte>, qs: seq<Payload>)
    requires s <= EncodeAll(qs) && !Stuck(s)
    ensures qs != [] && LengthField(s) == |qs[0]| + HEADER
    ensures PacketOf(s, LengthField(s)) == Packet(qs[0], false)
    ensures s[LengthField(s)..] <= EncodeAll(qs[1..])
    ensures EncodeAll(qs) == Encode(qs[0]) + EncodeAll(qs[1..])
  {
    var whole, rest := EncodeAll(qs), EncodeAll(qs[1..]);
    EncodeHeader(qs[0], rest);
    var n := LengthField(s);
    assert n == LengthField(whole);
    assert s[HEADER..n] == whole[HEADER..n];
    assert s[n..] <= whole[n..];
  }

  lemma {:induction false} CleanCons(qs: seq<Payload>, k: nat)
    requires k < |qs|
    ensures [Packet(qs[0], false)] + Clean(qs[1..][..k]) == Clean(qs[..k + 1])
    ensures qs[1..][k..] == qs[k + 1..]
  {
  }

  // What the receiver keeps between calls.
  predicate Waiting(s: seq<byte>) {
    Stuck(s) || s == LONE_EMPTY
  }

  // `r` is what parsing `s`, a prefix of the encoding of `qs`, should give: the
  // first payloads in order, and bytes that start encoding the others.
  ghost predicate DrainsTo(r: Parsed, s: seq<byte>, qs: seq<Payload>) {
    var k := |r.packets|;
    && k <= |qs|
    && r.packets == Clean(qs[..k])
    && (r.Parsed? ==>
      && r.used <= |s| <= |EncodeAll(qs)|
      && EncodeAll(qs)[r.used..] == EncodeAll(qs[k..])
      && Waiting(s[r.used..]))
  }

  lemma {:induction false} DrainsNothing(s: seq<byte>, qs: seq<Payload>)
    requires |s| <= |EncodeAll(qs)|
    ensures DrainsTo(Broken([]), s, qs)
    ensures Waiting(s) ==> DrainsTo(Parsed([], 0), s, qs)
  {
    assert s[0..] == s && qs[0..] == qs && EncodeAll(qs)[0..] == EncodeAll(qs);
    assert Clean(qs[..0]) == [];
  }

  lemma {:induction false} DrainsOne(d: Parsed, s: seq<byte>, n: nat, qs: seq<Payload>)
    requires n <= |s| && qs != [] && n == |qs[0]| + HEADER
    requires DrainsTo(d, s[n..], qs[1..])
    requires EncodeAll(qs) == Encode(qs[0]) + EncodeAll(qs[1..])
    ensures var ps := [Packet(qs[0], false)] + d.packets;
      DrainsTo(if d.Parsed? then Parsed(ps, n + d.used) else Broken(ps), s, qs)
  {
    hide EncodeAll, Encode, Waiting;
    CleanCons(qs, |d.packets|);
    if d.Parsed? {
      assert EncodeAll(qs)[n + d.used..] == EncodeAll(qs[1..])[d.used..];
      assert s[n + d.used..] == s[n..][d.used..];
    }
  }

  lemma {:induction false} DrainEncoded(s: seq<byte>, qs: seq<Payload>, pool: Pool)
    requires s <= EncodeAll(qs)
    ensures DrainsTo(Drain(s, pool), s, qs)
    decreases |qs|
  {
    hide DrainsTo, EncodeAll, Encode;
    if Stuck(s) {
      DrainStops(s, pool);
      DrainsNothing(s, qs);
    } else if !pool.Gives(LengthField(s)) {
      DrainStarved(s, pool);
      DrainsNothing(s, qs);
    } else {
      FirstEncoded(s, qs);
      var n := LengthField(s);
      DrainTakes(s, pool);
      DrainEncoded(s[n..], qs[1..], pool.Less());
      DrainsOne(Drain(s[n..], pool.Less()), s, n, qs);
    }
  }

  lemma {:induction false} LoneEmptyEncoded(s: seq<byte>, qs: seq<Payload>)
    requires s <= EncodeAll(qs) && |s| == HEADER && !Stuck(s)
    ensures s == LONE_EMPTY
  {
    FirstEncoded(s, qs);
  }

  // Parsing a prefix of an encoding gives the encoded payloads in order.
  lemma {:induction false} ParseEncoded(s: seq<byte>, qs: seq<Payload>, pool: Pool)
    requires s <= EncodeAll(qs)
    ensures DrainsTo(Parse(s, pool), s, qs)
  {
    hide DrainsTo, EncodeAll, Drain;
    DrainEncoded(s, qs, pool);
    DrainsNothing(s, qs);
    if |s| == HEADER && !Stuck(s) {
      LoneEmptyEncoded(s, qs);
    }
  }

  lemma {:induction false} EncodedWellFormed(s: seq<byte>, qs: seq<Payload>, limit: nat)
    requires s <= EncodeAll(qs) && Within(qs, limit)
    ensures WellFormed(s, limit)
    decreases |s|
  {
    if |s| >= HEADER {
      EncodeHeader(qs[0], EncodeAll(qs[1..]));
      assert LengthField(s) == LengthField(EncodeAll(qs));
      if !Stuck(s) {
        FirstEncoded(s, qs);
        EncodedWellFormed(s[LengthField(s)..], qs[1..], limit);
      }
    }
  }

  lemma {:induction false} LastOnes(s: seq<byte>, ahead: seq<Payload>)
    requires s == EncodeAll(ahead) && Waiting(s)
    ensures (ahead == [] && s == []) || (ahead == [[]] && s == LONE_EMPTY)
  {
    if ahead != [] {
      EncodeHeader(ahead[0], EncodeAll(ahead[1..]));
      assert EncodeAll(ahead[1..]) == [];
      assert ahead[1..] == [] && ahead[0] == [];
    }
  }
}
