// TCP may cut the byte stream anywhere. Successive parser calls over the
// retained bytes and each new chunk yield what one decoder makes of the whole
// stream, as long as every length field is one that is received however the
// stream is cut. What becomes of a longer frame is in Oversized.
module Chunking {
  import opened Framing

  // Every length field that can be seen from here is at least the header's and
  // at most `limit`.
  predicate WellFormed(s: seq<byte>, limit: nat) {
    |s| < HEADER ||
    (HEADER <= LengthField(s) <= limit &&
     (|s| < LengthField(s) || WellFormed(s[LengthField(s)..], limit)))
  }

  datatype Decoded = Decoded(packets: seq<Packet>, tail: seq<byte>)

  // The reference: decode the whole stream at once, up to an incomplete frame
  // or a zero length.
  function Decode(s: seq<byte>): Decoded {
    if Stuck(s) || LengthField(s) == 0 then Decoded([], s)
    else
      var n := LengthField(s);
      var d := Decode(s[n..]);
      Decoded([PacketOf(s, n)] + d.packets, d.tail)
  }

  function Concat(chunks: seq<seq<byte>>): seq<byte> {
    if chunks == [] then [] else chunks[0] + Concat(chunks[1..])
  }

  datatype Fed = Fed(packets: seq<Packet>, retained: seq<byte>) | Cut

  // What one call adds in front of the calls after it.
  function Then(ps: seq<Packet>, f: Fed): Fed {
    match f
    case Cut => Cut
    case Fed(qs, r) => Fed(ps + qs, r)
  }

  // Successive OnRecv calls: parse retained bytes and chunk, keep what is left.
  function Feed(retained: seq<byte>, chunks: seq<seq<byte>>, pool: Pool): Fed
    decreases |chunks|
  {
    if chunks == [] then Fed([], retained)
    else
      var data := retained + chunks[0];
      match Parse(data, pool)
      case Broken(_) => Cut
      case Parsed(ps, used) => Then(ps, Feed(data[used..], chunks[1..], pool))
  }

  // ---- Resuming -------------------------------------------------------------------

  lemma {:induction false} SameFirstFrame(s: seq<byte>, t: seq<byte>)
    requires |s| >= HEADER && LengthField(s) <= |s|
    ensures LengthField(s + t) == LengthField(s)
    ensures PacketOf(s + t, LengthField(s)) == PacketOf(s, LengthField(s))
    ensures (s + t)[LengthField(s)..] == s[LengthField(s)..] + t
  {
  }

  // `whole` is `first` followed by `more`.
  predicate Continues(whole: Decoded, first: Decoded, more: Decoded) {
    whole.packets == first.packets + more.packets && whole.tail == more.tail
  }

  lemma {:induction false} DecodeStops(s: seq<byte>)
    requires Stuck(s) || LengthField(s) == 0
    ensures Decode(s) == Decoded([], s)
  {
  }

  lemma {:induction false} DecodeTakes(s: seq<byte>)
    requires !Stuck(s) && LengthField(s) != 0
    ensures var n := LengthField(s); Continues(Decode(s), Decoded([PacketOf(s, n)], []), Decode(s[n..]))
  {
  }

  lemma {:induction false} ContinuesStep(p: Packet, whole: Decoded, whole': Decoded, first: Decoded, first': Decoded, more: Decoded)
    requires Continues(whole, Decoded([p], []), whole')
    requires Continues(first, Decoded([p], []), first')
    requires Continues(whole', first', more)
    ensures Continues(whole, first, more) && first.tail == first'.tail
  {
    assert [p] + (first'.packets + more.packets) == [p] + first'.packets + more.packets;
  }

  // Decoding any stream can stop after `s` and resume with what `t` adds.
  lemma {:induction false} DecodeResumes(s: seq<byte>, t: seq<byte>)
    ensures Continues(Decode(s + t), Decode(s), Decode(Decode(s).tail + t))
    decreases |s|
  {
    hide Decode, Continues, PacketOf;
    if Stuck(s) || LengthField(s) == 0 {
      DecodeStops(s);
      ContinuesNothing(s, Decode(s + t));
    } else {
      var n := LengthField(s);
      SameFirstFrame(s, t);
      DecodeResumes(s[n..], t);
      DecodeTakes(s);
      DecodeTakes(s + t);
      TailOf(Decode(s), Decoded([PacketOf(s, n)], []), Decode(s[n..]));
      ContinuesStep(PacketOf(s, n), Decode(s + t), Decode(s[n..] + t), Decode(s), Decode(s[n..]),
        Decode(Decode(s).tail + t));
    }
  }

  lemma {:induction false} TailOf(whole: Decoded, first: Decoded, more: Decoded)
    requires Continues(whole, first, more)
    ensures whole.tail == more.tail
  {
  }

  lemma {:induction false} ContinuesNothing(s: seq<byte>, more: Decoded)
    ensures Continues(more, Decoded([], s), more)
  {
    assert [] + more.packets == more.packets;
  }

  lemma {:induction false} WellFormedResumes(s: seq<byte>, t: seq<byte>, limit: nat)
    requires WellFormed(s + t, limit)
    ensures WellFormed(s, limit) && WellFormed(Decode(s).tail + t, limit)
    decreases |s|
  {
    if |s| >= HEADER {
      assert LengthField(s + t) == LengthField(s);
    }
    if !Stuck(s) {
      var n := LengthField(s);
      SameFirstFrame(s, t);
      WellFormedResumes(s[n..], t, limit);
    }
  }

  // ---- One call -------------------------------------------------------------------

  lemma {:induction false} DecodeLeaves(s: seq<byte>, limit: nat)
    requires WellFormed(s, limit)
    ensures Stuck(Decode(s).tail)
    decreases |s|
  {
    if !Stuck(s) {
      DecodeLeaves(s[LengthField(s)..], limit);
    }
  }

  // With enough packets of every size the loop is the decoder.
  lemma {:induction false} DrainDecodes(s: seq<byte>, pool: Pool)
    requires WellFormed(s, pool.largest) && |s| <= pool.left
    ensures Drain(s, pool).Parsed?
    ensures Drain(s, pool).packets == Decode(s).packets
    ensures s[Drain(s, pool).used..] == Decode(s).tail
    decreases |s|
  {
    if !Stuck(s) {
      var n := LengthField(s);
      DrainDecodes(s[n..], pool.Less());
      var used := Drain(s[n..], pool.Less()).used;
      assert s[n..][used..] == s[n + used..];
    }
  }

  const LONE_EMPTY: seq<byte> := [2, 0]

  lemma {:induction false} LoneEmptyDecodes()
    ensures Decode(LONE_EMPTY) == Decoded([Packet([], false)], [])
  {
    assert LONE_EMPTY[2..] == [] && LONE_EMPTY[2..2] == [];
    assert Decode([]) == Decoded([], []);
  }

  // The packets queued and the bytes retained are those of the decoder, except
  // that a final empty frame may still be waiting for the bytes after it.
  ghost predicate Agrees(f: Fed, d: Decoded) {
    && f.Fed?
    && if f.retained == LONE_EMPTY then f.packets + [Packet([], false)] == d.packets && d.tail == []
       else f.packets == d.packets && f.retained == d.tail
  }

  lemma {:induction false} Narrow(s: seq<byte>, limit: nat, wide: nat)
    requires WellFormed(s, limit) && limit <= wide
    ensures WellFormed(s, wide)
    decreases |s|
  {
    if !Stuck(s) {
      Narrow(s[LengthField(s)..], limit, wide);
    }
  }

  lemma {:induction false} ParseDecodes(s: seq<byte>, pool: Pool)
    requires WellFormed(s, Limit(pool.largest)) && |s| <= pool.left
    ensures Parse(s, pool).Parsed?
    ensures var p, d, left := Parse(s, pool), Decode(s), s[Parse(s, pool).used..];
      if s == LONE_EMPTY then p.packets == [] && left == s
      else p.packets == d.packets && left == d.tail
  {
    if |s| <= HEADER {
      hide Decode;
      assert s[0..] == s;
      ShortDecodes(s, Limit(pool.largest));
    } else {
      hide Drain, Decode;
      Narrow(s, Limit(pool.largest), pool.largest);
      DrainDecodes(s, pool);
    }
  }

  lemma {:induction false} ShortDecodes(s: seq<byte>, limit: nat)
    requires WellFormed(s, limit) && |s| <= HEADER
    ensures s == LONE_EMPTY || Decode(s) == Decoded([], s)
  {
    if !Stuck(s) {
      assert s == [s[0], s[1]];
    }
  }

  lemma {:induction false} ThenAgrees(ps: seq<Packet>, f: Fed, more: Decoded, whole: Decoded)
    requires Agrees(f, more)
    requires Continues(whole, Decoded(ps, []), more)
    ensures Agrees(Then(ps, f), whole)
  {
  }

  lemma {:induction false} FeedStep(retained: seq<byte>, chunks: seq<seq<byte>>, pool: Pool)
    requires chunks != [] && Parse(retained + chunks[0], pool).Parsed?
    ensures var data := retained + chunks[0]; var p := Parse(data, pool);
      Feed(retained, chunks, pool) == Then(p.packets, Feed(data[p.used..], chunks[1..], pool))
  {
    hide Parse;
  }

  lemma {:induction false} ConcatStep(retained: seq<byte>, chunks: seq<seq<byte>>)
    requires chunks != []
    ensures retained + Concat(chunks) == (retained + chunks[0]) + Concat(chunks[1..])
  {
  }

  // The bytes one call leaves, and what decoding them with the rest means.
  lemma {:induction false} CallResumes(data: seq<byte>, rest: seq<byte>, pool: Pool)
    requires WellFormed(data + rest, Limit(pool.largest)) && |data| <= pool.left
    ensures Parse(data, pool).Parsed?
    ensures var p := Parse(data, pool); var left := data[p.used..];
      && (Stuck(left) || left == LONE_EMPTY)
      && WellFormed(left + rest, Limit(pool.largest))
      && Continues(Decode(data + rest), Decoded(p.packets, []), Decode(left + rest))
  {
    hide Parse, Decode, WellFormed;
    DecodeResumes(data, rest);
    WellFormedResumes(data, rest, Limit(pool.largest));
    DecodeLeaves(data, Limit(pool.largest));
    ParseDecodes(data, pool);
    ContinuesNothing([], Decode(data + rest));
  }

  // ---- Any cutting ----------------------------------------------------------------

  // Chunking independence: however the stream is cut, every call succeeds and
  // the packets queued so far are those of the whole-stream decoder.
  lemma {:induction false} FeedDecodes(retained: seq<byte>, chunks: seq<seq<byte>>, pool: Pool)
    requires WellFormed(retained + Concat(chunks), Limit(pool.largest))
    requires |retained + Concat(chunks)| <= pool.left
    requires Stuck(retained) || retained == LONE_EMPTY
    ensures Agrees(Feed(retained, chunks, pool), Decode(retained + Concat(chunks)))
    decreases |chunks|
  {
    if chunks == [] {
      LoneEmptyDecodes();
      assert retained + Concat(chunks) == retained;
    } else {
      hide *;
      var data, rest := retained + chunks[0], Concat(chunks[1..]);
      ConcatStep(retained, chunks);
      CallResumes(data, rest, pool);
      FeedStep(retained, chunks, pool);
      var p := Parse(data, pool);
      var left := data[p.used..];
      FeedDecodes(left, chunks[1..], pool);
      ThenAgrees(p.packets, Feed(left, chunks[1..], pool), Decode(left + rest), Decode(data + rest));
    }
  }

  // Two cuttings of one well-formed stream never disagree about a packet.
  lemma {:induction false} CuttingsAgree(xs: seq<seq<byte>>, ys: seq<seq<byte>>, pool: Pool)
    requires Concat(xs) == Concat(ys)
    requires WellFormed(Concat(xs), Limit(pool.largest)) && |Concat(xs)| <= pool.left
    ensures var f, g := Feed([], xs, pool), Feed([], ys, pool);
      && f.Fed? && g.Fed?
      && (f.packets <= g.packets || g.packets <= f.packets)
      && ((f.retained == LONE_EMPTY) == (g.retained == LONE_EMPTY) ==> f == g)
  {
    hide Feed, Decode, WellFormed;
    assert [] + Concat(xs) == Concat(xs) && [] + Concat(ys) == Concat(ys);
    FeedDecodes([], xs, pool);
    FeedDecodes([], ys, pool);
    var f, g, d := Feed([], xs, pool), Feed([], ys, pool), Decode(Concat(xs));
    if f.retained == LONE_EMPTY && g.retained != LONE_EMPTY {
      assert g.packets == f.packets + [Packet([], false)];
    } else if f.retained != LONE_EMPTY && g.retained == LONE_EMPTY {
      assert f.packets == g.packets + [Packet([], false)];
    } else if f.retained == LONE_EMPTY {
      assert f.packets == d.packets[..|d.packets| - 1] == g.packets;
    }
  }
}
