// Frames of any length, cut in any way. Only the first length of a call is held
// against the maximum, so a frame above it passes behind another one; a frame
// above the largest packet class never does. What becomes of every stream of
// frames, for every cutting.
module Oversized {
  import opened Framing
  import opened Chunking
  import opened Streams

  // One OnRecv call: the bytes it parses and how many are still to come.
  datatype Call = Call(data: seq<byte>, more: nat)

  // The calls over a cutting, up to the one that breaks the connection.
  function Calls(retained: seq<byte>, chunks: seq<seq<byte>>, pool: Pool): seq<Call>
    decreases |chunks|
  {
    if chunks == [] then []
    else
      var data := retained + chunks[0];
      var call := Call(data, |Concat(chunks[1..])|);
      match Parse(data, pool)
      case Broken(_) => [call]
      case Parsed(_, used) => [call] + Calls(data[used..], chunks[1..], pool)
  }

  // Some call holds the whole of a frame of `len` bytes with `after` bytes behind
  // it, and at least one other byte in front.
  predicate Behind(calls: seq<Call>, len: nat, after: nat) {
    exists i :: 0 <= i < |calls| && calls[i].more <= after && calls[i].more + |calls[i].data| > len + after
  }

  // Such a frame is received.
  predicate Passes(calls: seq<Call>, len: nat, after: nat, largest: nat) {
    len <= Limit(largest) || (len <= largest && Behind(calls, len, after))
  }

  predicate PassesAt(calls: seq<Call>, ps: seq<Payload>, i: nat, largest: nat)
    requires i < |ps|
  {
    Passes(calls, |ps[i]| + HEADER, |EncodeAll(ps[i + 1..])|, largest)
  }

  ghost predicate AllPass(calls: seq<Call>, ps: seq<Payload>, largest: nat) {
    forall i :: 0 <= i < |ps| ==> PassesAt(calls, ps, i, largest)
  }

  // ---- Lengths ----------------------------------------------------------------------

  // What is behind a frame gets shorter, frame by frame.
  lemma {:induction false} SuffixShorter(ps: seq<Payload>, i: nat, j: nat)
    requires i <= j <= |ps|
    ensures |EncodeAll(ps[i..])| >= |EncodeAll(ps[j..])| + HEADER * (j - i)
    decreases j - i
  {
    if i < j {
      EncodeAllCons(ps[i..]);
      assert ps[i..][1..] == ps[i + 1..];
      SuffixShorter(ps, i + 1, j);
    }
  }

  lemma {:induction false} SuffixIs(ps: seq<Payload>, i: nat)
    requires i < |ps|
    ensures |EncodeAll(ps[i..])| == |ps[i]| + HEADER + |EncodeAll(ps[i + 1..])|
  {
    EncodeAllCons(ps[i..]);
    assert ps[i..][1..] == ps[i + 1..];
  }

  // ---- The loop ---------------------------------------------------------------------

  // Every frame the loop takes has a class.
  lemma {:induction false} DrainFits(s: seq<byte>, ps: seq<Payload>, pool: Pool)
    requires s <= EncodeAll(ps)
    ensures |Drain(s, pool).packets| <= |ps|
    ensures forall i | 0 <= i < |Drain(s, pool).packets| :: |ps[i]| + HEADER <= pool.largest
    decreases |ps|
  {
    hide Drain, EncodeAll, Encode;
    if Stuck(s) {
      DrainStops(s, pool);
    } else if !pool.Gives(LengthField(s)) {
      DrainStarved(s, pool);
    } else {
      FirstEncoded(s, ps);
      DrainTakes(s, pool);
      DrainFits(s[LengthField(s)..], ps[1..], pool.Less());
      assert forall i | 0 < i < |Drain(s, pool).packets| :: ps[i] == ps[1..][i - 1];
    }
  }

  // With packets for every byte, it breaks only at a frame that has none.
  lemma {:induction false} DrainBreaks(s: seq<byte>, ps: seq<Payload>, pool: Pool) returns (i: nat)
    requires s <= EncodeAll(ps) && |s| <= pool.left && Drain(s, pool).Broken?
    ensures i < |ps| && |ps[i]| + HEADER > pool.largest
    decreases |ps|
  {
    hide Drain, EncodeAll, Encode;
    if Stuck(s) {
      DrainStops(s, pool);
    } else {
      FirstEncoded(s, ps);
      if pool.Gives(LengthField(s)) {
        DrainTakes(s, pool);
        var j := DrainBreaks(s[LengthField(s)..], ps[1..], pool.Less());
        return j + 1;
      }
    }
    return 0;
  }

  // ---- One call -------------------------------------------------------------------

  lemma {:induction false} FirstLength(s: seq<byte>, ps: seq<Payload>)
    requires s <= EncodeAll(ps) && |s| >= HEADER
    ensures ps != [] && LengthField(s) == |ps[0]| + HEADER
  {
    var whole := EncodeAll(ps);
    EncodeHeader(ps[0], EncodeAll(ps[1..]));
    assert LengthField(s) == LengthField(whole);
  }

  // A call breaks only at a frame that no call before it or this one lets pass.
  lemma {:induction false} BrokenCall(data: seq<byte>, rest: seq<byte>, ps: seq<Payload>, pool: Pool)
    requires data + rest == EncodeAll(ps) && |data| <= pool.left && Parse(data, pool).Broken?
    ensures !AllPass([Call(data, |rest|)], ps, pool.largest)
  {
    hide Drain, EncodeAll, Encode;
    var c := Call(data, |rest|);
    assert data <= data + rest;
    FirstLength(data, ps);
    if |ps[0]| + HEADER > MAX_PACKET_LEN {
      SuffixIs(ps, 0);
      assert ps[0..] == ps;
      assert !PassesAt([c], ps, 0, pool.largest);
    } else {
      var i := DrainBreaks(data, ps, pool);
      assert !PassesAt([c], ps, i, pool.largest);
    }
  }

  // The frames a call takes all pass by this call.
  lemma {:induction false} TakenPass(data: seq<byte>, rest: seq<byte>, ps: seq<Payload>, k: nat, pool: Pool, i: nat)
    requires data + rest == EncodeAll(ps) && Parse(data, pool).Parsed? && k == |Parse(data, pool).packets|
    requires i < k <= |ps| && |rest| <= |EncodeAll(ps[k..])|
    ensures PassesAt([Call(data, |rest|)], ps, i, pool.largest)
  {
    hide Drain, EncodeAll, Encode;
    assert data <= data + rest;
    DrainFits(data, ps, pool);
    FirstLength(data, ps);
    if i > 0 {
      SuffixShorter(ps, i + 1, k);
      SuffixShorter(ps, 0, i);
      SuffixIs(ps, i);
      assert ps[0..] == ps;
      var calls := [Call(data, |rest|)];
      assert calls[0].more <= |EncodeAll(ps[i + 1..])| && calls[0].more + |calls[0].data| > |EncodeAll(ps[i..])|;
    }
  }

  // The others do not, unless they always pass.
  lemma {:induction false} OthersWait(left: seq<byte>, rest: seq<byte>, data: seq<byte>, ps: seq<Payload>, i: nat, largest: nat)
    requires left + rest == EncodeAll(ps) && Waiting(left) && HEADER <= Limit(largest) && i < |ps|
    ensures var after := |EncodeAll(ps[i + 1..])|;
      |ps[i]| + HEADER <= Limit(largest) || !Behind([Call(data, |rest|)], |ps[i]| + HEADER, after)
  {
    hide EncodeAll, Encode;
    SuffixIs(ps, 0);
    assert ps[0..] == ps && left <= left + rest;
    if |left| >= HEADER {
      FirstLength(left, ps);
    }
    if i > 0 {
      SuffixShorter(ps, 1, i + 1);
    }
  }

  lemma {:induction false} BehindCons(c: Call, calls: seq<Call>, len: nat, after: nat)
    ensures Behind([c] + calls, len, after) <==> Behind([c], len, after) || Behind(calls, len, after)
  {
    var all, one := [c] + calls, [c];
    assert all[0] == one[0] == c;
    if Behind(calls, len, after) {
      var i :| 0 <= i < |calls| && calls[i].more <= after && calls[i].more + |calls[i].data| > len + after;
      assert all[i + 1] == calls[i];
    }
    if Behind(all, len, after) {
      var i :| 0 <= i < |all| && all[i].more <= after && all[i].more + |all[i].data| > len + after;
      assert i > 0 ==> all[i] == calls[i - 1];
    }
  }

  // What a call that goes through settles: the frames it takes pass, and the
  // others pass exactly when the later calls let them.
  lemma {:induction false} CallSettles(data: seq<byte>, rest: seq<byte>, left: seq<byte>, ps: seq<Payload>, k: nat,
                                       later: seq<Call>, pool: Pool)
    requires data + rest == EncodeAll(ps) && Parse(data, pool).Parsed? && k == |Parse(data, pool).packets|
    requires k <= |ps| && left + rest == EncodeAll(ps[k..]) && Waiting(left) && HEADER <= Limit(pool.largest)
    ensures AllPass([Call(data, |rest|)] + later, ps, pool.largest) <==> AllPass(later, ps[k..], pool.largest)
  {
    hide Parse, EncodeAll, Behind, Waiting;
    var c := Call(data, |rest|);
    var calls := [c] + later;
    assert |rest| <= |left + rest|;
    forall i | 0 <= i < |ps|
      ensures PassesAt(calls, ps, i, pool.largest) <==> i < k || PassesAt(later, ps[k..], i - k, pool.largest)
    {
      BehindCons(c, later, |ps[i]| + HEADER, |EncodeAll(ps[i + 1..])|);
      if i < k {
        TakenPass(data, rest, ps, k, pool, i);
      } else {
        assert ps[k..][i - k] == ps[i] && ps[k..][i - k + 1..] == ps[i + 1..];
        OthersWait(left, rest, data, ps[k..], i - k, pool.largest);
      }
    }
    PassesShifted(calls, later, ps, k, pool.largest);
  }

  lemma {:induction false} PassesShifted(calls: seq<Call>, later: seq<Call>, ps: seq<Payload>, k: nat, largest: nat)
    requires k <= |ps|
    requires forall i | 0 <= i < |ps| :: PassesAt(calls, ps, i, largest) <==> i < k || PassesAt(later, ps[k..], i - k, largest)
    ensures AllPass(calls, ps, largest) <==> AllPass(later, ps[k..], largest)
  {
    hide PassesAt;
    if AllPass(calls, ps, largest) {
      forall j | 0 <= j < |ps[k..]|
        ensures PassesAt(later, ps[k..], j, largest)
      {
        assert PassesAt(calls, ps, j + k, largest);
      }
    }
  }

  // ---- Every cutting ---------------------------------------------------------------

  lemma {:induction false} FeedBreaks(retained: seq<byte>, chunks: seq<seq<byte>>, pool: Pool)
    requires chunks != [] && Parse(retained + chunks[0], pool).Broken?
    ensures Feed(retained, chunks, pool) == Cut
    ensures Calls(retained, chunks, pool) == [Call(retained + chunks[0], |Concat(chunks[1..])|)]
  {
    hide Parse;
  }

  lemma {:induction false} CallsStep(retained: seq<byte>, chunks: seq<seq<byte>>, pool: Pool)
    requires chunks != [] && Parse(retained + chunks[0], pool).Parsed?
    ensures var data := retained + chunks[0];
      Calls(retained, chunks, pool)
      == [Call(data, |Concat(chunks[1..])|)] + Calls(data[Parse(data, pool).used..], chunks[1..], pool)
  {
    hide Parse;
  }

  // The stated outcome: the packets of the stream, a final empty one perhaps
  // still waiting, or a broken connection.
  ghost predicate Fate(f: Fed, calls: seq<Call>, ps: seq<Payload>, largest: nat) {
    if AllPass(calls, ps, largest) then Agrees(f, Decoded(Clean(ps), [])) else f == Cut
  }

  lemma {:induction false} NothingLeft(retained: seq<byte>, ps: seq<Payload>, largest: nat)
    requires retained == EncodeAll(ps) && Waiting(retained) && HEADER <= Limit(largest)
    ensures Fate(Fed([], retained), [], ps, largest)
  {
    LastOnes(retained, ps);
    if ps != [] {
      assert Clean([[]]) == [Packet([], false)];
      assert PassesAt([], ps, 0, largest);
    }
  }

  lemma {:induction false} LaterCall(f: Fed, packets: seq<Packet>, calls: seq<Call>, later: seq<Call>,
                                     ps: seq<Payload>, largest: nat)
    requires |packets| <= |ps| && packets == Clean(ps[..|packets|])
    requires Fate(f, later, ps[|packets|..], largest)
    requires AllPass(calls, ps, largest) <==> AllPass(later, ps[|packets|..], largest)
    ensures Fate(Then(packets, f), calls, ps, largest)
  {
    hide AllPass, Clean;
    var k := |packets|;
    CleanConcat(ps[..k], ps[k..]);
    assert ps[..k] + ps[k..] == ps;
    if f.Fed? {
      ThenAgrees(packets, f, Decoded(Clean(ps[k..]), []), Decoded(Clean(ps), []));
    }
  }

  // What one call takes and leaves.
  lemma {:induction false} CallLeaves(data: seq<byte>, rest: seq<byte>, ps: seq<Payload>, pool: Pool)
    requires data + rest == EncodeAll(ps) && Parse(data, pool).Parsed?
    ensures var r := Parse(data, pool); var k := |r.packets|;
      && k <= |ps| && r.packets == Clean(ps[..k])
      && data[r.used..] + rest == EncodeAll(ps[k..]) && Waiting(data[r.used..])
  {
    hide EncodeAll, Parse, Clean, Waiting;
    assert data <= data + rest;
    ParseEncoded(data, ps, pool);
    var r := Parse(data, pool);
    assert data[r.used..] + rest == (data + rest)[r.used..];
  }

  lemma {:induction false} FateFrom(retained: seq<byte>, chunks: seq<seq<byte>>, ps: seq<Payload>, pool: Pool)
    requires retained + Concat(chunks) == EncodeAll(ps) && Waiting(retained)
    requires HEADER <= Limit(pool.largest) && |EncodeAll(ps)| <= pool.left
    ensures Fate(Feed(retained, chunks, pool), Calls(retained, chunks, pool), ps, pool.largest)
    decreases |chunks|
  {
    hide *;
    if chunks == [] {
      EmptyCutting(retained, pool);
      NothingLeft(retained, ps, pool.largest);
    } else {
      var data, rest := retained + chunks[0], Concat(chunks[1..]);
      ConcatStep(retained, chunks);
      assert |data| <= |data + rest|;
      var r := Parse(data, pool);
      if r.Broken? {
        FeedBreaks(retained, chunks, pool);
        BrokenCall(data, rest, ps, pool);
        BrokenFate([Call(data, |rest|)], ps, pool.largest);
      } else {
        var left, k := data[r.used..], |r.packets|;
        CallLeaves(data, rest, ps, pool);
        SuffixShorter(ps, 0, k);
        assert ps[0..] == ps;
        FateFrom(left, chunks[1..], ps[k..], pool);
        FeedStep(retained, chunks, pool);
        CallsStep(retained, chunks, pool);
        CallSettles(data, rest, left, ps, k, Calls(left, chunks[1..], pool), pool);
        LaterCall(Feed(left, chunks[1..], pool), r.packets, Calls(retained, chunks, pool),
          Calls(left, chunks[1..], pool), ps, pool.largest);
      }
    }
  }

  lemma {:induction false} EmptyCutting(retained: seq<byte>, pool: Pool)
    ensures Feed(retained, [], pool) == Fed([], retained) && Calls(retained, [], pool) == []
    ensures retained + Concat([]) == retained
  {
  }

  lemma {:induction false} BrokenFate(calls: seq<Call>, ps: seq<Payload>, largest: nat)
    requires !AllPass(calls, ps, largest)
    ensures Fate(Cut, calls, ps, largest)
  {
  }

  // The fate of every stream of frames, of whatever lengths, and for every
  // cutting: all of it is received exactly when every frame beyond the limit
  // fits the largest packet class and some call finds the whole of it behind at
  // least one other byte. Otherwise the connection is broken.
  lemma {:induction false} StreamFate(chunks: seq<seq<byte>>, ps: seq<Payload>, pool: Pool)
    requires Concat(chunks) == EncodeAll(ps)
    requires HEADER <= Limit(pool.largest) && |EncodeAll(ps)| <= pool.left
    ensures if AllPass(Calls([], chunks, pool), ps, pool.largest)
      then Agrees(Feed([], chunks, pool), Decoded(Clean(ps), []))
      else Feed([], chunks, pool) == Cut
  {
    assert [] + Concat(chunks) == Concat(chunks);
    FateFrom([], chunks, ps, pool);
  }

  // ---- One long frame at the end --------------------------------------------------------

  lemma {:induction false} EncodeLast(ps: seq<Payload>, q: Payload)
    ensures EncodeAll(ps + [q]) == EncodeAll(ps) + Encode(q)
  {
    EncodeAllConcat(ps, [q]);
    assert EncodeAll([]) == [] && [q][1..] == [];
    assert Encode(q) + [] == Encode(q);
  }

  lemma {:induction false} OnlyLast(calls: seq<Call>, ps: seq<Payload>, q: Payload, largest: nat)
    requires Within(ps, Limit(largest))
    ensures AllPass(calls, ps + [q], largest) <==> Passes(calls, |q| + HEADER, 0, largest)
  {
    hide Behind;
    var all := ps + [q];
    assert all[|ps| + 1..] == [] && EncodeAll([]) == [];
    if Passes(calls, |q| + HEADER, 0, largest) {
      forall i | 0 <= i < |all|
        ensures PassesAt(calls, all, i, largest)
      {
        if i < |ps| {
          assert all[i] == ps[i];
        }
      }
    } else {
      assert !PassesAt(calls, all, |ps|, largest);
    }
  }

  // A frame beyond the limit at the end of others that are not: it passes exactly
  // when it fits the largest packet class and some call finds the whole of it
  // behind at least one other byte.
  lemma {:induction false} OversizedFate(chunks: seq<seq<byte>>, ps: seq<Payload>, q: Payload, pool: Pool)
    requires Concat(chunks) == EncodeAll(ps) + Encode(q)
    requires Within(ps, Limit(pool.largest)) && HEADER <= Limit(pool.largest) < |q| + HEADER
    requires |Concat(chunks)| <= pool.left
    ensures Feed([], chunks, pool) ==
      if |q| + HEADER <= pool.largest && Behind(Calls([], chunks, pool), |q| + HEADER, 0)
      then Fed(Clean(ps) + [Packet(q, false)], []) else Cut
  {
    hide Feed, Calls, Concat, EncodeAll, Encode, Behind, Clean;
    EncodeLast(ps, q);
    StreamFate(chunks, ps + [q], pool);
    OnlyLast(Calls([], chunks, pool), ps, q, pool.largest);
    CleanConcat(ps, [q]);
    CleanOne(q);
    var f := Feed([], chunks, pool);
    if f.Fed? && f.retained == LONE_EMPTY {
      SameLast(f.packets, Packet([], false), Clean(ps), Packet(q, false));
    }
  }

  lemma {:induction false} SameLast(xs: seq<Packet>, a: Packet, ys: seq<Packet>, b: Packet)
    requires xs + [a] == ys + [b]
    ensures a == b
  {
    assert (xs + [a])[|xs|] == a && (ys + [b])[|ys|] == b;
  }

  lemma {:induction false} CleanOne(q: Payload)
    ensures Clean([q]) == [Packet(q, false)]
  {
  }

  // ---- Which streams the cutting decides ---------------------------------------------

  // No call sees bytes in front of the stream.
  lemma {:induction false} CallsBounded(retained: seq<byte>, chunks: seq<seq<byte>>, pool: Pool)
    ensures forall i | 0 <= i < |Calls(retained, chunks, pool)| ::
      var c := Calls(retained, chunks, pool)[i]; c.more + |c.data| <= |retained + Concat(chunks)|
    decreases |chunks|
  {
    hide Parse;
    if chunks != [] {
      ConcatStep(retained, chunks);
      var data := retained + chunks[0];
      var r := Parse(data, pool);
      if r.Parsed? {
        CallsBounded(data[r.used..], chunks[1..], pool);
      }
    }
  }

  lemma {:induction false} ConcatTwo(a: seq<byte>, b: seq<byte>)
    ensures Concat([a]) == a && Concat([a, b]) == a + b
  {
    assert [a][1..] == [] && [a, b][1..] == [b] && [b][1..] == [];
    assert Concat([b]) == b + [] == b;
  }

  lemma {:induction false} NotBehind(calls: seq<Call>, len: nat, after: nat)
    requires forall i | 0 <= i < |calls| :: calls[i].more + |calls[i].data| <= len + after
    ensures !Behind(calls, len, after)
  {
  }

  // The first frame of a stream is never behind another byte.
  lemma {:induction false} FirstMustFit(chunks: seq<seq<byte>>, ps: seq<Payload>, pool: Pool)
    requires Concat(chunks) == EncodeAll(ps) && ps != []
    requires AllPass(Calls([], chunks, pool), ps, pool.largest)
    ensures Within(ps, pool.largest) && |ps[0]| + HEADER <= Limit(pool.largest)
  {
    hide Calls, Concat, EncodeAll, Behind;
    var calls := Calls([], chunks, pool);
    CallsBounded([], chunks, pool);
    assert [] + Concat(chunks) == Concat(chunks) && ps[0..] == ps;
    SuffixIs(ps, 0);
    NotBehind(calls, |ps[0]| + HEADER, |EncodeAll(ps[1..])|);
    assert PassesAt(calls, ps, 0, pool.largest);
    forall i | 0 <= i < |ps|
      ensures |ps[i]| + HEADER <= pool.largest
    {
      assert PassesAt(calls, ps, i, pool.largest);
    }
  }

  // Everything in one call.
  lemma {:induction false} UncutPasses(ps: seq<Payload>, pool: Pool)
    requires ps == [] || (Within(ps, pool.largest) && |ps[0]| + HEADER <= Limit(pool.largest))
    requires HEADER <= Limit(pool.largest) && |EncodeAll(ps)| <= pool.left
    ensures Concat([EncodeAll(ps)]) == EncodeAll(ps) && Feed([], [EncodeAll(ps)], pool) != Cut
  {
    hide Parse, EncodeAll, Feed;
    var s := EncodeAll(ps);
    var calls := Calls([], [s], pool);
    ConcatTwo(s, []);
    assert [] + s == s && [s][1..] == [];
    assert calls != [] && calls[0] == Call(s, 0);
    forall i | 0 <= i < |ps|
      ensures PassesAt(calls, ps, i, pool.largest)
    {
      if i > 0 {
        SuffixShorter(ps, 0, i);
        SuffixIs(ps, i);
        assert ps[0..] == ps;
      }
    }
    StreamFate([s], ps, pool);
  }

  // The stream cut behind the first byte of its frame number `i`.
  function CutInside(ps: seq<Payload>, i: nat): seq<seq<byte>>
    requires i < |ps|
  {
    [EncodeAll(ps[..i]) + Encode(ps[i])[..1], Encode(ps[i])[1..] + EncodeAll(ps[i + 1..])]
  }

  lemma {:induction false} CutInsideIs(ps: seq<Payload>, i: nat)
    requires i < |ps|
    ensures var c := CutInside(ps, i);
      && |c| == 2 && Concat(c) == c[0] + c[1] == EncodeAll(ps)
      && |c[1]| == |EncodeAll(ps[i..])| - 1
      && Concat(c[1..]) == c[1]
  {
    hide EncodeAll, Encode, Concat;
    var a, q, b := EncodeAll(ps[..i]), Encode(ps[i]), EncodeAll(ps[i + 1..]);
    assert ps == ps[..i] + ps[i..] && ps[i..][1..] == ps[i + 1..];
    EncodeAllConcat(ps[..i], ps[i..]);
    EncodeAllCons(ps[i..]);
    assert q == q[..1] + q[1..];
    Associates(q[..1], q[1..], b);
    Associates(a, q[..1], q[1..] + b);
    ConcatTwo(a + q[..1], q[1..] + b);
    ConcatTwo(q[1..] + b, []);
  }

  // What waits after the first of the two calls is one byte of frame number `i`.
  lemma {:induction false} WaitsAt(left: seq<byte>, rest: seq<byte>, ps: seq<Payload>, k: nat, i: nat)
    requires k <= |ps| && i < |ps|
    requires left + rest == EncodeAll(ps[k..]) && Waiting(left) && |rest| == |EncodeAll(ps[i..])| - 1
    ensures |left + rest| <= |EncodeAll(ps[i..])|
  {
    hide EncodeAll;
    if k < i {
      SuffixIs(ps, k);
      SuffixShorter(ps, k + 1, i);
      assert left <= left + rest;
      FirstLength(left, ps[k..]);
    } else {
      SuffixShorter(ps, i, k);
    }
  }

  lemma {:induction false} CutInsideBreaks(ps: seq<Payload>, i: nat, pool: Pool)
    requires i < |ps| && |ps[i]| + HEADER > Limit(pool.largest)
    requires HEADER <= Limit(pool.largest) && |EncodeAll(ps)| <= pool.left
    ensures Concat(CutInside(ps, i)) == EncodeAll(ps) && Feed([], CutInside(ps, i), pool) == Cut
  {
    var chunks := CutInside(ps, i);
    CutInsideIs(ps, i);
    var data, rest := chunks[0], chunks[1];
    assert [] + data == data && chunks[1..] == [rest];
    hide Parse, Calls, Waiting, Concat, Feed, EncodeAll, Behind, CutInside;
    SuffixIs(ps, i);
    var len, after := |ps[i]| + HEADER, |EncodeAll(ps[i + 1..])|;
    StreamFate(chunks, ps, pool);
    var r := Parse(data, pool);
    if r.Parsed? {
      var left := data[r.used..];
      CallLeaves(data, rest, ps, pool);
      WaitsAt(left, rest, ps, |r.packets|, i);
      CallsStep([], chunks, pool);
      var later := Calls(left, [rest], pool);
      CallsBounded(left, [rest], pool);
      ConcatTwo(rest, []);
      NotBehind(later, len, after);
      BehindCons(Call(data, |rest|), later, len, after);
      TooMuchLeft(Call(data, |rest|), len, after);
      assert !PassesAt(Calls([], chunks, pool), ps, i, pool.largest);
    } else {
      FeedBreaks([], chunks, pool);
    }
  }

  lemma {:induction false} TooMuchLeft(c: Call, len: nat, after: nat)
    requires c.more > after
    ensures !Behind([c], len, after)
  {
  }

  // When the cutting decides: some cutting breaks the connection exactly when
  // some frame is beyond the limit, and some cutting receives everything exactly
  // when every frame fits the largest packet class and the first is within the
  // limit.
  lemma {:induction false} OversizedDependsOnCutting(ps: seq<Payload>, pool: Pool)
    requires HEADER <= Limit(pool.largest) && |EncodeAll(ps)| <= pool.left
    ensures (exists xs :: Concat(xs) == EncodeAll(ps) && Feed([], xs, pool) == Cut)
        <==> !Within(ps, Limit(pool.largest))
    ensures (exists xs :: Concat(xs) == EncodeAll(ps) && Feed([], xs, pool) != Cut)
        <==> ps == [] || (Within(ps, pool.largest) && |ps[0]| + HEADER <= Limit(pool.largest))
  {
    hide Feed, Calls, Concat, Parse, EncodeAll, Behind, CutInside;
    if !Within(ps, Limit(pool.largest)) {
      var i: nat :| i < |ps| && |ps[i]| + HEADER > Limit(pool.largest);
      CutInsideBreaks(ps, i, pool);
    }
    if ps == [] || (Within(ps, pool.largest) && |ps[0]| + HEADER <= Limit(pool.largest)) {
      UncutPasses(ps, pool);
    }
    forall xs | Concat(xs) == EncodeAll(ps)
      ensures Feed([], xs, pool) == Cut ==> !Within(ps, Limit(pool.largest))
      ensures Feed([], xs, pool) != Cut ==>
        ps == [] || (Within(ps, pool.largest) && |ps[0]| + HEADER <= Limit(pool.largest))
    {
      StreamFate(xs, ps, pool);
      if Within(ps, Limit(pool.largest)) {
        forall i | 0 <= i < |ps|
          ensures PassesAt(Calls([], xs, pool), ps, i, pool.largest)
        {
        }
      }
      if Feed([], xs, pool) != Cut && ps != [] {
        FirstMustFit(xs, ps, pool);
      }
    }
  }
}
