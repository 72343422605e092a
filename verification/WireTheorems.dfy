/** The messages that two multiplexers exchange, as bytes on the carrier. */
module WireTheorems {
  import opened Wrappers
  import opened Messages
  import opened Codec
  import opened Network
  import opened NetworkTheorems

  lemma FramesAreEncodable(net: Net, side: Side)
    requires Reachable(net)
    ensures AllEncodable(net.From(side))
  {
    forall i | 0 <= i < |net.From(side)| ensures Encodable(net.From(side)[i]) {
      if net.From(side)[i].ForStream? { FramesFitTheWire(net, side, i); }
    }
  }

  /** In every reachable state, what is in flight in one direction has an encoding, and the
      reader goroutine's framing decodes any part of it that has arrived to exactly the
      messages that have arrived in full. */
  lemma CarrierIsDecodable(net: Net, side: Side, k: nat, n: nat)
    requires Reachable(net) && k < |net.From(side)|
    ensures AllEncodable(net.From(side))
    ensures
      var frames := net.From(side);
      n < |EncodeFrame(frames[k])| ==>
        var arrived := EncodeAll(frames[..k]) + EncodeFrame(frames[k])[..n];
        && arrived <= EncodeAll(frames)
        && DecodeAll(arrived) == (frames[..k], EncodeFrame(frames[k])[..n])
  {
    FramesAreEncodable(net, side);
    var frames := net.From(side);
    if n < |EncodeFrame(frames[k])| {
      StreamRoundTrip(frames[..k], frames[k], n);
      Arrives(frames, k, n);
    }
  }

  lemma Arrives(frames: seq<Frame>, k: nat, n: nat)
    requires AllEncodable(frames) && k < |frames| && n < |EncodeFrame(frames[k])|
    ensures EncodeAll(frames[..k]) + EncodeFrame(frames[k])[..n] <= EncodeAll(frames)
  {
    var before, after := frames[..k], frames[k..];
    assert frames == before + after;
    EncodeAllConcat(before, after);
    assert EncodeAll(after) == EncodeFrame(frames[k]) + EncodeAll(after[1..]);
    Prefix(EncodeAll(before), EncodeFrame(frames[k]), EncodeAll(after[1..]), n);
  }

  lemma Prefix(a: seq<Byte>, b: seq<Byte>, c: seq<Byte>, n: nat)
    requires n < |b|
    ensures a + b[..n] <= a + (b + c)
  {
  }
}
