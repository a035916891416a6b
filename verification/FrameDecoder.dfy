/** The receiving loop of the broker's socket as the source writes it. */
module FrameDecoder {
  import opened Frames
  import opened Sequences

  class FrameDecoder {
    var buffer: seq<Byte>
    var bodies: seq<seq<Byte>>
    var destroyed: bool

    function Model(): Receiver
      reads this
    {
      Receiver(buffer, bodies, destroyed)
    }

    constructor ()
      ensures Model() == Connected
    {
      buffer, bodies, destroyed := [], [], false;
    }

    method OnData(chunk: seq<Byte>)
      modifies this
      ensures Model() == Feed(old(Model()), chunk)
    {
      if destroyed { return; }
      if |buffer| + |chunk| > FrameMax * 17 {
        destroyed := true;
        return;
      }
      buffer := buffer + chunk;
      ghost var d := Decode(buffer);
      while |buffer| >= 4
        invariant !destroyed && old(bodies) <= bodies
        invariant bodies + Decode(buffer).bodies == old(bodies) + d.bodies
        invariant Decode(buffer).rest == d.rest && Decode(buffer).refused == d.refused
        decreases |buffer|
      {
        var length := Length(buffer);
        if length > FrameMax {
          destroyed := true;
          return;
        }
        if |buffer| < length + 4 { return; }
        assert Whole(buffer);
        ghost var later := Decode(Tail(buffer));
        var body := buffer[4..length + 4];
        buffer := buffer[length + 4..];
        Associates(bodies, [body], later.bodies);
        bodies := bodies + [body];
      }
    }
  }
}
