/** The connection that reads and writes wire v2 frames and messages in place. */
module WireConn {
  import opened Options
  import opened Bytes
  import opened Wire
  import UdpPacket

  /** wire.Conn over a byte stream in each direction, with the binary read-writer on top. */
  class Conn<V(!new)> {
    var input: seq<Byte>     // bytes yet to be read
    var output: seq<Byte>    // bytes written so far

    constructor (input: seq<Byte>)
      ensures this.input == input && output == []
    {
      this.input, output := input, [];
    }

    method ReadFull(n: nat) returns (r: Result<seq<Byte>>)
      modifies this`input
      ensures (r, input) == Wire.ReadFull(old(input), n)
    {
      if |input| >= n {
        r, input := Ok(input[..n]), input[n..];
      } else {
        r, input := Err(if input == [] then EOF else UnexpectedEOF), [];
      }
    }

    method ReadFrame() returns (r: Result<Frame>)
      modifies this`input
      ensures (r, input) == Wire.ReadFrame(old(input))
    {
      var header := this.ReadFull(8);
      if header.Err? { return Err(header.error); }
      var frameType, flags := Uint16(header.value[..2]), Uint16(header.value[2..4]);
      var length := Uint32(header.value[4..8]);
      if flags != 0 { return Err(UnsupportedFlags); }
      if length > MAX_FRAME_PAYLOAD_SIZE { return Err(PayloadTooLong); }
      var payload := ReadFull(length);
      if payload.Err? { return Err(payload.error); }
      r := Ok(Frame(frameType, flags, payload.value));
    }

    /** A refused frame leaves the stream unchanged. */
    method WriteFrame(f: Frame) returns (error: Option<Error>)
      requires f.typ < 65536 && f.flags < 65536
      modifies this`output
      ensures match FrameBytes(f)
              case Ok(b) => error.None? && output == old(output) + b
              case Err(e) => error == Some(e) && output == old(output)
    {
      if f.flags != 0 { return Some(UnsupportedFlags); }
      if |f.payload| > MAX_FRAME_PAYLOAD_SIZE { return Some(PayloadTooLong); }
      var before := output;
      var header := PutUint16(f.typ) + PutUint16(f.flags) + PutUint32(|f.payload|);
      output := output + header;
      output := output + f.payload;
      assert output == before + (header + f.payload);
      error := None;
    }

    /** A refused message leaves the stream unchanged; an accepted one is readable at its end. */
    method WriteMsg(json: Json<V>, m: Message<V>) returns (error: Option<Error>)
      requires Faithful(json)
      modifies this`output
      ensures output == old(output) + WriteAll(json, [m])
      ensures error.None? <==> WriteBytes(json, m).Ok?
      ensures error.None? ==> Wire.ReadMsg(json, output[|old(output)|..]) == (Ok(Received(m)), [])
    {
      hide UdpPacket.Encode, FrameBytes, Faithful, Wire.ReadMsg;
      var w := MessageFrame(json, m);
      assert WriteAll(json, [m]) == match WriteBytes(json, m) case Ok(b) => b case Err(_) => [];
      if w.Err? { return Some(w.error); }
      var before := output;
      error := WriteFrame(w.value);
      if error.None? {
        ReadWrittenMsg(json, m, []);
        var b := WriteBytes(json, m).value;
        assert b + [] == b && output[|before|..] == b;
      }
    }

    method ReadMsg(json: Json<V>) returns (r: Result<Message<V>>)
      modifies this`input
      ensures (r, input) == Wire.ReadMsg(json, old(input))
    {
      hide Wire.ReadFrame;
      var f := ReadFrame();
      if f.Err? { return Err(f.error); }
      r := DecodeMessage(json, f.value);
    }
  }
}
