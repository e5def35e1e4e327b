/** The reader and the writer of messages, consuming and producing a byte stream in place. */
module FramedReader {
  import opened Text
  import opened Wrappers
  import opened Framing

  class Writer {
    var out: string

    constructor ()
      ensures out == ""
    {
      out := "";
    }

    method WriteMsg(body: string)
      modifies this
      ensures out == old(out) + Framed(body).Encoded()
    {
      out := out + ("Content-Length: " + Decimal(|body|) + "\r\n" + "\r\n" + body);
    }
  }

  class Reader {
    var rest: string

    constructor (stream: string)
      ensures rest == stream
    {
      rest := stream;
    }

    /** Reads up to and including the next newline; without one, nothing is read. */
    method ReadString() returns (line: Option<string>)
      modifies this
      ensures var n := LineLength(old(rest));
              if n == 0 then line.None? && rest == old(rest)
              else line == Some(old(rest)[..n]) && rest == old(rest)[n..]
    {
      var i := 0;
      while i < |rest| && rest[i] != '\n'
        invariant 0 <= i <= |rest| && rest == old(rest)
        invariant LineLength(rest) == if LineLength(rest[i..]) == 0 then 0 else i + LineLength(rest[i..])
      {
        assert rest[i..][1..] == rest[i + 1..];
        i := i + 1;
      }
      if i == |rest| {
        return None;
      }
      line := Some(rest[..i + 1]);
      rest := rest[i + 1..];
    }

    method ReadLSP() returns (r: Read)
      modifies this
      ensures r == ReadHeaders(old(rest), 0)
      ensures r.Message? ==> rest == r.rest
    {
      var contentLen := 0;
      while true
        invariant ReadHeaders(rest, contentLen) == ReadHeaders(old(rest), 0)
        decreases |rest|
      {
        var line := ReadString();
        if line.None? {
          return Failed(EndOfStream);
        }
        var trimmed := TrimBytes(line.value);
        if trimmed == "" {
          break;
        }
        if IsLengthHeader(trimmed) {
          var n := Atoi(TrimBytes(trimmed[15..]));
          if n.None? {
            n := Atoi(TrimBytes(MapRunes(Lower, trimmed)[15..]));
          }
          if n.None? {
            return Failed(BadLength);
          }
          contentLen := n.value;
        }
      }
      if contentLen <= 0 {
        return Failed(MissingLength);
      }
      if contentLen > MAX_BODY {
        return Failed(TooLarge);
      }
      if |rest| < contentLen {
        return Failed(ShortBody);
      }
      var body := rest[..contentLen];
      rest := rest[contentLen..];
      r := Message(body, rest);
    }

    method ReadMsg() returns (r: Read)
      modifies this
      ensures r == ReadMessage(old(rest))
      ensures r.Message? ==> rest == r.rest
    {
      while true
        invariant ReadMessage(rest) == ReadMessage(old(rest))
        decreases |rest|
      {
        if rest == "" {
          return Failed(EndOfStream);
        }
        if !Gap(rest[0]) {
          break;
        }
        rest := rest[1..];
      }
      if IsLengthHeader(rest) {
        r := ReadLSP();
        return;
      }
      var line := ReadString();
      if line.None? {
        line := Some(rest);
        rest := "";
        assert line.value == line.value[..|line.value|];
      }
      r := Message(TrimBytes(line.value), rest);
    }

    /** The reader's loop, up to the failure of the stream. */
    method ReadLoop() returns (bodies: seq<string>, error: Error)
      modifies this
      ensures Reading(bodies, error) == ReadAll(old(rest))
    {
      bodies := [];
      while true
        invariant ReadAll(old(rest)) == Before(bodies, ReadAll(rest))
        decreases |rest|
      {
        var r := ReadMsg();
        if r.Failed? {
          error := r.error;
          return;
        }
        if |r.body| == 0 {
          continue;
        }
        bodies := bodies + [r.body];
      }
    }
  }

  /** Whatever was written is read back. */
  method WriteThenRead(bodies: seq<string>) returns (read: seq<string>, error: Error)
    requires InRange(bodies)
    ensures read == bodies && error == EndOfStream
  {
    var w := new Writer();
    for i := 0 to |bodies|
      invariant w.out == EncodeAll(Frames(bodies[..i])) && fresh(w)
    {
      EncodeOneMore(bodies, i);
      w.WriteMsg(bodies[i]);
    }
    assert bodies[..|bodies|] == bodies;
    FramesRoundTripIff(bodies);
    var r := new Reader(w.out);
    read, error := r.ReadLoop();
  }
}
