/** The connection under every layer: a reliable byte pipe.  Read hands over any
    non-empty part of what is there, so every way of splitting the stream is
    covered; a write that fails may leave any proper part of its argument behind,
    and the connection is dead from then on. */
module Conn {
  import opened Bytes

  // what a Read of something that is filled by another goroutine answers
  datatype ReadResult = Data(chunk: seq<Byte>) | EndOfFile | MustWait

  class ByteConn {
    var input: seq<Byte>     // bytes that will still arrive before end of file
    var output: seq<Byte>    // every byte written
    var dead: bool

    constructor (input: seq<Byte>)
      ensures this.input == input && output == [] && !dead
    {
      this.input := input;
      output, dead := [], false;
    }

    method Read(room: nat) returns (chunk: seq<Byte>)
      modifies this`input
      ensures chunk + input == old(input)
      ensures |chunk| <= room
      ensures chunk == [] <==> room == 0 || old(input) == []
    {
      if room == 0 || input == [] {
        chunk := [];
      } else {
        var n: nat :| 0 < n <= room && n <= |input|;
        chunk, input := input[..n], input[n..];
      }
    }

    // io.ReadFull: short reads are repeated until n bytes are there or the pipe ends
    method ReadFull(n: nat) returns (ok: bool, b: seq<Byte>)
      modifies this`input
      ensures ok <==> n <= |old(input)|
      ensures ok ==> |b| == n && b + input == old(input)
      ensures !ok ==> input == []
    {
      b := [];
      while |b| < n
        invariant b + input == old(input) && |b| <= n
        decreases n - |b|
      {
        var chunk := Read(n - |b|);
        if chunk == [] {
          return false, b;
        }
        b := b + chunk;
      }
      ok := true;
    }

    method Write(p: seq<Byte>) returns (ok: bool)
      modifies this`output, this`dead
      ensures old(dead) ==> !ok && output == old(output)
      ensures ok ==> output == old(output) + p && !dead
      ensures !ok ==> dead && old(output) <= output <= old(output) + p
      ensures !ok && p != [] ==> output != old(output) + p
    {
      if dead {
        return false;
      }
      ok := *;
      if ok {
        output := output + p;
      } else {
        var n: nat :| n < |p| || n == |p| == 0;
        output, dead := output + p[..n], true;
      }
    }
  }
}
