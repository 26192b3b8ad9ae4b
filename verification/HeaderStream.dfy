/** The stream object that reads and writes framed messages. */
module HeaderStreams {
  import opened Bags
  import opened Framing

  class HeaderStream {
    var input: seq<Byte>
    var output: seq<Byte>

    constructor (input: seq<Byte>)
      ensures this.input == input && output == []
    {
      this.input, output := input, [];
    }

    /** The next line including its end, or all that is left if there is none. */
    method ReadString() returns (line: seq<Byte>, found: bool)
      modifies this`input
      ensures var eol := IndexOf(old(input), LF);
              && found == (eol < |old(input)|)
              && line == (if found then old(input)[..eol + 1] else old(input))
              && input == (if found then old(input)[eol + 1..] else [])
    {
      var eol := IndexOf(input, LF);
      if eol == |input| {
        line, found, input := input, false, [];
      } else {
        line, found, input := input[..eol + 1], true, input[eol + 1..];
      }
    }

    /** The header loop: the last length given before the blank line, or an error. */
    method ReadHeaders(parse: seq<Byte> -> Header) returns (length: nat, total: nat, err: Option<Error>)
      modifies this`input
      ensures ReadLoop(parse, old(input), 0, 0) ==
              if err.Some? then Failed(err.value, total, input) else AfterLine(parse, Blank, input, total, length)
    {
      ghost var result := ReadLoop(parse, input, 0, 0);
      total, length := 0, 0;
      while true
        invariant ReadLoop(parse, input, total, length) == result
        decreases |input|
      {
        ghost var before := input;
        var line, found := ReadString();
        if !found {
          return 0, total + |line|, Some(EndOfStream);
        }
        TakeLine(parse, before, total, length, line, input);
        total := total + |line|;
        var h := parse(line);
        match h {
          case Blank => return length, total, None;
          case Bad => return 0, total, Some(InvalidHeader);
          case BadLength => return 0, total, Some(InvalidLength);
          case Length(l) => length := l;
          case Unknown =>
        }
      }
    }

    /** Reads one message; n counts the bytes reported as consumed. */
    method Read(cancelled: bool) returns (data: seq<Byte>, n: nat, err: Option<Error>)
      modifies this`input
      ensures cancelled ==> data == [] && n == 0 && err == Some(Cancelled) && input == old(input)
      ensures !cancelled ==>
                match ReadFrom(old(input))
                case Message(d, c, rest) => data == d && n == c && err == None && input == rest
                case Failed(e, c, rest) => data == [] && n == c && err == Some(e) && input == rest
    {
      if cancelled {
        return [], 0, Some(Cancelled);
      }
      var length, total, bad := ReadHeaders(ParseHeader);
      if bad.Some? {
        return [], total, bad;
      }
      if length == 0 {
        return [], total, Some(MissingLength);
      }
      if |input| < length {
        input := [];
        return [], total, Some(EndOfStream);
      }
      data, input := input[..length], input[length..];
      return data, total + length, None;
    }

    /** Writes one message to a sink that takes only room more bytes: the count
        returned is that of the bytes which reached the stream, and the write
        succeeds iff that is the whole frame. */
    method Write(cancelled: bool, data: seq<Byte>, room: nat) returns (n: nat, ok: bool)
      modifies this`output
      ensures cancelled ==> n == 0 && !ok && output == old(output)
      ensures !cancelled ==>
                && n <= |Frame(data)| && output == old(output) + Frame(data)[..n]
                && (ok <==> n == |Frame(data)|)
                && (ok <==> |Frame(data)| <= room)
    {
      if cancelled {
        return 0, false;
      }
      var head := Head(|data|);
      n := if room < |head| then room else |head|;
      assert head[..n] == Frame(data)[..n];
      output := output + head[..n];
      if n < |head| {
        return n, false;
      }
      var more := if room - n < |data| then room - n else |data|;
      assert Frame(data)[..n] + data[..more] == Frame(data)[..n + more];
      output := output + data[..more];
      n := n + more;
      ok := more == |data|;
    }
  }
}
