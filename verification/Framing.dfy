/** Content-Length framing: what the header stream writes and what it reads back. */
module Framing {
  import opened Bags

  newtype Byte = b: int | 0 <= b < 256

  const LF: Byte := 10
  const CR: Byte := 13
  const COLON: Byte := 58
  const SPACE: Byte := 32
  const ZERO: Byte := 48

  /** The largest length that strconv.ParseInt accepts with 32 bits. */
  const MAX_LENGTH := 0x7fff_ffff

  /** "Content-Length" */
  const NAME: seq<Byte> := [67, 111, 110, 116, 101, 110, 116, 45, 76, 101, 110, 103, 116, 104]

  // ---------- decimal numbers ----------

  predicate IsDigit(b: Byte) { ZERO <= b <= 57 }

  function Digit(n: nat): Byte
    requires n < 10
  {
    (48 + n) as Byte
  }

  function DigitValue(b: Byte): nat
    requires IsDigit(b)
  {
    b as int - 48
  }

  function Decimal(n: nat): seq<Byte> {
    if n < 10 then [Digit(n)] else Decimal(n / 10) + [Digit(n % 10)]
  }

  predicate AllDigits(s: seq<Byte>) { forall i :: 0 <= i < |s| ==> IsDigit(s[i]) }

  function DigitsValue(s: seq<Byte>): nat
    requires AllDigits(s)
  {
    if s == [] then 0 else 10 * DigitsValue(s[..|s| - 1]) + DigitValue(s[|s| - 1])
  }

  lemma DigitsSnoc(s: seq<Byte>, b: Byte)
    requires AllDigits(s) && IsDigit(b)
    ensures AllDigits(s + [b]) && DigitsValue(s + [b]) == 10 * DigitsValue(s) + DigitValue(b)
  {
    assert (s + [b])[..|s|] == s;
  }

  lemma {:induction false} DecimalValue(n: nat)
    ensures Decimal(n) != [] && AllDigits(Decimal(n)) && DigitsValue(Decimal(n)) == n
  {
    if n < 10 {
      assert [Digit(n)][..0] == [];
    } else {
      DecimalValue(n / 10);
      DigitsSnoc(Decimal(n / 10), Digit(n % 10));
    }
  }

  /** strconv.ParseInt(s, 10, 32): an optional sign and at least one digit. */
  function ParseInt32(s: seq<Byte>): Option<int> {
    var negative := s != [] && s[0] == 45;
    var digits := if s != [] && (s[0] == 45 || s[0] == 43) then s[1..] else s;
    if digits == [] || !AllDigits(digits) then None
    else
      var n: int := DigitsValue(digits);
      if negative then (if n <= MAX_LENGTH + 1 then Some(-n) else None)
      else (if n <= MAX_LENGTH then Some(n) else None)
  }

  lemma ParseDecimal(n: nat)
    ensures ParseInt32(Decimal(n)) == if n <= MAX_LENGTH then Some(n) else None
  {
    DecimalValue(n);
  }

  /** A number with or without a sign, leading zeros allowed, if it fits in 32 bits. */
  lemma ParseSigned(digits: seq<Byte>)
    requires digits != [] && AllDigits(digits)
    ensures var n := DigitsValue(digits);
            && ParseInt32(digits) == (if n <= 0x7fff_ffff then Some(n) else None)
            && ParseInt32([43] + digits) == (if n <= 0x7fff_ffff then Some(n) else None)
            && ParseInt32([45] + digits) == (if n <= 0x8000_0000 then Some(0 - n) else None)
  {
    assert ([43] + digits)[1..] == digits && ([45] + digits)[1..] == digits;
  }

  /** Anything else is rejected: no digit at all, or something else than digits after the
      place of the sign. */
  lemma ParseRejects(s: seq<Byte>)
    requires
      || s == [] || (s[0] !in {43, 45} && !(48 <= s[0] <= 57)) || (|s| == 1 && !(48 <= s[0] <= 57))
      || exists i :: 0 < i < |s| && !(48 <= s[i] <= 57)
    ensures ParseInt32(s) == None
  {
    if i :| 0 < i < |s| && !(48 <= s[i] <= 57) {
      assert !IsDigit(s[1..][i - 1]) && !IsDigit(s[i]);
    }
  }

  // ---------- lines and headers ----------

  predicate IsSpace(b: Byte) { b == SPACE || 9 <= b <= 13 }

  function TrimLeft(s: seq<Byte>): seq<Byte> {
    if s != [] && IsSpace(s[0]) then TrimLeft(s[1..]) else s
  }

  function TrimRight(s: seq<Byte>): seq<Byte> {
    if s != [] && IsSpace(s[|s| - 1]) then TrimRight(s[..|s| - 1]) else s
  }

  function TrimSpace(s: seq<Byte>): seq<Byte> { TrimRight(TrimLeft(s)) }

  /** The index of the first b in s, or the length of s. */
  function IndexOf(s: seq<Byte>, b: Byte): (i: nat)
    ensures i <= |s|
  {
    if s == [] || s[0] == b then 0 else 1 + IndexOf(s[1..], b)
  }

  /** What a header line asks for. */
  datatype Header = Blank | Bad | Length(n: nat) | BadLength | Unknown

  function ParseHeader(line: seq<Byte>): Header {
    var trimmed := TrimSpace(line);
    if trimmed == [] then Blank
    else
      var colon := IndexOf(trimmed, COLON);
      if colon == |trimmed| then Bad
      else if trimmed[..colon] == NAME then
        match ParseInt32(TrimSpace(trimmed[colon + 1..]))
        case Some(n) => if n > 0 then Length(n) else BadLength
        case None => BadLength
      else Unknown
  }

  datatype Error = EndOfStream | InvalidHeader | InvalidLength | MissingLength | Cancelled

  /** consumed is the byte count reported, rest the input not yet consumed. */
  datatype ReadResult = Message(data: seq<Byte>, consumed: nat, rest: seq<Byte>)
                      | Failed(error: Error, consumed: nat, rest: seq<Byte>)

  /** The header loop and the body of Read, for any way to parse a header line;
      length is the last valid Content-Length seen, 0 for none. */
  function ReadLoop(parse: seq<Byte> -> Header, input: seq<Byte>, total: nat, length: nat): (r: ReadResult)
    ensures r.consumed + |r.rest| <= total + |input|
    ensures r.Message? ==> |r.rest| < |input| && r.consumed + |r.rest| == total + |input|
    decreases |input|, 0
  {
    var eol := IndexOf(input, LF);
    if eol == |input| then Failed(EndOfStream, total + |input|, [])
    else AfterLine(parse, parse(input[..eol + 1]), input[eol + 1..], total + eol + 1, length)
  }

  function AfterLine(parse: seq<Byte> -> Header, h: Header, rest: seq<Byte>, total: nat, length: nat): (r: ReadResult)
    ensures r.consumed + |r.rest| <= total + |rest|
    ensures r.Message? ==> |r.rest| <= |rest| && r.consumed + |r.rest| == total + |rest|
    decreases |rest|, 1
  {
    match h
    case Bad => Failed(InvalidHeader, total, rest)
    case BadLength => Failed(InvalidLength, total, rest)
    case Length(n) => ReadLoop(parse, rest, total, n)
    case Unknown => ReadLoop(parse, rest, total, length)
    case Blank =>
      if length == 0 then Failed(MissingLength, total, rest)
      else if |rest| < length then Failed(EndOfStream, total, [])
      else Message(rest[..length], total + length, rest[length..])
  }

  function ReadFrom(input: seq<Byte>): (r: ReadResult)
    ensures r.consumed + |r.rest| <= |input|
    ensures r.Message? ==> |r.rest| < |input| && r.consumed + |r.rest| == |input|
  {
    ReadLoop(ParseHeader, input, 0, 0)
  }

  /** The header loop takes the next line off the input. */
  lemma TakeLine(parse: seq<Byte> -> Header, input: seq<Byte>, total: nat, length: nat, line: seq<Byte>, rest: seq<Byte>)
    requires var eol := IndexOf(input, LF); eol < |input| && line == input[..eol + 1] && rest == input[eol + 1..]
    ensures ReadLoop(parse, input, total, length) == AfterLine(parse, parse(line), rest, total + |line|, length)
  {
  }

  function LengthHeader(n: nat): seq<Byte> { NAME + [COLON, SPACE] + Decimal(n) + [CR, LF] }

  function Head(n: nat): seq<Byte> { LengthHeader(n) + [CR, LF] }

  /** What Write puts on the stream for one message. */
  function Frame(data: seq<Byte>): seq<Byte> { Head(|data|) + data }

  // ---------- reading back what was written ----------

  lemma {:induction false} TrimRightKeeps(s: seq<Byte>, t: seq<Byte>)
    requires s != [] && !IsSpace(s[|s| - 1]) && forall i :: 0 <= i < |t| ==> IsSpace(t[i])
    ensures TrimRight(s + t) == s
  {
    if t == [] {
      assert s + t == s;
    } else {
      assert (s + t)[..|s + t| - 1] == s + t[..|t| - 1];
      TrimRightKeeps(s, t[..|t| - 1]);
    }
  }

  predicate Free(s: seq<Byte>, b: Byte) { forall i :: 0 <= i < |s| ==> s[i] != b }

  lemma {:induction false} IndexAfter(s: seq<Byte>, b: Byte, t: seq<Byte>)
    requires Free(s, b)
    ensures IndexOf(s + [b] + t, b) == |s|
  {
    var all := s + [b] + t;
    if s == [] {
      assert all[0] == b;
    } else {
      assert all[0] == s[0] && all[1..] == s[1..] + [b] + t;
      IndexAfter(s[1..], b, t);
    }
  }

  lemma {:induction false} IndexNone(s: seq<Byte>, b: Byte)
    requires Free(s, b)
    ensures IndexOf(s, b) == |s|
  {
    if s != [] {
      IndexNone(s[1..], b);
    }
  }

  lemma TrimHeader(n: nat)
    ensures TrimSpace(LengthHeader(n)) == NAME + [COLON, SPACE] + Decimal(n)
  {
    DecimalValue(n);
    var d := Decimal(n);
    var body := NAME + [COLON, SPACE] + d;
    assert body[|body| - 1] == d[|d| - 1];
    assert LengthHeader(n) == body + [CR, LF];
    TrimRightKeeps(body, [CR, LF]);
    assert TrimLeft(body + [CR, LF]) == body + [CR, LF];
  }

  lemma TrimValue(d: seq<Byte>)
    requires d != [] && AllDigits(d)
    ensures TrimSpace([SPACE] + d) == d
  {
    assert ([SPACE] + d)[1..] == d;
    assert TrimLeft([SPACE] + d) == TrimLeft(d) == d;
    TrimRightKeeps(d, []);
    assert d + [] == d;
  }

  /** The header line that Write emits parses to the length, if it is positive
      and fits, and is an invalid length otherwise. */
  lemma LengthLine(n: nat)
    ensures ParseHeader(LengthHeader(n)) ==
            if 0 < n <= MAX_LENGTH then Length(n) else BadLength
  {
    var d := Decimal(n);
    var body := NAME + [COLON, SPACE] + d;
    TrimHeader(n);
    DecimalValue(n);
    assert body == NAME + [COLON] + ([SPACE] + d);
    IndexAfter(NAME, COLON, [SPACE] + d);
    assert body[..|NAME|] == NAME && body[|NAME| + 1..] == [SPACE] + d;
    TrimValue(d);
    ParseDecimal(n);
  }

  lemma BlankLine()
    ensures ParseHeader([CR, LF]) == Blank
  {
    assert [CR, LF][1..] == [LF] && [LF][1..] == [];
    assert TrimLeft([CR, LF]) == TrimLeft([LF]) == TrimLeft([]) == [];
  }

  lemma HeaderEnd(n: nat, rest: seq<Byte>)
    ensures IndexOf(LengthHeader(n) + rest, LF) == |LengthHeader(n)| - 1
  {
    DecimalValue(n);
    var s := NAME + [COLON, SPACE] + Decimal(n) + [CR];
    assert LengthHeader(n) + rest == s + [LF] + rest;
    IndexAfter(s, LF, rest);
  }

  lemma Regroup(a: seq<Byte>, b: seq<Byte>, c: seq<Byte>)
    ensures (a + b) + c == a + (b + c)
  {
  }

  /** One turn of the header loop. */
  lemma ReadLine(parse: seq<Byte> -> Header, input: seq<Byte>, total: nat, length: nat, line: seq<Byte>, rest: seq<Byte>)
    requires line != [] && input == line + rest && IndexOf(input, LF) == |line| - 1
    ensures ReadLoop(parse, input, total, length) == AfterLine(parse, parse(line), rest, total + |line|, length)
  {
    assert input[..|line|] == line && input[|line|..] == rest;
  }

  lemma ReadBody(parse: seq<Byte> -> Header, total: nat, length: nat, rest: seq<Byte>)
    requires parse([CR, LF]) == Blank
    ensures ReadLoop(parse, [CR, LF] + rest, total, length) == AfterLine(parse, Blank, rest, total + 2, length)
  {
    assert [CR, LF] + rest == [CR] + [LF] + rest;
    IndexAfter([CR], LF, rest);
    ReadLine(parse, [CR, LF] + rest, total, length, [CR, LF], rest);
  }

  lemma ReadLengthLine(parse: seq<Byte> -> Header, line: seq<Byte>, n: nat, rest: seq<Byte>, total: nat, length: nat)
    requires line != [] && IndexOf(line + ([CR, LF] + rest), LF) == |line| - 1 && parse([CR, LF]) == Blank
    requires parse(line) == if 0 < n <= MAX_LENGTH then Length(n) else BadLength
    ensures ReadLoop(parse, line + ([CR, LF] + rest), total, length) ==
            if !(0 < n <= MAX_LENGTH) then Failed(InvalidLength, total + |line|, [CR, LF] + rest)
            else if |rest| < n then Failed(EndOfStream, total + |line| + 2, [])
            else Message(rest[..n], total + |line| + 2 + n, rest[n..])
  {
    var more := [CR, LF] + rest;
    ReadLine(parse, line + more, total, length, line, more);
    if 0 < n <= MAX_LENGTH {
      assert AfterLine(parse, Length(n), more, total + |line|, length) == ReadLoop(parse, more, total + |line|, n);
      ReadBody(parse, total + |line|, n, rest);
    }
  }

  /** The header of a frame, whatever headers have been read before. */
  lemma ReadHeadAfter(n: nat, rest: seq<Byte>, total: nat, length: nat)
    ensures ReadLoop(ParseHeader, Head(n) + rest, total, length) ==
            if !(0 < n <= MAX_LENGTH) then Failed(InvalidLength, total + |Head(n)| - 2, [CR, LF] + rest)
            else if |rest| < n then Failed(EndOfStream, total + |Head(n)|, [])
            else Message(rest[..n], total + |Head(n)| + n, rest[n..])
  {
    Regroup(LengthHeader(n), [CR, LF], rest);
    HeaderEnd(n, [CR, LF] + rest);
    LengthLine(n);
    BlankLine();
    ReadLengthLine(ParseHeader, LengthHeader(n), n, rest, total, length);
  }

  lemma ReadHead(n: nat, rest: seq<Byte>)
    ensures ReadFrom(Head(n) + rest) ==
            if !(0 < n <= MAX_LENGTH) then Failed(InvalidLength, |Head(n)| - 2, [CR, LF] + rest)
            else if |rest| < n then Failed(EndOfStream, |Head(n)|, [])
            else Message(rest[..n], |Head(n)| + n, rest[n..])
  {
    ReadHeadAfter(n, rest, 0, 0);
  }

  lemma DataThenRest(data: seq<Byte>, rest: seq<Byte>)
    ensures (data + rest)[..|data|] == data && (data + rest)[|data|..] == rest
  {
  }

  /** A written message is read back unchanged, with the byte count of what was
      written, and nothing beyond it consumed, exactly if its length is positive
      and fits in 32 bits; otherwise the reader reports an invalid length. */
  lemma ReadBack(data: seq<Byte>, rest: seq<Byte>)
    ensures ReadFrom(Frame(data) + rest) ==
            if 0 < |data| <= MAX_LENGTH then Message(data, |Frame(data)|, rest)
            else Failed(InvalidLength, |Head(|data|)| - 2, [CR, LF] + data + rest)
  {
    Regroup(Head(|data|), data, rest);
    ReadHead(|data|, data + rest);
    DataThenRest(data, rest);
    Regroup([CR, LF], data, rest);
  }

  // ---------- other header lines ----------

  /** The same result with d more bytes counted. */
  function Later(r: ReadResult, d: nat): ReadResult { r.(consumed := r.consumed + d) }

  lemma {:induction false} ReadLater(parse: seq<Byte> -> Header, input: seq<Byte>, total: nat, length: nat, d: nat)
    ensures ReadLoop(parse, input, total + d, length) == Later(ReadLoop(parse, input, total, length), d)
    decreases |input|
  {
    var eol := IndexOf(input, LF);
    if eol < |input| {
      var rest, n := input[eol + 1..], total + eol + 1;
      match parse(input[..eol + 1]) {
        case Length(k) => ReadLater(parse, rest, n, k, d);
        case Unknown => ReadLater(parse, rest, n, length, d);
        case _ =>
      }
    }
  }

  /** One line that ends in a line feed. */
  predicate IsLine(line: seq<Byte>) { line != [] && line[|line| - 1] == LF && Free(line[..|line| - 1], LF) }

  lemma LineEnds(line: seq<Byte>, rest: seq<Byte>)
    requires IsLine(line)
    ensures IndexOf(line + rest, LF) == |line| - 1
  {
    assert line + rest == line[..|line| - 1] + [LF] + rest;
    IndexAfter(line[..|line| - 1], LF, rest);
  }

  /** A frame after the first headers: its own length counts. */
  lemma FrameAfter(data: seq<Byte>, rest: seq<Byte>, total: nat, length: nat)
    requires 0 < |data| <= MAX_LENGTH
    ensures ReadLoop(ParseHeader, Frame(data) + rest, total, length) == Message(data, total + |Frame(data)|, rest)
  {
    Regroup(Head(|data|), data, rest);
    ReadHeadAfter(|data|, data + rest, total, length);
    DataThenRest(data, rest);
  }

  /** Any one line put before a frame: an unknown header or another length changes only the
      byte count; any other line is the error that it is, and a blank one misses a length. */
  lemma LineBefore(line: seq<Byte>, data: seq<Byte>, rest: seq<Byte>)
    requires IsLine(line) && 0 < |data| <= MAX_LENGTH
    ensures ReadFrom(line + (Frame(data) + rest)) ==
            match ParseHeader(line)
            case Unknown => Message(data, |line| + |Frame(data)|, rest)
            case Length(_) => Message(data, |line| + |Frame(data)|, rest)
            case Bad => Failed(InvalidHeader, |line|, Frame(data) + rest)
            case BadLength => Failed(InvalidLength, |line|, Frame(data) + rest)
            case Blank => Failed(MissingLength, |line|, Frame(data) + rest)
  {
    var more := Frame(data) + rest;
    LineEnds(line, more);
    ReadLine(ParseHeader, line + more, 0, 0, line, more);
    var h := ParseHeader(line);
    assert ReadFrom(line + more) == AfterLine(ParseHeader, h, more, |line|, 0);
    FrameAfter(data, rest, |line|, if h.Length? then h.n else 0);
  }

  /** Any number of unknown headers before anything: only the byte count changes. */
  lemma {:induction false} UnknownSkipped(lines: seq<seq<Byte>>, input: seq<Byte>)
    requires forall k :: 0 <= k < |lines| ==> IsLine(lines[k]) && ParseHeader(lines[k]) == Unknown
    ensures ReadFrom(Joined(lines) + input) == Later(ReadFrom(input), |Joined(lines)|)
  {
    if lines == [] {
      assert [] + input == input;
    } else {
      Regroup(lines[0], Joined(lines[1..]), input);
      OneSkipped(lines[0], Joined(lines[1..]) + input);
      UnknownSkipped(lines[1..], input);
    }
  }

  lemma OneSkipped(line: seq<Byte>, input: seq<Byte>)
    requires IsLine(line) && ParseHeader(line) == Unknown
    ensures ReadFrom(line + input) == Later(ReadFrom(input), |line|)
  {
    LineEnds(line, input);
    ReadLine(ParseHeader, line + input, 0, 0, line, input);
    ReadLater(ParseHeader, input, 0, 0, |line|);
  }

  function Joined(lines: seq<seq<Byte>>): seq<Byte> { if lines == [] then [] else lines[0] + Joined(lines[1..]) }

  lemma {:induction false} TrimLeftKeeps(t: seq<Byte>, s: seq<Byte>)
    requires (forall i :: 0 <= i < |t| ==> IsSpace(t[i])) && (s == [] || !IsSpace(s[0]))
    ensures TrimLeft(t + s) == s
  {
    if t == [] {
      assert t + s == s;
    } else {
      assert (t + s)[1..] == t[1..] + s;
      TrimLeftKeeps(t[1..], s);
    }
  }

  /** Tab, line feed, vertical tab, form feed, carriage return and space. */
  lemma SpacesAre(b: Byte)
    ensures IsSpace(b) <==> b in {9, 10, 11, 12, 13, 32}
  {
  }

  /** White space around a text is trimmed, and nothing else. */
  lemma TrimSpaceMeans(before: seq<Byte>, s: seq<Byte>, after: seq<Byte>)
    requires (forall i :: 0 <= i < |before| ==> IsSpace(before[i])) && (forall i :: 0 <= i < |after| ==> IsSpace(after[i]))
    requires s != [] ==> !IsSpace(s[0]) && !IsSpace(s[|s| - 1])
    ensures TrimSpace(before + s + after) == s
  {
    if s == [] {
      TrimLeftKeeps(before + after, []);
      assert before + s + after == before + after + [];
    } else {
      assert before + s + after == before + (s + after);
      TrimLeftKeeps(before, s + after);
      TrimRightKeeps(s, after);
    }
  }

  /** What a header line asks for, with white space around it: blank, no colon, a length
      with its own white space and sign, or any other name, which must match exactly. */
  lemma HeaderMeans(before: seq<Byte>, name: seq<Byte>, value: seq<Byte>, after: seq<Byte>)
    requires (forall i :: 0 <= i < |before| ==> IsSpace(before[i])) && (forall i :: 0 <= i < |after| ==> IsSpace(after[i]))
    requires name != [] && !IsSpace(name[0]) && Free(name, COLON)
    requires value != [] ==> !IsSpace(value[|value| - 1])
    ensures ParseHeader(before + after) == Blank
    ensures !IsSpace(name[|name| - 1]) ==> ParseHeader(before + name + after) == Bad
    ensures ParseHeader(before + (name + [COLON] + value) + after) ==
            if name != NAME then Unknown else LengthOf(TrimSpace(value))
  {
    TrimSpaceMeans(before, [], after);
    assert before + [] + after == before + after;
    if !IsSpace(name[|name| - 1]) {
      TrimSpaceMeans(before, name, after);
      IndexNone(name, COLON);
    }
    NamedHeader(before, name, value, after);
  }

  /** A length has to be a positive number of 32 bits. */
  function LengthOf(text: seq<Byte>): Header {
    match ParseInt32(text)
    case Some(n) => if n > 0 then Length(n) else BadLength
    case None => BadLength
  }

  lemma NamedHeader(before: seq<Byte>, name: seq<Byte>, value: seq<Byte>, after: seq<Byte>)
    requires (forall i :: 0 <= i < |before| ==> IsSpace(before[i])) && (forall i :: 0 <= i < |after| ==> IsSpace(after[i]))
    requires name != [] && !IsSpace(name[0]) && Free(name, COLON)
    requires value != [] ==> !IsSpace(value[|value| - 1])
    ensures ParseHeader(before + (name + [COLON] + value) + after) ==
            if name != NAME then Unknown else LengthOf(TrimSpace(value))
  {
    var s := name + [COLON] + value;
    TrimSpaceMeans(before, s, after);
    IndexAfter(name, COLON, value);
    assert s[..|name|] == name && s[|name| + 1..] == value;
  }

  function Frames(messages: seq<seq<Byte>>): seq<Byte> {
    if messages == [] then [] else Frame(messages[0]) + Frames(messages[1..])
  }

  /** The messages read from a stream until the first failure, and that failure. */
  function ReadAll(input: seq<Byte>): (seq<seq<Byte>>, ReadResult)
    decreases |input|
  {
    match ReadFrom(input)
    case Failed(e, n, rest) => ([], Failed(e, n, rest))
    case Message(data, n, rest) =>
      var (more, last) := ReadAll(rest);
      ([data] + more, last)
  }

  /** Any sequence of messages of legal length is read back as that sequence,
      whatever bytes they contain, and then the stream is at its end. */
  lemma {:induction false} RoundTrip(messages: seq<seq<Byte>>)
    requires forall i :: 0 <= i < |messages| ==> 0 < |messages[i]| <= MAX_LENGTH
    ensures ReadAll(Frames(messages)) == (messages, Failed(EndOfStream, 0, []))
  {
    if messages != [] {
      ReadBack(messages[0], Frames(messages[1..]));
      RoundTrip(messages[1..]);
      assert [messages[0]] + messages[1..] == messages;
    }
  }

  // ---------- a stream cut short ----------

  lemma PrefixHasNoLine(parse: seq<Byte> -> Header, s: seq<Byte>, total: nat, length: nat)
    requires Free(s, LF)
    ensures ReadLoop(parse, s, total, length) == Failed(EndOfStream, total + |s|, [])
  {
    IndexNone(s, LF);
  }

  lemma CutInLine(n: nat, k: nat)
    requires k < |LengthHeader(n)|
    ensures ReadFrom(LengthHeader(n)[..k]).Failed?
  {
    DecimalValue(n);
    var line := LengthHeader(n);
    assert line[..|line| - 1] == NAME + [COLON, SPACE] + Decimal(n) + [CR];
    assert line[..k] == line[..|line| - 1][..k];
    PrefixHasNoLine(ParseHeader, line[..k], 0, 0);
  }

  lemma CutInBlank(n: nat, k: nat)
    requires k < 2
    ensures ReadFrom(LengthHeader(n) + [CR, LF][..k]).Failed?
  {
    HeaderEnd(n, [CR, LF][..k]);
    LengthLine(n);
    ReadLine(ParseHeader, LengthHeader(n) + [CR, LF][..k], 0, 0, LengthHeader(n), [CR, LF][..k]);
    PrefixHasNoLine(ParseHeader, [CR, LF][..k], |LengthHeader(n)|, n);
  }

  /** A stream cut anywhere inside a frame yields an error, never a message. */
  lemma CutShort(data: seq<Byte>, n: nat)
    requires n < |Frame(data)|
    ensures ReadFrom(Frame(data)[..n]).Failed?
  {
    var head, line := Head(|data|), LengthHeader(|data|);
    if n < |line| {
      assert Frame(data)[..n] == line[..n];
      CutInLine(|data|, n);
    } else if n < |head| {
      assert Frame(data)[..n] == line + [CR, LF][..n - |line|];
      CutInBlank(|data|, n - |line|);
    } else {
      assert Frame(data)[..n] == head + data[..n - |head|];
      ReadHead(|data|, data[..n - |head|]);
    }
  }
}
