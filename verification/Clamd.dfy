/**
 Streaming a file to clamd with INSTREAM: frames of a 4-byte big-endian length and that many bytes, ended by a
 length of zero; then one reply ended by a NUL or a newline.
 */
module Clamd {
  import opened Wrappers
  import opened Bytes
  import C = Chunks

  const CHUNK_SIZE := 65536

  /** "zINSTREAM\0" */
  const COMMAND: File := [122, 73, 78, 83, 84, 82, 69, 65, 77, 0]

  /** `struct.pack("!I", n)` */
  function Be32(n: nat): File
    requires n < 0x1_0000_0000
  {
    [n / 0x100 / 0x100 / 0x100, n / 0x100 / 0x100 % 0x100, n / 0x100 % 0x100, n % 0x100]
  }

  /** Network byte order: the highest byte first. */
  lemma Be32Order(a: Byte, b: Byte, c: Byte, d: Byte)
    ensures ((a * 256 + b) * 256 + c) * 256 + d < 0x1_0000_0000
    ensures Be32(((a * 256 + b) * 256 + c) * 256 + d) == [a, b, c, d]
  {
    var n: nat := ((a * 256 + b) * 256 + c) * 256 + d;
    assert n / 256 == (a * 256 + b) * 256 + c && n % 256 == d;
    assert n / 256 / 256 == a * 256 + b && n / 256 / 256 / 256 == a;
  }

  function Be32Value(b: File): nat
    requires |b| >= 4
  {
    ((b[0] as int * 0x100 + b[1] as int) * 0x100 + b[2] as int) * 0x100 + b[3] as int
  }

  function Frame(chunk: File): File
    requires |chunk| < 0x1_0000_0000
  {
    Be32(|chunk|) + chunk
  }

  ghost predicate Sendable(chunks: seq<File>) {
    forall i | 0 <= i < |chunks| :: 1 <= |chunks[i]| < 0x1_0000_0000
  }

  function Frames(chunks: seq<File>): File
    requires Sendable(chunks)
  {
    if chunks == [] then [] else Frame(chunks[0]) + Frames(chunks[1..])
  }

  /** What is sent for a file, after the command. */
  function Stream(file: File): File
  {
    C.PartsForm(file, CHUNK_SIZE);
    Frames(C.Parts(file, CHUNK_SIZE)) + Be32(0)
  }

  /** The receiving end: the bytes of the frames up to the zero length, and what is left after it. */
  function Receive(s: File): Option<(File, File)>
    decreases |s|
  {
    if |s| < 4 then None
    else
      var n := Be32Value(s);
      if n == 0 then Some(([], s[4..]))
      else if |s| - 4 < n then None
      else match Receive(s[4 + n..])
        case None => None
        case Some(rest) => Some((s[4..4 + n] + rest.0, rest.1))
  }

  lemma Be32Inverse(n: nat, tail: File)
    requires n < 0x1_0000_0000
    ensures |Be32(n)| == 4 && Be32Value(Be32(n) + tail) == n
  {
  }

  lemma {:induction false} ReceiveFrames(chunks: seq<File>, tail: File)
    requires Sendable(chunks)
    ensures Receive(Frames(chunks) + Be32(0) + tail) == Some((Concat(chunks), tail))
    decreases |chunks|
  {
    hide Be32, Be32Value;
    var s := Frames(chunks) + Be32(0) + tail;
    if chunks == [] {
      Be32Inverse(0, tail);
      assert s == Be32(0) + tail && s[4..] == tail;
    } else {
      var n, rest := |chunks[0]|, Frames(chunks[1..]) + Be32(0) + tail;
      Be32Inverse(n, chunks[0] + rest);
      assert s == Be32(n) + (chunks[0] + rest);
      assert s[4..4 + n] == chunks[0] && s[4 + n..] == rest;
      ReceiveFrames(chunks[1..], tail);
    }
  }

  /** The receiver gets exactly the file, and nothing of the stream is left; what follows it is untouched. */
  lemma StreamRoundTrip(file: File, tail: File)
    ensures Receive(Stream(file)) == Some((file, []))
    ensures Receive(Stream(file) + tail) == Some((file, tail))
  {
    C.PartsForm(file, CHUNK_SIZE);
    ReceiveFrames(C.Parts(file, CHUNK_SIZE), tail);
    ReceiveFrames(C.Parts(file, CHUNK_SIZE), []);
    assert Stream(file) + [] == Stream(file);
  }

  /** No stream is a proper beginning of another, and different files have different streams. */
  lemma StreamsApart(a: File, b: File, tail: File)
    requires Stream(a) + tail == Stream(b)
    ensures a == b && tail == []
  {
    hide Stream, Receive;
    StreamRoundTrip(a, tail);
    StreamRoundTrip(b, []);
  }

  /** The stream as a list of frames: every data frame holds 1 to 65536 bytes, all but the last are full. */
  lemma FrameSizes(file: File)
    ensures var chunks := C.Parts(file, CHUNK_SIZE);
            && Sendable(chunks) && Concat(chunks) == file
            && Stream(file) == Frames(chunks) + Be32(0)
            && (forall i | 0 <= i < |chunks| :: 1 <= |chunks[i]| <= 65536)
            && (forall i | 0 <= i < |chunks| - 1 :: |chunks[i]| == 65536)
            && |Stream(file)| == |file| + 4 * |chunks| + 4
  {
    C.PartsForm(file, CHUNK_SIZE);
    FramesLength(C.Parts(file, CHUNK_SIZE));
  }

  lemma {:induction false} FramesLength(chunks: seq<File>)
    requires Sendable(chunks)
    ensures |Frames(chunks)| == |Concat(chunks)| + 4 * |chunks|
  {
    if chunks != [] { FramesLength(chunks[1..]); }
  }

  // ---- the reply ----

  predicate Ended(response: File) {
    0 in response || 10 in response
  }

  /** `pieces` are the successive results of recv; it gives nothing more once they are used up. */
  function ReadReply(response: File, pieces: seq<File>): File
    decreases |pieces|
  {
    if pieces == [] || pieces[0] == [] then response
    else if Ended(response + pieces[0]) then response + pieces[0]
    else ReadReply(response + pieces[0], pieces[1..])
  }

  function StripEnd(s: File, skip: Byte -> bool): File {
    if s != [] && skip(s[|s| - 1]) then StripEnd(s[..|s| - 1], skip) else s
  }

  predicate IsTerminator(b: Byte) {
    b == 0 || b == 10
  }

  /** The characters that `str.strip` removes, in the one, two or three bytes that UTF-8 gives them. */
  predicate IsSpace(b: Byte) {
    9 <= b <= 13 || 28 <= b <= 32
  }

  predicate IsSpace2(a: Byte, b: Byte) {
    a == 0xC2 && (b == 0x85 || b == 0xA0)
  }

  predicate IsSpace3(a: Byte, b: Byte, c: Byte) {
    || (a == 0xE1 && b == 0x9A && c == 0x80)
    || (a == 0xE2 && b == 0x80 && (0x80 <= c <= 0x8A || c == 0xA8 || c == 0xA9 || c == 0xAF))
    || (a == 0xE2 && b == 0x81 && c == 0x9F)
    || (a == 0xE3 && b == 0x80 && c == 0x80)
  }

  /** How many bytes the white space character at the end takes. A lead byte always starts a character. */
  function SpaceAtEnd(s: File): (n: nat)
    ensures n <= |s|
  {
    var k := |s|;
    if k >= 1 && IsSpace(s[k - 1]) then 1
    else if k >= 2 && IsSpace2(s[k - 2], s[k - 1]) then 2
    else if k >= 3 && IsSpace3(s[k - 3], s[k - 2], s[k - 1]) then 3
    else 0
  }

  function StripSpaces(s: File): File
    decreases |s|
  {
    var n := SpaceAtEnd(s);
    if n == 0 then s else StripSpaces(s[..|s| - n])
  }

  function ResultText(response: File): File {
    StripEnd(response, IsTerminator)
  }

  /** Stripping at the front as well cannot change whether "OK" comes last. */
  predicate IsClean(result: File) {
    var s := StripSpaces(result);
    |s| >= 2 && s[|s| - 2..] == [79, 75]
  }

  /** However the network cuts a reply into pieces, all of it is read, and nothing after it. */
  lemma {:induction false} ReplyInPieces(response: File, body: File, end: Byte, pieces: seq<File>, later: seq<File>)
    requires !Ended(response + body) && IsTerminator(end)
    requires Concat(pieces) == body + [end]
    requires forall i | 0 <= i < |pieces| :: pieces[i] != []
    ensures ReadReply(response, pieces + later) == response + body + [end]
    decreases |pieces|
  {
    if pieces != [] {
      var p := pieces[0];
      assert (pieces + later)[0] == p && (pieces + later)[1..] == pieces[1..] + later;
      assert p == (body + [end])[..|p|];
      if |p| == |body| + 1 {
        assert p == body + [end] && response + p == response + body + [end];
        assert end in response + p;
      } else {
        assert p == body[..|p|];
        assert forall b | b in response + p :: b in response + body;
        assert Concat(pieces[1..]) == (p + Concat(pieces[1..]))[|p|..];
        assert Concat(pieces[1..]) == body[|p|..] + [end];
        assert response + p + body[|p|..] == response + body;
        ReplyInPieces(response + p, body[|p|..], end, pieces[1..], later);
      }
    }
  }

  lemma ResultOfReply(body: File, end: Byte)
    requires !Ended(body) && IsTerminator(end)
    ensures ResultText(body + [end]) == body
  {
    assert (body + [end])[..|body|] == body;
    assert ResultText(body + [end]) == StripEnd(body, IsTerminator);
    if body != [] {
      var last := body[|body| - 1];
      assert last in body && !IsTerminator(last);
    }
  }

  /** "stream: ", "OK" and "FOUND" */
  const STREAM_PREFIX: File := [115, 116, 114, 101, 97, 109, 58, 32]

  const OK: File := [79, 75]

  const FOUND: File := [70, 79, 85, 78, 68]

  /** One white-space character, in UTF-8. */
  predicate IsSpaceChar(c: File) {
    || (|c| == 1 && IsSpace(c[0]))
    || (|c| == 2 && IsSpace2(c[0], c[1]))
    || (|c| == 3 && IsSpace3(c[0], c[1], c[2]))
  }

  /** What `str.isspace` calls white space, in UTF-8. */
  const SPACES: seq<File> :=
    [[9], [10], [11], [12], [13], [28], [29], [30], [31], [32], [0xC2, 0x85], [0xC2, 0xA0], [0xE1, 0x9A, 0x80],
     [0xE2, 0x80, 0x80], [0xE2, 0x80, 0x81], [0xE2, 0x80, 0x82], [0xE2, 0x80, 0x83], [0xE2, 0x80, 0x84],
     [0xE2, 0x80, 0x85], [0xE2, 0x80, 0x86], [0xE2, 0x80, 0x87], [0xE2, 0x80, 0x88], [0xE2, 0x80, 0x89],
     [0xE2, 0x80, 0x8A], [0xE2, 0x80, 0xA8], [0xE2, 0x80, 0xA9], [0xE2, 0x80, 0xAF], [0xE2, 0x81, 0x9F],
     [0xE3, 0x80, 0x80]]

  lemma SpaceChars(c: File)
    ensures IsSpaceChar(c) <==> c in SPACES
  {
    if IsSpaceChar(c) {
      if |c| == 1 { assert c == [c[0]]; }
      else if |c| == 2 { assert c == [c[0], c[1]]; }
      else { assert c == [c[0], c[1], c[2]]; }
    }
  }

  /** "OK" is the last of the text but for white space. */
  ghost predicate EndsInOk(text: File) {
    exists a: File, spaces: seq<File> :: text == a + OK + Concat(spaces) && AreSpaces(spaces)
  }

  ghost predicate AreSpaces(spaces: seq<File>) {
    forall i | 0 <= i < |spaces| :: IsSpaceChar(spaces[i])
  }

  lemma LastSpace(s: File, c: File)
    requires IsSpaceChar(c)
    ensures SpaceAtEnd(s + c) == |c| && (s + c)[..|s|] == s
  {
  }

  lemma SpaceIsChar(s: File)
    requires SpaceAtEnd(s) > 0
    ensures IsSpaceChar(s[|s| - SpaceAtEnd(s)..])
  {
  }

  lemma ConcatOne(c: File)
    ensures Concat([c]) == c
  {
    var none: seq<File> := [];
    assert [c][1..] == none;
  }

  lemma {:induction false} SpacesStripped(s: File, spaces: seq<File>)
    requires AreSpaces(spaces)
    ensures StripSpaces(s + Concat(spaces)) == StripSpaces(s)
  {
    hide StripSpaces, SpaceAtEnd, IsSpaceChar;
    if spaces == [] {
      assert s + Concat(spaces) == s;
    } else {
      var init, c := spaces[..|spaces| - 1], spaces[|spaces| - 1];
      assert spaces == init + [c];
      ConcatAppend(init, [c]);
      ConcatOne(c);
      assert s + Concat(spaces) == (s + Concat(init)) + c;
      StripLast(s + Concat(init), c);
      SpacesStripped(s, init);
    }
  }

  lemma StripLast(s: File, c: File)
    requires IsSpaceChar(c)
    ensures StripSpaces(s + c) == StripSpaces(s)
  {
    LastSpace(s, c);
    hide SpaceAtEnd;
    assert |c| > 0 && |s + c| - |c| == |s|;
  }

  lemma {:induction false} StrippedSpaces(s: File) returns (spaces: seq<File>)
    ensures AreSpaces(spaces) && s == StripSpaces(s) + Concat(spaces)
    decreases |s|
  {
    var n := SpaceAtEnd(s);
    if n == 0 {
      spaces := [];
    } else {
      var rest, c := s[..|s| - n], s[|s| - n..];
      SpaceIsChar(s);
      assert StripSpaces(s) == StripSpaces(rest);
      hide SpaceAtEnd, IsSpaceChar, StripSpaces, Concat;
      var init := StrippedSpaces(rest);
      spaces := init + [c];
      OneMore(s, StripSpaces(rest), init, c);
    }
  }

  lemma OneMore(s: File, text: File, init: seq<File>, c: File)
    requires |c| <= |s| && s == s[..|s| - |c|] + c && s[..|s| - |c|] == text + Concat(init)
    ensures s == text + Concat(init + [c])
  {
    ConcatAppend(init, [c]);
    ConcatOne(c);
    hide Concat;
    assert text + (Concat(init) + c) == text + Concat(init) + c;
  }

  /** A result is clean if and only if it ends in "OK", white space aside: an error or an empty reply is not clean. */
  lemma CleanExactly(text: File)
    ensures IsClean(text) <==> EndsInOk(text)
  {
    if IsClean(text) {
      var s := StripSpaces(text);
      var spaces := StrippedSpaces(text);
      assert s == s[..|s| - 2] + OK;
    }
    if a, spaces: seq<File> :| text == a + OK + Concat(spaces) && AreSpaces(spaces) {
      SpacesStripped(a + OK, spaces);
      assert (a + OK)[|a + OK| - 1] == 75 && (a + OK)[|a + OK| - 2] == 79;
      assert StripSpaces(a + OK) == a + OK;
      assert (a + OK)[|a + OK| - 2..] == OK;
    }
  }

  lemma TextEndsIn(a: File, last: Byte)
    requires last != 75 && !IsSpace(last) && last < 128
    ensures !IsClean(a + [last])
  {
    assert (a + [last])[|a|] == last;
    assert StripSpaces(a + [last]) == a + [last];
  }

  /** What a scan takes as the result: the response without the terminators at its end. */
  lemma {:induction false} ResultTextIs(response: File)
    ensures var result := ResultText(response);
            && result <= response && (forall i | |result| <= i < |response| :: IsTerminator(response[i]))
            && (result != [] ==> !IsTerminator(result[|result| - 1]))
    decreases |response|
  {
    if response != [] && IsTerminator(response[|response| - 1]) {
      var init := response[..|response| - 1];
      ResultTextIs(init);
      assert ResultText(response) == ResultText(init);
    }
  }

  /** One complete reply, in any pieces: the text without its terminator, and clean if and only if it ends in "OK". */
  lemma ReplyUnderstood(body: File, end: Byte, pieces: seq<File>, later: seq<File>)
    requires !Ended(body) && IsTerminator(end) && Concat(pieces) == body + [end]
    requires forall i | 0 <= i < |pieces| :: pieces[i] != []
    ensures ResultText(ReadReply([], pieces + later)) == body
  {
    assert [] + body == body;
    ReplyInPieces([], body, end, pieces, later);
    assert [] + body + [end] == body + [end];
    ResultOfReply(body, end);
  }

  /** A connection that is closed before the reply is complete: what has come in is the result. */
  lemma {:induction false} UnfinishedReply(response: File, pieces: seq<File>, later: seq<File>)
    requires !Ended(response + Concat(pieces)) && forall i | 0 <= i < |pieces| :: pieces[i] != []
    requires later == [] || later[0] == []
    ensures ReadReply(response, pieces + later) == response + Concat(pieces)
    decreases |pieces|
  {
    if pieces == [] {
      assert pieces + later == later && response + Concat(pieces) == response;
    } else {
      var p := pieces[0];
      assert (pieces + later)[0] == p && (pieces + later)[1..] == pieces[1..] + later;
      assert response + Concat(pieces) == (response + p) + Concat(pieces[1..]);
      assert forall b | b in response + p :: b in (response + p) + Concat(pieces[1..]);
      UnfinishedReply(response + p, pieces[1..], later);
    }
  }

  const ERROR: File := [69, 82, 82, 79, 82]

  /**
   However a complete reply is cut, the verdict is "clean" exactly when its text ends in "OK": so for the clean reply,
   but for none that names a virus, whatever its name, and for no error.
   */
  lemma Verdicts(body: File, end: Byte, pieces: seq<File>, later: seq<File>, name: File)
    requires !Ended(body) && IsTerminator(end) && Concat(pieces) == body + [end]
    requires forall i | 0 <= i < |pieces| :: pieces[i] != []
    ensures var clean := IsClean(ResultText(ReadReply([], pieces + later)));
            && (clean <==> EndsInOk(body))
            && (body == STREAM_PREFIX + OK ==> clean)
            && (body == STREAM_PREFIX + name + [32] + FOUND ==> !clean)
            && (body == name + ERROR ==> !clean)
  {
    ReplyUnderstood(body, end, pieces, later);
    hide IsClean, ResultText, ReadReply;
    CleanExactly(body);
    if body == STREAM_PREFIX + OK {
      assert STREAM_PREFIX + OK == STREAM_PREFIX + OK + Concat([]);
    }
    var text := STREAM_PREFIX + name + [32];
    assert text + FOUND == text + [70, 79, 85, 78] + [68];
    TextEndsIn(text + [70, 79, 85, 78], 68);
    assert name + ERROR == name + [69, 82, 82, 79] + [82];
    TextEndsIn(name + [69, 82, 82, 79], 82);
  }

  /** Nor is a file clean when the connection closes without a reply. */
  lemma NoReplyIsNotClean(later: seq<File>)
    requires later == [] || later[0] == []
    ensures !IsClean(ResultText(ReadReply([], later))) && !EndsInOk(ResultText(ReadReply([], later)))
  {
    assert ReadReply([], later) == [];
    assert StripSpaces(ResultText([])) == [];
    CleanExactly([]);
  }

  // ---- the client ----

  class Connection {
    var sent: File
    var incoming: seq<File>

    constructor (incoming: seq<File>)
      ensures sent == [] && this.incoming == incoming
    {
      sent := [];
      this.incoming := incoming;
    }

    method SendAll(data: File)
      modifies this`sent
      ensures sent == old(sent) + data
    {
      sent := sent + data;
    }

    method Recv() returns (data: File)
      modifies this`incoming
      ensures old(incoming) == [] ==> data == [] && incoming == []
      ensures old(incoming) != [] ==> data == old(incoming)[0] && incoming == old(incoming)[1..]
    {
      if incoming == [] { return []; }
      data, incoming := incoming[0], incoming[1..];
    }

    method SendFile(file: File)
      modifies this`sent
      ensures sent == old(sent) + COMMAND + Stream(file)
    {
      hide Stream, Be32;
      SendAll(COMMAND);
      ghost var before := sent;
      var pos := 0;
      assert file[0..] == file;
      while true
        invariant pos <= |file| && sent + Stream(file[pos..]) == before + Stream(file)
        decreases |file| - pos
      {
        ghost var rest := file[pos..];
        var chunk := if |file| - pos <= CHUNK_SIZE then file[pos..] else file[pos..pos + CHUNK_SIZE];
        if |chunk| == 0 {
          break;
        }
        StreamStep(rest, chunk, sent);
        SendAll(Be32(|chunk|) + chunk);
        pos := pos + |chunk|;
        assert rest[|chunk|..] == file[pos..];
      }
      StreamEnd(file[pos..]);
      SendAll(Be32(0));
    }

    method ClamdScan(file: File) returns (isClean: bool, result: File)
      modifies this
      ensures sent == old(sent) + COMMAND + Stream(file)
      ensures result == ResultText(ReadReply([], old(incoming))) && (isClean <==> EndsInOk(result))
    {
      SendFile(file);
      var response: File := [];
      while true
        invariant ReadReply(response, incoming) == ReadReply([], old(incoming)) && !Ended(response)
        invariant sent == old(sent) + COMMAND + Stream(file)
        decreases |incoming|
      {
        var data := Recv();
        if |data| == 0 {
          break;
        }
        response := response + data;
        if Ended(response) {
          break;
        }
      }
      result := ResultText(response);
      isClean := IsClean(result);
      CleanExactly(result);
    }
  }

  /** The stream of what is left begins with the frame of the next chunk. */
  lemma StreamStep(rest: File, chunk: File, sent: File)
    requires rest != [] && chunk == (if |rest| <= CHUNK_SIZE then rest else rest[..CHUNK_SIZE])
    ensures sent + Stream(rest) == sent + (Be32(|chunk|) + chunk) + Stream(rest[|chunk|..])
  {
    C.NextPart(rest, CHUNK_SIZE);
    C.PartsForm(rest, CHUNK_SIZE);
    C.PartsForm(rest[|chunk|..], CHUNK_SIZE);
    var parts, later := C.Parts(rest, CHUNK_SIZE), C.Parts(rest[|chunk|..], CHUNK_SIZE);
    hide Be32, C.Parts;
    assert parts[0] == chunk && parts[1..] == later;
    assert Frames(parts) == Frame(chunk) + Frames(later);
  }

  lemma StreamEnd(rest: File)
    requires rest == []
    ensures Stream(rest) == Be32(0)
  {
  }
}
