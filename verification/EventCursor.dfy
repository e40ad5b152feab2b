/** The resume cursors of the event bus: what _event_id prints and _decode_event_id reads. */
module EventCursor {
  import opened Wrappers
  import opened Base64
  import PythonInt

  /** A SHA-256 digest. The hash itself is a parameter of the model. */
  type Digest = d: seq<Byte> | |d| == 32 witness seq(32, _ => 0)

  type Ascii = s: string | IsAscii(s) witness ""

  const MAX_CURSOR := 512

  function BoundaryId(digest: string -> Digest, boundary: string): string {
    Encode(digest(boundary))
  }

  function Joined(stream: string, boundaryId: string, sequence: nat): string {
    "sse:v2:" + stream + ":" + boundaryId + ":" + PythonInt.Print(sequence)
  }

  lemma JoinedIsAscii(stream: Ascii, bs: seq<Byte>, sequence: nat)
    ensures IsAscii(Joined(stream, Encode(bs), sequence))
  {
    EncodedIsAscii(bs);
    PythonInt.PrintDigits(sequence);
    assert forall i | 0 <= i < |PythonInt.Print(sequence)| :: PythonInt.IsDigit(PythonInt.Print(sequence)[i]);
  }

  /** Bus._event_id. */
  function EventId(stream: Ascii, digest: string -> Digest, boundary: string, sequence: nat): string {
    JoinedIsAscii(stream, digest(boundary), sequence);
    Encode(Bytes(Joined(stream, BoundaryId(digest, boundary), sequence)))
  }

  function Split(s: string, sep: char): (parts: seq<string>)
    ensures |parts| >= 1
  {
    if s == "" then [""]
    else
      var rest := Split(s[1..], sep);
      if s[0] == sep then [""] + rest else [[s[0]] + rest[0]] + rest[1..]
  }

  datatype Token = Token(stream: string, boundaryId: string, sequence: nat)

  /** Bus._decode_event_id; None stands for its ValueError. Decoding and then comparing
      the re-encoded text with the input refuses exactly what the validating decoder
      refuses: whatever passes the comparison is canonical. */
  function DecodeEventId(raw: string): Option<Token> {
    if |raw| > MAX_CURSOR then None
    else
      var bytes := Decode(raw);
      if bytes.None? || Text(bytes.value).None? || Encode(bytes.value) != raw then None
      else ReadParts(Split(Text(bytes.value).value, ':'))
  }

  function ReadParts(parts: seq<string>): Option<Token>
    requires |parts| >= 1
  {
    if |parts| < 2 then None
    else
      var (stream, boundaryId, text) :=
        if parts[1] == "v1" && |parts| == 4 then (parts[2], "", parts[3])
        else if parts[1] == "v2" && |parts| == 5 then (parts[2], parts[3], parts[4])
        else ("", "", "");
      var sequence := PythonInt.Parse(text);
      if sequence.None? then None
      else if parts[0] != "sse" || |stream| != 32 || (parts[1] == "v2" && |boundaryId| != 43) || sequence.value < 1
      then None
      else Some(Token(stream, boundaryId, sequence.value))
  }

  lemma {:induction false} SplitAt(head: string, tail: string, sep: char)
    requires sep !in head
    ensures Split(head + [sep] + tail, sep) == [head] + Split(tail, sep)
  {
    var s := head + [sep] + tail;
    if head == "" {
      assert s[1..] == tail;
    } else {
      SplitAt(head[1..], tail, sep);
      assert s[1..] == head[1..] + [sep] + tail;
      assert [head[0]] + head[1..] == head;
    }
  }

  lemma {:induction false} SplitNone(s: string, sep: char)
    requires sep !in s
    ensures Split(s, sep) == [s]
  {
    if s != "" {
      SplitNone(s[1..], sep);
      assert [s[0]] + s[1..] == s;
    }
  }

  lemma {:induction false} NoColon(bs: seq<Byte>)
    ensures ':' !in Encode(bs)
  {
    if |bs| > 2 { NoColon(bs[3..]); }
  }

  lemma SplitFive(a: string, b: string, c: string, d: string, e: string, sep: char)
    requires sep !in a && sep !in b && sep !in c && sep !in d && sep !in e
    ensures Split(a + [sep] + (b + [sep] + (c + [sep] + (d + [sep] + e))), sep) == [a, b, c, d, e]
  {
    SplitAt(a, b + [sep] + (c + [sep] + (d + [sep] + e)), sep);
    SplitAt(b, c + [sep] + (d + [sep] + e), sep);
    SplitAt(c, d + [sep] + e, sep);
    SplitAt(d, e, sep);
    SplitNone(e, sep);
  }

  lemma SplitJoined(stream: Ascii, boundaryId: string, sequence: nat)
    requires ':' !in stream && ':' !in boundaryId
    ensures Split(Joined(stream, boundaryId, sequence), ':')
            == ["sse", "v2", stream, boundaryId, PythonInt.Print(sequence)]
  {
    var text := PythonInt.Print(sequence);
    PythonInt.PrintDigits(sequence);
    var sse, v2 := "sse", "v2";
    assert Joined(stream, boundaryId, sequence)
        == sse + [':'] + (v2 + [':'] + (stream + [':'] + (boundaryId + [':'] + text)));
    SplitFive(sse, v2, stream, boundaryId, text, ':');
  }

  /** A minted cursor within the length limit decodes to exactly what it was minted from. */
  lemma EventIdRoundTrip(stream: Ascii, digest: string -> Digest, boundary: string, sequence: nat)
    requires |stream| == 32 && ':' !in stream && sequence >= 1
    requires |EventId(stream, digest, boundary, sequence)| <= MAX_CURSOR
    ensures DecodeEventId(EventId(stream, digest, boundary, sequence))
            == Some(Token(stream, BoundaryId(digest, boundary), sequence))
  {
    var text := Joined(stream, BoundaryId(digest, boundary), sequence);
    JoinedIsAscii(stream, digest(boundary), sequence);
    RoundTrip(Bytes(text));
    TextOfBytes(text);
    NoColon(digest(boundary));
    SplitJoined(stream, BoundaryId(digest, boundary), sequence);
    PythonInt.ParsePrint(sequence);
  }

  /** The limit is met by every sequence number of at most 300 digits. */
  lemma EventIdLength(stream: Ascii, digest: string -> Digest, boundary: string, sequence: nat)
    requires |stream| == 32
    ensures |EventId(stream, digest, boundary, sequence)| <= MAX_CURSOR
            <==> |PythonInt.Print(sequence)| <= 300
  {
    JoinedIsAscii(stream, digest(boundary), sequence);
    assert |Joined(stream, BoundaryId(digest, boundary), sequence)| == 84 + |PythonInt.Print(sequence)|;
  }

  /** Two boundaries share a boundary id only when their digests collide. */
  lemma BoundaryIdInjective(digest: string -> Digest, a: string, b: string)
    requires BoundaryId(digest, a) == BoundaryId(digest, b)
    ensures digest(a) == digest(b)
  {
    RoundTrip(digest(a));
    RoundTrip(digest(b));
  }
}
