/** Reading one JSON request from a byte stream whose reads are not message boundaries. */
module RequestReader {

  newtype byte = b: int | 0 <= b < 256

  const MAX_REQUEST: nat := 65536
  const CHUNK: nat := 4096

  /** What the JSON parser says of the bytes so far; `Eof` asks for more. */
  datatype Parse<+R> = Parsed(request: R) | Eof | Bad

  /** How the stream ends after its last chunk. */
  datatype Ending = Closed | Broken

  datatype Outcome<+R> = Request(request: R) | NoRequest | Incomplete | TooLong | Malformed | ReadFailed

  /** The possible results of successive reads into a buffer of `CHUNK` bytes. */
  ghost predicate Chunking(chunks: seq<seq<byte>>) {
    forall i :: 0 <= i < |chunks| ==> 1 <= |chunks[i]| <= CHUNK
  }

  function Flatten(chunks: seq<seq<byte>>): seq<byte> {
    if chunks == [] then [] else chunks[0] + Flatten(chunks[1..])
  }

  /** The outcome once `payload` has been buffered without a decision. */
  function Read<R>(parse: seq<byte> -> Parse<R>, payload: seq<byte>, chunks: seq<seq<byte>>, ending: Ending): Outcome<R>
    decreases |chunks|
  {
    if chunks == [] then
      if ending == Broken then ReadFailed
      else if payload == [] then NoRequest
      else Incomplete
    else
      var grown := payload + chunks[0];
      if |grown| > MAX_REQUEST then TooLong
      else
        match parse(grown)
        case Parsed(request) => Request(request)
        case Eof => Read(parse, grown, chunks[1..], ending)
        case Bad => Malformed
  }

  /** `peak` is the largest the buffer ever gets. */
  method ReadRequest<R>(parse: seq<byte> -> Parse<R>, chunks: seq<seq<byte>>, ending: Ending)
    returns (outcome: Outcome<R>, peak: nat)
    requires Chunking(chunks)
    ensures outcome == Read(parse, [], chunks, ending)
    ensures peak <= MAX_REQUEST + CHUNK
    ensures outcome.TooLong? <==> peak > MAX_REQUEST
  {
    var payload: seq<byte> := [];
    peak := 0;
    var i := 0;
    while true
      invariant 0 <= i <= |chunks|
      invariant Read(parse, [], chunks, ending) == Read(parse, payload, chunks[i..], ending)
      invariant peak == |payload| <= MAX_REQUEST
      decreases |chunks| - i
    {
      if i == |chunks| {
        if ending == Broken {
          return ReadFailed, peak;
        }
        if payload == [] {
          return NoRequest, peak;
        }
        return Incomplete, peak;
      }
      payload := payload + chunks[i];
      peak := |payload|;
      i := i + 1;
      if |payload| > MAX_REQUEST {
        return TooLong, peak;
      }
      match parse(payload) {
        case Parsed(request) => return Request(request), peak;
        case Eof =>
        case Bad => return Malformed, peak;
      }
    }
  }

  // ----- chunk independence -----

  predicate IsSpace(b: byte) {
    b == 0x20 || b == 0x09 || b == 0x0A || b == 0x0D
  }

  predicate AllSpace(bytes: seq<byte>) {
    forall i :: 0 <= i < |bytes| ==> IsSpace(bytes[i])
  }

  /** The parser wants more on every proper prefix, and accepts the document followed by white space only. */
  ghost predicate Document<R(!new)>(parse: seq<byte> -> Parse<R>, document: seq<byte>, request: R) {
    && document != []
    && (forall k :: 0 <= k < |document| ==> parse(document[..k]) == Eof)
    && (forall rest :: parse(document + rest) == if AllSpace(rest) then Parsed(request) else Bad)
  }

  /** How far past the document the read that completes it can reach. */
  function Reach(rest: seq<byte>): nat {
    if |rest| < CHUNK then |rest| else CHUNK - 1
  }

  lemma {:induction false} ReadFindsDocument<R(!new)>(parse: seq<byte> -> Parse<R>, document: seq<byte>, request: R,
                                                      rest: seq<byte>, k: nat, chunks: seq<seq<byte>>, ending: Ending)
    requires Document(parse, document, request) && k < |document|
    requires |document| + Reach(rest) <= MAX_REQUEST && AllSpace(rest[..Reach(rest)])
    requires Chunking(chunks) && Flatten(chunks) == document[k..] + rest
    ensures Read(parse, document[..k], chunks, ending) == Request(request)
    decreases |chunks|
  {
    var chunk := chunks[0];
    var grown := document[..k] + chunk;
    var whole := document + rest;
    assert whole == document[..k] + Flatten(chunks);
    assert grown == whole[..k + |chunk|];
    if k + |chunk| < |document| {
      assert grown == document[..k + |chunk|];
      assert Flatten(chunks[1..]) == (document[k..] + rest)[|chunk|..] == document[k + |chunk|..] + rest;
      ReadFindsDocument(parse, document, request, rest, k + |chunk|, chunks[1..], ending);
    } else {
      var extra := rest[..k + |chunk| - |document|];
      assert grown == document + extra;
      assert AllSpace(extra) by {
        assert extra == rest[..Reach(rest)][..|extra|];
      }
    }
  }

  function Singles(bytes: seq<byte>): (chunks: seq<seq<byte>>)
    ensures |chunks| == |bytes| && forall i :: 0 <= i < |chunks| ==> chunks[i] == [bytes[i]]
  {
    seq(|bytes|, i requires 0 <= i < |bytes| => [bytes[i]])
  }

  lemma {:induction false} FlattenSingles(bytes: seq<byte>, tail: seq<seq<byte>>)
    ensures Flatten(Singles(bytes) + tail) == bytes + Flatten(tail)
  {
    if bytes == [] {
      assert Singles(bytes) + tail == tail;
    } else {
      assert (Singles(bytes) + tail)[1..] == Singles(bytes[1..]) + tail;
      FlattenSingles(bytes[1..], tail);
    }
  }

  /** Byte by byte the reader keeps asking for more until a proper prefix of the document is buffered. */
  lemma {:induction false} ReadSingles<R(!new)>(parse: seq<byte> -> Parse<R>, document: seq<byte>, request: R,
                                                k: nat, n: nat, tail: seq<seq<byte>>, ending: Ending)
    requires Document(parse, document, request) && k <= n < |document|
    ensures Read(parse, document[..k], Singles(document[k..n]) + tail, ending)
            == if k < n && n > MAX_REQUEST then TooLong else Read(parse, document[..n], tail, ending)
    decreases n - k
  {
    var chunks := Singles(document[k..n]) + tail;
    if k == n {
      assert chunks == tail;
    } else {
      assert document[..k] + chunks[0] == document[..k + 1];
      assert chunks[1..] == Singles(document[k + 1..n]) + tail;
      ReadSingles(parse, document, request, k + 1, n, tail, ending);
    }
  }

  /** The document's last byte arriving together with as much as one read can hold. */
  function Greedy(document: seq<byte>, rest: seq<byte>): seq<seq<byte>>
    requires document != []
  {
    var n := |document| - 1;
    Singles(document[..n]) + ([[document[n]] + rest[..Reach(rest)]] + Singles(rest[Reach(rest)..]))
  }

  lemma GreedyIsChunking(document: seq<byte>, rest: seq<byte>)
    requires document != []
    ensures Chunking(Greedy(document, rest)) && Flatten(Greedy(document, rest)) == document + rest
  {
    hide Flatten, Chunking;
    var n := |document| - 1;
    var last := [document[n]] + rest[..Reach(rest)];
    var tail := Singles(rest[Reach(rest)..]);
    OneMoreChunk(last, tail);
    SinglesChunk(rest[Reach(rest)..], []);
    assert tail + [] == tail;
    SinglesChunk(document[..n], [last] + tail);
    FlattenSingles(rest[Reach(rest)..], []);
    FlattenSingles(document[..n], [last] + tail);
  }

  lemma SinglesChunk(bytes: seq<byte>, tail: seq<seq<byte>>)
    requires Chunking(tail)
    ensures Chunking(Singles(bytes) + tail)
  {
  }

  lemma OneMoreChunk(chunk: seq<byte>, tail: seq<seq<byte>>)
    ensures Flatten([chunk] + tail) == chunk + Flatten(tail)
    ensures 1 <= |chunk| <= CHUNK && Chunking(tail) ==> Chunking([chunk] + tail)
    ensures Flatten([]) == [] && Chunking([])
  {
    assert ([chunk] + tail)[1..] == tail;
  }

  lemma GreedyFails<R(!new)>(parse: seq<byte> -> Parse<R>, document: seq<byte>, request: R, rest: seq<byte>,
                                  ending: Ending)
    requires Document(parse, document, request)
    requires !(|document| + Reach(rest) <= MAX_REQUEST && AllSpace(rest[..Reach(rest)]))
    ensures Read(parse, [], Greedy(document, rest), ending) == TooLong ||
            Read(parse, [], Greedy(document, rest), ending) == Malformed
  {
    var n := |document| - 1;
    var last := [document[n]] + rest[..Reach(rest)];
    var tail := [last] + Singles(rest[Reach(rest)..]);
    assert document[..0] == [] && document[0..n] == document[..n];
    ReadSingles(parse, document, request, 0, n, tail, ending);
    assert document[..n] + last == document + rest[..Reach(rest)];
  }

  /**
   * A stream that starts with a document yields its request however it is cut into reads exactly when whatever
   * can arrive in the same read as the document's last byte is white space and still within the size limit.
   */
  lemma SameForEveryChunking<R(!new)>(parse: seq<byte> -> Parse<R>, document: seq<byte>, request: R,
                                      rest: seq<byte>, ending: Ending)
    requires Document(parse, document, request)
    ensures (forall chunks :: Chunking(chunks) && Flatten(chunks) == document + rest ==>
               Read(parse, [], chunks, ending) == Request(request))
            <==> |document| + Reach(rest) <= MAX_REQUEST && AllSpace(rest[..Reach(rest)])
  {
    if |document| + Reach(rest) <= MAX_REQUEST && AllSpace(rest[..Reach(rest)]) {
      assert document[..0] == [] && document[0..] == document;
      forall chunks | Chunking(chunks) && Flatten(chunks) == document + rest
        ensures Read(parse, [], chunks, ending) == Request(request)
      {
        ReadFindsDocument(parse, document, request, rest, 0, chunks, ending);
      }
    } else {
      GreedyIsChunking(document, rest);
      GreedyFails(parse, document, request, rest, ending);
    }
  }

  /** A stream the parser never decides on is refused: by its length, as incomplete, or as no request at all. */
  lemma {:induction false} UndecidedStream<R(!new)>(parse: seq<byte> -> Parse<R>, payload: seq<byte>,
                                                    chunks: seq<seq<byte>>)
    requires Chunking(chunks) && |payload| <= MAX_REQUEST
    requires forall k :: 0 <= k <= |payload + Flatten(chunks)| ==> parse((payload + Flatten(chunks))[..k]) == Eof
    ensures Read(parse, payload, chunks, Closed)
            == if |payload + Flatten(chunks)| > MAX_REQUEST then TooLong
               else if payload + Flatten(chunks) == [] then NoRequest else Incomplete
    decreases |chunks|
  {
    if chunks != [] {
      var grown := payload + chunks[0];
      assert payload + Flatten(chunks) == grown + Flatten(chunks[1..]);
      assert (payload + Flatten(chunks))[..|grown|] == grown;
      if |grown| <= MAX_REQUEST {
        UndecidedStream(parse, grown, chunks[1..]);
      }
    }
  }

  /** Nothing was decided on what the first `k` reads brought. */
  ghost predicate StillOpen<R>(parse: seq<byte> -> Parse<R>, chunks: seq<seq<byte>>, k: nat) {
    k <= |chunks| && forall j :: 0 < j <= k ==>
      |Flatten(chunks[..j])| <= MAX_REQUEST && parse(Flatten(chunks[..j])) == Eof
  }

  lemma {:induction false} FlattenAppends(chunks: seq<seq<byte>>, chunk: seq<byte>)
    ensures Flatten(chunks + [chunk]) == Flatten(chunks) + chunk
  {
    if chunks != [] {
      assert (chunks + [chunk])[1..] == chunks[1..] + [chunk];
      FlattenAppends(chunks[1..], chunk);
    }
  }

  lemma {:induction false} OpenReads<R>(parse: seq<byte> -> Parse<R>, chunks: seq<seq<byte>>, ending: Ending, k: nat)
    requires StillOpen(parse, chunks, k)
    ensures Read(parse, [], chunks, ending) == Read(parse, Flatten(chunks[..k]), chunks[k..], ending)
  {
    if k == 0 {
      assert chunks[0..] == chunks;
    } else {
      OpenReads(parse, chunks, ending, k - 1);
      assert chunks[..k] == chunks[..k - 1] + [chunks[k - 1]];
      FlattenAppends(chunks[..k - 1], chunks[k - 1]);
      assert chunks[k - 1..][1..] == chunks[k..];
    }
  }

  /**
   * The first read that exceeds the size limit, or whose bytes with all before them parse to something other than a
   * wish for more, decides: too long, the request, or malformed. If none does, the end of the stream decides.
   */
  lemma FirstDecisionCounts<R>(parse: seq<byte> -> Parse<R>, chunks: seq<seq<byte>>, ending: Ending, k: nat)
    requires StillOpen(parse, chunks, k)
    ensures k < |chunks| ==>
              var bytes := Flatten(chunks[..k + 1]);
              && (|bytes| > MAX_REQUEST ==> Read(parse, [], chunks, ending) == TooLong)
              && (|bytes| <= MAX_REQUEST && parse(bytes).Parsed? ==>
                    Read(parse, [], chunks, ending) == Request(parse(bytes).request))
              && (|bytes| <= MAX_REQUEST && parse(bytes).Bad? ==> Read(parse, [], chunks, ending) == Malformed)
    ensures k == |chunks| ==>
              Read(parse, [], chunks, ending)
              == if ending == Broken then ReadFailed else if Flatten(chunks) == [] then NoRequest else Incomplete
  {
    OpenReads(parse, chunks, ending, k);
    if k < |chunks| {
      assert chunks[..k + 1] == chunks[..k] + [chunks[k]];
      FlattenAppends(chunks[..k], chunks[k]);
    } else {
      assert chunks[..k] == chunks;
    }
  }
}
