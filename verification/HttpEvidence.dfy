/**
 Task-local HTTP evidence: the chunked reader that observes one exact URL, and the independent validator that a
 cached record must pass. What the connection does, and where it or the disk fails, is an input.
 */
module HttpEvidence {
  import opened Records
  import opened Text

  type Byte = b: int | 0 <= b < 256

  const MAX_BODY := 1024 * 1024
  const READ_SIZE := 64 * 1024

  // ----- UTF-8, section 4 of RFC 3629 ----------------------------------------------------------

  /** The grammar: a sequence of well-formed characters. */
  predicate WellFormedUtf8(s: seq<Byte>) {
    if s == [] then true
    else if s[0] <= 0x7f then WellFormedUtf8(s[1..])
    else if 0xc2 <= s[0] <= 0xdf then |s| >= 2 && Continuation(s[1]) && WellFormedUtf8(s[2..])
    else if 0xe0 <= s[0] <= 0xef then
      |s| >= 3 && Second(s[0], s[1]) && Continuation(s[2]) && WellFormedUtf8(s[3..])
    else if 0xf0 <= s[0] <= 0xf4 then
      |s| >= 4 && Second(s[0], s[1]) && Continuation(s[2]) && Continuation(s[3]) && WellFormedUtf8(s[4..])
    else false
  }

  predicate Continuation(b: Byte) { 0x80 <= b <= 0xbf }

  /** The second byte of a three or four byte character: no overlong forms, no surrogates, nothing above U+10FFFF. */
  predicate Second(first: Byte, b: Byte) {
    (if first == 0xe0 then 0xa0 else if first == 0xf0 then 0x90 else 0x80) <= b
      <= (if first == 0xed then 0x9f else if first == 0xf4 then 0x8f else 0xbf)
  }

  /** An incremental decoder between two bytes: how many bytes a character still needs and what the next may be. */
  datatype Decoder = Ground | Pending(more: nat, first: Byte, second: bool) | Broken

  function Feed(d: Decoder, b: Byte): Decoder {
    match d
    case Ground =>
      if b <= 0x7f then Ground
      else if 0xc2 <= b <= 0xdf then Pending(1, b, false)
      else if 0xe0 <= b <= 0xef then Pending(2, b, true)
      else if 0xf0 <= b <= 0xf4 then Pending(3, b, true)
      else Broken
    case Pending(more, first, second) =>
      if !(if second then Second(first, b) else Continuation(b)) then Broken
      else if more <= 1 then Ground
      else Pending(more - 1, first, false)
    case Broken => Broken
  }

  function Decode(d: Decoder, s: seq<Byte>): Decoder
    decreases |s|
  {
    if s == [] then d else Decode(Feed(d, s[0]), s[1..])
  }

  lemma {:induction false} DecodeAppend(d: Decoder, a: seq<Byte>, b: seq<Byte>)
    ensures Decode(d, a + b) == Decode(Decode(d, a), b)
    decreases |a|
  {
    if a == [] {
      assert a + b == b;
    } else {
      assert (a + b)[1..] == a[1..] + b;
      DecodeAppend(Feed(d, a[0]), a[1..], b);
    }
  }

  lemma {:induction false} BrokenStays(s: seq<Byte>)
    ensures Decode(Broken, s) == Broken
  {
    if s != [] { BrokenStays(s[1..]); }
  }

  lemma DecodeSteps(d: Decoder, s: seq<Byte>)
    ensures |s| >= 1 ==> Decode(d, s) == Decode(Feed(d, s[0]), s[1..])
    ensures |s| >= 2 ==> Decode(d, s) == Decode(Feed(Feed(d, s[0]), s[1]), s[2..])
  {
    if |s| >= 2 { assert s[1..][1..] == s[2..]; }
  }

  /** Feeding the bytes one by one accepts exactly the grammar. */
  lemma {:induction false} DecoderAcceptsGrammar(s: seq<Byte>)
    ensures Decode(Ground, s) == Ground <==> WellFormedUtf8(s)
    decreases |s|
  {
    hide Decode;
    if s == [] {
      assert Decode(Ground, []) == Ground by { DecodeNothing(Ground); }
    } else {
      DecodeSteps(Ground, s);
      BrokenStays(s[1..]);
      if s[0] <= 0x7f {
        DecoderAcceptsGrammar(s[1..]);
      } else if 0xc2 <= s[0] <= 0xf4 {
        var width := if s[0] <= 0xdf then 2 else if s[0] <= 0xef then 3 else 4;
        if |s| >= 2 {
          BrokenStays(s[2..]);
          DecodeSteps(Feed(Feed(Ground, s[0]), s[1]), s[2..]);
          if |s| >= 3 { BrokenStays(s[3..]); assert s[2..][1..] == s[3..]; }
          if |s| >= 4 { BrokenStays(s[4..]); assert s[2..][2..] == s[4..]; }
        }
        if |s| >= width { DecoderAcceptsGrammar(s[width..]); } else { Unfinished(s, width); }
      }
    }
  }

  lemma DecodeNothing(d: Decoder)
    ensures Decode(d, []) == d
  {
  }

  lemma Unfinished(s: seq<Byte>, width: nat)
    requires 0 < |s| < width <= 4 && 0xc2 <= s[0] <= 0xf4
    requires width == if s[0] <= 0xdf then 2 else if s[0] <= 0xef then 3 else 4
    ensures Decode(Ground, s) != Ground
  {
    hide Second, Continuation;
    DecodeSteps(Ground, s);
    if |s| >= 2 {
      DecodeSteps(Feed(Feed(Ground, s[0]), s[1]), s[2..]);
      BrokenStays(s[2..]);
      if |s| == 3 { assert s[2..][1..] == []; }
    }
  }

  // ----- the reader --------------------------------------------------------------------------

  datatype Issue = HttpError | RedirectForbidden | TransportError | Oversize | NonUtf8 | ContentLengthMismatch
                 | InvalidContentLength | InvalidHttpStatus | AuthenticatedProxyForbidden

  /** What an observation records; `hashed` stands for the SHA-256 of those bytes. */
  datatype Item = Item(status: Option<int>, hashed: seq<Byte>, bodyBytes: nat, complete: bool, utf8: bool,
                       issue: Option<Issue>)

  /** How opening the URL went; a status that is not an integer is None. */
  datatype Opening = ProxyForbidden | OpenFails | Opened(status: Option<int>, contentLength: Option<string>)

  /** Where the transport or the disk fails, if anywhere: reading or writing the chunk with that index. A failing
      write may have left part of the chunk in the file. */
  datatype Fault = NoFault | ReadFault(at: nat) | WriteFault(at: nat, partial: nat)

  /** An observation raises when its file cannot be created, when the last flush or sync fails, or when the length in
      the header has more digits than the interpreter converts; it leaves no file, or a file with some bytes. */
  datatype Ending = Returns | Raises(left: Option<seq<Byte>>)

  function Joined(chunks: seq<seq<Byte>>): seq<Byte> {
    if chunks == [] then [] else Joined(chunks[..|chunks| - 1]) + chunks[|chunks| - 1]
  }

  function Requested(received: nat): nat {
    if received > MAX_BODY then 0 else if MAX_BODY - received + 1 < READ_SIZE then MAX_BODY - received + 1
      else READ_SIZE
  }

  /** Reads return some bytes, at most as many as were asked for, until the stream ends. */
  ghost predicate Chunking(chunks: seq<seq<Byte>>) {
    forall i :: 0 <= i < |chunks| && |Joined(chunks[..i])| <= MAX_BODY ==>
      0 < |chunks[i]| <= Requested(|Joined(chunks[..i])|)
  }

  predicate Digits(s: string) {
    s != "" && forall i :: 0 <= i < |s| ==> '0' <= s[i] <= '9'
  }

  function Value(s: string): nat
    requires forall i :: 0 <= i < |s| ==> '0' <= s[i] <= '9'
  {
    if s == "" then 0
    else
      assert '0' <= s[|s| - 1];
      10 * Value(s[..|s| - 1]) + (s[|s| - 1] as int - '0' as int)
  }

  predicate ValidStatus(status: Option<int>) { status.Some? && 100 <= status.value <= 599 }

  /** The issue that is known before the body is read. */
  function HeaderIssue(o: Opening): Option<Issue>
    requires o.Opened?
  {
    if o.contentLength.Some? && !Digits(o.contentLength.value) then Some(InvalidContentLength)
    else if !ValidStatus(o.status) then Some(InvalidHttpStatus)
    else None
  }

  predicate LengthDiffers(o: Opening, n: nat)
    requires o.Opened?
  {
    o.contentLength.Some? && Digits(o.contentLength.value) && Value(o.contentLength.value) != n
  }

  /** The decimal digits of `n`, after any number of zeros. */
  predicate Denotes(s: string, n: nat) {
    var k := |s| - |Decimal(n)|;
    k >= 0 && s[k..] == Decimal(n) && forall i :: 0 <= i < k ==> s[i] == '0'
  }

  lemma DenotesLast(t: string, c: char, n: nat)
    requires t != "" && '0' <= c <= '9'
    ensures Denotes(t + [c], n) <==>
            && c as int - '0' as int == n % 10
            && if n < 10 then forall i :: 0 <= i < |t| ==> t[i] == '0' else Denotes(t, n / 10)
  {
    var s, m := t + [c], |Decimal(n)|;
    if n < 10 {
      assert Decimal(n) == [Digit(n)] && s[|t|..] == [c];
      assert forall i :: 0 <= i < |t| ==> s[i] == t[i];
    } else {
      var front := Decimal(n / 10);
      assert Decimal(n) == front + [Digit(n % 10)];
      if |t| >= |front| {
        var k := |t| - |front|;
        assert s[k..] == t[k..] + [c];
        assert t[k..] + [c] == front + [Digit(n % 10)] <==> t[k..] == front && c == Digit(n % 10) by {
          if t[k..] + [c] == front + [Digit(n % 10)] {
            assert (t[k..] + [c])[..|front|] == t[k..] && (t[k..] + [c])[|front|] == c;
          }
        }
        assert forall i :: 0 <= i < k ==> s[i] == t[i];
      }
    }
  }

  lemma ZeroDenotes(t: string)
    requires t != ""
    ensures Denotes(t, 0) <==> forall i :: 0 <= i < |t| ==> t[i] == '0'
  {
    assert Decimal(0) == "0";
    assert t[|t| - 1..] == [t[|t| - 1]];
  }

  lemma OneDigit(s: string, n: nat)
    requires |s| == 1 && '0' <= s[0] <= '9'
    ensures Denotes(s, n) <==> s[0] as int - '0' as int == n
  {
    if n < 10 {
      assert Decimal(n) == [Digit(n)] && s[0..] == [s[0]];
    } else {
      assert |Decimal(n)| == |Decimal(n / 10)| + 1;
    }
  }

  /** A digit string has the value that it denotes. */
  lemma {:induction false} ValueDenotes(s: string, n: nat)
    requires Digits(s)
    ensures Value(s) == n <==> Denotes(s, n)
    decreases |s|
  {
    var t, c := s[..|s| - 1], s[|s| - 1];
    var d := c as int - '0' as int;
    assert s == t + [c];
    if t == "" {
      OneDigit(s, n);
      assert Value(t) == 0;
    } else {
      hide Denotes;
      DenotesLast(t, c, n);
      assert Value(s) == n <==> d == n % 10 && Value(t) == n / 10;
      ValueDenotes(t, n / 10);
      if n < 10 { ZeroDenotes(t); }
    }
  }

  /** The header gives no length, or the length of the body. */
  predicate LengthAgrees(o: Opening, n: nat)
    requires o.Opened?
  {
    o.contentLength.None? || (Digits(o.contentLength.value) && Denotes(o.contentLength.value, n))
  }

  predicate Malformed(o: Opening)
    requires o.Opened?
  {
    && o.contentLength.Some?
    && (|| o.contentLength.value == ""
        || exists i :: 0 <= i < |o.contentLength.value| && !('0' <= o.contentLength.value[i] <= '9'))
  }

  /** What the record of an uninterrupted stream says, one issue at a time. */
  ghost predicate SaysStream(o: Opening, stream: seq<Byte>, item: Item)
    requires o.Opened?
  {
    var valid := o.status.Some? && 100 <= o.status.value <= 599;
    var whole := |stream| <= MAX_BODY && !Malformed(o) && valid && LengthAgrees(o, |stream|);
    && item.hashed == (if |stream| <= MAX_BODY then stream else stream[..MAX_BODY])
    && item.bodyBytes == |item.hashed| && item.status == (if valid then o.status else None)
    && (item.utf8 <==> WellFormedUtf8(item.hashed)) && (item.complete <==> whole)
    && (item.issue == Some(Oversize) <==> |stream| > MAX_BODY)
    && (item.issue == Some(InvalidContentLength) <==> |stream| <= MAX_BODY && Malformed(o))
    && (item.issue == Some(InvalidHttpStatus) <==> |stream| <= MAX_BODY && !Malformed(o) && !valid)
    && (item.issue == Some(ContentLengthMismatch) <==>
          |stream| <= MAX_BODY && !Malformed(o) && valid && !LengthAgrees(o, |stream|))
    && (item.issue == Some(NonUtf8) <==> whole && !item.utf8)
    && (item.issue == Some(RedirectForbidden) <==> whole && item.utf8 && 300 <= o.status.value < 400)
    && (item.issue == Some(HttpError) <==> whole && item.utf8 && !(200 <= o.status.value < 400))
    && (item.issue.None? <==> whole && item.utf8 && 200 <= o.status.value < 300)
  }

  lemma ExpectedSays(o: Opening, stream: seq<Byte>)
    requires o.Opened?
    ensures SaysStream(o, stream, Expected(o, stream))
  {
    hide WellFormedUtf8, Denotes, Value;
    if o.contentLength.Some? && Digits(o.contentLength.value) { ValueDenotes(o.contentLength.value, |stream|); }
  }

  /** The last classification: only a record without an issue is looked at again. */
  function Classified(item: Item): Item {
    if item.issue.Some? then item
    else if !item.utf8 then item.(issue := Some(NonUtf8))
    else if item.status.Some? && 300 <= item.status.value < 400 then item.(issue := Some(RedirectForbidden))
    else if item.status.Some? && !(200 <= item.status.value < 300) then item.(issue := Some(HttpError))
    else item
  }

  /** What observing a whole stream without a fault must record, however it was chunked. */
  function Expected(o: Opening, stream: seq<Byte>): Item {
    var body := if |stream| <= MAX_BODY then stream else stream[..MAX_BODY];
    var utf8 := WellFormedUtf8(body);
    match o
    case ProxyForbidden => Item(None, [], 0, false, true, Some(AuthenticatedProxyForbidden))
    case OpenFails => Item(None, [], 0, false, true, Some(TransportError))
    case Opened(status, _) =>
      var code := if ValidStatus(status) then status else None;
      var issue := if |stream| > MAX_BODY then Some(Oversize)
                   else if HeaderIssue(o).Some? then HeaderIssue(o)
                   else if LengthDiffers(o, |body|) then Some(ContentLengthMismatch)
                   else None;
      Classified(Item(code, body, |body|, issue.None?, utf8, issue))
  }

  /** The fault takes place: its chunk is asked for, or written, before the stream ends or turns out oversized. */
  predicate Hits(chunks: seq<seq<Byte>>, fault: Fault) {
    match fault
    case NoFault => false
    case ReadFault(at) => at <= |chunks| && |Joined(chunks[..at])| <= MAX_BODY
    case WriteFault(at, _) => at < |chunks| && |Joined(chunks[..at])| <= MAX_BODY
  }

  /** The record for any connection, chunking and fault: a fault keeps what was read before it. */
  function Recorded(o: Opening, chunks: seq<seq<Byte>>, fault: Fault): Item {
    if !o.Opened? || !Hits(chunks, fault) then Expected(o, Joined(chunks))
    else
      var body := Joined(chunks[..fault.at]);
      Item(if ValidStatus(o.status) then o.status else None, body, |body|, false, WellFormedUtf8(body),
           Some(TransportError))
  }

  /** What a failing write left in the file beyond the record. */
  function Remainder(o: Opening, chunks: seq<seq<Byte>>, fault: Fault): seq<Byte> {
    if !o.Opened? || !Hits(chunks, fault) || !fault.WriteFault? then []
    else
      var room := MAX_BODY - |Joined(chunks[..fault.at])|;
      var chunk := chunks[fault.at];
      var limit := if |chunk| < room then |chunk| else room;
      chunk[..if fault.partial < limit then fault.partial else limit]
  }

  /** A write that fails after some of its chunk reached a file that still had room. */
  predicate Breaks(o: Opening, chunks: seq<seq<Byte>>, fault: Fault) {
    && o.Opened? && fault.WriteFault? && fault.partial > 0
    && fault.at < |chunks| && |Joined(chunks[..fault.at])| < MAX_BODY
  }

  predicate Interrupting(issue: Issue) {
    || issue.Oversize? || issue.TransportError? || issue.ContentLengthMismatch? || issue.InvalidContentLength?
    || issue.InvalidHttpStatus? || issue.AuthenticatedProxyForbidden?
  }

  predicate In200(status: Option<int>) { status.Some? && 200 <= status.value < 300 }

  /** The record checks of the validator, against the bytes it finds in the file. */
  predicate Checks(item: Item, body: seq<Byte>) {
    && item.bodyBytes <= MAX_BODY
    && (item.status.Some? ==> 100 <= item.status.value <= 599)
    && |body| == item.bodyBytes && body == item.hashed && WellFormedUtf8(body) == item.utf8
    && (item.issue.None? ==> item.complete && item.utf8 && In200(item.status))
    && (item.issue == Some(NonUtf8) ==> !item.utf8)
    && (item.issue == Some(HttpError) ==>
          item.complete && item.utf8 && item.status.Some? && !(200 <= item.status.value < 400))
    && (item.issue == Some(RedirectForbidden) ==>
          item.complete && item.utf8 && item.status.Some? && 300 <= item.status.value < 400)
    && (item.issue.Some? && Interrupting(item.issue.value) ==> !item.complete)
    && (item.issue == Some(Oversize) ==> item.bodyBytes == MAX_BODY)
  }

  // ----- observing ---------------------------------------------------------------------------

  lemma {:induction false} JoinedPrefix(chunks: seq<seq<Byte>>, k: nat)
    requires k <= |chunks|
    ensures |Joined(chunks[..k])| <= |Joined(chunks)| && Joined(chunks)[..|Joined(chunks[..k])|] == Joined(chunks[..k])
    decreases |chunks|
  {
    if k == |chunks| {
      assert chunks[..k] == chunks;
    } else {
      var front := chunks[..|chunks| - 1];
      assert front[..k] == chunks[..k];
      JoinedPrefix(front, k);
    }
  }

  lemma JoinedNext(chunks: seq<seq<Byte>>, i: nat)
    requires i < |chunks|
    ensures Joined(chunks[..i + 1]) == Joined(chunks[..i]) + chunks[i]
  {
    assert chunks[..i + 1][..i] == chunks[..i];
  }

  /** What the read loop leaves behind. */
  datatype Reading = Reading(body: seq<Byte>, file: seq<Byte>, decoder: Decoder, issue: Option<Issue>, complete: bool)

  ghost predicate Sound(r: Reading) {
    |r.body| <= MAX_BODY && r.decoder == Decode(Ground, r.body)
  }

  /** Reads chunk after chunk; one byte more than fits is asked for, so that an oversized body is noticed. */
  method ReadBody(chunks: seq<seq<Byte>>, fault: Fault, issue: Option<Issue>) returns (r: Reading)
    requires Chunking(chunks)
    ensures Sound(r) && (r.complete <==> r.issue.None?)
    ensures Hits(chunks, fault) ==> r.body == Joined(chunks[..fault.at]) && r.issue == Some(TransportError)
    ensures !Hits(chunks, fault) ==> && r.body == (if |Joined(chunks)| <= MAX_BODY then Joined(chunks)
                                                   else Joined(chunks)[..MAX_BODY])
                                     && r.issue == (if |Joined(chunks)| <= MAX_BODY then issue else Some(Oversize))
    ensures forall o: Opening :: o.Opened? ==> r.file == r.body + Remainder(o, chunks, fault)
  {
    hide Decode, Chunking, Joined;
    var body: seq<Byte>, d := [], Ground;
    assert Joined(chunks[..0]) == [] by { NothingJoined(chunks); }
    assert Decode(Ground, body) == Ground by { DecodeNothing(Ground); }
    var i := 0;
    while i < |chunks|
      invariant 0 <= i <= |chunks| && body == Joined(chunks[..i]) && |body| <= MAX_BODY && d == Decode(Ground, body)
      invariant fault.NoFault? || fault.at >= i
    {
      if fault == ReadFault(i) { return Reading(body, body, d, Some(TransportError), false); }
      ChunkWithin(chunks, i);
      JoinedNext(chunks, i);
      var oversize := |chunks[i]| > MAX_BODY - |body|;
      var chunk := if oversize then chunks[i][..MAX_BODY - |body|] else chunks[i];
      if fault.WriteFault? && fault.at == i {
        var left := if fault.partial < |chunk| then fault.partial else |chunk|;
        return Reading(body, body + chunk[..left], d, Some(TransportError), false);
      }
      DecodeAppend(Ground, body, chunk);
      body, d := body + chunk, Decode(d, chunk);
      i := i + 1;
      if oversize {
        JoinedPrefix(chunks, i);
        assert body == Joined(chunks[..i])[..MAX_BODY];
        OverflowEnds(chunks, fault, i);
        return Reading(body, body, d, Some(Oversize), false);
      }
    }
    assert chunks[..i] == chunks;
    if fault == ReadFault(i) { return Reading(body, body, d, Some(TransportError), false); }
    return Reading(body, body, d, issue, issue.None?);
  }

  lemma NothingJoined(chunks: seq<seq<Byte>>)
    ensures Joined(chunks[..0]) == []
  {
  }

  lemma ChunkWithin(chunks: seq<seq<Byte>>, i: nat)
    requires Chunking(chunks) && i < |chunks| && |Joined(chunks[..i])| <= MAX_BODY
    ensures 0 < |chunks[i]| <= MAX_BODY - |Joined(chunks[..i])| + 1
  {
  }

  /** Later chunks only matter while the body is not full. */
  lemma OverflowEnds(chunks: seq<seq<Byte>>, fault: Fault, i: nat)
    requires i <= |chunks| && |Joined(chunks[..i])| > MAX_BODY && (!fault.NoFault? ==> fault.at >= i)
    ensures !Hits(chunks, fault) && |Joined(chunks)| > MAX_BODY
  {
    hide Joined;
    JoinedPrefix(chunks, i);
    if !fault.NoFault? && fault.at <= |chunks| {
      assert chunks[..fault.at][..i] == chunks[..i];
      JoinedPrefix(chunks[..fault.at], i);
    }
  }

  lemma RemainderBreaks(o: Opening, chunks: seq<seq<Byte>>, fault: Fault)
    requires Chunking(chunks)
    ensures Remainder(o, chunks, fault) != [] <==> Breaks(o, chunks, fault)
    ensures forall body: seq<Byte> :: body + Remainder(o, chunks, fault) == body <==> !Breaks(o, chunks, fault)
  {
    hide Joined;
    if o.Opened? && fault.WriteFault? && Hits(chunks, fault) { ChunkWithin(chunks, fault.at); }
    forall body: seq<Byte> ensures body + Remainder(o, chunks, fault) == body <==> Remainder(o, chunks, fault) == [] {
      if body + Remainder(o, chunks, fault) == body { assert |body + Remainder(o, chunks, fault)| == |body|; }
    }
  }

  /** An observation that returns has recorded and filed exactly what is specified for every connection, chunking and
      fault, and its record passes the validator exactly unless a failing write left bytes behind. */
  method Observe(o: Opening, chunks: seq<seq<Byte>>, fault: Fault, ending: Ending)
    returns (item: Option<Item>, file: Option<seq<Byte>>)
    requires Chunking(chunks)
    ensures item.Some? <==> ending.Returns?
    ensures ending.Raises? ==> file == ending.left
    ensures ending.Returns? ==>
              && item == Some(Recorded(o, chunks, fault))
              && file == Some(item.value.hashed + Remainder(o, chunks, fault))
              && (Checks(item.value, file.value) <==> !Breaks(o, chunks, fault))
              && (o.Opened? && !Hits(chunks, fault) ==> SaysStream(o, Joined(chunks), item.value))
  {
    if o.Opened? { ExpectedSays(o, Joined(chunks)); }
    hide SaysStream, Hits;
    if ending.Raises? { return None, ending.left; }
    var record, bytes := Observed(o, chunks, fault);
    return Some(record), Some(bytes);
  }

  method Observed(o: Opening, chunks: seq<seq<Byte>>, fault: Fault) returns (item: Item, file: seq<Byte>)
    requires Chunking(chunks)
    ensures item == Recorded(o, chunks, fault) && file == item.hashed + Remainder(o, chunks, fault)
    ensures Checks(item, file) <==> !Breaks(o, chunks, fault)
  {
    hide Decode, Chunking, Joined, WellFormedUtf8, Digits, Value, Remainder, Breaks;
    RemainderBreaks(o, chunks, fault);
    match o
    case ProxyForbidden =>
      NoBytes(o, chunks, fault);
      return Item(None, [], 0, false, true, Some(AuthenticatedProxyForbidden)), [];
    case OpenFails =>
      NoBytes(o, chunks, fault);
      return Item(None, [], 0, false, true, Some(TransportError)), [];
    case Opened(status, contentLength) =>
      var issue: Option<Issue> := None;
      var code: Option<int> := None;
      if !ValidStatus(status) { issue := Some(InvalidHttpStatus); } else { code := status; }
      if contentLength.Some? && !Digits(contentLength.value) { issue := Some(InvalidContentLength); }
      var r := ReadBody(chunks, fault, issue);
      DecoderAcceptsGrammar(r.body);
      var utf8 := r.decoder == Ground;
      item := Item(code, r.body, |r.body|, r.complete, utf8, r.issue);
      if r.complete && LengthDiffers(o, |r.body|) {
        item := item.(complete := false, issue := Some(ContentLengthMismatch));
      }
      return Classified(item), r.file;
  }

  lemma NoBytes(o: Opening, chunks: seq<seq<Byte>>, fault: Fault)
    ensures WellFormedUtf8([])
    ensures !o.Opened? ==> Remainder(o, chunks, fault) == [] && [] + Remainder(o, chunks, fault) == []
  {
  }

  const FULL_CHUNK: seq<Byte> := seq(READ_SIZE, _ => 65)

  /** A full chunk, larger than the writer's buffer, of which one page reached the file before the write failed: the
      record says nothing was read. */
  lemma FailedWriteBreaksRecord()
    ensures var o, chunks, fault := Opened(Some(200), None), [FULL_CHUNK], WriteFault(0, 4096);
            && Chunking(chunks) && Breaks(o, chunks, fault)
            && Recorded(o, chunks, fault).bodyBytes == 0 && |Remainder(o, chunks, fault)| == 4096
            && !Checks(Recorded(o, chunks, fault), Remainder(o, chunks, fault))
  {
    var chunks: seq<seq<Byte>> := [FULL_CHUNK];
    assert chunks[..0] == [];
    assert Joined(chunks[..0]) == [];
  }

  // ----- snapshots ---------------------------------------------------------------------------

  /** `_status`: available when every observation is complete, valid text and a success. */
  predicate Available(items: seq<Item>) {
    forall i :: 0 <= i < |items| ==> items[i].issue.None? && items[i].complete && items[i].utf8
                                     && In200(items[i].status)
  }

  /** On records that pass the validator, the status only depends on the issues. */
  lemma AvailableWithoutIssues(items: seq<Item>, files: seq<seq<Byte>>)
    requires |files| == |items| && forall i :: 0 <= i < |items| ==> Checks(items[i], files[i])
    ensures Available(items) <==> forall i :: 0 <= i < |items| ==> items[i].issue.None?
  {
    hide WellFormedUtf8;
  }

  datatype FileName = BodyName(index: nat) | ReceiptName

  /** One observation of a receipt: its URL, its body file and its record. */
  datatype Observation = Observation(url: string, body: FileName, item: Item)

  /** `request` stands for the digest of the payload and the thread, which name the snapshot directory. */
  datatype Request = Request(identity: string, urls: seq<string>)
  datatype Receipt = Receipt(request: Request, observations: seq<Observation>, available: bool, readable: seq<FileName>)

  datatype Content = Bytes(bytes: seq<Byte>) | Document(receipt: Receipt)
  type Directory = map<FileName, Content>

  function Items(observations: seq<Observation>): (r: seq<Item>)
    ensures |r| == |observations| && forall i :: 0 <= i < |r| ==> r[i] == observations[i].item
  {
    seq(|observations|, i requires 0 <= i < |observations| => observations[i].item)
  }

  /** `_source_context`: the bodies that may be read as sources. */
  function Readable(observations: seq<Observation>): seq<FileName> {
    if observations == [] then []
    else
      var o := observations[|observations| - 1];
      Readable(observations[..|observations| - 1]) + if o.item.complete && o.item.utf8 then [o.body] else []
  }

  /** Exactly the bodies of complete, valid text are readable, in order. */
  lemma {:induction false} ReadableExactly(observations: seq<Observation>, name: FileName)
    ensures name in Readable(observations) <==>
            exists i :: && 0 <= i < |observations| && observations[i].body == name
                        && observations[i].item.complete && observations[i].item.utf8
    decreases |observations|
  {
    if observations != [] {
      var last := |observations| - 1;
      var front := observations[..last];
      ReadableExactly(front, name);
      if name in Readable(front) {
        var i :| 0 <= i < last && front[i].body == name && front[i].item.complete && front[i].item.utf8;
        assert observations[i].body == name;
      }
      if i :| && 0 <= i < last && observations[i].body == name
              && observations[i].item.complete && observations[i].item.utf8 {
        assert front[i].body == name;
      }
    }
  }

  /** One observation against its URL and its own body file. */
  predicate Confirmed(d: Directory, o: Observation, url: string, index: nat) {
    && o.url == url && o.body == BodyName(index)
    && BodyName(index) in d && d[BodyName(index)].Bytes? && |d[BodyName(index)].bytes| <= MAX_BODY
    && Checks(o.item, d[BodyName(index)].bytes)
  }

  function Names(n: nat): set<FileName> {
    {ReceiptName} + set i | 0 <= i < n :: BodyName(i)
  }

  /** The whole validator: the receipt belongs to the request, every body is what its record says, nothing else is in
      the directory, and the summary fields follow from the records. */
  predicate Consistent(d: Directory, request: Request) {
    && ReceiptName in d && d[ReceiptName].Document?
    && var receipt := d[ReceiptName].receipt;
    && receipt.request == request && |receipt.observations| == |request.urls|
    && (forall i :: 0 <= i < |request.urls| ==> Confirmed(d, receipt.observations[i], request.urls[i], i))
    && d.Keys == Names(|request.urls|)
    && receipt.available == Available(Items(receipt.observations)) && receipt.readable == Readable(receipt.observations)
  }

  /** A receipt that is served belongs to its request and determines every file of its directory: no body can be
      changed, added or removed. */
  lemma ReceiptDetermines(d: Directory, d': Directory, request: Request, request': Request)
    requires Consistent(d, request) && Consistent(d', request') && d[ReceiptName] == d'[ReceiptName]
    ensures request == request' && d == d'
  {
    hide Available, Readable, WellFormedUtf8;
    forall name | name in d ensures d[name] == d'[name] {
      if name != ReceiptName {
        assert Confirmed(d, d[ReceiptName].receipt.observations[name.index], request.urls[name.index], name.index);
        assert Confirmed(d', d[ReceiptName].receipt.observations[name.index], request.urls[name.index], name.index);
      }
    }
  }

  /** What a receipt that is served says about each of its bodies. */
  lemma ServedBodies(d: Directory, request: Request, i: nat)
    requires Consistent(d, request) && i < |request.urls|
    ensures i < |d[ReceiptName].receipt.observations| && BodyName(i) in d && d[BodyName(i)].Bytes?
    ensures var o, bytes := d[ReceiptName].receipt.observations[i], d[BodyName(i)].bytes;
            && o.url == request.urls[i] && o.item.hashed == bytes && o.item.bodyBytes == |bytes| <= MAX_BODY
            && (o.item.utf8 <==> WellFormedUtf8(bytes))
                 && (o.body in d[ReceiptName].receipt.readable <==> o.item.complete && o.item.utf8)
  {
    hide Available, WellFormedUtf8, Readable;
    var receipt := d[ReceiptName].receipt;
    assert Confirmed(d, receipt.observations[i], request.urls[i], i);
    ReadableExactly(receipt.observations, BodyName(i));
    forall j | 0 <= j < |request.urls| ensures receipt.observations[j].body == BodyName(j) {
      assert Confirmed(d, receipt.observations[j], request.urls[j], j);
    }
  }

  method Cached(d: Directory, request: Request) returns (r: Option<Receipt>)
    ensures r == if Consistent(d, request) then Some(d[ReceiptName].receipt) else None
  {
    hide Confirmed, Available, Readable;
    if ReceiptName !in d || !d[ReceiptName].Document? { return None; }
    var receipt := d[ReceiptName].receipt;
    if receipt.request != request || |receipt.observations| != |request.urls| { return None; }
    var names, i := {ReceiptName}, 0;
    while i < |request.urls|
      invariant 0 <= i <= |request.urls| && names == Names(i)
      invariant forall j :: 0 <= j < i ==> Confirmed(d, receipt.observations[j], request.urls[j], j)
    {
      names := names + {BodyName(i)};
      if !Confirmed(d, receipt.observations[i], request.urls[i], i) { return None; }
      i := i + 1;
    }
    if d.Keys != names || receipt.available != Available(Items(receipt.observations))
      || receipt.readable != Readable(receipt.observations) {
      return None;
    }
    return Some(receipt);
  }

  /** What one URL does: how it opens, how it is chunked, what fails and how the observation ends. */
  datatype Exchange = Exchange(opening: Opening, chunks: seq<seq<Byte>>, fault: Fault, ending: Ending)

  /** Writing the receipt and syncing it: done, or raised with no receipt, some of it or all of it in the directory. */
  datatype Filing = Synced | Absent | Torn(bytes: seq<Byte>) | Unsynced

  datatype Reply = Served(receipt: Receipt, cached: bool) | Unknown

  function ObservationOf(request: Request, exchanges: seq<Exchange>, i: nat): Observation
    requires i < |request.urls| == |exchanges|
  {
    Observation(request.urls[i], BodyName(i), Recorded(exchanges[i].opening, exchanges[i].chunks, exchanges[i].fault))
  }

  function Observations(request: Request, exchanges: seq<Exchange>): (r: seq<Observation>)
    requires |request.urls| == |exchanges|
    ensures |r| == |exchanges| && forall i :: 0 <= i < |r| ==> r[i] == ObservationOf(request, exchanges, i)
  {
    seq(|exchanges|, i requires 0 <= i < |exchanges| => ObservationOf(request, exchanges, i))
  }

  ghost predicate Intact(exchanges: seq<Exchange>) {
    forall i :: 0 <= i < |exchanges| ==> !Breaks(exchanges[i].opening, exchanges[i].chunks, exchanges[i].fault)
  }

  /** The body file exists and agrees with its record exactly when the exchange left nothing behind. */
  ghost predicate Filed(d: Directory, item: Item, e: Exchange, index: nat) {
    && BodyName(index) in d && d[BodyName(index)].Bytes?
    && (Checks(item, d[BodyName(index)].bytes) <==> !Breaks(e.opening, e.chunks, e.fault))
  }

  ghost predicate AllReturn(exchanges: seq<Exchange>) {
    forall i :: 0 <= i < |exchanges| ==> exchanges[i].ending.Returns?
  }

  /** Reads once, or verifies an earlier observation without the network. A fresh read is served exactly when nothing
      raised and no failing write left bytes behind, and then every later read serves the same receipt. A later read
      also serves a receipt that was written but not synced. */
  method ReadEvidence(existing: Option<Directory>, request: Request, exchanges: seq<Exchange>, filing: Filing)
    returns (reply: Reply, after: Directory)
    requires |exchanges| == |request.urls| && forall e :: e in exchanges ==> Chunking(e.chunks)
    ensures existing.Some? ==> after == existing.value && (reply.Served? <==> Consistent(after, request))
    ensures existing.None? ==> (reply.Served? <==> AllReturn(exchanges) && Intact(exchanges) && filing.Synced?)
    ensures existing.None? ==>
              (Consistent(after, request) <==> AllReturn(exchanges) && Intact(exchanges)
                                               && (filing.Synced? || filing.Unsynced?))
    ensures existing.None? && AllReturn(exchanges) && (filing.Synced? || filing.Unsynced?) ==>
              && ReceiptName in after && after[ReceiptName].Document?
              && after[ReceiptName].receipt.observations == Observations(request, exchanges)
    ensures reply.Served? ==> Consistent(after, request) && reply == Served(after[ReceiptName].receipt, existing.Some?)
  {
    hide Chunking, Recorded, Remainder, Breaks, Checks, Consistent, Available, Readable;
    if existing.Some? {
      after := existing.value;
      var receipt := Cached(after, request);
      return if receipt.Some? then Served(receipt.value, true) else Unknown, after;
    }
    var observations: seq<Observation>, files: Directory, i := [], map[], 0;
    while i < |request.urls|
      invariant 0 <= i <= |request.urls| && |observations| == i && files.Keys == Names(i) - {ReceiptName}
      invariant forall j :: 0 <= j < i ==> exchanges[j].ending.Returns?
      invariant forall j :: 0 <= j < i ==> observations[j] == ObservationOf(request, exchanges, j)
      invariant forall j :: 0 <= j < i ==> Filed(files, observations[j].item, exchanges[j], j)
    {
      var e := exchanges[i];
      assert e in exchanges;
      var item, file := Observe(e.opening, e.chunks, e.fault, e.ending);
      if file.Some? { files := files[BodyName(i) := Bytes(file.value)]; }
      if item.None? {
        NoReceipt(files, request);
        return Unknown, files;
      }
      observations := observations + [Observation(request.urls[i], BodyName(i), item.value)];
      i := i + 1;
    }
    assert observations == Observations(request, exchanges);
    var receipt := Receipt(request, observations, Available(Items(observations)), Readable(observations));
    match filing
    case Absent =>
      NoReceipt(files, request);
      return Unknown, files;
    case Torn(bytes) =>
      after := files[ReceiptName := Bytes(bytes)];
      NoReceipt(after, request);
      return Unknown, after;
    case Unsynced =>
      after := files[ReceiptName := Document(receipt)];
      FreshSnapshot(after, request, exchanges);
      return Unknown, after;
    case Synced =>
      after := files[ReceiptName := Document(receipt)];
      FreshSnapshot(after, request, exchanges);
      var cached := Cached(after, request);
      return if cached.Some? then Served(cached.value, false) else Unknown, after;
  }

  lemma NoReceipt(d: Directory, request: Request)
    requires ReceiptName in d ==> d[ReceiptName].Bytes?
    ensures !Consistent(d, request)
  {
  }

  lemma FreshSnapshot(d: Directory, request: Request, exchanges: seq<Exchange>)
    requires |exchanges| == |request.urls| && ReceiptName in d && d[ReceiptName].Document?
             && d.Keys == Names(|request.urls|)
    requires var r := d[ReceiptName].receipt;
             r == Receipt(request, Observations(request, exchanges), Available(Items(r.observations)),
                          Readable(r.observations))
    requires forall j :: 0 <= j < |exchanges| ==> Filed(d, ObservationOf(request, exchanges, j).item, exchanges[j], j)
    ensures Consistent(d, request) <==> Intact(exchanges)
  {
    hide Recorded, Breaks, Checks, Available, Readable;
    var r := d[ReceiptName].receipt;
    forall j | 0 <= j < |exchanges|
      ensures Confirmed(d, r.observations[j], request.urls[j], j) <==>
                !Breaks(exchanges[j].opening, exchanges[j].chunks, exchanges[j].fault)
    {
      CheckedWithin(r.observations[j].item, d[BodyName(j)].bytes);
    }
  }

  lemma CheckedWithin(item: Item, bytes: seq<Byte>)
    ensures Checks(item, bytes) ==> |bytes| <= MAX_BODY
  {
  }
}
