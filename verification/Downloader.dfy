/**
 Downloading one file, resumably.

 The network is a parameter: a server answers the n-th GET of a file, and is
 bound only by what RFC 9110 says of ranges. The remote content is fixed during
 a download and destinations are distinct paths; a local disk operation other
 than removing a partial file always succeeds.
 */
module Downloader {
  import opened Options

  newtype Byte = x: int | 0 <= x < 256
  type Bytes = seq<Byte>

  const U64_MAX: nat := 0xFFFF_FFFF_FFFF_FFFF
  type U64 = x: nat | x <= U64_MAX

  const MAX_RETRIES: nat := 10
  const RETRY_BASE_DELAY: nat := 2    // seconds
  const RETRY_MAX_DELAY: nat := 60

  // ----- retry delays -----

  function Pow2(n: nat): (p: nat)
    ensures p > 0
  {
    if n == 0 then 1 else 2 * Pow2(n - 1)
  }

  // The delay requested before the given retry, counted from 1.
  function Delay(retry: nat): nat
    requires retry > 0
  {
    var d := RETRY_BASE_DELAY * Pow2(retry - 1);
    if d < RETRY_MAX_DELAY then d else RETRY_MAX_DELAY
  }

  function TotalDelay(retries: nat): nat {
    if retries == 0 then 0 else TotalDelay(retries - 1) + Delay(retries)
  }

  lemma {:induction false} DelaysGrow(a: nat, b: nat)
    requires 0 < a <= b
    ensures Delay(a) <= Delay(b) <= RETRY_MAX_DELAY
    decreases b - a
  {
    if a < b {
      DelaysGrow(a, b - 1);
      assert Pow2(b - 1) == 2 * Pow2(b - 2);
    }
  }

  lemma {:induction false} TotalDelayBound(retries: nat)
    requires retries <= MAX_RETRIES
    ensures TotalDelay(retries) <= 362
    ensures retries == MAX_RETRIES ==> TotalDelay(retries) == 362
    decreases MAX_RETRIES - retries
  {
    if retries < MAX_RETRIES {
      TotalDelayBound(retries + 1);
    } else {
      assert Pow2(4) == 16;
      assert TotalDelay(4) == 30;
      assert Pow2(5) == 32 && Pow2(6) == 64 && Pow2(7) == 128 && Pow2(8) == 256 && Pow2(9) == 512;
      assert TotalDelay(6) == 122 && TotalDelay(8) == 242;
    }
  }

  // ----- the network -----

  datatype Ending = Finished | Broken

  datatype Reply =
    | ConnectionError
    | Refused(status: nat)
    | Body(range: Option<nat>,        // None for 200; for 206 where the enclosed range ends
           chunks: seq<Bytes>,
           ending: Ending,
           announced: Option<U64>)    // size of the whole file, from Content-Length or Content-Range

  // One GET and what happens around it: polls of the cancelled flag, and
  // whether removing the partial file works should it come to that.
  datatype Exchange = Exchange(cancelledBefore: bool, reply: Reply, cancelledAtChunk: nat,
                               cancelledAsleep: bool, removes: bool)

  // Answers the n-th GET of a file; asked > 0 means "Range: bytes=asked-".
  type Server = (nat, nat) -> Exchange

  function Flat(chunks: seq<Bytes>): Bytes {
    if chunks == [] then [] else Flat(chunks[..|chunks| - 1]) + chunks[|chunks| - 1]
  }

  predicate IsPrefix(p: Bytes, whole: Bytes) {
    |p| <= |whole| && whole[..|p|] == p
  }

  // A file to download: its content, the lengths HEAD gives in the first pass and
  // later, the server, and what else the environment decides: whether the file
  // finds the download cancelled, and whether an oversized partial file can be removed.
  datatype Source = Source(content: Bytes, firstHead: U64, head: U64, server: Server, cancelled: bool, removes: bool)

  // The content a body encloses ends here.
  function EndOf(reply: Reply, remote: Bytes): nat {
    if reply.Body? && reply.range.Some? then reply.range.value else |remote|
  }

  // RFC 9110: 416 answers a Range that starts at or after the end (section
  // 15.5.17); 206 encloses what was asked for or a part of it (15.3.7), taken to
  // start where asked; 200 may ignore the Range (14.2). A stream that ends cleanly
  // has sent all that the body encloses.
  predicate Honest(reply: Reply, asked: nat, remote: Bytes) {
    match reply
    case ConnectionError => true
    case Refused(status) => !(200 <= status < 300) && (status == 416 ==> asked > 0 && asked >= |remote|)
    case Body(range, chunks, ending, announced) =>
      && (range.Some? ==> 0 < asked < range.value <= |remote|)
      && var sent := if range.Some? then remote[asked..range.value] else remote;
      && IsPrefix(Flat(chunks), sent)
      && (ending.Finished? ==> Flat(chunks) == sent)
      && (announced.Some? ==> announced.value == |remote|)
  }

  ghost predicate HonestServer(server: Server, remote: Bytes) {
    forall n, asked :: Honest(server(n, asked).reply, asked, remote)
  }

  predicate IsTransient(status: nat) {
    500 <= status < 600 || status == 408 || status == 429
  }

  lemma {:induction false} FlatTake(chunks: seq<Bytes>, n: nat)
    requires n <= |chunks|
    ensures IsPrefix(Flat(chunks[..n]), Flat(chunks))
    decreases |chunks|
  {
    if n == |chunks| {
      assert chunks[..n] == chunks;
    } else {
      var init := chunks[..|chunks| - 1];
      assert init[..n] == chunks[..n];
      FlatTake(init, n);
    }
  }

  lemma FlatNext(before: Bytes, chunks: seq<Bytes>, n: nat)
    requires n < |chunks|
    ensures Flat(chunks[..n + 1]) == Flat(chunks[..n]) + chunks[n]
    ensures before + Flat(chunks[..n + 1]) == before + Flat(chunks[..n]) + chunks[n]
  {
    assert chunks[..n + 1][..n] == chunks[..n];
  }

  // ----- what a download delivers -----

  function Content(file: Option<Bytes>): Bytes {
    if file.Some? then file.value else []
  }

  // HEAD gives exactly the length of the partial file, which is then promoted.
  predicate IsPromoted(p: Bytes, head: nat) {
    head > 0 && |p| == head
  }

  /** What an earlier partial file p and a HEAD length can lead to: a partial file
      of exactly that length is taken as complete; otherwise remote content is
      appended, or fetched anew. */
  predicate Delivers(p: Bytes, head: nat, remote: Bytes, got: Bytes) {
    if IsPromoted(p, head) then got == p
    else
      |got| <= |remote|
      && (got == remote[..|got|] || (|p| <= |got| && got == p + remote[|p|..|got|]))
  }

  /** An earlier partial download of the same content ends as that content,
      exactly if the length of a promoted file was right or the last reply ran to
      the end of the content. The status of HEAD is not checked, so its length may
      be that of an error page; the range a 206 encloses is not checked either. */
  lemma DeliversRemote(p: Bytes, head: nat, remote: Bytes, got: Bytes, end: nat)
    requires IsPrefix(p, remote) && Delivers(p, head, remote, got)
    requires !IsPromoted(p, head) ==> |got| == end
    ensures got == remote <==> (if IsPromoted(p, head) then head else end) == |remote|
  {
    if !IsPromoted(p, head) && |p| <= |got| && got == p + remote[|p|..|got|] {
      assert got == remote[..|got|];
    }
    assert remote[..|remote|] == remote;
  }

  // ----- the transfer -----

  datatype Failure = DownloadCancelled | ConnectionFailed | HttpStatus(status: nat) | StreamInterrupted
  datatype Outcome = Ok | Err(failure: Failure)

  function SaturatingSub(a: nat, b: nat): nat {
    if a < b then 0 else a - b
  }

  function SaturatingAdd(a: U64, b: U64): U64 {
    if a + b > U64_MAX then U64_MAX else a + b
  }

  // set_len on a file: cuts it, or fills it with zeros.
  function SetLen(file: Bytes, n: nat): Bytes {
    if n <= |file| then file[..n] else file + seq(n - |file|, _ => 0 as Byte)
  }

  // The first n bytes of the partial file are kept, then remote content.
  predicate Tracks(part: Option<Bytes>, n: nat, kept: Bytes, remote: Bytes) {
    && |kept| <= n <= |Content(part)|
    && (n > |kept| ==> n <= |remote|)
    && Content(part)[..n] == if n > |kept| then kept + remote[|kept|..n] else kept
  }

  // Appending what an honest server sends keeps track.
  lemma TracksAppended(start: Bytes, kept: Bytes, remote: Bytes, end: nat, received: Bytes)
    requires Tracks(Some(start), |start|, kept, remote) && |start| <= end <= |remote|
    requires IsPrefix(received, remote[|start|..end])
    ensures Tracks(Some(start + received), |start + received|, kept, remote)
  {
    if |received| > 0 {
      assert received == remote[|start|..|start| + |received|];
      if |start| > |kept| {
        assert kept + remote[|kept|..|start| + |received|]
            == kept + remote[|kept|..|start|] + remote[|start|..|start| + |received|];
      }
    } else {
      assert start + received == start;
    }
  }

  class File {
    var content: Option<Bytes>

    constructor (content: Option<Bytes>)
      ensures this.content == content
    {
      this.content := content;
    }

    method Remove(succeeds: bool)
      modifies this
      ensures content == if succeeds then None else old(content)
    {
      if succeeds {
        content := None;
      }
    }

    method RenameTo(destination: File)
      requires this != destination
      modifies this, destination
      ensures destination.content == old(content) && content == None
    {
      destination.content, content := content, None;
    }

    // Opened for appending, then cut to n bytes if it has another length.
    method OpenAt(n: nat)
      modifies this
      ensures content == Some(SetLen(Content(old(content)), n))
    {
      if content.None? {
        content := Some([]);
      }
      assert content.value[..|content.value|] == content.value;
      if |content.value| != n {
        content := Some(SetLen(content.value, n));
      }
    }
  }

  // The entry of the downloads map and the running byte count.
  class Progress {
    var cumulative: nat         // cumulative_bytes
    var totalBytes: U64         // total_bytes
    var bytesDownloaded: nat    // bytes_downloaded
    ghost var overshot: bool    // some report exceeded the total shown with it

    constructor (totalSizeHint: U64)
      ensures cumulative == 0 && totalBytes == totalSizeHint && bytesDownloaded == 0 && !overshot
    {
      cumulative, totalBytes, bytesDownloaded, overshot := 0, totalSizeHint, 0, false;
    }

    method Report()
      modifies this`bytesDownloaded, this`overshot
      ensures bytesDownloaded == cumulative && overshot == (old(overshot) || cumulative > totalBytes)
    {
      bytesDownloaded := cumulative;
      overshot := overshot || cumulative > totalBytes;
    }
  }

  // ----- what an exchange leads to -----

  // Why an exchange that was not cancelled before did not give the file.
  function FailureOf(e: Exchange): Option<Failure> {
    match e.reply
    case ConnectionError => Some(ConnectionFailed)
    case Refused(status) => if status == 416 then None else Some(HttpStatus(status))
    case Body(_, chunks, ending, _) =>
      if e.cancelledAtChunk < |chunks| then Some(DownloadCancelled)
      else if ending.Broken? then Some(StreamInterrupted)
      else None
  }

  predicate IsTransientFailure(failure: Failure) {
    failure.ConnectionFailed? || failure.StreamInterrupted? || (failure.HttpStatus? && IsTransient(failure.status))
  }

  predicate FailsTransiently(e: Exchange) {
    !e.cancelledBefore && FailureOf(e).Some? && IsTransientFailure(FailureOf(e).value)
  }

  // From where the next GET asks.
  function AskedAfter(asked: nat, reply: Reply): nat {
    match reply
    case ConnectionError => asked
    case Refused(status) => if status == 416 then 0 else asked
    case Body(range, chunks, _, _) => (if range.Some? then asked else 0) + |Flat(chunks)|
  }

  datatype Attempt = Attempt(asked: nat, exchange: Exchange)

  // Another GET may follow.
  predicate Continues(e: Exchange) {
    !e.cancelledBefore && (e.reply == Refused(416) || (FailsTransiently(e) && !e.cancelledAsleep))
  }

  // The attempts lead from a GET that asks from first on to one that asks from asked on.
  predicate Leads(server: Server, first: nat, trace: seq<Attempt>, asked: nat) {
    if trace == [] then asked == first
    else
      var init, last := trace[..|trace| - 1], trace[|trace| - 1];
      && Leads(server, first, init, last.asked)
      && last.exchange == server(|init|, last.asked)
      && Continues(last.exchange) && asked == AskedAfter(last.asked, last.exchange.reply)
  }

  // The GETs of one file: what each asked for and what came of it.
  predicate IsTrace(server: Server, first: nat, trace: seq<Attempt>) {
    trace != []
    && var init, last := trace[..|trace| - 1], trace[|trace| - 1];
    Leads(server, first, init, last.asked) && last.exchange == server(|init|, last.asked)
  }

  function Last(trace: seq<Attempt>): Exchange
    requires trace != []
  {
    trace[|trace| - 1].exchange
  }

  function Failures(trace: seq<Attempt>): nat {
    if trace == [] then 0 else Failures(trace[..|trace| - 1]) + if FailsTransiently(Last(trace)) then 1 else 0
  }

  // No cancel was seen, nothing failed for good, and no more than ten attempts
  // failed transiently.
  predicate AllWell(trace: seq<Attempt>) {
    Failures(trace) <= MAX_RETRIES && EachWell(trace)
  }

  predicate EachWell(trace: seq<Attempt>) {
    trace == [] || (EachWell(trace[..|trace| - 1]) && IsWell(Last(trace)))
  }

  predicate IsWell(e: Exchange) {
    !e.cancelledBefore && (FailureOf(e).Some? ==> FailsTransiently(e) && !e.cancelledAsleep)
  }

  // The error of a download that ends with this exchange.
  function EndFailure(e: Exchange, exhausted: bool): Failure {
    if e.cancelledBefore || FailureOf(e).None? then DownloadCancelled
    else if IsTransientFailure(FailureOf(e).value) && !exhausted then DownloadCancelled
    else FailureOf(e).value
  }

  function FirstAsked(p: Bytes, head: nat): nat {
    if head > 0 && |p| > head then 0 else |p|
  }

  // A promoted file needs no GET.
  predicate TraceOf(source: Source, p: Bytes, trace: seq<Attempt>) {
    if IsPromoted(p, source.head) then trace == []
    else IsTrace(source.server, FirstAsked(p, source.head), trace)
  }

  lemma {:induction false} LeadsAreWell(server: Server, first: nat, trace: seq<Attempt>, asked: nat)
    requires Leads(server, first, trace, asked)
    ensures EachWell(trace)
  {
    if trace != [] {
      LeadsAreWell(server, first, trace[..|trace| - 1], trace[|trace| - 1].asked);
    }
  }

  lemma AttemptAdded(trace: seq<Attempt>, attempt: Attempt)
    ensures var trace' := trace + [attempt];
            && trace'[..|trace|] == trace && Last(trace') == attempt.exchange
            && Failures(trace') == Failures(trace) + (if FailsTransiently(attempt.exchange) then 1 else 0)
            && (EachWell(trace') <==> EachWell(trace) && IsWell(attempt.exchange))
  {
    assert (trace + [attempt])[..|trace|] == trace;
  }

  lemma TraceLeadsOn(server: Server, first: nat, trace: seq<Attempt>, asked: nat)
    requires Leads(server, first, trace, asked)
    ensures var e := server(|trace|, asked);
            var trace' := trace + [Attempt(asked, e)];
            && IsTrace(server, first, trace')
            && (Continues(e) ==> Leads(server, first, trace', AskedAfter(asked, e.reply)))
  {
    var trace' := trace + [Attempt(asked, server(|trace|, asked))];
    var init, last := trace'[..|trace'| - 1], trace'[|trace'| - 1];
    assert init == trace && last == Attempt(asked, server(|trace|, asked));
  }

  // A further attempt: all is well as long as it is.
  lemma TraceExtended(server: Server, first: nat, trace: seq<Attempt>, asked: nat)
    requires Leads(server, first, trace, asked)
    ensures var e := server(|trace|, asked);
            var trace' := trace + [Attempt(asked, e)];
            && IsTrace(server, first, trace') && Last(trace') == e
            && Failures(trace') == Failures(trace) + (if FailsTransiently(e) then 1 else 0)
            && (AllWell(trace') <==> IsWell(e) && Failures(trace') <= MAX_RETRIES)
            && (Continues(e) ==> Leads(server, first, trace', AskedAfter(asked, e.reply)))
  {
    LeadsAreWell(server, first, trace, asked);
    AttemptAdded(trace, Attempt(asked, server(|trace|, asked)));
    TraceLeadsOn(server, first, trace, asked);
  }

  // ----- one exchange -----

  method AppendChunk(partial: File, progress: Progress, ghost before: Bytes, chunks: seq<Bytes>, c: nat)
    requires c < |chunks| && partial.content == Some(before + Flat(chunks[..c]))
    modifies partial, progress`cumulative, progress`bytesDownloaded, progress`overshot
    ensures partial.content == Some(before + Flat(chunks[..c + 1]))
    ensures |Flat(chunks[..c + 1])| == |Flat(chunks[..c])| + |chunks[c]| <= |Flat(chunks)|
    ensures progress.cumulative == old(progress.cumulative) + |chunks[c]|
    ensures progress.overshot == (old(progress.overshot) || progress.cumulative > progress.totalBytes)
  {
    FlatNext(before, chunks, c);
    FlatTake(chunks, c + 1);
    partial.content := Some(partial.content.value + chunks[c]);
    progress.cumulative := progress.cumulative + |chunks[c]|;
    progress.Report();
  }

  // What the partial file is once a whole body was appended to it.
  lemma BodyTracks(reply: Reply, asked: nat, remote: Bytes, kept: Bytes, before: Bytes)
    requires reply.Body? && Honest(reply, asked, remote)
    requires |before| == (if reply.range.Some? then asked else 0) && Tracks(Some(before), |before|, kept, remote)
    ensures var got := before + Flat(reply.chunks);
            && Tracks(Some(got), |got|, kept, remote)
            && (reply.ending.Finished? ==> |got| == EndOf(reply, remote))
  {
    assert remote[0..|remote|] == remote;
    TracksAppended(before, kept, remote, EndOf(reply, remote), Flat(reply.chunks));
  }

  method ReceiveChunks(partial: File, progress: Progress, exchange: Exchange, chunks: seq<Bytes>, start: nat)
    returns (cancelled: bool, fileBytes: nat)
    requires partial.content.Some? && start == |partial.content.value|
    modifies partial, progress`cumulative, progress`bytesDownloaded, progress`overshot
    ensures cancelled <==> exchange.cancelledAtChunk < |chunks|
    ensures !cancelled ==>
              && partial.content == Some(old(partial.content).value + Flat(chunks))
              && fileBytes == start + |Flat(chunks)|
              && progress.cumulative == old(progress.cumulative) + |Flat(chunks)|
    ensures old(progress.cumulative) + |Flat(chunks)| <= progress.totalBytes
            ==> progress.overshot == old(progress.overshot)
  {
    fileBytes := start;
    cancelled := false;
    ghost var before := partial.content.value;
    assert before + Flat(chunks[..0]) == before;
    for c := 0 to |chunks|
      invariant partial.content == Some(before + Flat(chunks[..c])) && fileBytes == start + |Flat(chunks[..c])|
      invariant progress.cumulative == old(progress.cumulative) + |Flat(chunks[..c])|
      invariant exchange.cancelledAtChunk >= c
      invariant old(progress.cumulative) + |Flat(chunks)| <= progress.totalBytes
                ==> progress.overshot == old(progress.overshot)
    {
      if exchange.cancelledAtChunk == c {
        partial.Remove(exchange.removes);
        cancelled := true;
        return;
      }
      AppendChunk(partial, progress, before, chunks, c);
      fileBytes := fileBytes + |chunks[c]|;
    }
    assert chunks[..|chunks|] == chunks;
  }

  // Appends the body of a response to the partial file, of which start bytes count.
  method ReceiveBody(partial: File, progress: Progress, remote: Bytes, ghost kept: Bytes, ghost asked: nat,
                     start: nat, exchange: Exchange)
    returns (cancelled: bool, fileBytes: nat)
    requires exchange.reply.Body? && Honest(exchange.reply, asked, remote)
    requires start == if exchange.reply.range.Some? then asked else 0
    requires progress.cumulative >= start && Tracks(partial.content, start, kept, remote)
    modifies partial, progress`cumulative, progress`bytesDownloaded, progress`overshot
    ensures cancelled <==> exchange.cancelledAtChunk < |exchange.reply.chunks|
    ensures !cancelled ==>
              && partial.content.Some? && fileBytes == |partial.content.value| == start + |Flat(exchange.reply.chunks)|
              && Tracks(partial.content, fileBytes, kept, remote)
              && progress.cumulative == old(progress.cumulative) - start + fileBytes
              && (exchange.reply.ending.Finished? ==> fileBytes == EndOf(exchange.reply, remote))
    // Reports keep within the total if the whole file does.
    ensures old(progress.cumulative) - start + |remote| <= progress.totalBytes
            ==> progress.overshot == old(progress.overshot)
  {
    partial.OpenAt(start);
    BodyTracks(exchange.reply, asked, remote, kept, partial.content.value);
    BodyFits(exchange.reply, asked, remote);
    cancelled, fileBytes := ReceiveChunks(partial, progress, exchange, exchange.reply.chunks, start);
  }

  lemma BodyFits(reply: Reply, asked: nat, remote: Bytes)
    requires reply.Body? && Honest(reply, asked, remote)
    ensures (if reply.range.Some? then asked else 0) + |Flat(reply.chunks)| <= |remote|
  {
  }

  // Forgets the bytes received so far.
  method StartOver(partial: File, progress: Progress, fileBytes: nat, removes: bool)
    modifies partial, progress`cumulative
    ensures fileBytes <= old(progress.cumulative) ==> progress.cumulative == old(progress.cumulative) - fileBytes
    ensures partial.content == if removes then None else old(partial.content)
  {
    progress.cumulative := SaturatingSub(progress.cumulative, fileBytes);
    partial.Remove(removes);
  }

  // Before a body is received: a server that ignored the range sends everything,
  // and a length it announces completes a total that is not known yet.
  method BeginBody(partial: File, progress: Progress, remote: Bytes, ghost kept: Bytes,
                   fileBytes: nat, fileTotal: U64, exchange: Exchange)
    returns (start: nat, fileTotal': U64, ghost kept': Bytes)
    requires exchange.reply.Body? && Honest(exchange.reply, fileBytes, remote)
    requires fileBytes <= progress.cumulative && Tracks(partial.content, fileBytes, kept, remote)
    modifies partial, progress`cumulative, progress`totalBytes
    ensures start == if exchange.reply.range.Some? then fileBytes else 0
    ensures progress.cumulative == old(progress.cumulative) - fileBytes + start
    ensures Tracks(partial.content, start, kept', remote) && (kept' == kept || kept' == [])
    ensures fileTotal > 0 || exchange.reply.announced.None? ==>
              fileTotal' == fileTotal && progress.totalBytes == old(progress.totalBytes)
    ensures fileTotal == 0 && exchange.reply.announced.Some? ==>
              && fileTotal' == exchange.reply.announced.value
              && progress.totalBytes == SaturatingAdd(old(progress.totalBytes), fileTotal')
  {
    start, fileTotal', kept' := fileBytes, fileTotal, kept;
    if fileBytes > 0 && exchange.reply.range.None? {
      StartOver(partial, progress, fileBytes, exchange.removes);
      start, kept' := 0, [];
    }
    if fileTotal == 0 && exchange.reply.announced.Some? {
      fileTotal' := exchange.reply.announced.value;
      progress.totalBytes := SaturatingAdd(progress.totalBytes, fileTotal');
    }
  }

  // What to do after one GET.
  datatype Next = Complete | Again | Retry(failure: Failure) | Stop(failure: Failure)

  // 416 for a file that is already as long as expected means it is complete.
  predicate IsComplete(fileBytes: nat, fileTotal: nat) {
    fileTotal > 0 && fileBytes == fileTotal
  }

  function NextAfter(e: Exchange, fileBytes: nat, fileTotal: nat): Next {
    match FailureOf(e)
    case Some(failure) => if IsTransientFailure(failure) then Retry(failure) else Stop(failure)
    case None => if e.reply.Refused? && !IsComplete(fileBytes, fileTotal) then Again else Complete
  }

  method HandleBody(partial: File, progress: Progress, remote: Bytes, ghost kept: Bytes,
                    fileBytes: nat, fileTotal: U64, exchange: Exchange)
    returns (next: Next, fileBytes': nat, fileTotal': U64, ghost kept': Bytes)
    requires exchange.reply.Body? && Honest(exchange.reply, fileBytes, remote)
    requires fileBytes <= progress.cumulative && Tracks(partial.content, fileBytes, kept, remote)
    modifies partial, progress
    ensures next == NextAfter(exchange, fileBytes, fileTotal)
    ensures !next.Stop? ==>
              && progress.cumulative == old(progress.cumulative) - fileBytes + fileBytes'
              && Tracks(partial.content, fileBytes', kept', remote) && (kept' == kept || kept' == [])
              && partial.content.Some? && fileBytes' == |partial.content.value|
              && fileBytes' == AskedAfter(fileBytes, exchange.reply)
    ensures next.Complete? ==> fileBytes' == EndOf(exchange.reply, remote)
    ensures fileTotal' == fileTotal || (fileTotal == 0 && fileTotal' == |remote|)
    ensures old(progress.totalBytes) <= progress.totalBytes
    ensures old(progress.cumulative) - fileBytes + |remote| <= old(progress.totalBytes)
            ==> progress.overshot == old(progress.overshot)
  {
    fileBytes', fileTotal', kept' := BeginBody(partial, progress, remote, kept, fileBytes, fileTotal, exchange);
    var cancelled: bool;
    cancelled, fileBytes' := ReceiveBody(partial, progress, remote, kept', fileBytes, fileBytes', exchange);
    next := if cancelled then Stop(DownloadCancelled)
            else if exchange.reply.ending.Finished? then Complete
            else Retry(StreamInterrupted);
  }

  // Handles the reply to a GET that asked from fileBytes on.
  method HandleReply(partial: File, progress: Progress, remote: Bytes, ghost kept: Bytes,
                     fileBytes: nat, fileTotal: U64, exchange: Exchange)
    returns (next: Next, fileBytes': nat, fileTotal': U64, ghost kept': Bytes)
    requires Honest(exchange.reply, fileBytes, remote) && |remote| <= U64_MAX
    requires fileBytes <= progress.cumulative && Tracks(partial.content, fileBytes, kept, remote)
    requires fileBytes > 0 ==> fileBytes == |Content(partial.content)|
    requires IsComplete(fileBytes, fileTotal) && fileBytes == |kept| ==> fileTotal == |remote|
    modifies partial, progress
    ensures next == NextAfter(exchange, fileBytes, fileTotal)
    ensures !next.Stop? ==>
              && progress.cumulative == old(progress.cumulative) - fileBytes + fileBytes'
              && Tracks(partial.content, fileBytes', kept', remote) && (kept' == kept || kept' == [])
              && (fileBytes' > 0 ==> fileBytes' == |Content(partial.content)|)
    ensures !next.Stop? && !next.Complete? ==> fileBytes' == AskedAfter(fileBytes, exchange.reply)
    ensures next.Complete? ==>
              partial.content.Some? && |partial.content.value| == fileBytes' == EndOf(exchange.reply, remote)
    ensures fileTotal' == fileTotal || (fileTotal == 0 && fileTotal' == |remote|)
    ensures old(progress.totalBytes) <= progress.totalBytes
    ensures old(progress.cumulative) - fileBytes + |remote| <= old(progress.totalBytes)
            ==> progress.overshot == old(progress.overshot)
  {
    fileBytes', fileTotal', kept' := fileBytes, fileTotal, kept;
    match exchange.reply {
      case ConnectionError =>
        next := Retry(ConnectionFailed);
      case Refused(status) =>
        if status == 416 {
          if fileTotal > 0 && fileBytes == fileTotal {
            next := Complete;
          } else {
            StartOver(partial, progress, fileBytes, exchange.removes);
            fileBytes', kept' := 0, [];
            next := Again;
          }
        } else {
          next := if IsTransient(status) then Retry(HttpStatus(status)) else Stop(HttpStatus(status));
        }
      case Body(_, _, _, _) =>
        next, fileBytes', fileTotal', kept' :=
          HandleBody(partial, progress, remote, kept, fileBytes, fileTotal, exchange);
    }
  }

  // After a transient failure: give up, or count a retry and sleep.
  method BackOff(retries: nat, slept: nat, failure: Failure, exchange: Exchange)
    returns (stop: Option<Failure>, retries': nat, slept': nat)
    requires retries <= MAX_RETRIES && slept == TotalDelay(retries)
    ensures retries == MAX_RETRIES ==> stop == Some(failure) && retries' == retries
    ensures retries < MAX_RETRIES ==>
              retries' == retries + 1 && stop == if exchange.cancelledAsleep then Some(DownloadCancelled) else None
    ensures slept' == TotalDelay(retries') <= 362 && (retries == MAX_RETRIES ==> slept' == 362)
  {
    retries', slept', stop := retries, slept, None;
    TotalDelayBound(retries);
    if retries >= MAX_RETRIES {
      stop := Some(failure);
      return;
    }
    retries' := retries + 1;
    slept' := slept + Delay(retries');
    TotalDelayBound(retries');
    if exchange.cancelledAsleep {
      stop := Some(DownloadCancelled);
    }
  }

  // ----- one file -----

  // The file that a completed transfer leaves.
  lemma CompleteDelivers(first: Bytes, kept: Bytes, head: nat, remote: Bytes, got: Bytes)
    requires (kept == first || kept == []) && !IsPromoted(first, head)
    requires |got| <= |remote| && Tracks(Some(got), |got|, kept, remote)
    ensures Delivers(first, head, remote, got)
  {
    assert got[..|got|] == got;
    if |got| > |kept| {
      assert remote[0..|got|] == remote[..|got|];
    } else {
      assert kept + remote[|kept|..|got|] == kept;
    }
  }

  ghost predicate HonestSource(source: Source) {
    |source.content| <= U64_MAX && HonestServer(source.server, source.content)
  }

  // The variables of the loop.
  datatype Transfer = Transfer(fileBytes: nat, fileTotal: U64, retries: nat, slept: nat, gets: nat)

  datatype Verdict = Done | GoOn | Failed(failure: Failure)

  // They fit the attempts made so far, of which the first asked from start on.
  predicate Fit(t: Transfer, source: Source, start: nat, trace: seq<Attempt>) {
    && Leads(source.server, start, trace, t.fileBytes) && t.gets == |trace|
    && t.retries == Failures(trace) <= MAX_RETRIES && t.slept == TotalDelay(t.retries) <= 362
    && t.gets <= 2 * t.retries + (if t.fileBytes > 0 then 0 else 1)
    && (t.fileTotal == source.head || (source.head == 0 && t.fileTotal == |source.content|))
  }

  predicate Lower(t': Transfer, t: Transfer) {
    t.retries < t'.retries <= MAX_RETRIES || (t'.retries == t.retries && t'.fileBytes == 0 < t.fileBytes)
  }

  // The partial file has the bytes that count: kept ones first, then remote ones.
  predicate Holds(partial: Option<Bytes>, t: Transfer, source: Source, first: Bytes, kept: Bytes) {
    && Tracks(partial, t.fileBytes, kept, source.content) && (kept == first || kept == [])
    && (t.fileBytes > 0 ==> t.fileBytes == |Content(partial)|)
  }

  // How a transfer ended, given its attempts.
  predicate Ended(verdict: Verdict, source: Source, start: nat, trace: seq<Attempt>) {
    && IsTrace(source.server, start, trace)
    && (verdict.Done? <==> AllWell(trace))
    && (verdict.Failed? ==> verdict.failure == EndFailure(Last(trace), Failures(trace) > MAX_RETRIES))
  }

  // What it left in the partial file.
  predicate Completed(partial: Option<Bytes>, t: Transfer, source: Source, first: Bytes, trace: seq<Attempt>) {
    && trace != [] && FailureOf(Last(trace)).None?
    && partial.Some? && t.fileBytes == |partial.value| == EndOf(Last(trace).reply, source.content)
    && Delivers(first, source.head, source.content, partial.value)
  }

  predicate EffortOk(t: Transfer, trace: seq<Attempt>) {
    && t.gets <= |trace| <= 2 * MAX_RETRIES + 2 && t.slept <= 362
    && (Failures(trace) > MAX_RETRIES ==> t.slept == 362)
  }

  // The loop goes on after this exchange.
  lemma PassGoesOn(source: Source, start: nat, trace: seq<Attempt>, t: Transfer, t': Transfer)
    requires HonestSource(source) && Fit(t, source, start, trace)
    requires var e := source.server(t.gets, t.fileBytes);
             && Continues(e) && t'.fileBytes == AskedAfter(t.fileBytes, e.reply) && t'.gets == t.gets + 1
             && t'.retries == t.retries + (if FailsTransiently(e) then 1 else 0) <= MAX_RETRIES
             && t'.slept == TotalDelay(t'.retries) <= 362
             && (t'.fileTotal == t.fileTotal || (t.fileTotal == 0 && t'.fileTotal == |source.content|))
    ensures var trace' := trace + [Attempt(t.fileBytes, source.server(t.gets, t.fileBytes))];
            Fit(t', source, start, trace') && EffortOk(t', trace') && Lower(t', t)
  {
    assert Honest(source.server(t.gets, t.fileBytes).reply, t.fileBytes, source.content);
    TraceExtended(source.server, start, trace, t.fileBytes);
  }

  // It ends with this exchange.
  lemma PassEnds(source: Source, start: nat, trace: seq<Attempt>, t: Transfer, t': Transfer, verdict: Verdict)
    requires Fit(t, source, start, trace)
    requires t.gets <= t'.gets <= t.gets + 1
    requires var e := source.server(t.gets, t.fileBytes);
             var failures := t.retries + if FailsTransiently(e) then 1 else 0;
             && (verdict.Done? <==> IsWell(e) && failures <= MAX_RETRIES) && !verdict.GoOn?
             && (verdict.Failed? ==> verdict.failure == EndFailure(e, failures > MAX_RETRIES))
             && t'.slept <= 362 && (failures > MAX_RETRIES ==> t'.slept == 362)
    ensures var trace' := trace + [Attempt(t.fileBytes, source.server(t.gets, t.fileBytes))];
            Ended(verdict, source, start, trace') && EffortOk(t', trace')
  {
    TraceExtended(source.server, start, trace, t.fileBytes);
  }

  // A transient failure: the loop gives up or goes on.
  method JudgeFailure(source: Source, t: Transfer, fileBytes: nat, fileTotal: U64, exchange: Exchange,
                      ghost start: nat, ghost trace: seq<Attempt>)
    returns (verdict: Verdict, t': Transfer)
    requires HonestSource(source) && Fit(t, source, start, trace)
    requires exchange == source.server(t.gets, t.fileBytes) && FailsTransiently(exchange)
    requires fileBytes == AskedAfter(t.fileBytes, exchange.reply)
    requires fileTotal == t.fileTotal || (t.fileTotal == 0 && fileTotal == |source.content|)
    ensures !verdict.Done? && t'.fileBytes == fileBytes
    ensures var trace' := trace + [Attempt(t.fileBytes, exchange)];
            && EffortOk(t', trace')
            && if verdict.GoOn? then Fit(t', source, start, trace') && Lower(t', t)
               else Ended(verdict, source, start, trace')
  {
    var stop, retries, slept := BackOff(t.retries, t.slept, FailureOf(exchange).value, exchange);
    t' := Transfer(fileBytes, fileTotal, retries, slept, t.gets + 1);
    if stop.Some? {
      verdict := Failed(stop.value);
      PassEnds(source, start, trace, t, t', verdict);
    } else {
      verdict := GoOn;
      PassGoesOn(source, start, trace, t, t');
    }
  }

  // What a handled reply means for the loop.
  method Judge(source: Source, t: Transfer, next: Next, fileBytes: nat, fileTotal: U64, exchange: Exchange,
               ghost start: nat, ghost trace: seq<Attempt>)
    returns (verdict: Verdict, t': Transfer)
    requires HonestSource(source) && Fit(t, source, start, trace)
    requires exchange == source.server(t.gets, t.fileBytes) && !exchange.cancelledBefore
    requires next == NextAfter(exchange, t.fileBytes, t.fileTotal)
    requires !next.Stop? && !next.Complete? ==> fileBytes == AskedAfter(t.fileBytes, exchange.reply)
    requires fileTotal == t.fileTotal || (t.fileTotal == 0 && fileTotal == |source.content|)
    ensures var trace' := trace + [Attempt(t.fileBytes, exchange)];
            && EffortOk(t', trace')
            && if verdict.GoOn? then Fit(t', source, start, trace') && Lower(t', t)
               else Ended(verdict, source, start, trace')
    ensures t'.fileBytes == fileBytes
    ensures (verdict.Done? <==> next.Complete?) && (verdict.GoOn? ==> next.Again? || next.Retry?)
  {
    if next.Retry? {
      verdict, t' := JudgeFailure(source, t, fileBytes, fileTotal, exchange, start, trace);
      return;
    }
    t' := Transfer(fileBytes, fileTotal, t.retries, t.slept, t.gets + 1);
    if next.Again? {
      verdict := GoOn;
      PassGoesOn(source, start, trace, t, t');
    } else {
      verdict := if next.Complete? then Done else Failed(next.failure);
      PassEnds(source, start, trace, t, t', verdict);
    }
  }

  // One pass through the loop.
  method TryOnce(partial: File, progress: Progress, source: Source, t: Transfer,
                 ghost first: Bytes, ghost start: nat, ghost kept: Bytes, ghost trace: seq<Attempt>)
    returns (verdict: Verdict, t': Transfer, ghost kept': Bytes, ghost trace': seq<Attempt>)
    requires HonestSource(source) && t.fileBytes <= progress.cumulative && !IsPromoted(first, source.head)
    requires Fit(t, source, start, trace) && Holds(partial.content, t, source, first, kept)
    modifies partial, progress
    ensures EffortOk(t', trace')
    ensures if verdict.GoOn? then Fit(t', source, start, trace') && Lower(t', t)
            else Ended(verdict, source, start, trace')
    ensures verdict.GoOn? ==> Holds(partial.content, t', source, first, kept')
    ensures verdict.Done? ==> Completed(partial.content, t', source, first, trace')
    ensures !verdict.Failed? ==> progress.cumulative == old(progress.cumulative) - t.fileBytes + t'.fileBytes
    ensures old(progress.totalBytes) <= progress.totalBytes
    ensures old(progress.cumulative) - t.fileBytes + |source.content| <= old(progress.totalBytes)
            ==> progress.overshot == old(progress.overshot)
  {
    var exchange := source.server(t.gets, t.fileBytes);
    assert Honest(exchange.reply, t.fileBytes, source.content);
    trace' := trace + [Attempt(t.fileBytes, exchange)];
    t', kept' := t, kept;
    if exchange.cancelledBefore {
      partial.Remove(exchange.removes);
      verdict := Failed(DownloadCancelled);
      PassEnds(source, start, trace, t, t', verdict);
      return;
    }
    var next: Next, fileBytes: nat, fileTotal: U64;
    next, fileBytes, fileTotal, kept' :=
      HandleReply(partial, progress, source.content, kept, t.fileBytes, t.fileTotal, exchange);
    verdict, t' := Judge(source, t, next, fileBytes, fileTotal, exchange, start, trace);
    if verdict.Done? {
      CompleteDelivers(first, kept', source.head, source.content, partial.content.value);
    }
  }

  // The loop.
  method Receive(partial: File, progress: Progress, source: Source, start: Transfer,
                 ghost first: Bytes, ghost kept: Bytes)
    returns (verdict: Verdict, t: Transfer, ghost trace: seq<Attempt>)
    requires HonestSource(source) && start.fileBytes <= progress.cumulative && !IsPromoted(first, source.head)
    requires start == Transfer(start.fileBytes, source.head, 0, 0, 0)
    requires Holds(partial.content, start, source, first, kept)
    modifies partial, progress
    ensures !verdict.GoOn? && Ended(verdict, source, start.fileBytes, trace) && EffortOk(t, trace)
    ensures verdict.Done? ==> Completed(partial.content, t, source, first, trace)
    ensures verdict.Done? ==> progress.cumulative == old(progress.cumulative) - start.fileBytes + t.fileBytes
    ensures old(progress.totalBytes) <= progress.totalBytes
    ensures old(progress.cumulative) - start.fileBytes + |source.content| <= old(progress.totalBytes)
            ==> progress.overshot == old(progress.overshot)
  {
    verdict, t, trace := GoOn, start, [];
    ghost var base, kept' := progress.cumulative - start.fileBytes, kept;
    ghost var fits := base + |source.content| <= progress.totalBytes;
    while verdict.GoOn?
      invariant EffortOk(t, trace)
      invariant if verdict.GoOn? then Fit(t, source, start.fileBytes, trace)
                else Ended(verdict, source, start.fileBytes, trace)
      invariant verdict.GoOn? ==> Holds(partial.content, t, source, first, kept')
      invariant verdict.Done? ==> Completed(partial.content, t, source, first, trace)
      invariant !verdict.Failed? ==> progress.cumulative == base + t.fileBytes
      invariant old(progress.totalBytes) <= progress.totalBytes
      invariant fits ==> progress.overshot == old(progress.overshot)
      decreases verdict.GoOn?, MAX_RETRIES - t.retries, if t.fileBytes > 0 then 1 else 0
    {
      verdict, t, kept', trace := TryOnce(partial, progress, source, t, first, start.fileBytes, kept', trace);
    }
  }

  function OutcomeOf(trace: seq<Attempt>): Outcome {
    if trace == [] || AllWell(trace) then Ok else Err(EndFailure(Last(trace), Failures(trace) > MAX_RETRIES))
  }

  /** What became of one file, given what its attempts came to: the destination is
      there exactly if all went well, with content that Delivers allows and that
      ends where the last reply did. */
  predicate Fetched(source: Source, p: Bytes, trace: seq<Attempt>, dest: Option<Bytes>, part: Option<Bytes>) {
    && TraceOf(source, p, trace)
    && (dest.Some? <==> AllWell(trace))
    && (dest.Some? ==>
          && part.None? && Delivers(p, source.head, source.content, dest.value)
          && (trace != [] ==>
                FailureOf(Last(trace)).None? && |dest.value| == EndOf(Last(trace).reply, source.content)))
  }

  method DownloadOneFile(partial: File, destination: File, progress: Progress, source: Source)
    returns (outcome: Outcome, gets: nat, slept: nat, ghost trace: seq<Attempt>)
    requires partial != destination && destination.content.None?
    requires HonestSource(source) && |Content(partial.content)| <= progress.cumulative
    modifies partial, destination, progress
    ensures Fetched(source, old(Content(partial.content)), trace, destination.content, partial.content)
    ensures outcome == OutcomeOf(trace)
    // Bytes are counted exactly, and reports keep within the total if the file does.
    ensures outcome.Ok? ==>
              progress.cumulative + old(|Content(partial.content)|)
              == old(progress.cumulative) + |Content(destination.content)|
    ensures old(progress.totalBytes) <= progress.totalBytes
    ensures old(progress.cumulative) - old(|Content(partial.content)|) + |source.content| <= old(progress.totalBytes)
            ==> progress.overshot == old(progress.overshot)
    // The effort is bounded.
    ensures gets <= |trace| <= 2 * MAX_RETRIES + 2
    ensures slept <= 362 && (Failures(trace) > MAX_RETRIES ==> slept == 362)
  {
    var t := Transfer(|Content(partial.content)|, source.head, 0, 0, 0);
    gets, slept, trace := 0, 0, [];
    ghost var first, kept := Content(partial.content), Content(partial.content);
    if t.fileTotal > 0 && t.fileBytes == t.fileTotal {
      partial.RenameTo(destination);
      outcome := Ok;
      return;
    }
    if t.fileTotal > 0 && t.fileBytes > t.fileTotal {
      StartOver(partial, progress, t.fileBytes, source.removes);
      t, kept := t.(fileBytes := 0), [];
    }
    var verdict;
    verdict, t, trace := Receive(partial, progress, source, t, first, kept);
    gets, slept := t.gets, t.slept;
    if verdict.Failed? {
      outcome := Err(verdict.failure);
      return;
    }
    partial.RenameTo(destination);
    outcome := Ok;
  }

  // ----- inputs on which a download is not the remote content -----

  // One byte of two, and a HEAD length of one: the byte counts as the whole.
  method WrongHeadTruncates(server: Server) returns (outcome: Outcome, got: Option<Bytes>)
    requires HonestServer(server, [1, 2])
    ensures outcome.Ok? && got == Some([1])
  {
    var partial := new File(Some([1]));
    var destination := new File(None);
    var progress := new Progress(0);
    progress.cumulative := 1;
    var gets, slept;
    ghost var trace;
    outcome, gets, slept, trace :=
      DownloadOneFile(partial, destination, progress, Source([1, 2], 1, 1, server, false, true));
    got := destination.content;
  }

  // Asked for the rest of three bytes, the server encloses one more byte.
  function ShortRange(n: nat, asked: nat): Exchange {
    Exchange(false, if asked == 1 then Body(Some(2), [[2]], Finished, Some(3)) else ConnectionError, 1, false, true)
  }

  method ShortRangeTruncates() returns (outcome: Outcome, got: Option<Bytes>)
    ensures HonestServer(ShortRange, [1, 2, 3])
    ensures outcome.Ok? && got == Some([1, 2])
  {
    var partial := new File(Some([1]));
    var destination := new File(None);
    var progress := new Progress(3);
    progress.cumulative := 1;
    ShortRangeIsHonest();
    var gets, slept;
    ghost var trace;
    outcome, gets, slept, trace :=
      DownloadOneFile(partial, destination, progress, Source([1, 2, 3], 3, 3, ShortRange, false, true));
    OneAttempt(trace);
    got := destination.content;
    var remote: Bytes := [1, 2, 3];
    assert remote[..2] == [1, 2] && [1] + remote[1..2] == [1, 2];
  }

  lemma ShortRangeIsHonest()
    ensures HonestServer(ShortRange, [1, 2, 3])
  {
    assert [[2]][..0] == [];
    var two: Bytes := [2];
    assert Flat([two]) == two;
    assert [1, 2, 3][1..2] == two;
  }

  lemma {:induction false} NothingFollows(trace: seq<Attempt>, asked: nat)
    requires Leads(ShortRange, 1, trace, asked)
    ensures trace == [] && asked == 1
  {
    if trace != [] {
      NothingFollows(trace[..|trace| - 1], trace[|trace| - 1].asked);
    }
  }

  lemma OneAttempt(trace: seq<Attempt>)
    requires IsTrace(ShortRange, 1, trace)
    ensures |trace| == 1 && Last(trace) == ShortRange(0, 1) && AllWell(trace)
  {
    NothingFollows(trace[..|trace| - 1], trace[|trace| - 1].asked);
    var e := ShortRange(0, 1);
    assert trace[..|trace| - 1] == [] && Last(trace) == e;
    assert FailureOf(e).None? && IsWell(e);
    assert EachWell(trace[..|trace| - 1]) && Failures(trace[..|trace| - 1]) == 0;
  }
}
