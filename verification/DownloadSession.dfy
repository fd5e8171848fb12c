/**
 Downloading a model's files one after another, with one count of bytes.
 */
module DownloadSession {
  import opened Options
  import opened Downloader

  // ----- bytes on disk -----

  function Size(dest: Option<Bytes>, part: Option<Bytes>): nat {
    if dest.Some? then |dest.value| else |Content(part)|
  }

  function OnDisk(dests: seq<Option<Bytes>>, parts: seq<Option<Bytes>>): nat
    requires |dests| == |parts|
  {
    if dests == [] then 0
    else OnDisk(dests[..|dests| - 1], parts[..|dests| - 1]) + Size(dests[|dests| - 1], parts[|dests| - 1])
  }

  lemma {:induction false} OnDiskUpdate(dests: seq<Option<Bytes>>, parts: seq<Option<Bytes>>, i: nat,
                                        dest: Option<Bytes>, part: Option<Bytes>)
    requires i < |dests| == |parts|
    ensures OnDisk(dests[i := dest], parts[i := part])
         == OnDisk(dests, parts) - Size(dests[i], parts[i]) + Size(dest, part)
    ensures Size(dests[i], parts[i]) <= OnDisk(dests, parts)
    decreases |dests|
  {
    var n := |dests| - 1;
    if i == n {
      assert dests[i := dest][..n] == dests[..n] && parts[i := part][..n] == parts[..n];
    } else {
      assert dests[i := dest][..n] == dests[..n][i := dest] && parts[i := part][..n] == parts[..n][i := part];
      OnDiskUpdate(dests[..n], parts[..n], i, dest, part);
    }
  }

  function SumLengths(sources: seq<Source>): nat {
    if sources == [] then 0 else SumLengths(sources[..|sources| - 1]) + |sources[|sources| - 1].content|
  }

  lemma {:induction false} OnDiskBound(dests: seq<Option<Bytes>>, parts: seq<Option<Bytes>>, sources: seq<Source>)
    requires |dests| == |parts| == |sources|
    requires forall i :: 0 <= i < |dests| ==> Size(dests[i], parts[i]) <= |sources[i].content|
    ensures OnDisk(dests, parts) <= SumLengths(sources)
    decreases |dests|
  {
    if dests != [] {
      var n := |dests| - 1;
      OnDiskBound(dests[..n], parts[..n], sources[..n]);
    }
  }

  // ----- all files of a model -----

  ghost function Contents(files: seq<File>): (c: seq<Option<Bytes>>)
    reads files
    ensures |c| == |files|
    ensures forall i :: 0 <= i < |files| ==> c[i] == files[i].content
  {
    seq(|files|, i requires 0 <= i < |files| reads files => files[i].content)
  }

  // Destinations and partial files are all different files.
  ghost predicate Apart(destinations: seq<File>, partials: seq<File>) {
    && |destinations| == |partials|
    && (forall i, j :: 0 <= i < j < |destinations| ==> destinations[i] != destinations[j] && partials[i] != partials[j])
    && (forall i, j :: 0 <= i < |destinations| && 0 <= j < |partials| ==> destinations[i] != partials[j])
  }

  function SumHeads(sources: seq<Source>): nat {
    if sources == [] then 0 else SumHeads(sources[..|sources| - 1]) + sources[|sources| - 1].firstHead
  }

  predicate AllResolved(sources: seq<Source>) {
    forall i :: 0 <= i < |sources| ==> sources[i].firstHead > 0
  }

  // The first-pass HEAD sizes, used as the total when all are known.
  method ResolveTotal(progress: Progress, sources: seq<Source>)
    modifies progress`totalBytes
    ensures progress.totalBytes == if AllResolved(sources) && 0 < SumHeads(sources) <= U64_MAX
                                   then SumHeads(sources) else old(progress.totalBytes)
  {
    var total: nat, allResolved := 0, true;
    for i := 0 to |sources|
      invariant total == SumHeads(sources[..i])
      invariant allResolved <==> AllResolved(sources[..i])
    {
      assert sources[..i + 1][..i] == sources[..i];
      allResolved := allResolved && sources[i].firstHead > 0;
      total := total + sources[i].firstHead;
    }
    assert sources[..|sources|] == sources;
    if allResolved && 0 < total <= U64_MAX {
      progress.totalBytes := total;
    }
  }

  lemma {:induction false} SumOfLengths(sources: seq<Source>)
    requires forall i :: 0 <= i < |sources| ==> sources[i].firstHead == |sources[i].content|
    ensures SumHeads(sources) == SumLengths(sources)
    decreases |sources|
  {
    if sources != [] {
      SumOfLengths(sources[..|sources| - 1]);
    }
  }

  // Counts what earlier sessions left on disk.
  method CountOnDisk(destinations: seq<File>, partials: seq<File>, progress: Progress)
    requires |destinations| == |partials|
    modifies progress`cumulative
    ensures progress.cumulative == OnDisk(Contents(destinations), Contents(partials))
  {
    progress.cumulative := 0;
    ghost var ds, ps := Contents(destinations), Contents(partials);
    for i := 0 to |destinations|
      invariant progress.cumulative == OnDisk(ds[..i], ps[..i])
      invariant ds == Contents(destinations) && ps == Contents(partials)
    {
      assert ds[..i + 1][..i] == ds[..i] && ps[..i + 1][..i] == ps[..i];
      progress.cumulative := progress.cumulative + Size(destinations[i].content, partials[i].content);
    }
    assert ds[..|ds|] == ds && ps[..|ps|] == ps;
  }

  // Nothing on disk is longer than its remote file.
  predicate Fits(ds: seq<Option<Bytes>>, ps: seq<Option<Bytes>>, sources: seq<Source>) {
    |ds| == |ps| == |sources| && forall j :: 0 <= j < |ds| ==> Size(ds[j], ps[j]) <= |sources[j].content|
  }

  // When file i is about to be fetched, what it may add keeps within the total.
  lemma RoomForFile(ds: seq<Option<Bytes>>, ps: seq<Option<Bytes>>, sources: seq<Source>, i: nat)
    requires Fits(ds, ps, sources) && i < |ds|
    ensures ds[i].None? ==> OnDisk(ds, ps) - |Content(ps[i])| + |sources[i].content| <= SumLengths(sources)
  {
    OnDiskUpdate(ds, ps, i, Some(sources[i].content), ps[i]);
    OnDiskBound(ds[i := Some(sources[i].content)], ps[i := ps[i]], sources);
  }

  // A file that was there is not touched; for any other its GETs were made.
  predicate FileDone(source: Source, wasDest: Option<Bytes>, wasPart: Option<Bytes>,
                     dest: Option<Bytes>, part: Option<Bytes>, trace: seq<Attempt>)
  {
    && !source.cancelled
    && if wasDest.Some? then dest == wasDest && part == wasPart && trace == []
       else Fetched(source, Content(wasPart), trace, dest, part)
  }

  /** How a session left the files, given the attempts for those it came to: the
      others are untouched. */
  predicate Session(ds0: seq<Option<Bytes>>, ps0: seq<Option<Bytes>>, ds: seq<Option<Bytes>>, ps: seq<Option<Bytes>>,
                    sources: seq<Source>, traces: seq<seq<Attempt>>)
  {
    && |traces| <= |ds0| == |ps0| == |ds| == |ps| == |sources|
    && (forall j :: 0 <= j < |traces| ==> FileDone(sources[j], ds0[j], ps0[j], ds[j], ps[j], traces[j]))
    && (forall j :: |traces| <= j < |ds| ==> ds[j] == ds0[j] && ps[j] == ps0[j])
  }

  predicate AllTracesWell(traces: seq<seq<Attempt>>) {
    forall i :: 0 <= i < |traces| ==> AllWell(traces[i])
  }

  // What stopped a session: the cancelled flag at the next file, or the last GET.
  predicate StoppedBy(sources: seq<Source>, traces: seq<seq<Attempt>>, outcome: Outcome) {
    if AllTracesWell(traces) then
      |traces| < |sources| && sources[|traces|].cancelled && outcome == Err(DownloadCancelled)
    else
      AllTracesWell(traces[..|traces| - 1]) && outcome == OutcomeOf(traces[|traces| - 1])
  }

  // All went well for the first i files.
  predicate SessionGoesOn(ds0: seq<Option<Bytes>>, ps0: seq<Option<Bytes>>,
                          ds: seq<Option<Bytes>>, ps: seq<Option<Bytes>>,
                          sources: seq<Source>, traces: seq<seq<Attempt>>, i: nat)
  {
    |traces| == i && Session(ds0, ps0, ds, ps, sources, traces) && AllTracesWell(traces)
  }

  lemma SessionStep(ds0: seq<Option<Bytes>>, ps0: seq<Option<Bytes>>, ds: seq<Option<Bytes>>, ps: seq<Option<Bytes>>,
                    sources: seq<Source>, traces: seq<seq<Attempt>>, i: nat,
                    dest: Option<Bytes>, part: Option<Bytes>, trace: seq<Attempt>)
    requires SessionGoesOn(ds0, ps0, ds, ps, sources, traces, i) && i < |ds|
    requires FileDone(sources[i], ds[i], ps[i], dest, part, trace)
    ensures Session(ds0, ps0, ds[i := dest], ps[i := part], sources, traces + [trace])
    ensures if OutcomeOf(trace).Ok?
            then SessionGoesOn(ds0, ps0, ds[i := dest], ps[i := part], sources, traces + [trace], i + 1)
            else StoppedBy(sources, traces + [trace], OutcomeOf(trace))
  {
    var traces' := traces + [trace];
    assert traces'[i] == trace && traces'[..i] == traces;
    if OutcomeOf(trace).Ok? {
      assert AllWell(trace);
    }
  }

  lemma SessionFits(ds0: seq<Option<Bytes>>, ps0: seq<Option<Bytes>>, ds: seq<Option<Bytes>>, ps: seq<Option<Bytes>>,
                    sources: seq<Source>, traces: seq<seq<Attempt>>)
    requires SessionGoesOn(ds0, ps0, ds, ps, sources, traces, |traces|) && Fits(ds0, ps0, sources)
    ensures Fits(ds, ps, sources)
  {
    forall j | 0 <= j < |ds| ensures Size(ds[j], ps[j]) <= |sources[j].content| {
      assert Size(ds0[j], ps0[j]) <= |sources[j].content|;
      if j < |traces| {
        assert FileDone(sources[j], ds0[j], ps0[j], ds[j], ps[j], traces[j]);
      }
    }
  }

  /** After a session in which all went well, every file that was partly there as a
      prefix of its content, or not at all, is its content, exactly if the length of
      a promoted file was right or the last reply ran to the end. */
  lemma SessionDelivers(ds0: seq<Option<Bytes>>, ps0: seq<Option<Bytes>>,
                        ds: seq<Option<Bytes>>, ps: seq<Option<Bytes>>,
                        sources: seq<Source>, traces: seq<seq<Attempt>>, j: nat)
    requires Session(ds0, ps0, ds, ps, sources, traces) && AllTracesWell(traces) && |traces| == |sources|
    requires j < |ds| && ds0[j].None? && IsPrefix(Content(ps0[j]), sources[j].content)
    ensures ds[j] == Some(sources[j].content)
            <==> |sources[j].content| == if IsPromoted(Content(ps0[j]), sources[j].head) then sources[j].head
                                         else EndOf(Last(traces[j]).reply, sources[j].content)
  {
    assert FileDone(sources[j], ds0[j], ps0[j], ds[j], ps[j], traces[j]);
    DeliversRemote(Content(ps0[j]), sources[j].head, sources[j].content, ds[j].value, |ds[j].value|);
  }

  lemma FetchedCounts(ds: seq<Option<Bytes>>, ps: seq<Option<Bytes>>, i: nat,
                      dest: Option<Bytes>, part: Option<Bytes>, count: nat)
    requires i < |ds| == |ps| && ds[i].None? && dest.Some?
    requires count + |Content(ps[i])| == OnDisk(ds, ps) + |Content(dest)|
    ensures count == OnDisk(ds[i := dest], ps[i := part])
  {
    OnDiskUpdate(ds, ps, i, dest, part);
  }

  // DownloadOneFile, in terms of all files.
  method FetchFile(destinations: seq<File>, partials: seq<File>, progress: Progress, i: nat, source: Source)
    returns (outcome: Outcome, ghost trace: seq<Attempt>)
    requires Apart(destinations, partials) && i < |destinations| && destinations[i].content.None?
    requires HonestSource(source)
    requires progress.cumulative == OnDisk(Contents(destinations), Contents(partials))
    modifies destinations[i], partials[i], progress
    ensures Contents(destinations) == old(Contents(destinations))[i := destinations[i].content]
    ensures Contents(partials) == old(Contents(partials))[i := partials[i].content]
    ensures Fetched(source, Content(old(partials[i].content)), trace, destinations[i].content, partials[i].content)
    ensures outcome == OutcomeOf(trace)
    ensures outcome.Ok? ==> progress.cumulative == OnDisk(Contents(destinations), Contents(partials))
    ensures old(progress.cumulative) - |Content(old(partials[i].content))| + |source.content|
            <= old(progress.totalBytes)
            ==> progress.overshot == old(progress.overshot)
    ensures old(progress.totalBytes) <= progress.totalBytes
  {
    ghost var ds, ps := Contents(destinations), Contents(partials);
    OnDiskUpdate(ds, ps, i, None, None);
    var gets, slept;
    outcome, gets, slept, trace := DownloadOneFile(partials[i], destinations[i], progress, source);
    assert Contents(destinations) == ds[i := destinations[i].content];
    assert Contents(partials) == ps[i := partials[i].content];
    if outcome.Ok? {
      FetchedCounts(ds, ps, i, destinations[i].content, partials[i].content, progress.cumulative);
    }
  }

  ghost predicate AllHonest(sources: seq<Source>) {
    forall i :: 0 <= i < |sources| ==> HonestSource(sources[i])
  }

  // One pass through the loop: a file that is there is skipped.
  method FetchNext(destinations: seq<File>, partials: seq<File>, progress: Progress, i: nat, source: Source)
    returns (outcome: Outcome, ghost trace: seq<Attempt>)
    requires Apart(destinations, partials) && i < |destinations| && HonestSource(source) && !source.cancelled
    requires progress.cumulative == OnDisk(Contents(destinations), Contents(partials))
    modifies destinations[i], partials[i], progress
    ensures Contents(destinations) == old(Contents(destinations))[i := destinations[i].content]
    ensures Contents(partials) == old(Contents(partials))[i := partials[i].content]
    ensures FileDone(source, old(destinations[i].content), old(partials[i].content),
                     destinations[i].content, partials[i].content, trace)
    ensures outcome == OutcomeOf(trace)
    ensures outcome.Ok? ==> progress.cumulative == OnDisk(Contents(destinations), Contents(partials))
    ensures (old(destinations[i].content).None? ==>
               old(progress.cumulative) - |Content(old(partials[i].content))| + |source.content|
               <= old(progress.totalBytes))
            ==> progress.overshot == old(progress.overshot)
    ensures old(progress.totalBytes) <= progress.totalBytes
  {
    if destinations[i].content.None? {
      outcome, trace := FetchFile(destinations, partials, progress, i, source);
    } else {
      outcome, trace := Ok, [];
      assert Contents(destinations) == old(Contents(destinations))[i := destinations[i].content];
      assert Contents(partials) == old(Contents(partials))[i := partials[i].content];
    }
  }

  // The loop over the files, once the total and the count on disk are known.
  method FetchAll(destinations: seq<File>, partials: seq<File>, progress: Progress, sources: seq<Source>)
    returns (outcome: Outcome, ghost traces: seq<seq<Attempt>>)
    requires Apart(destinations, partials) && AllHonest(sources) && |destinations| == |sources|
    requires progress.cumulative == OnDisk(Contents(destinations), Contents(partials))
    modifies destinations, partials, progress
    ensures Session(old(Contents(destinations)), old(Contents(partials)),
                    Contents(destinations), Contents(partials), sources, traces)
    ensures if outcome.Ok? then |traces| == |sources| && AllTracesWell(traces) else StoppedBy(sources, traces, outcome)
    ensures outcome.Ok? ==> progress.cumulative == OnDisk(Contents(destinations), Contents(partials))
    ensures Fits(old(Contents(destinations)), old(Contents(partials)), sources)
            && SumLengths(sources) <= old(progress.totalBytes)
            ==> progress.overshot == old(progress.overshot)
  {
    ghost var ds0, ps0 := Contents(destinations), Contents(partials);
    ghost var ds, ps := ds0, ps0;
    ghost var fits := Fits(ds0, ps0, sources) && SumLengths(sources) <= progress.totalBytes;
    traces := [];
    for i := 0 to |destinations|
      invariant ds == Contents(destinations) && ps == Contents(partials)
      invariant SessionGoesOn(ds0, ps0, ds, ps, sources, traces, i)
      invariant progress.cumulative == OnDisk(ds, ps)
      invariant old(progress.totalBytes) <= progress.totalBytes
      invariant fits ==> progress.overshot == old(progress.overshot)
    {
      if sources[i].cancelled {
        outcome := Err(DownloadCancelled);
        return;
      }
      if fits {
        SessionFits(ds0, ps0, ds, ps, sources, traces);
        RoomForFile(ds, ps, sources, i);
      }
      ghost var trace;
      outcome, trace := FetchNext(destinations, partials, progress, i, sources[i]);
      SessionStep(ds0, ps0, ds, ps, sources, traces, i, destinations[i].content, partials[i].content, trace);
      ds, ps := Contents(destinations), Contents(partials);
      traces := traces + [trace];
      if outcome.Err? {
        return;
      }
    }
    outcome := Ok;
  }

  predicate AllKnown(sources: seq<Source>) {
    forall i :: 0 <= i < |sources| ==> 0 < sources[i].firstHead == |sources[i].content|
  }

  // The passes over all files before the first download.
  method Prepare(destinations: seq<File>, partials: seq<File>, progress: Progress, sources: seq<Source>)
    requires |destinations| == |partials| == |sources|
    modifies progress`totalBytes, progress`cumulative
    ensures progress.cumulative == OnDisk(Contents(destinations), Contents(partials))
    ensures AllKnown(sources) && 0 < SumLengths(sources) <= U64_MAX ==> progress.totalBytes == SumLengths(sources)
  {
    ResolveTotal(progress, sources);
    if AllKnown(sources) {
      SumOfLengths(sources);
    }
    CountOnDisk(destinations, partials, progress);
  }

  method DownloadFilesSequentially(destinations: seq<File>, partials: seq<File>, progress: Progress,
                                   sources: seq<Source>)
    returns (outcome: Outcome, ghost traces: seq<seq<Attempt>>)
    requires Apart(destinations, partials) && AllHonest(sources) && |destinations| == |sources|
    modifies destinations, partials, progress
    ensures Session(old(Contents(destinations)), old(Contents(partials)),
                    Contents(destinations), Contents(partials), sources, traces)
    // It succeeds exactly when it came to all files and all went well for each; if
    // not, the cancelled flag or the last GET stopped it.
    ensures if outcome.Ok? then |traces| == |sources| && AllTracesWell(traces) else StoppedBy(sources, traces, outcome)
    // The running count is what is on disk.
    ensures outcome.Ok? ==> progress.cumulative == OnDisk(Contents(destinations), Contents(partials))
    // With all sizes known and nothing on disk longer than its remote file, no
    // report exceeds the total it is shown with.
    ensures AllKnown(sources) && Fits(old(Contents(destinations)), old(Contents(partials)), sources)
            && 0 < SumLengths(sources) <= U64_MAX
            ==> progress.overshot == old(progress.overshot)
  {
    Prepare(destinations, partials, progress, sources);
    outcome, traces := FetchAll(destinations, partials, progress, sources);
  }
}
