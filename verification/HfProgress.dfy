/**
 Progress of a model download through the Hugging Face client: events about the
 current file are added to the bytes of the files finished before it.
 */
module HfProgress {
  const MAX_U64: nat := 0xffff_ffff_ffff_ffff

  type u64 = n: nat | n <= MAX_U64

  function SatAdd(a: u64, b: u64): u64 {
    if a + b > MAX_U64 then MAX_U64 else a + b
  }

  function Max(a: u64, b: u64): u64 {
    if a < b then b else a
  }

  function Min(a: u64, b: u64): u64 {
    if a < b then a else b
  }

  datatype FileProgress = FileProgress(complete: bool, completed: u64, total: u64)

  datatype Event =
    | Start(total: u64)
    | Progress(files: seq<FileProgress>)
    | AggregateProgress(completed: u64, total: u64)
    | FinishFile(size: u64)
    | Cancel

  // total is what the listing gave for all files; bytes and current are of the
  // current file; shown is the entry in the downloads table.
  datatype State = State(total: u64, completed: u64, bytes: u64, current: u64,
                         shownBytes: u64, shownTotal: u64, cancelled: bool)

  function Began(total: u64): State {
    State(total, 0, 0, 0, 0, total, false)
  }

  function ComputedTotal(s: State): u64 {
    Max(s.total, SatAdd(s.completed, Max(s.current, s.bytes)))
  }

  function ComputedBytes(s: State): u64 {
    Min(SatAdd(s.completed, s.bytes), ComputedTotal(s))
  }

  function Shown(s: State): State {
    if s.cancelled then s else s.(shownBytes := ComputedBytes(s), shownTotal := ComputedTotal(s))
  }

  // Iterator::sum over u64, which wraps around.
  function SumDone(files: seq<FileProgress>): u64 {
    if files == [] then 0
    else
      var f := files[|files| - 1];
      (SumDone(files[..|files| - 1]) + if f.complete then f.total else f.completed) % (MAX_U64 + 1)
  }

  function SumTotal(files: seq<FileProgress>): u64 {
    if files == [] then 0
    else (SumTotal(files[..|files| - 1]) + files[|files| - 1].total) % (MAX_U64 + 1)
  }

  function Advanced(s: State, bytes: u64, total: u64): State {
    Shown(s.(bytes := Max(s.bytes, bytes), current := Max(s.current, total)))
  }

  function Next(s: State, e: Event): State {
    match e
    case Start(total) => Shown(s.(current := total))
    case Progress(files) => if s.cancelled then s else Advanced(s, SumDone(files), SumTotal(files))
    case AggregateProgress(completed, total) => if s.cancelled then s else Advanced(s, completed, total)
    case FinishFile(size) =>
      Shown(s.(completed := SatAdd(s.completed, Max(size, Max(s.current, s.bytes))), bytes := 0, current := 0))
    case Cancel => s.(cancelled := true)
  }

  class HfDownloadProgress {
    const totalBytes: u64
    var completedBytes: u64
    var bytesDownloaded: u64
    var currentFileTotalBytes: u64
    var shownBytes: u64
    var shownTotal: u64
    var cancelled: bool

    function Value(): State
      reads this
    {
      State(totalBytes, completedBytes, bytesDownloaded, currentFileTotalBytes, shownBytes, shownTotal, cancelled)
    }

    constructor (total: u64)
      ensures Value() == Began(total)
    {
      totalBytes := total;
      completedBytes, bytesDownloaded, currentFileTotalBytes := 0, 0, 0;
      shownBytes, shownTotal, cancelled := 0, total, false;
    }

    method UpdateProgressFromState()
      modifies this`shownBytes, this`shownTotal
      ensures Value() == Shown(old(Value()))
    {
      var bytes := SatAdd(completedBytes, bytesDownloaded);
      var total := Max(totalBytes, SatAdd(completedBytes, Max(currentFileTotalBytes, bytesDownloaded)));
      if !cancelled {
        shownBytes, shownTotal := Min(bytes, total), total;
      }
    }

    method OnProgress(e: Event)
      requires !e.FinishFile? && !e.Cancel?
      modifies this
      ensures Value() == Next(old(Value()), e)
    {
      match e {
        case Start(total) =>
          currentFileTotalBytes := total;
          UpdateProgressFromState();
        case Progress(files) =>
          if cancelled {
            return;
          }
          bytesDownloaded := Max(bytesDownloaded, SumDone(files));
          currentFileTotalBytes := Max(currentFileTotalBytes, SumTotal(files));
          UpdateProgressFromState();
        case AggregateProgress(completed, total) =>
          if cancelled {
            return;
          }
          bytesDownloaded := Max(bytesDownloaded, completed);
          currentFileTotalBytes := Max(total, currentFileTotalBytes);
          UpdateProgressFromState();
      }
    }

    method Finish(size: u64)
      modifies this
      ensures Value() == Next(old(Value()), FinishFile(size))
    {
      var observed := Max(currentFileTotalBytes, bytesDownloaded);
      completedBytes := SatAdd(completedBytes, Max(size, observed));
      bytesDownloaded := 0;
      currentFileTotalBytes := 0;
      UpdateProgressFromState();
    }
  }

  function Run(s: State, events: seq<Event>): State {
    if events == [] then s else Next(Run(s, events[..|events| - 1]), events[|events| - 1])
  }

  /** Capping at the total never cuts anything off. */
  lemma NothingIsCutOff(s: State)
    ensures ComputedBytes(s) == SatAdd(s.completed, s.bytes) <= ComputedTotal(s)
  {
  }

  lemma StepNeverFalls(s: State, e: Event)
    ensures ComputedBytes(s) <= ComputedBytes(Next(s, e))
  {
    NothingIsCutOff(s);
    NothingIsCutOff(Next(s, e));
  }

  // The table lags behind only once the download is cancelled.
  predicate ShownOk(s: State) {
    && s.shownBytes <= s.shownTotal && s.shownBytes <= ComputedBytes(s)
    && (!s.cancelled ==> s.shownBytes == ComputedBytes(s) && s.shownTotal == ComputedTotal(s))
  }

  lemma StepShows(s: State, e: Event)
    requires ShownOk(s)
    ensures ShownOk(Next(s, e)) && s.shownBytes <= Next(s, e).shownBytes
  {
    StepNeverFalls(s, e);
    NothingIsCutOff(Next(s, e));
  }

  lemma {:induction false} RunConcat(s: State, a: seq<Event>, b: seq<Event>)
    ensures Run(s, a + b) == Run(Run(s, a), b)
    decreases |b|
  {
    if b == [] {
      assert a + b == a;
    } else {
      assert (a + b)[..|a + b| - 1] == a + b[..|b| - 1];
      RunConcat(s, a, b[..|b| - 1]);
    }
  }

  lemma {:induction false} RunShows(s: State, events: seq<Event>)
    requires ShownOk(s)
    ensures ShownOk(Run(s, events)) && s.shownBytes <= Run(s, events).shownBytes
  {
    if events != [] {
      RunShows(s, events[..|events| - 1]);
      StepShows(Run(s, events[..|events| - 1]), events[|events| - 1]);
    }
  }

  /** Over any events, also where sums saturate or wrap, the bytes shown never
      fall and never exceed the total shown. */
  lemma ShownNeverFalls(total: u64, events: seq<Event>, later: seq<Event>)
    ensures var s, s' := Run(Began(total), events), Run(Began(total), events + later);
            && s.shownBytes <= s'.shownBytes <= s'.shownTotal
            && (!s'.cancelled ==> s'.shownBytes == SatAdd(s'.completed, s'.bytes) && s'.shownTotal == ComputedTotal(s'))
  {
    RunShows(Began(total), events);
    RunShows(Run(Began(total), events), later);
    RunConcat(Began(total), events, later);
  }

  /** The total can fall, at the start of a file and only there: exactly when the
      new size hides a larger one that showed. */
  lemma TotalFallsOnlyAtStart(s: State, e: Event)
    ensures ComputedTotal(Next(s, e)) < ComputedTotal(s) <==>
            && e.Start?
            && s.total < SatAdd(s.completed, s.current)
            && SatAdd(s.completed, Max(e.total, s.bytes)) < SatAdd(s.completed, s.current)
  {
  }

  // ----- the bytes of finished files -----

  // What is reported of a file before it is finished stays within its size.
  predicate EventWithin(e: Event, size: u64) {
    match e
    case Start(total) => total <= size
    case Progress(files) => SumDone(files) <= size && SumTotal(files) <= size
    case AggregateProgress(completed, total) => completed <= size && total <= size
    case FinishFile(_) => false
    case Cancel => true
  }

  predicate Within(events: seq<Event>, size: u64) {
    forall i :: 0 <= i < |events| ==> EventWithin(events[i], size)
  }

  lemma {:induction false} RunWithin(s: State, events: seq<Event>, size: u64)
    requires Within(events, size) && s.bytes <= size && s.current <= size
    ensures var s' := Run(s, events);
            s'.bytes <= size && s'.current <= size && s'.completed == s.completed && s'.total == s.total
  {
    if events != [] {
      assert EventWithin(events[|events| - 1], size);
      RunWithin(s, events[..|events| - 1], size);
    }
  }

  function AllEvents(files: seq<(seq<Event>, u64)>): seq<Event> {
    if files == [] then []
    else AllEvents(files[..|files| - 1]) + files[|files| - 1].0 + [FinishFile(files[|files| - 1].1)]
  }

  function SumSizes(files: seq<(seq<Event>, u64)>): nat {
    if files == [] then 0 else SumSizes(files[..|files| - 1]) + files[|files| - 1].1
  }

  /** Conservation: after any number of files whose events stay within their sizes,
      the computed bytes are the sum of the sizes, or the largest u64. */
  lemma {:induction false} FilesAddUp(total: u64, files: seq<(seq<Event>, u64)>)
    requires forall f :: f in files ==> Within(f.0, f.1)
    ensures var s := Run(Began(total), AllEvents(files));
            && s.bytes == 0 && s.current == 0
            && s.completed == ComputedBytes(s) == if SumSizes(files) > MAX_U64 then MAX_U64 else SumSizes(files)
  {
    if files != [] {
      var init, last := files[..|files| - 1], files[|files| - 1];
      FilesAddUp(total, init);
      var s := Run(Began(total), AllEvents(init));
      RunConcat(Began(total), AllEvents(init), last.0);
      RunConcat(Began(total), AllEvents(init) + last.0, [FinishFile(last.1)]);
      RunWithin(s, last.0, last.1);
      var s1 := Run(s, last.0);
      assert [FinishFile(last.1)][..0] == [];
      assert Run(s1, [FinishFile(last.1)]) == Next(s1, FinishFile(last.1));
      NothingIsCutOff(Next(s1, FinishFile(last.1)));
    }
  }
}
