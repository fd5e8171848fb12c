/**
 The table of downloads and the background tasks it guards.

 Table operations run under one mutex, so each is one step; between steps any
 other caller or task may run. A task first prepares directories, then writes
 files, and on failure removes its partial files before it reports its exit.
 */
module DownloadRegistry {
  import opened Options

  datatype Status = Downloading | Completed | Failed | Cancelled

  datatype Entry = Entry(status: Status, taskExited: bool)

  type Table = map<string, Entry>

  // ----- what each table operation does -----

  // A download runs, or a cancelled one has not wound down yet.
  predicate Busy(downloads: Table, id: string) {
    id in downloads
    && (downloads[id].status.Downloading? || (downloads[id].status.Cancelled? && !downloads[id].taskExited))
  }

  function Cancel(downloads: Table, id: string): Table {
    if id in downloads then downloads[id := downloads[id].(status := Cancelled)] else downloads
  }

  function Clear(downloads: Table, id: string): Table {
    if id in downloads && !downloads[id].status.Downloading? && downloads[id].taskExited
    then downloads - {id}
    else downloads
  }

  function ExitOk(downloads: Table, id: string): Table {
    if id in downloads then downloads[id := Entry(Completed, true)] else downloads
  }

  function ExitErr(downloads: Table, id: string): Table {
    if id in downloads
    then downloads[id := Entry(if downloads[id].status.Cancelled? then Cancelled else Failed, true)]
    else downloads
  }

  class DownloadManager {
    var downloads: Table

    constructor ()
      ensures downloads == map[]
    {
      downloads := map[];
    }

    method ReserveDownload(id: string, progress: Entry) returns (reserved: bool)
      modifies this
      ensures reserved == !Busy(old(downloads), id)
      ensures downloads == if reserved then old(downloads)[id := progress] else old(downloads)
    {
      if id in downloads {
        var existing := downloads[id];
        if existing.status == Downloading || (existing.status == Cancelled && !existing.taskExited) {
          return false;
        }
      }
      downloads := downloads[id := progress];
      return true;
    }

    // The locked section that opens download_model_sharded_with_bearer_token.
    method BeginDownload(id: string) returns (accepted: bool)
      modifies this
      ensures accepted == !Busy(old(downloads), id)
      ensures downloads == if accepted then old(downloads)[id := Entry(Downloading, false)] else old(downloads)
    {
      if id in downloads {
        if downloads[id].status == Downloading {
          return false;
        }
        if downloads[id].status == Cancelled && !downloads[id].taskExited {
          return false;
        }
      }
      downloads := downloads[id := Entry(Downloading, false)];
      return true;
    }

    method CancelDownload(id: string) returns (found: bool)
      modifies this
      ensures found == (id in old(downloads)) && downloads == Cancel(old(downloads), id)
    {
      found := id in downloads;
      if found {
        downloads := downloads[id := downloads[id].(status := Cancelled)];
      }
    }

    method ClearCompleted(id: string)
      modifies this
      ensures downloads == Clear(old(downloads), id)
    {
      if id in downloads {
        var isTerminal := downloads[id].status == Completed || downloads[id].status == Failed
                          || downloads[id].status == Cancelled;
        if isTerminal && downloads[id].taskExited {
          downloads := downloads - {id};
        }
      }
    }

    // The last locked section of the background task.
    method FinishTask(id: string, ok: bool)
      modifies this
      ensures downloads == if ok then ExitOk(old(downloads), id) else ExitErr(old(downloads), id)
    {
      if id in downloads {
        var progress := downloads[id];
        if ok {
          progress := progress.(status := Completed);
        } else if progress.status != Cancelled {
          progress := progress.(status := Failed);
        }
        downloads := downloads[id := progress.(taskExited := true)];
      }
    }
  }

  // ----- callers and tasks together -----

  datatype Phase =
    | Preparing       // accepted, creating directories
    | NeverStarted    // directory creation failed, no task was spawned
    | Fetching
    | CleaningUp      // failed, removing partial files
    | Exited

  datatype Job = Job(id: string, phase: Phase)

  // What happened to files, and when downloads were accepted.
  datatype Event = Accepted(id: string, job: nat) | Touched(id: string, job: nat)

  datatype State = State(downloads: Table, jobs: seq<Job>, log: seq<Event>)

  datatype Action =
    | Reserve(id: string, progress: Entry)
    | Begin(id: string)
    | DoCancel(id: string)
    | DoClear(id: string)
    | Prepared(job: nat, ok: bool)
    | Write(job: nat)
    | Succeed(job: nat)
    | Fail(job: nat)
    | RemovePartial(job: nat)
    | ReportFailure(job: nat)

  const Initial := State(map[], [], [])

  function JobPhase(s: State, job: nat): Option<Phase> {
    if job < |s.jobs| then Some(s.jobs[job].phase) else None
  }

  predicate Enabled(s: State, a: Action) {
    match a
    case Prepared(job, _) => JobPhase(s, job) == Some(Preparing)
    case Write(job) => JobPhase(s, job) == Some(Fetching)
    case Succeed(job) => JobPhase(s, job) == Some(Fetching)
    case Fail(job) => JobPhase(s, job) == Some(Fetching)
    case RemovePartial(job) => JobPhase(s, job) == Some(CleaningUp)
    case ReportFailure(job) => JobPhase(s, job) == Some(CleaningUp)
    case _ => true
  }

  function Move(s: State, job: nat, phase: Phase): State
    requires job < |s.jobs|
  {
    s.(jobs := s.jobs[job := s.jobs[job].(phase := phase)])
  }

  function Step(s: State, a: Action): State
    requires Enabled(s, a)
  {
    match a
    case Reserve(id, progress) =>
      if Busy(s.downloads, id) then s else s.(downloads := s.downloads[id := progress])
    case Begin(id) =>
      if Busy(s.downloads, id) then s
      else State(s.downloads[id := Entry(Downloading, false)], s.jobs + [Job(id, Preparing)],
                 s.log + [Accepted(id, |s.jobs|)])
    case DoCancel(id) => s.(downloads := Cancel(s.downloads, id))
    case DoClear(id) => s.(downloads := Clear(s.downloads, id))
    case Prepared(job, ok) => Move(s, job, if ok then Fetching else NeverStarted)
    case Write(job) => s.(log := s.log + [Touched(s.jobs[job].id, job)])
    case Succeed(job) => Move(s.(downloads := ExitOk(s.downloads, s.jobs[job].id)), job, Exited)
    case Fail(job) => Move(s, job, CleaningUp)
    case RemovePartial(job) => s.(log := s.log + [Touched(s.jobs[job].id, job)])
    case ReportFailure(job) => Move(s.(downloads := ExitErr(s.downloads, s.jobs[job].id)), job, Exited)
  }

  predicate Run(s: State, acts: seq<Action>, end: State)
    decreases |acts|
  {
    if acts == [] then s == end
    else Enabled(s, acts[0]) && Run(Step(s, acts[0]), acts[1..], end)
  }

  predicate IsLive(job: Job) {
    job.phase.Preparing? || job.phase.Fetching? || job.phase.CleaningUp?
  }

  // The download of this id that was accepted last.
  function LastAccepted(log: seq<Event>, id: string): Option<nat> {
    if log == [] then None
    else
      var last := log[|log| - 1];
      if last.Accepted? && last.id == id then Some(last.job) else LastAccepted(log[..|log| - 1], id)
  }

  // ----- at most one live task per id, and its files are its own -----

  ghost predicate LiveOk(s: State, j: nat)
    requires j < |s.jobs|
  {
    IsLive(s.jobs[j]) ==>
      && s.jobs[j].id in s.downloads
      && !s.downloads[s.jobs[j].id].taskExited
      && Busy(s.downloads, s.jobs[j].id)
      && LastAccepted(s.log, s.jobs[j].id) == Some(j)
  }

  ghost predicate LogOk(log: seq<Event>) {
    forall i :: 0 <= i < |log| && log[i].Touched? ==> LastAccepted(log[..i], log[i].id) == Some(log[i].job)
  }

  ghost predicate Inv(s: State) {
    && (forall j: nat :: j < |s.jobs| ==> LiveOk(s, j))
    && LogOk(s.log)
  }

  lemma LogExtended(log: seq<Event>, e: Event)
    requires LogOk(log) && (e.Touched? ==> LastAccepted(log, e.id) == Some(e.job))
    ensures LogOk(log + [e])
    ensures forall id :: LastAccepted(log + [e], id)
                      == if e.Accepted? && e.id == id then Some(e.job) else LastAccepted(log, id)
  {
    var log' := log + [e];
    assert log'[..|log|] == log;
    forall i | 0 <= i < |log'| && log'[i].Touched?
      ensures LastAccepted(log'[..i], log'[i].id) == Some(log'[i].job)
    {
      assert log'[..i] == log[..i];
    }
  }

  lemma StepKeepsInv(s: State, a: Action)
    requires Inv(s) && Enabled(s, a)
    ensures Inv(Step(s, a))
  {
    var s' := Step(s, a);
    match a {
      case Begin(id) =>
        if !Busy(s.downloads, id) {
          LogExtended(s.log, Accepted(id, |s.jobs|));
        }
      case Write(job) =>
        assert LiveOk(s, job);
        LogExtended(s.log, Touched(s.jobs[job].id, job));
      case RemovePartial(job) =>
        assert LiveOk(s, job);
        LogExtended(s.log, Touched(s.jobs[job].id, job));
      case Succeed(job) => assert LiveOk(s, job);
      case ReportFailure(job) => assert LiveOk(s, job);
      case _ =>
    }
    forall j: nat | j < |s'.jobs| ensures LiveOk(s', j) {
      if j < |s.jobs| { assert LiveOk(s, j); }
    }
  }

  lemma {:induction false} RunKeepsInv(s: State, acts: seq<Action>, end: State)
    requires Inv(s) && Run(s, acts, end)
    ensures Inv(end)
    decreases |acts|
  {
    if acts != [] {
      StepKeepsInv(s, acts[0]);
      RunKeepsInv(Step(s, acts[0]), acts[1..], end);
    }
  }

  /** Over any interleaving, two live tasks have different ids, and every file
      write and partial-file removal comes from the download of that id that was
      accepted last: all of a task's file operations precede the next start. */
  lemma OneLiveTaskPerId(acts: seq<Action>, end: State)
    requires Run(Initial, acts, end)
    ensures forall j, k :: 0 <= j < k < |end.jobs| && IsLive(end.jobs[j]) && IsLive(end.jobs[k])
              ==> end.jobs[j].id != end.jobs[k].id
    ensures forall i :: 0 <= i < |end.log| && end.log[i].Touched?
              ==> LastAccepted(end.log[..i], end.log[i].id) == Some(end.log[i].job)
  {
    RunKeepsInv(Initial, acts, end);
    forall j: nat, k: nat | j < k < |end.jobs| && IsLive(end.jobs[j]) && IsLive(end.jobs[k])
      ensures end.jobs[j].id != end.jobs[k].id
    {
      assert LiveOk(end, j) && LiveOk(end, k);
    }
  }

  // ----- exactly when a download can start again -----

  // Nobody reserves this id for a download of its own making.
  predicate NoReserveOf(acts: seq<Action>, id: string) {
    forall i :: 0 <= i < |acts| ==> !(acts[i].Reserve? && acts[i].id == id)
  }

  // The phase of the job accepted last for this id.
  function LastPhase(s: State, id: string): Option<Phase> {
    if LastAccepted(s.log, id).Some? then JobPhase(s, LastAccepted(s.log, id).value) else None
  }

  // An accepted download that has not exited keeps its id refused.
  ghost predicate HeldOk(s: State, id: string) {
    && (LastAccepted(s.log, id).Some? ==>
          var j := LastAccepted(s.log, id).value;
          j < |s.jobs| && s.jobs[j].id == id)
    && (LastPhase(s, id).Some? && LastPhase(s, id) != Some(Exited) ==>
          Busy(s.downloads, id) && !s.downloads[id].taskExited)
  }

  // An entry that no reservation made belongs to an accepted download.
  ghost predicate OwnedOk(s: State, id: string) {
    && (id in s.downloads ==> LastAccepted(s.log, id).Some?)
    && (LastPhase(s, id) == Some(Exited) ==>
          id in s.downloads ==> s.downloads[id].taskExited && !s.downloads[id].status.Downloading?)
  }

  lemma StepKeepsId(s: State, a: Action, id: string)
    requires Inv(s) && Enabled(s, a) && HeldOk(s, id)
    ensures HeldOk(Step(s, a), id)
    ensures OwnedOk(s, id) && !(a.Reserve? && a.id == id) ==> OwnedOk(Step(s, a), id)
    ensures LastPhase(s, id) == Some(NeverStarted) ==> LastPhase(Step(s, a), id) == Some(NeverStarted)
  {
    match a {
      case Begin(other) =>
        if !Busy(s.downloads, other) {
          LogExtended(s.log, Accepted(other, |s.jobs|));
        }
      case Write(job) =>
        assert LiveOk(s, job);
        LogExtended(s.log, Touched(s.jobs[job].id, job));
      case RemovePartial(job) =>
        assert LiveOk(s, job);
        LogExtended(s.log, Touched(s.jobs[job].id, job));
      case Succeed(job) => assert LiveOk(s, job);
      case ReportFailure(job) => assert LiveOk(s, job);
      case _ =>
    }
  }

  lemma {:induction false} RunKeepsId(s: State, acts: seq<Action>, end: State, id: string)
    requires Inv(s) && HeldOk(s, id) && Run(s, acts, end)
    ensures HeldOk(end, id)
    ensures OwnedOk(s, id) && NoReserveOf(acts, id) ==> OwnedOk(end, id)
    ensures LastPhase(s, id) == Some(NeverStarted) ==> LastPhase(end, id) == Some(NeverStarted)
    decreases |acts|
  {
    if acts != [] {
      StepKeepsId(s, acts[0], id);
      StepKeepsInv(s, acts[0]);
      RunKeepsId(Step(s, acts[0]), acts[1..], end, id);
    }
  }

  /** A new download of an id is refused while the one accepted last has not
      exited, and, if nobody reserved the id for a download of its own making,
      only then. That includes one whose directories could not be created: it
      never starts, hence never exits. */
  lemma RefusedExactlyUntilExit(acts: seq<Action>, s: State, id: string)
    requires Run(Initial, acts, s)
    ensures LastPhase(s, id).Some? && LastPhase(s, id) != Some(Exited) ==> Busy(s.downloads, id)
    ensures NoReserveOf(acts, id) ==>
              (Busy(s.downloads, id) <==> LastPhase(s, id).Some? && LastPhase(s, id) != Some(Exited))
  {
    RunKeepsId(Initial, acts, s, id);
  }

  /** After a failed directory creation the id stays refused whatever is done,
      cancelling, clearing and reserving included. */
  lemma NeverStartedBlocks(acts: seq<Action>, s: State, more: seq<Action>, end: State, id: string)
    requires Run(Initial, acts, s) && Run(s, more, end)
    requires LastPhase(s, id) == Some(NeverStarted)
    ensures Busy(end.downloads, id) && LastPhase(end, id) == Some(NeverStarted)
  {
    RunKeepsInv(Initial, acts, s);
    RunKeepsId(Initial, acts, s, id);
    RunKeepsId(s, more, end, id);
  }
}
