/**
 The protocol by which request tasks load, share, evict and run local models.

 Every cached model has a slot with a state, an async lock and a notifier; one
 further lock serialises cold loads. Any number of request tasks and eviction
 tasks run at once. A step below is what one task does between two points at
 which another task can run, so a run is any interleaving of steps. Locks are
 granted in any order, which allows every schedule a fair lock would allow.
 */
module ModelSlots {
  import opened Options

  datatype Key = Key(backendId: string, modelId: string, chatTemplate: string)

  datatype Residency = Empty | Loading | Loaded

  datatype Slot = Slot(state: Residency, lock: Option<nat>)

  // Where a request task stands. "holds" names the locks it has.
  datatype Pc =
    | LockSlot                       // waits for its slot
    | Inspect                        // holds slot
    | Wait(notified: bool)           // registered with the slot's notifier
    | LockCold                       // waits for the cold-load lock
    | RelockSlot                     // holds cold, waits for its slot
    | Recheck                        // holds cold and slot
    | Announce                       // holds cold, sends the progress message
    | Snapshot                       // holds cold, lists the other slots
    | UnloadLock(rest: seq<Key>)     // holds cold, waits for rest[0]
    | UnloadHold(rest: seq<Key>)     // holds cold and rest[0]
    | LoadModel                      // holds cold, load_model is running
    | LockResult(ok: bool)           // holds cold, waits for its slot
    | StoreResult(ok: bool)          // holds cold and slot
    | Leave(ok: bool)                // holds cold and slot, result stored
    | LockGenerate                   // waits for its slot
    | CheckLoaded                    // holds slot
    | Generate                       // holds slot, generate is running
    | Done

  datatype EvictPc =
    | Collect
    | Lock(rest: seq<Key>)           // waits for rest[0]
    | Hold(rest: seq<Key>)           // holds rest[0]
    | Finished

  datatype Task = Request(key: Key, pc: Pc) | Evict(modelId: string, epc: EvictPc)

  datatype State = State(slots: map<Key, Slot>, cold: Option<nat>, tasks: seq<Task>)

  // What the environment decides at a step: whether the send or the load
  // succeeds, and in which order the slot map is iterated.
  datatype Choice = Choice(ok: bool, order: seq<Key>)

  datatype Action = Submit(key: Key) | SubmitEvict(modelId: string) | Advance(t: nat, choice: Choice)

  const Initial := State(map[], None, [])

  // ----- what a task holds and waits for -----

  // The slot whose lock the task holds.
  function Held(task: Task): Option<Key> {
    match task
    case Request(key, pc) => (
      match pc
      case Inspect => Some(key)
      case Recheck => Some(key)
      case StoreResult(_) => Some(key)
      case Leave(_) => Some(key)
      case CheckLoaded => Some(key)
      case Generate => Some(key)
      case UnloadHold(rest) => if rest != [] then Some(rest[0]) else None
      case _ => None)
    case Evict(_, epc) => if epc.Hold? && epc.rest != [] then Some(epc.rest[0]) else None
  }

  function WantsSlot(task: Task): Option<Key> {
    match task
    case Request(key, pc) => (
      match pc
      case LockSlot => Some(key)
      case RelockSlot => Some(key)
      case LockResult(_) => Some(key)
      case LockGenerate => Some(key)
      case UnloadLock(rest) => if rest != [] then Some(rest[0]) else None
      case _ => None)
    case Evict(_, epc) => if epc.Lock? && epc.rest != [] then Some(epc.rest[0]) else None
  }

  // The task has set its slot to Loading and has not yet stored a result.
  predicate IsLoader(task: Task) {
    task.Request? &&
    match task.pc
    case Announce => true
    case Snapshot => true
    case UnloadLock(_) => true
    case UnloadHold(_) => true
    case LoadModel => true
    case LockResult(_) => true
    case StoreResult(_) => true
    case _ => false
  }

  predicate HoldsCold(task: Task) {
    IsLoader(task) || (task.Request? && (task.pc.RelockSlot? || task.pc.Recheck? || task.pc.Leave?))
  }

  predicate IsFinished(task: Task) {
    if task.Request? then task.pc.Done? else task.epc.Finished?
  }

  predicate Enumerates(order: seq<Key>, keys: set<Key>) {
    && (forall i :: 0 <= i < |order| ==> order[i] in keys)
    && (forall k :: k in keys ==> k in order)
    && (forall i, j :: 0 <= i < j < |order| ==> order[i] != order[j])
  }

  // ----- steps -----

  function OtherKeys(s: State, key: Key): set<Key> {
    s.slots.Keys - {key}
  }

  function ModelKeys(s: State, modelId: string): set<Key> {
    set k | k in s.slots && k.modelId == modelId
  }

  predicate Enabled(s: State, t: nat, c: Choice) {
    && t < |s.tasks|
    && var task := s.tasks[t];
    && (WantsSlot(task).Some? ==>
          WantsSlot(task).value in s.slots && s.slots[WantsSlot(task).value].lock.None?)
    && match task
       case Request(key, pc) =>
         && key in s.slots
         && (match pc
             case Wait(notified) => notified
             case LockCold => s.cold.None?
             case Snapshot => Enumerates(c.order, OtherKeys(s, key))
             case UnloadHold(rest) => rest != [] && rest[0] in s.slots
             case Done => false
             case _ => true)
       case Evict(modelId, epc) =>
         (match epc
          case Collect => Enumerates(c.order, ModelKeys(s, modelId))
          case Hold(rest) => rest != [] && rest[0] in s.slots
          case Finished => false
          case _ => true)
  }

  function Woken(task: Task, k: Key): Task {
    if task.Request? && task.key == k && task.pc.Wait? then task.(pc := Wait(true)) else task
  }

  // notify_waiters on the slot of k.
  function Notify(tasks: seq<Task>, k: Key): (woken: seq<Task>)
    ensures |woken| == |tasks|
    ensures forall i :: 0 <= i < |tasks| ==> woken[i] == Woken(tasks[i], k)
  {
    seq(|tasks|, i requires 0 <= i < |tasks| => Woken(tasks[i], k))
  }

  function Go(s: State, t: nat, pc: Pc): State
    requires t < |s.tasks| && s.tasks[t].Request?
  {
    s.(tasks := s.tasks[t := s.tasks[t].(pc := pc)])
  }

  function GoEvict(s: State, t: nat, epc: EvictPc): State
    requires t < |s.tasks| && s.tasks[t].Evict?
  {
    s.(tasks := s.tasks[t := s.tasks[t].(epc := epc)])
  }

  function SetLock(s: State, k: Key, owner: Option<nat>): State
    requires k in s.slots
  {
    s.(slots := s.slots[k := s.slots[k].(lock := owner)])
  }

  function SetState(s: State, k: Key, state: Residency): State
    requires k in s.slots
  {
    s.(slots := s.slots[k := s.slots[k].(state := state)])
  }

  function NotifyAll(s: State, k: Key): State {
    s.(tasks := Notify(s.tasks, k))
  }

  // The task once the slot lock it waits for is granted.
  function Granted(task: Task): Task {
    match task
    case Request(key, pc) => (
      match pc
      case LockSlot => Request(key, Inspect)
      case RelockSlot => Request(key, Recheck)
      case LockResult(ok) => Request(key, StoreResult(ok))
      case LockGenerate => Request(key, CheckLoaded)
      case UnloadLock(rest) => Request(key, UnloadHold(rest))
      case _ => task)
    case Evict(modelId, epc) => if epc.Lock? then Evict(modelId, Hold(epc.rest)) else task
  }

  function Acquire(s: State, t: nat, c: Choice): State
    requires Enabled(s, t, c) && WantsSlot(s.tasks[t]).Some?
  {
    var held := SetLock(s, WantsSlot(s.tasks[t]).value, Some(t));
    held.(tasks := s.tasks[t := Granted(s.tasks[t])])
  }

  function RequestStep(s: State, t: nat, c: Choice): State
    requires Enabled(s, t, c) && WantsSlot(s.tasks[t]).None? && s.tasks[t].Request?
  {
    var key := s.tasks[t].key;
    var slot := s.slots[key];
    match s.tasks[t].pc
    case Inspect =>
      var freed := SetLock(s, key, None);
      (match slot.state
       case Loaded => Go(freed, t, LockGenerate)
       case Loading => Go(freed, t, Wait(false))
       case Empty => Go(freed, t, LockCold))
    case Wait(_) => Go(s, t, LockSlot)
    case LockCold => Go(s.(cold := Some(t)), t, RelockSlot)
    case Recheck =>
      var freed := SetLock(s, key, None);
      (match slot.state
       case Loaded => Go(freed.(cold := None), t, LockGenerate)
       case Loading => Go(freed.(cold := None), t, Wait(false))
       case Empty => Go(SetState(freed, key, Loading), t, Announce))
    case Announce => Go(s, t, if c.ok then Snapshot else LockResult(false))
    case Snapshot => Go(s, t, UnloadLock(c.order))
    case UnloadLock(_) => Go(s, t, LoadModel)
    case UnloadHold(rest) =>
      var freed := SetLock(s, rest[0], None);
      var emptied := if s.slots[rest[0]].state.Loaded? then SetState(freed, rest[0], Empty) else freed;
      Go(emptied, t, UnloadLock(rest[1..]))
    case LoadModel => Go(s, t, LockResult(c.ok))
    case StoreResult(ok) =>
      NotifyAll(Go(SetState(s, key, StoredState(ok)), t, Leave(ok)), key)
    case Leave(ok) =>
      Go(SetLock(s, key, None).(cold := None), t, if ok then LockGenerate else Done)
    case CheckLoaded =>
      if slot.state.Loaded? then Go(s, t, Generate) else Go(SetLock(s, key, None), t, Done)
    case Generate => Go(SetLock(s, key, None), t, Done)
    case _ => s
  }

  function EvictStep(s: State, t: nat, c: Choice): State
    requires Enabled(s, t, c) && WantsSlot(s.tasks[t]).None? && s.tasks[t].Evict?
  {
    match s.tasks[t].epc
    case Collect => GoEvict(s, t, Lock(c.order))
    case Lock(_) => GoEvict(s, t, Finished)
    case Hold(rest) =>
      var moved := GoEvict(SetLock(s, rest[0], None), t, Lock(rest[1..]));
      if s.slots[rest[0]].state.Loaded?
      then NotifyAll(SetState(moved, rest[0], Empty), rest[0])
      else moved
    case Finished => s
  }

  function Step(s: State, t: nat, c: Choice): State
    requires Enabled(s, t, c)
  {
    if WantsSlot(s.tasks[t]).Some? then Acquire(s, t, c)
    else if s.tasks[t].Request? then RequestStep(s, t, c)
    else EvictStep(s, t, c)
  }

  predicate Allowed(s: State, a: Action) {
    a.Advance? ==> Enabled(s, a.t, a.choice)
  }

  function Apply(s: State, a: Action): State
    requires Allowed(s, a)
  {
    match a
    case Submit(key) =>
      State(if key in s.slots then s.slots else s.slots[key := Slot(Empty, None)],
            s.cold, s.tasks + [Request(key, LockSlot)])
    case SubmitEvict(modelId) => s.(tasks := s.tasks + [Evict(modelId, Collect)])
    case Advance(t, c) => Step(s, t, c)
  }

  // acts leads from s to end.
  predicate Run(s: State, acts: seq<Action>, end: State)
    decreases |acts|
  {
    if acts == [] then s == end
    else Allowed(s, acts[0]) && Run(Apply(s, acts[0]), acts[1..], end)
  }

  // ----- what holds in every reachable state -----

  ghost predicate OneLoaded(s: State) {
    forall k1, k2 :: k1 in s.slots && k2 in s.slots && s.slots[k1].state.Loaded? && s.slots[k2].state.Loaded?
      ==> k1 == k2
  }

  ghost predicate NoneLoadedBut(s: State, keys: seq<Key>) {
    forall k :: k in s.slots && s.slots[k].state.Loaded? ==> k in keys
  }

  function Rest(task: Task): seq<Key> {
    match task
    case Request(_, pc) => if pc.UnloadLock? || pc.UnloadHold? then pc.rest else []
    case Evict(_, epc) => if epc.Lock? || epc.Hold? then epc.rest else []
  }

  // While a load that can succeed is under way, only slots still to be
  // visited may hold a model.
  ghost predicate Covered(s: State, task: Task) {
    task.Request? ==>
      match task.pc
      case UnloadLock(rest) => NoneLoadedBut(s, rest)
      case UnloadHold(rest) => rest != [] && NoneLoadedBut(s, rest)
      case LoadModel => NoneLoadedBut(s, [])
      case LockResult(ok) => ok ==> NoneLoadedBut(s, [])
      case StoreResult(ok) => ok ==> NoneLoadedBut(s, [])
      case _ => true
  }

  // The state a load leaves behind.
  function StoredState(ok: bool): Residency {
    if ok then Loaded else Empty
  }

  ghost predicate TaskOk(s: State, t: nat)
    requires t < |s.tasks|
  {
    var task := s.tasks[t];
    && (forall k :: k in Rest(task) ==> k in s.slots)
    && (Held(task).Some? ==> Held(task).value in s.slots && s.slots[Held(task).value].lock == Some(t))
    && (HoldsCold(task) ==> s.cold == Some(t))
    && (task.Evict? ==> task.epc.Hold? ==> task.epc.rest != [])
    && (task.Request? ==>
          && task.key in s.slots
          && task.key !in Rest(task)
          && (IsLoader(task) ==> s.slots[task.key].state.Loading?)
          && (task.pc == Wait(false) ==> s.slots[task.key].state.Loading?)
          && (task.pc.Generate? ==> s.slots[task.key].state.Loaded?)
          && (task.pc.Leave? ==> s.slots[task.key].state == StoredState(task.pc.ok)))
    && Covered(s, task)
  }

  ghost predicate SlotOk(s: State, k: Key)
    requires k in s.slots
  {
    && (s.slots[k].lock.Some? ==>
          s.slots[k].lock.value < |s.tasks| && Held(s.tasks[s.slots[k].lock.value]) == Some(k))
    && (s.slots[k].state.Loading? ==>
          && s.cold.Some? && s.cold.value < |s.tasks|
          && IsLoader(s.tasks[s.cold.value]) && s.tasks[s.cold.value].key == k)
  }

  ghost predicate Inv(s: State) {
    && (forall t: nat :: t < |s.tasks| ==> TaskOk(s, t))
    && (forall k :: k in s.slots ==> SlotOk(s, k))
    && (s.cold.Some? ==> s.cold.value < |s.tasks| && HoldsCold(s.tasks[s.cold.value]))
    && OneLoaded(s)
  }

  // Task t's step changes nothing another task relies on: it takes or frees only
  // its own locks, and the one state change is on a slot whose lock it holds.
  ghost predicate Quiet(s: State, s': State, t: nat) {
    && t < |s.tasks| == |s'.tasks|
    && (forall u :: 0 <= u < |s.tasks| && u != t ==> s'.tasks[u] == s.tasks[u])
    && s'.slots.Keys == s.slots.Keys
    && (forall k :: k in s.slots ==>
          && (s'.slots[k].lock == s.slots[k].lock
              || (s.slots[k].lock in {None, Some(t)} && s'.slots[k].lock in {None, Some(t)}))
          && (s'.slots[k].lock == Some(t) ==> Held(s'.tasks[t]) == Some(k))
          && (s'.slots[k].state == s.slots[k].state
              || (s.slots[k].lock == Some(t) && s.slots[k].state.Loaded? && s'.slots[k].state.Empty?)
              || (s.slots[k].lock == Some(t) && s.slots[k].state.Empty? && s'.slots[k].state.Loading?
                  && s'.cold == Some(t) && IsLoader(s'.tasks[t]) && s'.tasks[t].key == k)))
    && (s'.cold == s.cold || (s.cold in {None, Some(t)} && s'.cold in {None, Some(t)}))
    && (s'.cold == Some(t) ==> HoldsCold(s'.tasks[t]))
    && (IsLoader(s.tasks[t]) ==> IsLoader(s'.tasks[t]) && s'.tasks[t].key == s.tasks[t].key)
  }

  lemma QuietKeepsOther(s: State, s': State, t: nat, u: nat)
    requires Inv(s) && Quiet(s, s', t) && u < |s.tasks| && u != t
    ensures TaskOk(s', u)
  {
    assert TaskOk(s, u);
  }

  lemma QuietKeepsInv(s: State, s': State, t: nat)
    requires Inv(s) && Quiet(s, s', t) && TaskOk(s', t)
    ensures Inv(s')
  {
    forall u: nat | u < |s'.tasks| ensures TaskOk(s', u) {
      if u != t { QuietKeepsOther(s, s', t, u); }
    }
    forall k | k in s'.slots ensures SlotOk(s', k) {
      assert SlotOk(s, k);
      if s'.cold != s.cold && s.cold == Some(t) { assert TaskOk(s, t); }
    }
  }

  lemma HeldLocks(s: State, t: nat)
    requires Inv(s) && t < |s.tasks|
    ensures forall k :: k in s.slots ==> (s.slots[k].lock == Some(t) <==> Held(s.tasks[t]) == Some(k))
    ensures s.cold == Some(t) <==> HoldsCold(s.tasks[t])
  {
    assert TaskOk(s, t);
    forall k | k in s.slots ensures s.slots[k].lock == Some(t) ==> Held(s.tasks[t]) == Some(k) {
      assert SlotOk(s, k);
    }
  }

  lemma GrantedHolds(task: Task)
    requires WantsSlot(task).Some?
    ensures Held(task).None? && Held(Granted(task)) == WantsSlot(task)
    ensures HoldsCold(Granted(task)) == HoldsCold(task) && IsLoader(Granted(task)) == IsLoader(task)
  {
  }

  lemma AcquireKeepsInv(s: State, t: nat, c: Choice)
    requires Inv(s) && Enabled(s, t, c) && WantsSlot(s.tasks[t]).Some?
    ensures Inv(Acquire(s, t, c))
  {
    assert TaskOk(s, t);
    HeldLocks(s, t);
    GrantedHolds(s.tasks[t]);
    QuietKeepsInv(s, Acquire(s, t, c), t);
  }

  lemma MoveKeepsInv(s: State, t: nat, c: Choice)
    requires Inv(s) && Enabled(s, t, c) && WantsSlot(s.tasks[t]).None? && s.tasks[t].Request?
    requires s.tasks[t].pc.Wait? || s.tasks[t].pc.LockCold? || s.tasks[t].pc.Announce? || s.tasks[t].pc.Snapshot?
             || s.tasks[t].pc.UnloadLock? || s.tasks[t].pc.LoadModel?
    ensures Inv(RequestStep(s, t, c))
  {
    assert TaskOk(s, t);
    QuietKeepsInv(s, RequestStep(s, t, c), t);
  }

  // The task frees its own slot, and the cold-load lock if it has it, and goes on.
  function Released(s: State, t: nat, pc: Pc): State
    requires t < |s.tasks| && s.tasks[t].Request? && s.tasks[t].key in s.slots
  {
    Go(SetLock(s, s.tasks[t].key, None), t, pc).(cold := if s.tasks[t].pc.Leave? then None else s.cold)
  }

  predicate CanRelease(s: State, t: nat, pc: Pc) {
    && t < |s.tasks| && s.tasks[t].Request? && s.tasks[t].key in s.slots
    && (s.tasks[t].pc.Inspect? || s.tasks[t].pc.CheckLoaded? || s.tasks[t].pc.Generate? || s.tasks[t].pc.Leave?)
    && (pc.LockGenerate? || pc.LockCold? || pc.Done? || pc == Wait(false))
    && (pc == Wait(false) ==> s.slots[s.tasks[t].key].state.Loading?)
  }

  lemma ReleaseIsQuiet(s: State, t: nat, pc: Pc)
    requires Inv(s) && CanRelease(s, t, pc)
    ensures Quiet(s, Released(s, t, pc), t)
  {
    assert TaskOk(s, t);
    HeldLocks(s, t);
  }

  lemma ReleaseKeepsInv(s: State, t: nat, pc: Pc)
    requires Inv(s) && CanRelease(s, t, pc)
    ensures Inv(Released(s, t, pc))
  {
    ReleaseIsQuiet(s, t, pc);
    assert TaskOk(Released(s, t, pc), t);
    QuietKeepsInv(s, Released(s, t, pc), t);
  }

  lemma InspectKeepsInv(s: State, t: nat, c: Choice)
    requires Inv(s) && Enabled(s, t, c) && s.tasks[t].Request? && s.tasks[t].pc.Inspect?
    ensures Inv(RequestStep(s, t, c))
  {
    ReleaseKeepsInv(s, t, match s.slots[s.tasks[t].key].state
                          case Loaded => LockGenerate
                          case Loading => Wait(false)
                          case Empty => LockCold);
  }

  lemma CheckLoadedKeepsInv(s: State, t: nat, c: Choice)
    requires Inv(s) && Enabled(s, t, c) && s.tasks[t].Request? && s.tasks[t].pc.CheckLoaded?
    ensures Inv(RequestStep(s, t, c))
  {
    assert TaskOk(s, t);
    if s.slots[s.tasks[t].key].state.Loaded? {
      QuietKeepsInv(s, Go(s, t, Generate), t);
    } else {
      ReleaseKeepsInv(s, t, Done);
    }
  }

  lemma LeaveKeepsInv(s: State, t: nat, c: Choice)
    requires Inv(s) && Enabled(s, t, c) && s.tasks[t].Request? && (s.tasks[t].pc.Leave? || s.tasks[t].pc.Generate?)
    ensures Inv(RequestStep(s, t, c))
  {
    ReleaseKeepsInv(s, t, if s.tasks[t].pc.Leave? && s.tasks[t].pc.ok then LockGenerate else Done);
  }

  lemma RecheckKeepsInv(s: State, t: nat, c: Choice)
    requires Inv(s) && Enabled(s, t, c) && WantsSlot(s.tasks[t]).None? && s.tasks[t].Request?
    requires s.tasks[t].pc.Recheck?
    ensures Inv(RequestStep(s, t, c))
  {
    assert TaskOk(s, t);
    QuietKeepsInv(s, RequestStep(s, t, c), t);
  }

  lemma UnloadKeepsInv(s: State, t: nat, c: Choice)
    requires Inv(s) && Enabled(s, t, c) && WantsSlot(s.tasks[t]).None? && s.tasks[t].Request?
    requires s.tasks[t].pc.UnloadHold?
    ensures Inv(RequestStep(s, t, c))
  {
    assert TaskOk(s, t);
    QuietKeepsInv(s, RequestStep(s, t, c), t);
  }

  // evict_model notifies a Loaded slot, on which nobody waits un-notified.
  lemma EvictWakesNobody(s: State, t: nat, c: Choice)
    requires Inv(s) && Enabled(s, t, c) && WantsSlot(s.tasks[t]).None? && s.tasks[t].Evict?
    ensures EvictStep(s, t, c).tasks == s.tasks[t := EvictStep(s, t, c).tasks[t]]
  {
    forall u: nat, k | u < |s.tasks| && k in s.slots && s.slots[k].state.Loaded?
      ensures Woken(s.tasks[u], k) == s.tasks[u]
    {
      assert TaskOk(s, u);
    }
  }

  lemma EvictKeepsInv(s: State, t: nat, c: Choice)
    requires Inv(s) && Enabled(s, t, c) && WantsSlot(s.tasks[t]).None? && s.tasks[t].Evict?
    ensures Inv(EvictStep(s, t, c))
  {
    assert TaskOk(s, t);
    HeldLocks(s, t);
    EvictWakesNobody(s, t, c);
    QuietKeepsInv(s, EvictStep(s, t, c), t);
  }

  // The one step that is not quiet: it ends the Loading state and wakes waiters.
  lemma StoreKeepsInv(s: State, t: nat, c: Choice)
    requires Inv(s) && Enabled(s, t, c) && s.tasks[t].Request? && s.tasks[t].pc.StoreResult?
    ensures Inv(RequestStep(s, t, c))
  {
    var s' := RequestStep(s, t, c);
    assert TaskOk(s, t);
    forall u: nat | u < |s'.tasks| ensures TaskOk(s', u) { assert TaskOk(s, u); }
    forall k | k in s'.slots ensures SlotOk(s', k) { assert SlotOk(s, k); }
  }

  lemma SubmitKeepsInv(s: State, a: Action)
    requires Inv(s) && !a.Advance?
    ensures Inv(Apply(s, a))
  {
    var s' := Apply(s, a);
    forall u: nat | u < |s'.tasks| ensures TaskOk(s', u) {
      if u < |s.tasks| { assert TaskOk(s, u); }
    }
    forall k | k in s'.slots ensures SlotOk(s', k) {
      if k in s.slots { assert SlotOk(s, k); }
    }
  }

  lemma StepKeepsInv(s: State, t: nat, c: Choice)
    requires Inv(s) && Enabled(s, t, c)
    ensures Inv(Step(s, t, c))
  {
    var task := s.tasks[t];
    if WantsSlot(task).Some? {
      AcquireKeepsInv(s, t, c);
    } else if task.Evict? {
      EvictKeepsInv(s, t, c);
    } else {
      match task.pc
      case Inspect => InspectKeepsInv(s, t, c);
      case Recheck => RecheckKeepsInv(s, t, c);
      case UnloadHold(_) => UnloadKeepsInv(s, t, c);
      case StoreResult(_) => StoreKeepsInv(s, t, c);
      case Leave(_) => LeaveKeepsInv(s, t, c);
      case CheckLoaded => CheckLoadedKeepsInv(s, t, c);
      case Generate => LeaveKeepsInv(s, t, c);
      case _ => MoveKeepsInv(s, t, c);
    }
  }

  lemma {:induction false} RunKeepsInv(s: State, acts: seq<Action>, end: State)
    requires Inv(s) && Run(s, acts, end)
    ensures Inv(end)
    decreases |acts|
  {
    if acts != [] {
      if acts[0].Advance? {
        StepKeepsInv(s, acts[0].t, acts[0].choice);
      } else {
        SubmitKeepsInv(s, acts[0]);
      }
      RunKeepsInv(Apply(s, acts[0]), acts[1..], end);
    }
  }

  // ----- safety -----

  predicate At(s: State, t: nat, pc: Pc) {
    t < |s.tasks| && s.tasks[t].Request? && s.tasks[t].pc == pc
  }

  ghost predicate Safe(s: State) {
    // One model loads at a time, and its loader holds the cold-load lock.
    && (forall k1, k2 :: k1 in s.slots && k2 in s.slots && s.slots[k1].state.Loading? && s.slots[k2].state.Loading?
          ==> k1 == k2)
    && (forall k :: k in s.slots && s.slots[k].state.Loading? ==>
          s.cold.Some? && s.cold.value < |s.tasks| && IsLoader(s.tasks[s.cold.value])
          && s.tasks[s.cold.value].key == k)
    // At most one model is in memory.
    && OneLoaded(s)
    // load_model never overlaps another load, a generation or a loaded model.
    && (forall t: nat, u: nat :: At(s, t, LoadModel) && At(s, u, LoadModel) ==> t == u)
    && (forall t: nat, u: nat :: At(s, t, LoadModel) ==> !At(s, u, Generate))
    && (forall t: nat, k :: At(s, t, LoadModel) && k in s.slots ==> !s.slots[k].state.Loaded?)
    // At most one generation runs, on the loaded model of its request.
    && (forall t: nat, u: nat :: At(s, t, Generate) && At(s, u, Generate) ==> t == u)
    && (forall t: nat :: At(s, t, Generate) && s.tasks[t].key in s.slots ==> s.slots[s.tasks[t].key].state.Loaded?)
    // A load that succeeded leaves its slot Loaded, one that failed Empty.
    && (forall t: nat, ok :: At(s, t, Leave(ok)) && s.tasks[t].key in s.slots ==>
          s.slots[s.tasks[t].key].state == StoredState(ok))
    // The second look under the cold-load lock never finds Loading.
    && (forall t: nat :: At(s, t, Recheck) && s.tasks[t].key in s.slots ==> !s.slots[s.tasks[t].key].state.Loading?)
    // No lost wakeup: who waits un-notified waits for a load that is under way.
    && (forall t: nat :: At(s, t, Wait(false)) && s.tasks[t].key in s.slots ==> s.slots[s.tasks[t].key].state.Loading?)
  }

  // What the invariant says of one request task, in the words of Safe.
  ghost predicate RequestFacts(s: State, t: nat)
    requires t < |s.tasks| && s.tasks[t].Request?
  {
    && s.tasks[t].key in s.slots
    && (HoldsCold(s.tasks[t]) ==> s.cold == Some(t))
    && (s.tasks[t].pc.LoadModel? ==> NoneLoadedBut(s, []))
    && (s.tasks[t].pc.Generate? ==>
          s.slots[s.tasks[t].key].lock == Some(t) && s.slots[s.tasks[t].key].state.Loaded?)
    && (s.tasks[t].pc.Leave? ==> s.slots[s.tasks[t].key].state == StoredState(s.tasks[t].pc.ok))
    && (s.tasks[t].pc == Wait(false) ==> s.slots[s.tasks[t].key].state.Loading?)
  }

  ghost predicate LoadingFacts(s: State) {
    forall k :: k in s.slots && s.slots[k].state.Loading? ==>
      s.cold.Some? && s.cold.value < |s.tasks| && IsLoader(s.tasks[s.cold.value]) && s.tasks[s.cold.value].key == k
  }

  lemma InvGivesFacts(s: State)
    requires Inv(s)
    ensures LoadingFacts(s)
    ensures forall t: nat :: t < |s.tasks| && s.tasks[t].Request? ==> RequestFacts(s, t)
  {
    forall k | k in s.slots ensures SlotOk(s, k) {}
    forall t: nat | t < |s.tasks| && s.tasks[t].Request? ensures RequestFacts(s, t) {
      assert TaskOk(s, t);
    }
  }

  lemma FactsAreSafe(s: State)
    requires LoadingFacts(s) && OneLoaded(s)
    requires forall t: nat :: t < |s.tasks| && s.tasks[t].Request? ==> RequestFacts(s, t)
    ensures Safe(s)
  {
  }

  lemma InvIsSafe(s: State)
    requires Inv(s)
    ensures Safe(s)
  {
    InvGivesFacts(s);
    FactsAreSafe(s);
  }

  /** Every state that any interleaving of requests and evictions reaches is safe. */
  lemma EveryRunIsSafe(acts: seq<Action>, end: State)
    requires Run(Initial, acts, end)
    ensures Safe(end)
  {
    RunKeepsInv(Initial, acts, end);
    InvIsSafe(end);
  }

  // ----- what becomes of a slot's model -----

  predicate IsLoaded(s: State, k: Key) {
    k in s.slots && s.slots[k].state.Loaded?
  }

  // The action unloads or evicts the model of the slot.
  predicate Empties(s: State, a: Action, k: Key) {
    a.Advance? && a.t < |s.tasks| && IsLoaded(s, k) && Held(s.tasks[a.t]) == Some(k)
    && (if s.tasks[a.t].Request? then s.tasks[a.t].pc.UnloadHold? else s.tasks[a.t].epc.Hold?)
  }

  // The action stores a model in the slot.
  predicate Stores(s: State, a: Action, k: Key) {
    a.Advance? && At(s, a.t, StoreResult(true)) && s.tasks[a.t].key == k
  }

  predicate NeverStores(s: State, acts: seq<Action>, k: Key)
    decreases |acts|
  {
    acts == [] || (Allowed(s, acts[0]) && !Stores(s, acts[0], k) && NeverStores(Apply(s, acts[0]), acts[1..], k))
  }

  // The slot is emptied, and no model is stored in it after that.
  predicate EmptiedForGood(s: State, acts: seq<Action>, k: Key)
    decreases |acts|
  {
    && acts != [] && Allowed(s, acts[0])
    && var s' := Apply(s, acts[0]);
    ((Empties(s, acts[0], k) && NeverStores(s', acts[1..], k)) || EmptiedForGood(s', acts[1..], k))
  }

  // A slot becomes Loaded only when the result of a load is stored.
  lemma OnlyStoresLoad(s: State, u: nat, c: Choice, k: Key)
    requires Enabled(s, u, c) && k in Step(s, u, c).slots && Step(s, u, c).slots[k].state.Loaded?
    ensures k in s.slots
    ensures s.slots[k].state.Loaded? || (At(s, u, StoreResult(true)) && s.tasks[u].key == k)
  {
  }

  lemma StepLoads(s: State, t: nat, c: Choice, k: Key)
    requires Inv(s) && Enabled(s, t, c)
    ensures var a := Advance(t, c);
            IsLoaded(Step(s, t, c), k) <==> (IsLoaded(s, k) || Stores(s, a, k)) && !Empties(s, a, k)
  {
    assert TaskOk(s, t);
    if IsLoaded(Step(s, t, c), k) {
      OnlyStoresLoad(s, t, c, k);
    }
  }

  lemma {:induction false} LoadedAfter(s: State, acts: seq<Action>, end: State, k: Key)
    requires Inv(s) && Run(s, acts, end)
    ensures IsLoaded(end, k) <==> (IsLoaded(s, k) || !NeverStores(s, acts, k)) && !EmptiedForGood(s, acts, k)
    decreases |acts|
  {
    if acts != [] {
      var a := acts[0];
      if a.Advance? {
        StepLoads(s, a.t, a.choice, k);
        StepKeepsInv(s, a.t, a.choice);
      } else {
        SubmitKeepsInv(s, a);
      }
      LoadedAfter(Apply(s, a), acts[1..], end, k);
    }
  }

  // ----- evictions -----

  // The slot is still to be visited if it may hold the model.
  predicate EvictCovers(s: State, t: nat, k: Key) {
    && t < |s.tasks| && s.tasks[t].Evict? && s.tasks[t].modelId == k.modelId
    && (IsLoaded(s, k) ==> s.tasks[t].epc.Collect? || k in Rest(s.tasks[t]))
  }

  lemma OthersKeepEvict(s: State, u: nat, c: Choice, t: nat)
    requires Enabled(s, u, c) && t < |s.tasks| && t != u && s.tasks[t].Evict?
    ensures |Step(s, u, c).tasks| == |s.tasks| && Step(s, u, c).tasks[t] == s.tasks[t]
  {
  }

  lemma StepKeepsCovering(s: State, a: Action, t: nat, k: Key)
    requires EvictCovers(s, t, k) && Allowed(s, a) && !Stores(s, a, k)
    ensures EvictCovers(Apply(s, a), t, k)
  {
    if a.Advance? {
      if IsLoaded(Step(s, a.t, a.choice), k) {
        OnlyStoresLoad(s, a.t, a.choice, k);
      }
      if a.t != t {
        OthersKeepEvict(s, a.t, a.choice, t);
      } else {
        OwnStepKeepsCovering(s, t, a.choice, k);
      }
    }
  }

  lemma OwnStepKeepsCovering(s: State, t: nat, c: Choice, k: Key)
    requires EvictCovers(s, t, k) && Enabled(s, t, c)
    ensures EvictCovers(Step(s, t, c), t, k)
  {
  }

  lemma {:induction false} NeverStoredStaysCovered(s: State, t: nat, k: Key, acts: seq<Action>, end: State)
    requires EvictCovers(s, t, k) && Run(s, acts, end) && NeverStores(s, acts, k)
    ensures EvictCovers(end, t, k)
    decreases |acts|
  {
    if acts != [] {
      StepKeepsCovering(s, acts[0], t, k);
      NeverStoredStaysCovered(Apply(s, acts[0]), t, k, acts[1..], end);
    }
  }

  /** When an eviction has finished, whatever other tasks did meanwhile, a slot of
      its model is Loaded if and only if since it began a model was stored there,
      and not emptied for good after that. */
  lemma EvictionEmpties(before: seq<Action>, s: State, t: nat, k: Key, acts: seq<Action>, end: State)
    requires Run(Initial, before, s) && Run(s, acts, end)
    requires t < |s.tasks| && s.tasks[t] == Evict(k.modelId, Collect)
    requires t < |end.tasks| && IsFinished(end.tasks[t])
    ensures IsLoaded(end, k) <==> !NeverStores(s, acts, k) && !EmptiedForGood(s, acts, k)
  {
    RunKeepsInv(Initial, before, s);
    LoadedAfter(s, acts, end, k);
    if NeverStores(s, acts, k) {
      NeverStoredStaysCovered(s, t, k, acts, end);
    }
  }

  // ----- which requests generate -----

  // The step takes the task out of the load loop.
  predicate LeavesLoop(s: State, t: nat, c: Choice) {
    Enabled(s, t, c) && !At(s, t, LockGenerate) && At(Step(s, t, c), t, LockGenerate)
  }

  lemma LeavingFindsModel(s: State, t: nat, c: Choice)
    requires Inv(s) && LeavesLoop(s, t, c)
    ensures s.tasks[t].Request? && IsLoaded(Step(s, t, c), s.tasks[t].key)
    ensures Step(s, t, c).tasks[t].key == s.tasks[t].key
  {
    assert TaskOk(s, t);
  }

  lemma StepKeepsKey(s: State, a: Action, t: nat)
    requires t < |s.tasks| && s.tasks[t].Request? && Allowed(s, a)
    ensures t < |Apply(s, a).tasks| && Apply(s, a).tasks[t].Request? && Apply(s, a).tasks[t].key == s.tasks[t].key
  {
  }

  lemma {:induction false} RunKeepsKey(s: State, t: nat, acts: seq<Action>, end: State)
    requires t < |s.tasks| && s.tasks[t].Request? && Run(s, acts, end)
    ensures t < |end.tasks| && end.tasks[t].Request? && end.tasks[t].key == s.tasks[t].key
    decreases |acts|
  {
    if acts != [] {
      StepKeepsKey(s, acts[0], t);
      RunKeepsKey(Apply(s, acts[0]), t, acts[1..], end);
    }
  }

  /** A request that leaves the load loop generates once it has its slot, exactly
      unless an unload or an eviction emptied the slot for good in between. */
  lemma GeneratesExactly(before: seq<Action>, s: State, t: nat, c: Choice, acts: seq<Action>, end: State, c': Choice)
    requires Run(Initial, before, s) && LeavesLoop(s, t, c)
    requires Run(Step(s, t, c), acts, end) && At(end, t, CheckLoaded) && Enabled(end, t, c')
    ensures At(Step(end, t, c'), t, Generate) <==> !EmptiedForGood(Step(s, t, c), acts, end.tasks[t].key)
  {
    RunKeepsInv(Initial, before, s);
    StepKeepsInv(s, t, c);
    LeavingFindsModel(s, t, c);
    RunKeepsKey(Step(s, t, c), t, acts, end);
    LoadedAfter(Step(s, t, c), acts, end, end.tasks[t].key);
  }

  // ----- deadlock freedom -----

  lemma {:induction false} SomeEnumeration(keys: set<Key>) returns (order: seq<Key>)
    ensures Enumerates(order, keys)
    decreases |keys|
  {
    if keys == {} {
      order := [];
    } else {
      var k :| k in keys;
      var rest := SomeEnumeration(keys - {k});
      order := [k] + rest;
    }
  }

  // The task can move now, or waits for something another task holds.
  lemma NotBlocked(s: State, t: nat) returns (c: Choice)
    requires Inv(s) && t < |s.tasks| && !IsFinished(s.tasks[t])
    requires forall k :: k in s.slots && WantsSlot(s.tasks[t]) == Some(k) ==> s.slots[k].lock.None?
    requires At(s, t, LockCold) ==> s.cold.None?
    requires !At(s, t, Wait(false))
    ensures Enabled(s, t, c)
  {
    assert TaskOk(s, t);
    var task := s.tasks[t];
    var order := SomeEnumeration(if task.Request? then OtherKeys(s, task.key) else ModelKeys(s, task.modelId));
    c := Choice(true, order);
  }

  /** While any task is unfinished, some task can take a step. */
  lemma NoDeadlock(s: State, t: nat) returns (u: nat, c: Choice)
    requires Inv(s) && t < |s.tasks| && !IsFinished(s.tasks[t])
    ensures Enabled(s, u, c)
    decreases if At(s, t, Wait(false)) then 3 else if At(s, t, LockCold) then 2
              else if WantsSlot(s.tasks[t]).Some? then 1 else 0
  {
    assert TaskOk(s, t);
    var task := s.tasks[t];
    if WantsSlot(task).Some? && s.slots[WantsSlot(task).value].lock.Some? {
      assert SlotOk(s, WantsSlot(task).value);
      u, c := NoDeadlock(s, s.slots[WantsSlot(task).value].lock.value);
    } else if At(s, t, LockCold) && s.cold.Some? {
      u, c := NoDeadlock(s, s.cold.value);
    } else if At(s, t, Wait(false)) {
      assert SlotOk(s, task.key);
      u, c := NoDeadlock(s, s.cold.value);
    } else {
      u := t;
      c := NotBlocked(s, t);
    }
  }

  // ----- every run ends -----

  // Steps a task may still take before it waits un-notified or finishes, when
  // there are n slots.
  function Rank(task: Task, n: nat): nat {
    match task
    case Request(_, pc) => (
      match pc
      case Done => 0
      case Generate => 1
      case CheckLoaded => 2
      case LockGenerate => 3
      case Leave(_) => 4
      case StoreResult(_) => 5
      case LockResult(_) => 6
      case LoadModel => 7
      case UnloadLock(rest) => 8 + 2 * |rest|
      case UnloadHold(rest) => 7 + 2 * |rest|
      case Snapshot => 9 + 2 * n
      case Announce => 10 + 2 * n
      case Recheck => 11 + 2 * n
      case RelockSlot => 12 + 2 * n
      case LockCold => 13 + 2 * n
      case Inspect => 14 + 2 * n
      case LockSlot => 15 + 2 * n
      case Wait(notified) => if notified then 16 + 2 * n else 4)
    case Evict(_, epc) => (
      match epc
      case Finished => 0
      case Hold(rest) => 1 + 2 * |rest|
      case Lock(rest) => 2 + 2 * |rest|
      case Collect => 3 + 2 * n)
  }

  // The task has not yet stored the result of a load, which it does at most once.
  predicate MayStore(task: Task) {
    task.Request? && !task.pc.Leave? && !task.pc.LockGenerate? && !task.pc.CheckLoaded?
    && !task.pc.Generate? && !task.pc.Done?
  }

  // At least what all waiters together gain in rank when one store wakes them.
  function WakeGain(tasks: nat, n: nat): nat {
    if tasks == 0 then 0 else WakeGain(tasks - 1, n) + 12 + 2 * n
  }

  function Weight(task: Task, n: nat, wakeCost: nat): nat {
    Rank(task, n) + if MayStore(task) then wakeCost else 0
  }

  function TotalWeight(tasks: seq<Task>, n: nat, wakeCost: nat): nat {
    if tasks == [] then 0
    else Weight(tasks[0], n, wakeCost) + TotalWeight(tasks[1..], n, wakeCost)
  }

  // How many steps can follow when nobody submits anything more.
  function StepsLeft(s: State): nat {
    TotalWeight(s.tasks, |s.slots|, WakeGain(|s.tasks|, |s.slots|) + 1)
  }

  lemma {:induction false} UpdateWeight(tasks: seq<Task>, t: nat, task: Task, n: nat, wakeCost: nat)
    requires t < |tasks|
    ensures TotalWeight(tasks[t := task], n, wakeCost)
         == TotalWeight(tasks, n, wakeCost) - Weight(tasks[t], n, wakeCost) + Weight(task, n, wakeCost)
  {
    if t == 0 {
      assert tasks[t := task][1..] == tasks[1..];
    } else {
      assert tasks[t := task][1..] == tasks[1..][t - 1 := task];
      UpdateWeight(tasks[1..], t - 1, task, n, wakeCost);
    }
  }

  lemma {:induction false} NotifyWeight(tasks: seq<Task>, k: Key, n: nat, wakeCost: nat)
    ensures TotalWeight(Notify(tasks, k), n, wakeCost) <= TotalWeight(tasks, n, wakeCost) + WakeGain(|tasks|, n)
  {
    if tasks != [] {
      assert Notify(tasks, k)[1..] == Notify(tasks[1..], k);
      NotifyWeight(tasks[1..], k, n, wakeCost);
    }
  }

  lemma {:induction false} EnumerationLength(order: seq<Key>, keys: set<Key>)
    requires Enumerates(order, keys)
    ensures |order| == |keys|
    decreases |order|
  {
    if order == [] {
      assert keys == {};
    } else {
      var k := order[0];
      forall x | x in keys - {k} ensures x in order[1..] {
        assert x in order;
      }
      EnumerationLength(order[1..], keys - {k});
    }
  }

  lemma SlotCountKept(s: State, t: nat, c: Choice)
    requires Enabled(s, t, c) && Inv(s)
    ensures Step(s, t, c).slots.Keys == s.slots.Keys && |Step(s, t, c).slots| == |s.slots|
    ensures |Step(s, t, c).tasks| == |s.tasks|
  {
    assert TaskOk(s, t);
    assert Step(s, t, c).slots.Keys == s.slots.Keys;
    assert forall m: map<Key, Slot> :: |m| == |m.Keys|;
  }

  ghost predicate LowersRank(s: State, s': State, t: nat) {
    && t < |s.tasks| == |s'.tasks|
    && s'.tasks == s.tasks[t := s'.tasks[t]]
    && Rank(s'.tasks[t], |s.slots|) < Rank(s.tasks[t], |s.slots|)
    && (MayStore(s'.tasks[t]) ==> MayStore(s.tasks[t]))
  }

  lemma RequestLowersRank(s: State, t: nat, c: Choice)
    requires Enabled(s, t, c) && WantsSlot(s.tasks[t]).None? && s.tasks[t].Request? && !s.tasks[t].pc.StoreResult?
    ensures LowersRank(s, RequestStep(s, t, c), t)
  {
    if s.tasks[t].pc.Snapshot? {
      EnumerationLength(c.order, OtherKeys(s, s.tasks[t].key));
      SubsetSize(OtherKeys(s, s.tasks[t].key), s.slots.Keys);
    }
  }

  lemma EvictLowersRank(s: State, t: nat, c: Choice)
    requires Inv(s) && Enabled(s, t, c) && WantsSlot(s.tasks[t]).None? && s.tasks[t].Evict?
    ensures LowersRank(s, EvictStep(s, t, c), t)
  {
    EvictWakesNobody(s, t, c);
    if s.tasks[t].epc.Collect? {
      EnumerationLength(c.order, ModelKeys(s, s.tasks[t].modelId));
      SubsetSize(ModelKeys(s, s.tasks[t].modelId), s.slots.Keys);
    }
  }

  // Every step but a store moves one task to a lower rank.
  lemma StepLowersRank(s: State, t: nat, c: Choice)
    requires Inv(s) && Enabled(s, t, c)
    requires !(s.tasks[t].Request? && s.tasks[t].pc.StoreResult?)
    ensures LowersRank(s, Step(s, t, c), t)
  {
    if WantsSlot(s.tasks[t]).None? {
      if s.tasks[t].Request? {
        RequestLowersRank(s, t, c);
      } else {
        EvictLowersRank(s, t, c);
      }
    }
  }

  lemma {:induction false} SubsetSize(a: set<Key>, b: set<Key>)
    requires a <= b
    ensures |a| <= |b|
  {
    assert b == a + (b - a);
  }

  function WithPc(tasks: seq<Task>, t: nat, pc: Pc): seq<Task>
    requires t < |tasks| && tasks[t].Request?
  {
    tasks[t := tasks[t].(pc := pc)]
  }

  // A store costs its task more than all waiters gain from it.
  lemma StoreOutweighsWaking(tasks: seq<Task>, t: nat, n: nat, gain: nat)
    requires t < |tasks| && tasks[t].Request? && tasks[t].pc.StoreResult? && gain == WakeGain(|tasks|, n)
    ensures TotalWeight(Notify(WithPc(tasks, t, Leave(tasks[t].pc.ok)), tasks[t].key), n, gain + 1)
          < TotalWeight(tasks, n, gain + 1)
  {
    var moved := WithPc(tasks, t, Leave(tasks[t].pc.ok));
    UpdateWeight(tasks, t, moved[t], n, gain + 1);
    NotifyWeight(moved, tasks[t].key, n, gain + 1);
  }

  lemma StoreWakes(s: State, t: nat, c: Choice)
    requires Enabled(s, t, c) && s.tasks[t].Request? && s.tasks[t].pc.StoreResult?
    ensures Step(s, t, c).tasks == Notify(WithPc(s.tasks, t, Leave(s.tasks[t].pc.ok)), s.tasks[t].key)
  {
  }

  lemma RankLowersWeight(tasks: seq<Task>, t: nat, task: Task, n: nat, wakeCost: nat)
    requires t < |tasks| && Rank(task, n) < Rank(tasks[t], n) && (MayStore(task) ==> MayStore(tasks[t]))
    ensures TotalWeight(tasks[t := task], n, wakeCost) < TotalWeight(tasks, n, wakeCost)
  {
    UpdateWeight(tasks, t, task, n, wakeCost);
  }

  lemma TasksGetLighter(s: State, t: nat, c: Choice, gain: nat)
    requires Inv(s) && Enabled(s, t, c) && gain == WakeGain(|s.tasks|, |s.slots|)
    ensures TotalWeight(Step(s, t, c).tasks, |s.slots|, gain + 1) < TotalWeight(s.tasks, |s.slots|, gain + 1)
  {
    if s.tasks[t].Request? && s.tasks[t].pc.StoreResult? {
      StoreWakes(s, t, c);
      StoreOutweighsWaking(s.tasks, t, |s.slots|, gain);
    } else {
      StepLowersRank(s, t, c);
      RankLowersWeight(s.tasks, t, Step(s, t, c).tasks[t], |s.slots|, gain + 1);
    }
  }

  /** Each step leaves strictly fewer steps to take. */
  lemma StepLowersWeight(s: State, t: nat, c: Choice)
    requires Inv(s) && Enabled(s, t, c)
    ensures StepsLeft(Step(s, t, c)) < StepsLeft(s)
  {
    SlotCountKept(s, t, c);
    TasksGetLighter(s, t, c, WakeGain(|s.tasks|, |s.slots|));
  }

  predicate NoSubmissions(acts: seq<Action>) {
    forall i :: 0 <= i < |acts| ==> acts[i].Advance?
  }

  /** After the last submission at most StepsLeft(s) steps happen: tasks cannot
      wake and reload each other for ever. */
  lemma {:induction false} RunsAreBounded(s: State, acts: seq<Action>, end: State)
    requires Inv(s) && Run(s, acts, end) && NoSubmissions(acts)
    ensures |acts| + StepsLeft(end) <= StepsLeft(s)
    decreases |acts|
  {
    if acts != [] {
      StepKeepsInv(s, acts[0].t, acts[0].choice);
      StepLowersWeight(s, acts[0].t, acts[0].choice);
      RunsAreBounded(Apply(s, acts[0]), acts[1..], end);
    }
  }

  ghost predicate AllFinished(s: State) {
    forall t :: 0 <= t < |s.tasks| ==> IsFinished(s.tasks[t])
  }

  /** A reachable state in which no step is possible has every task finished. */
  lemma StuckMeansFinished(acts: seq<Action>, end: State)
    requires Run(Initial, acts, end)
    requires forall t: nat, c: Choice :: !Enabled(end, t, c)
    ensures AllFinished(end)
  {
    RunKeepsInv(Initial, acts, end);
    forall t | 0 <= t < |end.tasks| ensures IsFinished(end.tasks[t]) {
      if !IsFinished(end.tasks[t]) {
        var u, c := NoDeadlock(end, t);
        assert false;
      }
    }
  }
}
