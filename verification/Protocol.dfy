/**
 The pool as a step system: request threads that lease a container each, one mutex, one
 condition variable shared by all languages, and one thread that works off the queue of
 Docker jobs. A step is what one thread does between two points where others can interfere.
 */
module Protocol {
  import opened Wrappers
  import opened Pool

  datatype Phase =
    | Start                    // getCodeLauncher not yet entered
    | Locking                  // extract: about to take the mutex, at first or after a wake-up
    | Testing                  // extract: holds the mutex, about to test the list
    | Parking                  // extract: holds the mutex, found the list empty, about to block
    | Asleep                   // blocked on the condition variable
    | Leased                   // has its container
    | Running                  // has asked Docker for the image and runs the code
    | RemoveQueued             // waits for the job that removes the used container
    | Removed                  // that job is done
    | CreateQueued             // waits for the job that creates the replacement
    | Created(made: Launcher)  // the job has launched the replacement and is about to take the mutex
    | Adding(made: Launcher)   // the job holds the mutex
    | Pushed                   // the replacement is in the list, the mutex is free, notify_all is still to come
    | Done
    | Lost                     // Docker did not launch a replacement
    | Refused                  // the language is not in the pool
    | Threw                    // `storage.at` found no list

  datatype Request = Request(lang: Language, phase: Phase, lease: Option<Launcher>, image: string, leaked: bool)

  datatype State = State(
    requests: seq<Request>,
    jobs: seq<nat>,              // requests whose job is queued, the current one first
    holder: Option<nat>,         // the request that holds the mutex, or whose job holds it
    lists: Lists,
    docker: map<Id, string>,     // the containers that exist, with their images
    issued: map<Id, Origin>)     // all containers this service ever launched

  datatype Step =
    | Begin(r: nat)
    | Lock(r: nat)
    | Test(r: nat)
    | Park(r: nat)
    | Wake(r: nat)               // a spurious wake-up
    | Inspect(r: nat, ok: bool)
    | Finish(r: nat)
    | RemoveJob(ok: bool)
    | PostCreate(r: nat)
    | CreateJob(id: Id)
    | CreateFail
    | AddLock
    | Push
    | Notify

  predicate At(s: State, r: nat, p: Phase) {
    r < |s.requests| && s.requests[r].phase == p
  }

  predicate Fresh(s: State, id: Id) {
    id != "" && id !in s.docker && id !in s.issued
  }

  /** The current job is that of a request in phase `p`. */
  predicate HeadAt(s: State, p: Phase) {
    s.jobs != [] && At(s, s.jobs[0], p)
  }

  function HeadPhase(s: State): Phase {
    if s.jobs != [] && s.jobs[0] < |s.requests| then s.requests[s.jobs[0]].phase else Start
  }

  predicate Enabled(s: State, step: Step) {
    match step
    case Begin(r) => At(s, r, Start)
    case Lock(r) => At(s, r, Locking) && s.holder == None
    case Test(r) => At(s, r, Testing)
    case Park(r) => At(s, r, Parking)
    case Wake(r) => At(s, r, Asleep)
    case Inspect(r, _) => At(s, r, Leased) && s.requests[r].lease.Some?
    case Finish(r) => At(s, r, Running)
    case RemoveJob(_) => HeadAt(s, RemoveQueued) && s.requests[s.jobs[0]].lease.Some?
    case PostCreate(r) => At(s, r, Removed)
    case CreateJob(id) => HeadAt(s, CreateQueued) && s.requests[s.jobs[0]].lease.Some? && Fresh(s, id)
    case CreateFail => HeadAt(s, CreateQueued)
    case AddLock => HeadPhase(s).Created? && s.holder == None
    case Push => HeadPhase(s).Adding?
    case Notify => HeadAt(s, Pushed)
  }

  function Move(s: State, r: nat, p: Phase): State
    requires r < |s.requests|
  {
    s.(requests := s.requests[r := s.requests[r].(phase := p)])
  }

  /** `notify_all` wakes every sleeper, whatever language it waits for. */
  function Woken(q: Request): Request {
    if q.phase == Asleep then q.(phase := Locking) else q
  }

  function WokenAll(s: State): State {
    s.(requests := seq(|s.requests|, i requires 0 <= i < |s.requests| => Woken(s.requests[i])))
  }

  function Tested(s: State, r: nat): State
    requires r < |s.requests|
  {
    var q := s.requests[r];
    if q.lang !in s.lists then Move(s, r, Threw)
    else if s.lists[q.lang] == [] then Move(s, r, Parking)
    else s.(requests := s.requests[r := q.(phase := Leased, lease := Some(Back(s.lists, q.lang)))],
            lists := Popped(s.lists, q.lang),
            holder := None)
  }

  function Inspected(s: State, r: nat, ok: bool): State
    requires r < |s.requests| && s.requests[r].lease.Some?
  {
    var q := s.requests[r];
    var id := q.lease.value.id;
    s.(requests := s.requests[r := q.(phase := Running, image := if ok && id in s.docker then s.docker[id] else "")])
  }

  function RemoveDone(s: State, r: nat, ok: bool): State
    requires r < |s.requests| && s.requests[r].lease.Some? && s.jobs != []
  {
    var q := s.requests[r];
    s.(requests := s.requests[r := q.(phase := Removed, leaked := !ok)],
       docker := if ok then s.docker - {q.lease.value.id} else s.docker,
       jobs := s.jobs[1..])
  }

  function Launched(s: State, r: nat, id: Id): State
    requires r < |s.requests| && s.requests[r].lease.Some?
  {
    var q := s.requests[r];
    var kind := q.lease.value.kind;
    Move(s, r, Created(Launcher(id, kind)))
      .(docker := s.docker[id := q.image], issued := s.issued[id := Origin(kind, q.image)])
  }

  function PushDone(s: State, r: nat): State
    requires r < |s.requests| && s.requests[r].phase.Adding?
  {
    var x := s.requests[r].phase.made;
    if x.kind !in s.lists then Move(s, r, Threw)
    else Move(s, r, Pushed).(lists := PushedBack(s.lists, x), holder := None)
  }

  function Apply(s: State, step: Step): State
    requires Enabled(s, step)
  {
    match step
    case Begin(r) => Move(s, r, if s.requests[r].lang in s.lists then Locking else Refused)
    case Lock(r) => Move(s, r, Testing).(holder := Some(r))
    case Test(r) => Tested(s, r)
    case Park(r) => Move(s, r, Asleep).(holder := None)
    case Wake(r) => Move(s, r, Locking)
    case Inspect(r, ok) => Inspected(s, r, ok)
    case Finish(r) => Move(s, r, RemoveQueued).(jobs := s.jobs + [r])
    case RemoveJob(ok) => RemoveDone(s, s.jobs[0], ok)
    case PostCreate(r) => Move(s, r, CreateQueued).(jobs := s.jobs + [r])
    case CreateJob(id) => Launched(s, s.jobs[0], id)
    case CreateFail => Move(s, s.jobs[0], Lost).(jobs := s.jobs[1..])
    case AddLock => Move(s, s.jobs[0], Adding(HeadPhase(s).made)).(holder := Some(s.jobs[0]))
    case Push => PushDone(s, s.jobs[0])
    case Notify => WokenAll(Move(s, s.jobs[0], Done).(jobs := s.jobs[1..]))
  }

  predicate Valid(s: State, steps: seq<Step>)
    decreases |steps|
  {
    steps != [] ==> Enabled(s, steps[0]) && Valid(Apply(s, steps[0]), steps[1..])
  }

  /** Where a run of steps leads. */
  function Run(s: State, steps: seq<Step>): State
    requires Valid(s, steps)
    decreases |steps|
  {
    if steps == [] then s else Run(Apply(s, steps[0]), steps[1..])
  }

  /** The state in which startup leaves the service, with any number of requests to come. */
  ghost predicate Init(s: State) {
    && s.jobs == [] && s.holder == None
    && (forall q | q in s.requests :: q.phase == Start && q.lease == None && !q.leaked)
    && Ready(s.lists, s.docker, s.issued)
  }
}
