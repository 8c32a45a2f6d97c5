/**
 The Lwan bridge: coroutines that submit jobs, one client thread that runs them,
 and a shutdown, as interleaved atomic steps. A step is one critical section of
 the queue mutex, one atomic operation on a job, one pipe call, or work the client
 thread does on its own lists. A job that is used or released after it was freed
 sets `fault`.
 */
module Bridge {
  import opened Lists

  datatype Job = Job(refs: nat, done: bool, status: int)

  /** Where the coroutine that created a job stands. */
  datatype Stage = Submitting | Failing | SelfReleasing | Waking | Waiting | Gone

  /** What the client thread goes back to once a job is completed. */
  datatype Back = ToStart | ToSockets | ToExpire(rest: seq<nat>) | ToFailTaken | ToFailActive

  datatype Pc =
    | CheckStop
    | Polling
    | Draining
    | Taking
    | Running(back: Back)
    | Completing(j: nat, status: int, back: Back)
    | Releasing(j: nat, back: Back)
    | MarkStop
    | FailTake
    | Exited

  /** The jobs, their coroutines, and the history of what happened to them. */
  datatype Store = Store(
    jobs: map<nat, Job>,
    handlers: map<nat, Stage>,
    nextId: nat,
    completed: seq<nat>,
    released: seq<nat>,
    freed: seq<nat>,
    verdicts: map<nat, int>,
    answers: map<nat, int>,
    fault: bool)

  /** The bridge record and the client thread; `failure` is what jobs left over at the end are told. */
  datatype Loop = Loop(
    queue: seq<nat>,
    taken: seq<nat>,
    active: seq<nat>,
    stop: bool,
    pipe: nat,
    capacity: nat,
    failure: int,
    pc: Pc)

  datatype State = State(store: Store, loop: Loop)

  datatype Event =
    // coroutines
    | Arrive
    | Lock(j: nat)
    | SelfPublish(j: nat)
    | SelfRelease(j: nat)
    | Wake(j: nat)
    | Answer(j: nat)
    | Disconnect(j: nat)
    // shutdown
    | Stop
    | StopWake
    // the client thread
    | SeeStop
    | PollReady
    | PollInterrupted
    | PollFailed
    | DrainRead(n: nat)
    | DrainEnd
    | Take
    | StartJob(status: int)
    | AdmissionDone(j: nat, status: int)
    | SocketsEnd(status: int)
    | ExpireJob(expired: bool, status: int)
    | ExpireFailed(status: int)
    | Publish
    | ReleaseJob
    | Mark
    | FailJob

  const OK: int := 0
  const ERR_IO: int := -1

  function Init(capacity: nat): State {
    State(Store(map[], map[], 0, [], [], [], map[], map[], false), Loop([], [], [], false, 0, capacity, ERR_IO, CheckStop))
  }

  // ---------- jobs ----------

  function Fail(s: Store): Store { s.(fault := true) }

  /** Writes the result, then the `done` flag. */
  function Published(s: Store, j: nat, status: int): Store {
    if j !in s.jobs then Fail(s)
    else
      s.(jobs := s.jobs[j := s.jobs[j].(status := status, done := true)],
         completed := s.completed + [j],
         verdicts := s.verdicts[j := status])
  }

  /** Drops one reference and frees on the last. */
  function Dropped(s: Store, j: nat): Store {
    if j !in s.jobs || s.jobs[j].refs == 0 then Fail(s)
    else if s.jobs[j].refs == 1 then s.(jobs := s.jobs - {j}, freed := s.freed + [j])
    else s.(jobs := s.jobs[j := s.jobs[j].(refs := s.jobs[j].refs - 1)])
  }

  /** The client side's reference. */
  function Released(s: Store, j: nat): Store { Dropped(s.(released := s.released + [j]), j) }

  function Staged(s: Store, j: nat, stage: Stage): Store { s.(handlers := s.handlers[j := stage]) }

  // ---------- coroutines ----------

  predicate At(s: Store, j: nat, stage: Stage) { j in s.handlers && s.handlers[j] == stage }

  function OnArrive(s: Store): Store {
    s.(jobs := s.jobs[s.nextId := Job(2, false, 0)],
       handlers := s.handlers[s.nextId := Submitting],
       nextId := s.nextId + 1)
  }

  function Woken(l: Loop): Loop { l.(pipe := if l.pipe < l.capacity then l.pipe + 1 else l.pipe) }

  /** The critical section of a submission: fail fast once stopped, else link behind the tail. */
  function OnLock(s: State, j: nat): State {
    if s.loop.stop then s.(store := Staged(s.store, j, Failing))
    else if s.loop.queue != [] && s.loop.queue[|s.loop.queue| - 1] !in s.store.jobs then s.(store := Fail(s.store))
    else State(Staged(s.store, j, Waking), s.loop.(queue := s.loop.queue + [j]))
  }

  /** The coroutine polls `done`; once set it reads the result and its cleanup drops the reference. */
  function OnAnswer(s: Store, j: nat): Store {
    if j !in s.jobs then Fail(s)
    else if !s.jobs[j].done then s
    else Dropped(Staged(s.(answers := s.answers[j := s.jobs[j].status]), j, Gone), j)
  }

  function HandlerStep(s: Store, e: Event): Store {
    match e
    case Arrive => OnArrive(s)
    case SelfPublish(j) => if At(s, j, Failing) then Published(Staged(s, j, SelfReleasing), j, ERR_IO) else s
    case SelfRelease(j) => if At(s, j, SelfReleasing) then Released(Staged(s, j, Waiting), j) else s
    case Answer(j) => if At(s, j, Waiting) then OnAnswer(s, j) else s
    case Disconnect(j) => if At(s, j, Waiting) then Dropped(Staged(s, j, Gone), j) else s
    case _ => s
  }

  // ---------- the client thread ----------

  function OnTake(l: Loop): Loop {
    if l.pc == Taking then l.(taken := l.queue, queue := [], pc := Running(ToStart))
    else if l.pc == FailTake then l.(taken := l.queue, queue := [], pc := Running(ToFailTaken))
    else l
  }

  /** A job whose admission starts is linked in front of the active ones; any other is completed. */
  function OnStartJob(l: Loop, status: int): Loop {
    if l.pc != Running(ToStart) then l
    else if l.taken == [] then l.(pc := Running(ToSockets))
    else if status == OK then l.(taken := l.taken[1..], active := [l.taken[0]] + l.active)
    else l.(taken := l.taken[1..], pc := Completing(l.taken[0], status, ToStart))
  }

  function OnAdmission(l: Loop, j: nat, status: int): Loop {
    if l.pc != Running(ToSockets) || j !in l.active then l
    else l.(active := Without(l.active, j), pc := Completing(j, status, ToSockets))
  }

  function OnExpireJob(l: Loop, expired: bool, status: int): Loop {
    if !l.pc.Running? || !l.pc.back.ToExpire? then l
    else
      var rest := l.pc.back.rest;
      if rest == [] then l.(pc := CheckStop)
      else if expired
      then l.(active := Without(l.active, rest[0]), pc := Completing(rest[0], status, ToExpire(rest[1..])))
      else l.(pc := Running(ToExpire(rest[1..])))
  }

  function OnFailTaken(l: Loop): Loop {
    if l.taken == [] then l.(pc := Running(ToFailActive))
    else l.(taken := l.taken[1..], pc := Completing(l.taken[0], l.failure, ToFailTaken))
  }

  function OnFailActive(l: Loop): Loop {
    if l.active == [] then l.(pc := Exited)
    else l.(active := l.active[1..], pc := Completing(l.active[0], l.failure, ToFailActive))
  }

  function OnFailJob(l: Loop): Loop {
    if l.pc == Running(ToFailTaken) then OnFailTaken(l)
    else if l.pc == Running(ToFailActive) then OnFailActive(l)
    else l
  }

  /** Steps of the loop that leave every job where it is. */
  function ControlStep(l: Loop, e: Event): Loop {
    match e
    case SeeStop => if l.pc == CheckStop then l.(pc := if l.stop then MarkStop else Polling) else l
    case PollReady => if l.pc == Polling then l.(pc := if l.pipe > 0 then Draining else Running(ToSockets)) else l
    case PollInterrupted => if l.pc == Polling then l.(pc := CheckStop) else l
    case PollFailed => if l.pc == Polling then l.(pc := MarkStop, failure := ERR_IO) else l
    case DrainRead(n) => if l.pc == Draining && 0 < n <= 64 && n <= l.pipe then l.(pipe := l.pipe - n) else l
    case DrainEnd => if l.pc == Draining then l.(pc := Taking) else l
    case SocketsEnd(status) =>
      if l.pc != Running(ToSockets) then l
      else if status == OK then l.(pc := Running(ToExpire(l.active)))
      else l.(pc := MarkStop, failure := status)
    case ExpireFailed(status) =>
      if l.pc.Running? && l.pc.back.ToExpire? && l.pc.back.rest != [] && status != OK
      then l.(pc := MarkStop, failure := status) else l
    case Mark => if l.pc == MarkStop then l.(stop := true, pc := FailTake) else l
    case Stop => l.(stop := true)
    case StopWake => Woken(l)
    case _ => l
  }

  /** Steps that move jobs between the lists or pick one to complete. */
  function ListStep(l: Loop, e: Event): Loop {
    match e
    case Take => OnTake(l)
    case StartJob(status) => OnStartJob(l, status)
    case AdmissionDone(j, status) => OnAdmission(l, j, status)
    case ExpireJob(expired, status) => OnExpireJob(l, expired, status)
    case FailJob => OnFailJob(l)
    case _ => l
  }

  function Members(list: seq<nat>): set<nat> { set j | j in list }

  /**
   The jobs whose memory a step of the thread may read or write. Computing the poll timeout reads
   every active job, and unlinking one may walk past every other.
   */
  function Touched(l: Loop, e: Event): set<nat> {
    match e
    case PollReady => if l.pc == Polling then Members(l.active) else {}
    case PollInterrupted => if l.pc == Polling then Members(l.active) else {}
    case PollFailed => if l.pc == Polling then Members(l.active) else {}
    case StartJob(_) => if l.pc == Running(ToStart) && l.taken != [] then {l.taken[0]} else {}
    case AdmissionDone(j, _) => if l.pc == Running(ToSockets) && j in l.active then Members(l.active) else {}
    case ExpireJob(expired, _) =>
      if l.pc.Running? && l.pc.back.ToExpire? && l.pc.back.rest != []
      then {l.pc.back.rest[0]} + (if expired then Members(l.active) else {}) else {}
    case ExpireFailed(_) =>
      if l.pc.Running? && l.pc.back.ToExpire? && l.pc.back.rest != [] then {l.pc.back.rest[0]} else {}
    case FailJob =>
      if l.pc == Running(ToFailTaken) && l.taken != [] then {l.taken[0]}
      else if l.pc == Running(ToFailActive) && l.active != [] then {l.active[0]}
      else {}
    case _ => {}
  }

  function OnControl(s: State, e: Event): State {
    if Touched(s.loop, e) <= s.store.jobs.Keys then s.(loop := ControlStep(s.loop, e)) else s.(store := Fail(s.store))
  }

  function OnList(s: State, e: Event): State {
    if Touched(s.loop, e) <= s.store.jobs.Keys then s.(loop := ListStep(s.loop, e)) else s.(store := Fail(s.store))
  }

  function OnPublish(s: State): State {
    if !s.loop.pc.Completing? then s
    else
      var pc := s.loop.pc;
      State(Published(s.store, pc.j, pc.status), s.loop.(pc := Releasing(pc.j, pc.back)))
  }

  function OnRelease(s: State): State {
    if !s.loop.pc.Releasing? then s
    else State(Released(s.store, s.loop.pc.j), s.loop.(pc := Running(s.loop.pc.back)))
  }

  function Step(s: State, e: Event): State {
    match e
    case Lock(j) => if At(s.store, j, Submitting) then OnLock(s, j) else s
    case Wake(j) => if At(s.store, j, Waking) then State(Staged(s.store, j, Waiting), Woken(s.loop)) else s
    case Publish => OnPublish(s)
    case ReleaseJob => OnRelease(s)
    case Arrive => s.(store := HandlerStep(s.store, e))
    case SelfPublish(_) => s.(store := HandlerStep(s.store, e))
    case SelfRelease(_) => s.(store := HandlerStep(s.store, e))
    case Answer(_) => s.(store := HandlerStep(s.store, e))
    case Disconnect(_) => s.(store := HandlerStep(s.store, e))
    case Take => OnList(s, e)
    case StartJob(_) => OnList(s, e)
    case AdmissionDone(_, _) => OnList(s, e)
    case ExpireJob(_, _) => OnList(s, e)
    case FailJob => OnList(s, e)
    case _ => OnControl(s, e)
  }

  function Run(s: State, es: seq<Event>): State {
    if es == [] then s else Step(Run(s, es[..|es| - 1]), es[|es| - 1])
  }
}
