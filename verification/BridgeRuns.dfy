/** The bridge's invariant, kept by every step of every interleaving. */
module BridgeRuns {
  import opened Lists
  import opened Bridge

  ghost function Unpublished(m: map<nat, Stage>): set<nat> { set j | j in m && (m[j].Submitting? || m[j].Failing?) }

  ghost function Unreleased(m: map<nat, Stage>): set<nat> { set j | j in m && m[j].SelfReleasing? }

  ghost function AboutToWake(m: map<nat, Stage>): set<nat> { set j | j in m && m[j].Waking? }

  ghost function Publishing(pc: Pc): multiset<nat> { if pc.Completing? then multiset{pc.j} else multiset{} }

  ghost function Held(pc: Pc): multiset<nat> { if pc.Releasing? then multiset{pc.j} else multiset{} }

  /** The jobs on the bridge's lists, or in the thread's hands, whose result is not out yet. */
  ghost function Carried(l: Loop): multiset<nat> {
    multiset(l.queue) + multiset(l.taken) + multiset(l.active) + Publishing(l.pc)
  }

  /** Every job is in exactly one place until it is completed, and is completed once. */
  ghost predicate Placed(carried: multiset<nat>, own: set<nat>, completed: seq<nat>, all: set<nat>) {
    carried + multiset(own) + multiset(completed) == multiset(all)
  }

  /** The client side of every completed job is released once. */
  ghost predicate Settled(completed: seq<nat>, released: seq<nat>, held: multiset<nat>, own: set<nat>) {
    multiset(completed) == multiset(released) + held + multiset(own)
  }

  /** A job lives while either owner holds it; its counter says how many do. */
  ghost predicate JobOk(jobs: map<nat, Job>, gone: bool, free: bool, done: bool, verdicts: map<nat, int>, j: nat) {
    && (j in jobs <==> !(gone && free))
    && (j in jobs ==>
          && jobs[j].refs == (if free then 0 else 1) + (if gone then 0 else 1)
          && jobs[j].done == done
          && (done ==> j in verdicts && jobs[j].status == verdicts[j]))
  }

  ghost predicate HeapOk(jobs: map<nat, Job>, m: map<nat, Stage>, completed: seq<nat>, released: seq<nat>,
                         verdicts: map<nat, int>, nextId: nat)
  {
    && jobs.Keys <= m.Keys
    && (forall j :: j in m ==> j < nextId && JobOk(jobs, m[j].Gone?, j in released, j in completed, verdicts, j))
  }

  ghost function Finished(m: map<nat, Stage>, released: seq<nat>): set<nat> {
    set j | j in m && m[j].Gone? && j in released
  }

  ghost predicate AnswersOk(answers: map<nat, int>, verdicts: map<nat, int>, completed: seq<nat>) {
    && (forall j :: j in answers ==> j in completed && j in verdicts && answers[j] == verdicts[j])
  }

  ghost function BackOf(pc: Pc): Back {
    if pc.Running? || pc.Completing? || pc.Releasing? then pc.back else ToSockets
  }

  /** Which lists the thread may be holding, by where it is. */
  ghost predicate PhaseOk(l: Loop) {
    var back := BackOf(l.pc);
    && (l.taken != [] ==> back.ToStart? || back.ToFailTaken?)
    && (l.pc.FailTake? || l.pc.Exited? || back.ToFailTaken? || back.ToFailActive? ==> l.stop)
    && (l.pc.Exited? || back.ToFailTaken? || back.ToFailActive? ==> l.queue == [])
    && (l.pc.Exited? ==> l.active == [])
    && (back.ToExpire? ==> multiset(back.rest) <= multiset(l.active))
  }

  /** The thread cannot sleep through its queue: the pipe is readable, or it is about to look. */
  ghost predicate Alert(l: Loop) { l.pipe > 0 || l.pc.Draining? || l.pc.Taking? }

  /** No lost wakeup: a queued job alerts the thread, unless its own coroutine has yet to write the pipe. */
  ghost predicate WakeOk(l: Loop, waking: set<nat>) {
    && l.capacity > 0
    && (forall j :: j in l.queue ==> j in waking || Alert(l))
  }

  ghost predicate StoreOk(s: Store) {
    && !s.fault
    && HeapOk(s.jobs, s.handlers, s.completed, s.released, s.verdicts, s.nextId)
    && multiset(s.freed) == multiset(Finished(s.handlers, s.released))
    && AnswersOk(s.answers, s.verdicts, s.completed)
  }

  ghost predicate Inv(s: State) {
    && StoreOk(s.store)
    && Placed(Carried(s.loop), Unpublished(s.store.handlers), s.store.completed, s.store.handlers.Keys)
    && Settled(s.store.completed, s.store.released, Held(s.loop.pc), Unreleased(s.store.handlers))
    && PhaseOk(s.loop)
    && WakeOk(s.loop, AboutToWake(s.store.handlers))
  }

  // ---------- moving a job ----------

  lemma HeadTail(list: seq<nat>)
    requires list != []
    ensures multiset(list) == multiset{list[0]} + multiset(list[1..])
  {
    assert list == [list[0]] + list[1..];
  }

  /** A job in one of the places is not completed, is in no other place, and is known. */
  lemma PlacedOnce(a: multiset<nat>, own: set<nat>, completed: seq<nat>, all: set<nat>, j: nat)
    requires Placed(a, own, completed, all)
    requires j in a || j in own
    ensures j in all && j !in completed
    ensures j in a ==> j !in own && a[j] == 1
  {
    assert multiset(all)[j] <= 1;
    assert (a + multiset(own) + multiset(completed))[j] == a[j] + multiset(own)[j] + multiset(completed)[j];
  }

  // ---------- the thread's own lists ----------

  lemma JobAlive(s: State, j: nat)
    requires StoreOk(s.store) && j in Carried(s.loop)
    requires Placed(Carried(s.loop), Unpublished(s.store.handlers), s.store.completed, s.store.handlers.Keys)
    requires Settled(s.store.completed, s.store.released, Held(s.loop.pc), Unreleased(s.store.handlers))
    ensures j in s.store.handlers && j in s.store.jobs && j !in s.store.completed && j !in s.store.released
  {
    PlacedOnce(Carried(s.loop), Unpublished(s.store.handlers), s.store.completed, s.store.handlers.Keys, j);
    assert j !in multiset(s.store.completed);
  }

  lemma TakeCarries(l: Loop)
    requires PhaseOk(l)
    ensures Carried(OnTake(l)) == Carried(l)
  {
  }

  lemma StartCarries(l: Loop, status: int)
    ensures Carried(OnStartJob(l, status)) == Carried(l)
  {
    if l.pc == Running(ToStart) && l.taken != [] {
      HeadTail(l.taken);
      assert multiset([l.taken[0]] + l.active) == multiset{l.taken[0]} + multiset(l.active);
    }
  }

  lemma UnlinkCarries(l: Loop, j: nat, status: int, back: Back)
    requires l.pc.Running? && j in l.active
    ensures Carried(l.(active := Without(l.active, j), pc := Completing(j, status, back))) == Carried(l)
    ensures j in Carried(l)
  {
    WithoutOne(l.active, j);
  }

  lemma FailTakenCarries(l: Loop)
    requires l.pc.Running?
    ensures Carried(OnFailTaken(l)) == Carried(l)
  {
    if l.taken != [] {
      HeadTail(l.taken);
    }
  }

  lemma FailActiveCarries(l: Loop)
    requires l.pc.Running?
    ensures Carried(OnFailActive(l)) == Carried(l)
  {
    if l.active != [] {
      HeadTail(l.active);
    }
  }

  lemma FirstIn(list: seq<nat>, all: multiset<nat>)
    requires list != [] && multiset(list) <= all
    ensures list[0] in all
  {
    assert list[0] in multiset(list);
  }

  lemma AdmissionCarries(l: Loop, j: nat, status: int)
    ensures Carried(OnAdmission(l, j, status)) == Carried(l)
  {
    if l.pc == Running(ToSockets) && j in l.active {
      UnlinkCarries(l, j, status, ToSockets);
    }
  }

  lemma ExpireCarries(l: Loop, expired: bool, status: int)
    requires PhaseOk(l)
    ensures Carried(OnExpireJob(l, expired, status)) == Carried(l)
  {
    if l.pc.Running? && l.pc.back.ToExpire? && l.pc.back.rest != [] {
      var rest := l.pc.back.rest;
      FirstIn(rest, multiset(l.active));
      UnlinkCarries(l, rest[0], status, ToExpire(rest[1..]));
    }
  }

  lemma FailCarries(l: Loop)
    ensures Carried(OnFailJob(l)) == Carried(l)
  {
    if l.pc.Running? {
      FailTakenCarries(l);
      FailActiveCarries(l);
    }
  }

  predicate ListEvent(e: Event) { e.Take? || e.StartJob? || e.AdmissionDone? || e.ExpireJob? || e.FailJob? }

  predicate StoreEvent(e: Event) { e.Arrive? || e.SelfPublish? || e.SelfRelease? || e.Answer? || e.Disconnect? }

  predicate ControlEvent(e: Event) {
    !ListEvent(e) && !StoreEvent(e) && !e.Lock? && !e.Wake? && !e.Publish? && !e.ReleaseJob?
  }

  lemma StartsCarry(l: Loop, e: Event)
    requires PhaseOk(l) && (e.Take? || e.StartJob?)
    ensures Carried(ListStep(l, e)) == Carried(l)
  {
    if e.Take? {
      TakeCarries(l);
    } else {
      StartCarries(l, e.status);
    }
  }

  lemma FinishesCarry(l: Loop, e: Event)
    requires PhaseOk(l) && (e.AdmissionDone? || e.ExpireJob?)
    ensures Carried(ListStep(l, e)) == Carried(l)
  {
    if e.AdmissionDone? {
      AdmissionCarries(l, e.j, e.status);
    } else {
      ExpireCarries(l, e.expired, e.status);
    }
  }

  lemma ListCarries(l: Loop, e: Event)
    requires PhaseOk(l) && ListEvent(e)
    ensures Carried(ListStep(l, e)) == Carried(l)
  {
    if e.Take? || e.StartJob? {
      StartsCarry(l, e);
    } else if e.FailJob? {
      FailCarries(l);
    } else {
      FinishesCarry(l, e);
    }
  }

  lemma TouchesCarried(l: Loop, e: Event, j: nat)
    requires PhaseOk(l) && j in Touched(l, e)
    ensures j in Carried(l)
  {
    if (e.ExpireJob? || e.ExpireFailed?) && l.pc.back.rest != [] {
      FirstIn(l.pc.back.rest, multiset(l.active));
    }
    assert j in l.active ==> j in multiset(l.active);
  }

  lemma TouchesAlive(s: State, e: Event)
    requires Inv(s)
    ensures Touched(s.loop, e) <= s.store.jobs.Keys
  {
    forall j | j in Touched(s.loop, e) ensures j in s.store.jobs {
      TouchesCarried(s.loop, e, j);
      JobAlive(s, j);
    }
  }

  lemma RestShrinks(rest: seq<nat>, active: seq<nat>)
    requires multiset(rest) <= multiset(active) && rest != []
    ensures multiset(rest[1..]) <= multiset(active)
    ensures multiset(rest[1..]) <= multiset(Without(active, rest[0]))
  {
    HeadTail(rest);
    FirstIn(rest, multiset(active));
    WithoutOne(active, rest[0]);
  }

  lemma ExpirePhase(l: Loop, expired: bool, status: int)
    requires PhaseOk(l)
    ensures PhaseOk(OnExpireJob(l, expired, status))
  {
    if l.pc.Running? && l.pc.back.ToExpire? && l.pc.back.rest != [] {
      RestShrinks(l.pc.back.rest, l.active);
    }
  }

  lemma StartPhase(l: Loop, status: int)
    requires PhaseOk(l)
    ensures PhaseOk(OnTake(l)) && PhaseOk(OnStartJob(l, status))
  {
  }

  lemma AdmissionPhase(l: Loop, j: nat, status: int)
    requires PhaseOk(l)
    ensures PhaseOk(OnAdmission(l, j, status))
  {
  }

  lemma FailPhase(l: Loop)
    requires PhaseOk(l)
    ensures PhaseOk(OnFailJob(l))
  {
  }

  lemma ListPhase(l: Loop, e: Event)
    requires PhaseOk(l)
    ensures PhaseOk(ListStep(l, e))
  {
    match e
    case Take => StartPhase(l, OK);
    case StartJob(status) => StartPhase(l, status);
    case AdmissionDone(j, status) => AdmissionPhase(l, j, status);
    case ExpireJob(expired, status) => ExpirePhase(l, expired, status);
    case FailJob => FailPhase(l);
    case _ =>
  }

  lemma ListHeld(l: Loop, e: Event)
    ensures Held(ListStep(l, e).pc) == Held(l.pc)
  {
  }

  lemma ControlPhase(l: Loop, e: Event)
    requires PhaseOk(l)
    ensures PhaseOk(ControlStep(l, e))
  {
  }

  lemma ControlHeld(l: Loop, e: Event)
    ensures Held(ControlStep(l, e).pc) == Held(l.pc) && Publishing(ControlStep(l, e).pc) == Publishing(l.pc)
  {
  }

  lemma LoopWakes(l: Loop, e: Event, waking: set<nat>)
    requires WakeOk(l, waking)
    ensures WakeOk(ControlStep(l, e), waking) && WakeOk(ListStep(l, e), waking)
  {
  }

  lemma ControlKeeps(s: State, e: Event)
    requires Inv(s)
    ensures Inv(OnControl(s, e))
  {
    TouchesAlive(s, e);
    ControlPhase(s.loop, e);
    ControlHeld(s.loop, e);
    LoopWakes(s.loop, e, AboutToWake(s.store.handlers));
  }

  lemma ListKeeps(s: State, e: Event)
    requires Inv(s) && ListEvent(e)
    ensures Inv(OnList(s, e))
  {
    ListCarries(s.loop, e);
    ListPhase(s.loop, e);
    ListHeld(s.loop, e);
    LoopWakes(s.loop, e, AboutToWake(s.store.handlers));
    TouchesAlive(s, e);
  }

  // ---------- completing and releasing ----------

  lemma PublishHeap(jobs: map<nat, Job>, m: map<nat, Stage>, completed: seq<nat>, released: seq<nat>,
                    verdicts: map<nat, int>, nextId: nat, j: nat, status: int)
    requires HeapOk(jobs, m, completed, released, verdicts, nextId) && j in jobs && j !in completed
    ensures HeapOk(jobs[j := jobs[j].(status := status, done := true)], m, completed + [j], released,
                   verdicts[j := status], nextId)
  {
  }

  lemma DropHeap(jobs: map<nat, Job>, m: map<nat, Stage>, completed: seq<nat>, released: seq<nat>,
                 verdicts: map<nat, int>, nextId: nat, j: nat)
    requires HeapOk(jobs, m, completed, released, verdicts, nextId) && j in m && j !in released
    ensures j in jobs && jobs[j].refs == (if m[j].Gone? then 1 else 2)
    ensures HeapOk(if m[j].Gone? then jobs - {j} else jobs[j := jobs[j].(refs := 1)], m, completed, released + [j],
                   verdicts, nextId)
  {
  }

  lemma MorePublished(carried: multiset<nat>, own: set<nat>, completed: seq<nat>, all: set<nat>, j: nat)
    requires Placed(carried, own, completed, all) && j in carried
    ensures Placed(carried - multiset{j}, own, completed + [j], all)
  {
  }

  lemma AnswersStay(answers: map<nat, int>, verdicts: map<nat, int>, completed: seq<nat>, j: nat, status: int)
    requires AnswersOk(answers, verdicts, completed) && j !in completed
    ensures AnswersOk(answers, verdicts[j := status], completed + [j])
  {
  }

  lemma PublishStore(s: Store, j: nat, status: int)
    requires StoreOk(s) && j in s.jobs && j !in s.completed
    ensures StoreOk(Published(s, j, status))
  {
    PublishHeap(s.jobs, s.handlers, s.completed, s.released, s.verdicts, s.nextId, j, status);
    AnswersStay(s.answers, s.verdicts, s.completed, j, status);
  }

  lemma PublishKeeps(s: State)
    requires Inv(s)
    ensures Inv(OnPublish(s))
  {
    if s.loop.pc.Completing? {
      var j := s.loop.pc.j;
      JobAlive(s, j);
      PublishStore(s.store, j, s.loop.pc.status);
      MorePublished(Carried(s.loop), Unpublished(s.store.handlers), s.store.completed, s.store.handlers.Keys, j);
      PublishLoop(s.loop);
      MoreHeld(s.store.completed, s.store.released, Unreleased(s.store.handlers), j);
    }
  }

  lemma PublishLoop(l: Loop)
    requires l.pc.Completing?
    ensures Carried(l.(pc := Releasing(l.pc.j, l.pc.back))) == Carried(l) - multiset{l.pc.j}
  {
  }

  lemma MoreHeld(completed: seq<nat>, released: seq<nat>, own: set<nat>, j: nat)
    requires Settled(completed, released, multiset{}, own)
    ensures Settled(completed + [j], released, multiset{j}, own)
  {
  }

  predicate Early(stage: Stage) { stage.Submitting? || stage.Failing? }

  /** What a coroutine's change of stage does to the sets it is counted in. */
  lemma StageSets(m: map<nat, Stage>, j: nat, stage: Stage)
    requires j in m
    ensures m[j := stage].Keys == m.Keys
    ensures Unpublished(m[j := stage]) ==
            (if Early(m[j]) == Early(stage) then Unpublished(m)
             else if Early(stage) then Unpublished(m) + {j} else Unpublished(m) - {j})
    ensures Unreleased(m[j := stage]) ==
            (if m[j].SelfReleasing? == stage.SelfReleasing? then Unreleased(m)
             else if stage.SelfReleasing? then Unreleased(m) + {j} else Unreleased(m) - {j})
    ensures AboutToWake(m[j := stage]) ==
            (if m[j].Waking? == stage.Waking? then AboutToWake(m)
             else if stage.Waking? then AboutToWake(m) + {j} else AboutToWake(m) - {j})
  {
  }

  lemma ArriveSets(m: map<nat, Stage>, n: nat)
    requires n !in m
    ensures m[n := Submitting].Keys == m.Keys + {n}
    ensures Unpublished(m[n := Submitting]) == Unpublished(m) + {n}
    ensures Unreleased(m[n := Submitting]) == Unreleased(m)
    ensures AboutToWake(m[n := Submitting]) == AboutToWake(m)
  {
  }

  lemma StageFinished(m: map<nat, Stage>, released: seq<nat>, j: nat, stage: Stage)
    requires j in m ==> !m[j].Gone?
    ensures Finished(m[j := stage], released)
            == Finished(m, released) + (if stage.Gone? && j in released then {j} else {})
  {
  }

  lemma ReleaseFinished(m: map<nat, Stage>, released: seq<nat>, j: nat)
    requires j in m
    ensures Finished(m, released + [j]) == Finished(m, released) + (if m[j].Gone? then {j} else {})
  {
  }

  lemma MoreFreed(freed: seq<nat>, finished: set<nat>, j: nat)
    requires multiset(freed) == multiset(finished) && j !in finished
    ensures multiset(freed + [j]) == multiset(finished + {j})
  {
  }

  lemma ReleaseStore(s: Store, j: nat)
    requires StoreOk(s) && j in s.handlers && j !in s.released
    ensures StoreOk(Released(s, j))
  {
    DropHeap(s.jobs, s.handlers, s.completed, s.released, s.verdicts, s.nextId, j);
    ReleaseFinished(s.handlers, s.released, j);
    if s.handlers[j].Gone? {
      MoreFreed(s.freed, Finished(s.handlers, s.released), j);
    }
  }

  lemma NotYetReleased(carried: multiset<nat>, waiting: set<nat>, completed: seq<nat>, all: set<nat>,
                       released: seq<nat>, held: multiset<nat>, own: set<nat>, j: nat)
    requires Placed(carried, waiting, completed, all)
    requires Settled(completed, released, held, own)
    requires j in held || j in own
    ensures j in all && j !in released && (j in held ==> j !in own)
  {
    assert multiset(all)[j] <= 1;
    assert (carried + multiset(waiting) + multiset(completed))[j]
      == carried[j] + multiset(waiting)[j] + multiset(completed)[j];
    assert multiset(completed)[j] == multiset(released)[j] + held[j] + multiset(own)[j];
    assert j !in multiset(released);
  }

  lemma ReleaseKeeps(s: State)
    requires Inv(s)
    ensures Inv(OnRelease(s))
  {
    if s.loop.pc.Releasing? {
      var j := s.loop.pc.j;
      NotYetReleased(Carried(s.loop), Unpublished(s.store.handlers), s.store.completed, s.store.handlers.Keys,
                     s.store.released, Held(s.loop.pc), Unreleased(s.store.handlers), j);
      ReleaseStore(s.store, j);
      DropShape(s.store.(released := s.store.released + [j]), j);
      LessHeld(s.store.completed, s.store.released, Unreleased(s.store.handlers), j);
    }
  }

  lemma LessHeld(completed: seq<nat>, released: seq<nat>, own: set<nat>, j: nat)
    requires Settled(completed, released, multiset{j}, own)
    ensures Settled(completed, released + [j], multiset{}, own)
  {
  }

  // ---------- coroutines ----------

  lemma StageHeap(jobs: map<nat, Job>, m: map<nat, Stage>, completed: seq<nat>, released: seq<nat>,
                  verdicts: map<nat, int>, nextId: nat, j: nat, stage: Stage)
    requires HeapOk(jobs, m, completed, released, verdicts, nextId)
    requires j in m && !m[j].Gone? && !stage.Gone?
    ensures HeapOk(jobs, m[j := stage], completed, released, verdicts, nextId)
  {
  }

  lemma StageStore(s: Store, j: nat, stage: Stage)
    requires StoreOk(s) && j in s.handlers && !s.handlers[j].Gone? && !stage.Gone?
    ensures StoreOk(Staged(s, j, stage))
  {
    StageHeap(s.jobs, s.handlers, s.completed, s.released, s.verdicts, s.nextId, j, stage);
    StageFinished(s.handlers, s.released, j, stage);
  }

  lemma ArriveHeap(jobs: map<nat, Job>, m: map<nat, Stage>, completed: seq<nat>, released: seq<nat>,
                   verdicts: map<nat, int>, n: nat)
    requires HeapOk(jobs, m, completed, released, verdicts, n)
    requires n !in completed && n !in released
    ensures n !in m
    ensures HeapOk(jobs[n := Job(2, false, 0)], m[n := Submitting], completed, released, verdicts, n + 1)
  {
  }

  lemma MorePlaced(carried: multiset<nat>, own: set<nat>, completed: seq<nat>, all: set<nat>, n: nat)
    requires Placed(carried, own, completed, all) && n !in all
    ensures n !in completed && n !in own
    ensures Placed(carried, own + {n}, completed, all + {n})
  {
    assert n !in multiset(all);
    assert n !in multiset(completed) && n !in multiset(own);
    assert multiset(own + {n}) == multiset(own) + multiset{n};
    assert multiset(all + {n}) == multiset(all) + multiset{n};
  }

  lemma UnknownReleased(completed: seq<nat>, released: seq<nat>, held: multiset<nat>, own: set<nat>, n: nat)
    requires Settled(completed, released, held, own) && n !in completed
    ensures n !in released && n !in own
  {
    assert n !in multiset(completed);
    assert n !in multiset(released);
  }

  lemma ArriveKeeps(s: State)
    requires Inv(s)
    ensures Inv(s.(store := OnArrive(s.store)))
  {
    var st, n := s.store, s.store.nextId;
    MorePlaced(Carried(s.loop), Unpublished(st.handlers), st.completed, st.handlers.Keys, n);
    UnknownReleased(st.completed, st.released, Held(s.loop.pc), Unreleased(st.handlers), n);
    ArriveHeap(st.jobs, st.handlers, st.completed, st.released, st.verdicts, n);
    ArriveSets(st.handlers, n);
    StageFinished(st.handlers, st.released, n, Submitting);
  }

  lemma Enqueue(l: Loop, own: set<nat>, completed: seq<nat>, all: set<nat>, j: nat)
    requires Placed(Carried(l), own, completed, all) && j in own
    ensures Placed(Carried(l.(queue := l.queue + [j])), own - {j}, completed, all)
  {
    assert Carried(l.(queue := l.queue + [j])) == Carried(l) + multiset{j};
    assert multiset(own) == multiset(own - {j}) + multiset{j};
  }

  lemma TailAlive(s: State)
    requires Inv(s) && s.loop.queue != []
    ensures s.loop.queue[|s.loop.queue| - 1] in s.store.jobs
  {
    assert s.loop.queue[|s.loop.queue| - 1] in multiset(s.loop.queue);
    JobAlive(s, s.loop.queue[|s.loop.queue| - 1]);
  }

  lemma FailFastKeeps(s: State, j: nat)
    requires Inv(s) && At(s.store, j, Submitting)
    ensures Inv(s.(store := Staged(s.store, j, Failing)))
  {
    StageSets(s.store.handlers, j, Failing);
    StageStore(s.store, j, Failing);
  }

  lemma EnqueueKeeps(s: State, j: nat)
    requires Inv(s) && At(s.store, j, Submitting) && !s.loop.stop
    ensures Inv(State(Staged(s.store, j, Waking), s.loop.(queue := s.loop.queue + [j])))
  {
    StageSets(s.store.handlers, j, Waking);
    StageStore(s.store, j, Waking);
    Enqueue(s.loop, Unpublished(s.store.handlers), s.store.completed, s.store.handlers.Keys, j);
  }

  lemma LockKeeps(s: State, j: nat)
    requires Inv(s) && At(s.store, j, Submitting)
    ensures Inv(OnLock(s, j))
  {
    if s.loop.stop {
      FailFastKeeps(s, j);
    } else {
      if s.loop.queue != [] {
        TailAlive(s);
      }
      EnqueueKeeps(s, j);
    }
  }

  lemma SelfPublished(carried: multiset<nat>, own: set<nat>, completed: seq<nat>, all: set<nat>, j: nat)
    requires Placed(carried, own, completed, all) && j in own
    ensures j !in completed
    ensures Placed(carried, own - {j}, completed + [j], all)
  {
    PlacedOnce(carried, own, completed, all, j);
    assert multiset(own) == multiset(own - {j}) + multiset{j};
  }

  lemma SelfSettled(completed: seq<nat>, released: seq<nat>, held: multiset<nat>, own: set<nat>, j: nat)
    requires Settled(completed, released, held, own) && j !in own
    ensures Settled(completed + [j], released, held, own + {j})
  {
    assert multiset(own + {j}) == multiset(own) + multiset{j};
  }

  lemma EarlyAlive(s: State, j: nat)
    requires Inv(s) && j in Unpublished(s.store.handlers)
    ensures j in s.store.jobs && j !in s.store.completed && j !in s.store.released
  {
    PlacedOnce(Carried(s.loop), Unpublished(s.store.handlers), s.store.completed, s.store.handlers.Keys, j);
    UnknownReleased(s.store.completed, s.store.released, Held(s.loop.pc), Unreleased(s.store.handlers), j);
  }

  lemma SelfPublishStore(s: Store, j: nat)
    requires StoreOk(s) && At(s, j, Failing) && j in s.jobs && j !in s.completed
    ensures StoreOk(Published(Staged(s, j, SelfReleasing), j, ERR_IO))
  {
    StageStore(s, j, SelfReleasing);
    PublishStore(Staged(s, j, SelfReleasing), j, ERR_IO);
  }

  lemma SelfPublishKeeps(s: State, j: nat)
    requires Inv(s) && At(s.store, j, Failing)
    ensures Inv(s.(store := Published(Staged(s.store, j, SelfReleasing), j, ERR_IO)))
  {
    var m := s.store.handlers;
    EarlyAlive(s, j);
    SelfPublishStore(s.store, j);
    StageSets(m, j, SelfReleasing);
    SelfPublished(Carried(s.loop), Unpublished(m), s.store.completed, m.Keys, j);
    SelfSettled(s.store.completed, s.store.released, Held(s.loop.pc), Unreleased(m), j);
  }

  lemma SelfReleased(completed: seq<nat>, released: seq<nat>, held: multiset<nat>, own: set<nat>, j: nat)
    requires Settled(completed, released, held, own) && j in own
    ensures Settled(completed, released + [j], held, own - {j})
  {
    assert multiset(own) == multiset(own - {j}) + multiset{j};
  }

  lemma SelfReleaseStore(s: Store, j: nat)
    requires StoreOk(s) && At(s, j, SelfReleasing) && j !in s.released
    ensures StoreOk(Released(Staged(s, j, Waiting), j))
  {
    StageStore(s, j, Waiting);
    ReleaseStore(Staged(s, j, Waiting), j);
  }

  lemma DropShape(s: Store, j: nat)
    ensures Dropped(s, j).handlers == s.handlers && Dropped(s, j).completed == s.completed
    ensures Dropped(s, j).released == s.released
  {
  }

  lemma SelfReleaseKeeps(s: State, j: nat)
    requires Inv(s) && At(s.store, j, SelfReleasing)
    ensures Inv(s.(store := Released(Staged(s.store, j, Waiting), j)))
  {
    var m := s.store.handlers;
    NotYetReleased(Carried(s.loop), Unpublished(m), s.store.completed, m.Keys,
                   s.store.released, Held(s.loop.pc), Unreleased(m), j);
    SelfReleaseStore(s.store, j);
    StageSets(m, j, Waiting);
    SelfReleased(s.store.completed, s.store.released, Held(s.loop.pc), Unreleased(m), j);
    DropShape(Staged(s.store, j, Waiting).(released := s.store.released + [j]), j);
  }

  lemma WakeKeeps(s: State, j: nat)
    requires Inv(s) && At(s.store, j, Waking)
    ensures Inv(State(Staged(s.store, j, Waiting), Woken(s.loop)))
  {
    StageSets(s.store.handlers, j, Waiting);
    StageStore(s.store, j, Waiting);
  }

  // ---------- a coroutine leaves ----------

  lemma LeaveHeap(jobs: map<nat, Job>, m: map<nat, Stage>, completed: seq<nat>, released: seq<nat>,
                  verdicts: map<nat, int>, nextId: nat, j: nat)
    requires HeapOk(jobs, m, completed, released, verdicts, nextId)
    requires j in m && !m[j].Gone?
    ensures j in jobs && jobs[j].refs == (if j in released then 1 else 2)
    ensures HeapOk(if j in released then jobs - {j} else jobs[j := jobs[j].(refs := 1)], m[j := Gone], completed,
                   released, verdicts, nextId)
  {
  }

  lemma LeaveStore(s: Store, j: nat)
    requires StoreOk(s) && At(s, j, Waiting)
    ensures StoreOk(Dropped(Staged(s, j, Gone), j))
  {
    LeaveHeap(s.jobs, s.handlers, s.completed, s.released, s.verdicts, s.nextId, j);
    StageFinished(s.handlers, s.released, j, Gone);
    if j in s.released {
      MoreFreed(s.freed, Finished(s.handlers, s.released), j);
    }
  }

  lemma DisconnectKeeps(s: State, j: nat)
    requires Inv(s) && At(s.store, j, Waiting)
    ensures Inv(s.(store := Dropped(Staged(s.store, j, Gone), j)))
  {
    LeaveStore(s.store, j);
    StageSets(s.store.handlers, j, Gone);
    DropShape(Staged(s.store, j, Gone), j);
  }

  lemma ReadStore(s: Store, j: nat)
    requires StoreOk(s) && At(s, j, Waiting)
    ensures j in s.jobs
    ensures s.jobs[j].done ==> StoreOk(s.(answers := s.answers[j := s.jobs[j].status]))
  {
    LeaveHeap(s.jobs, s.handlers, s.completed, s.released, s.verdicts, s.nextId, j);
  }

  lemma AnswerKeeps(s: State, j: nat)
    requires Inv(s) && At(s.store, j, Waiting)
    ensures Inv(s.(store := OnAnswer(s.store, j)))
  {
    ReadStore(s.store, j);
    if s.store.jobs[j].done {
      DisconnectKeeps(s.(store := s.store.(answers := s.store.answers[j := s.store.jobs[j].status])), j);
    }
  }

  // ---------- every run ----------

  /** Which part of the bridge each kind of step moves. */
  lemma StepParts(s: State, e: Event)
    ensures ListEvent(e) ==> Step(s, e) == OnList(s, e)
    ensures StoreEvent(e) ==> Step(s, e) == s.(store := HandlerStep(s.store, e))
    ensures ControlEvent(e) ==> Step(s, e) == OnControl(s, e)
  {
  }

  lemma StoreKeeps(s: State, e: Event)
    requires Inv(s) && StoreEvent(e)
    ensures Inv(s.(store := HandlerStep(s.store, e)))
  {
    match e
    case Arrive => ArriveKeeps(s);
    case SelfPublish(j) => if At(s.store, j, Failing) { SelfPublishKeeps(s, j); }
    case SelfRelease(j) => if At(s.store, j, SelfReleasing) { SelfReleaseKeeps(s, j); }
    case Answer(j) => if At(s.store, j, Waiting) { AnswerKeeps(s, j); }
    case Disconnect(j) => if At(s.store, j, Waiting) { DisconnectKeeps(s, j); }
  }

  lemma LoopStepKeeps(s: State, e: Event)
    requires Inv(s) && (ListEvent(e) || ControlEvent(e))
    ensures Inv(Step(s, e))
  {
    StepParts(s, e);
    if ListEvent(e) {
      ListKeeps(s, e);
    } else {
      ControlKeeps(s, e);
    }
  }

  lemma StoreStepKeeps(s: State, e: Event)
    requires Inv(s) && StoreEvent(e)
    ensures Inv(Step(s, e))
  {
    StepParts(s, e);
    StoreKeeps(s, e);
  }

  lemma SharedStepKeeps(s: State, e: Event)
    requires Inv(s) && (e.Lock? || e.Wake?)
    ensures Inv(Step(s, e))
  {
    if e.Lock? && At(s.store, e.j, Submitting) {
      LockKeeps(s, e.j);
    } else if e.Wake? && At(s.store, e.j, Waking) {
      WakeKeeps(s, e.j);
    }
  }

  lemma PublishStepKeeps(s: State)
    requires Inv(s)
    ensures Inv(Step(s, Publish))
  {
    assert Step(s, Publish) == OnPublish(s);
    PublishKeeps(s);
  }

  lemma ReleaseStepKeeps(s: State)
    requires Inv(s)
    ensures Inv(Step(s, ReleaseJob))
  {
    assert Step(s, ReleaseJob) == OnRelease(s);
    ReleaseKeeps(s);
  }

  lemma StepKeeps(s: State, e: Event)
    requires Inv(s)
    ensures Inv(Step(s, e))
  {
    if ListEvent(e) || ControlEvent(e) {
      LoopStepKeeps(s, e);
    } else if StoreEvent(e) {
      StoreStepKeeps(s, e);
    } else if e.Publish? {
      PublishStepKeeps(s);
    } else if e.ReleaseJob? {
      ReleaseStepKeeps(s);
    } else {
      SharedStepKeeps(s, e);
    }
  }

  lemma {:induction false} RunKeeps(capacity: nat, es: seq<Event>)
    requires capacity > 0
    ensures Inv(Run(Init(capacity), es))
  {
    if es == [] {
      InitOk(capacity);
    } else {
      RunKeeps(capacity, es[..|es| - 1]);
      StepKeeps(Run(Init(capacity), es[..|es| - 1]), es[|es| - 1]);
    }
  }

  lemma InitOk(capacity: nat)
    requires capacity > 0
    ensures Inv(Init(capacity))
  {
    var m: map<nat, Stage> := map[];
    assert Unpublished(m) == {} && Unreleased(m) == {} && Finished(m, []) == {};
  }
}
