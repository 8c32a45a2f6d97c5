/** What becomes of each job, and in which order, in every interleaving. */
module BridgeJobs {
  import opened Lists
  import opened Bridge
  import opened BridgeRuns
  import opened BridgeTheorems

  // ---------- where a job is ----------

  datatype Place = Unknown | WithCoroutine | InQueue | InHand | Active | Ending(status: int) | Told(status: int)

  /** Where the bridge has a job whose result is not out yet. */
  function Spot(l: Loop, j: nat, known: bool): Place {
    if l.pc.Completing? && l.pc.j == j then Ending(l.pc.status)
    else if j in l.active then Active
    else if j in l.taken then InHand
    else if j in l.queue then InQueue
    else if known then WithCoroutine
    else Unknown
  }

  function PlaceOf(s: State, j: nat): Place {
    if j in s.store.verdicts then Told(s.store.verdicts[j]) else Spot(s.loop, j, j in s.store.handlers)
  }

  /** The job the thread is looking at in an expiry pass. */
  predicate AtHead(pc: Pc, j: nat) { pc.Running? && pc.back.ToExpire? && pc.back.rest != [] && pc.back.rest[0] == j }

  /** Where the thread's next step on its lists takes such a job. */
  function NextSpot(l: Loop, e: Event, j: nat, known: bool): Place {
    match Spot(l, j, known)
    case InQueue => if e.Take? && (l.pc == Taking || l.pc == FailTake) then InHand else InQueue
    case InHand =>
      if l.taken == [] || l.taken[0] != j then InHand
      else if e.StartJob? && l.pc == Running(ToStart) then (if e.status == OK then Active else Ending(e.status))
      else if e.FailJob? && l.pc == Running(ToFailTaken) then Ending(l.failure)
      else InHand
    case Active =>
      if e.AdmissionDone? && e.j == j && l.pc == Running(ToSockets) then Ending(e.status)
      else if e.ExpireJob? && e.expired && AtHead(l.pc, j) then Ending(e.status)
      else if e.FailJob? && l.pc == Running(ToFailActive) && l.active != [] && l.active[0] == j then Ending(l.failure)
      else Active
    case p => p
  }

  /** Where a step takes a job: the whole table, event by event. */
  function NextPlace(s: State, e: Event, j: nat): Place {
    match PlaceOf(s, j)
    case Unknown => if e.Arrive? && j == s.store.nextId then WithCoroutine else Unknown
    case WithCoroutine =>
      if e == Lock(j) && At(s.store, j, Submitting) && !s.loop.stop then InQueue
      else if e == SelfPublish(j) && At(s.store, j, Failing) then Told(ERR_IO)
      else WithCoroutine
    case Ending(status) => if e.Publish? then Told(status) else Ending(status)
    case Told(status) => Told(status)
    case _ => NextSpot(s.loop, e, j, true)
  }

  /** What the places of `j` have to do with the lists. */
  ghost predicate Sorted(s: State, j: nat) {
    && (j in s.store.verdicts <==> j in s.store.completed)
    && multiset(s.loop.queue)[j] + multiset(s.loop.taken)[j] + multiset(s.loop.active)[j]
       + One(s.loop.pc.Completing? && s.loop.pc.j == j)
       + One(j in s.store.handlers && (s.store.handlers[j].Submitting? || s.store.handlers[j].Failing?))
       + multiset(s.store.completed)[j] == One(j in s.store.handlers)
    && (j in s.store.handlers ==> j < s.store.nextId)
  }

  /** Verdicts are of completed jobs, and of all of them. */
  ghost predicate VerdictsOk(s: State) { forall j :: j in s.store.verdicts <==> j in s.store.completed }

  lemma SortedOk(s: State, j: nat)
    requires Inv(s) && VerdictsOk(s)
    ensures Sorted(s, j)
  {
    var own := Unpublished(s.store.handlers);
    if j in s.store.handlers {
      OneOf(s.loop, own, s.store.completed, s.store.handlers.Keys, j);
    } else {
      Absent(s.loop, own, s.store.completed, s.store.handlers.Keys, j);
    }
  }

  lemma Absent(l: Loop, own: set<nat>, completed: seq<nat>, all: set<nat>, j: nat)
    requires Placed(Carried(l), own, completed, all) && j !in all
    ensures multiset(l.queue)[j] + multiset(l.taken)[j] + multiset(l.active)[j]
            + One(l.pc.Completing? && l.pc.j == j) + multiset(completed)[j] == 0
  {
    assert (Carried(l) + multiset(own) + multiset(completed))[j]
        == Carried(l)[j] + multiset(own)[j] + multiset(completed)[j];
    assert multiset(all)[j] == 0;
  }

  lemma Counts(list: seq<nat>, j: nat)
    ensures j in list <==> multiset(list)[j] > 0
  {
  }

  /** Taking the head off a list without repetitions. */
  lemma HeadOff(list: seq<nat>, j: nat)
    requires list != [] && multiset(list)[j] <= 1
    ensures j in list[1..] <==> j in list && j != list[0]
  {
    HeadTail(list);
    Counts(list[1..], j);
    Counts(list, j);
  }

  lemma UnlinkOff(list: seq<nat>, x: nat, j: nat)
    requires x in list && multiset(list)[j] <= 1
    ensures j in Without(list, x) <==> j in list && j != x
  {
    WithoutOne(list, x);
    Counts(Without(list, x), j);
    Counts(list, j);
  }

  // ---------- the thread's lists ----------

  ghost predicate Single(l: Loop, j: nat) {
    multiset(l.queue)[j] + multiset(l.taken)[j] + multiset(l.active)[j] + One(l.pc.Completing? && l.pc.j == j) <= 1
  }

  lemma TakeMoves(l: Loop, j: nat, known: bool)
    requires PhaseOk(l) && Single(l, j)
    ensures Spot(OnTake(l), j, known) == NextSpot(l, Take, j, known)
  {
    Counts(l.queue, j);
    Counts(l.active, j);
  }

  lemma StartMoves(l: Loop, status: int, j: nat, known: bool)
    requires Single(l, j)
    ensures Spot(OnStartJob(l, status), j, known) == NextSpot(l, StartJob(status), j, known)
  {
    Counts(l.taken, j);
    Counts(l.queue, j);
    Counts(l.active, j);
    if l.taken != [] {
      HeadOff(l.taken, j);
    }
  }

  lemma AdmissionMoves(l: Loop, x: nat, status: int, j: nat, known: bool)
    requires Single(l, j)
    ensures Spot(OnAdmission(l, x, status), j, known) == NextSpot(l, AdmissionDone(x, status), j, known)
  {
    Counts(l.taken, j);
    Counts(l.queue, j);
    Counts(l.active, j);
    if x in l.active {
      UnlinkOff(l.active, x, j);
    }
  }

  lemma ExpireMoves(l: Loop, expired: bool, status: int, j: nat, known: bool)
    requires PhaseOk(l) && Single(l, j)
    ensures Spot(OnExpireJob(l, expired, status), j, known) == NextSpot(l, ExpireJob(expired, status), j, known)
  {
    Counts(l.taken, j);
    Counts(l.queue, j);
    Counts(l.active, j);
    if l.pc.Running? && l.pc.back.ToExpire? && l.pc.back.rest != [] {
      FirstIn(l.pc.back.rest, multiset(l.active));
      UnlinkOff(l.active, l.pc.back.rest[0], j);
    }
  }

  lemma FailTakenMoves(l: Loop, j: nat, known: bool)
    requires Single(l, j) && l.pc == Running(ToFailTaken)
    ensures Spot(OnFailTaken(l), j, known) == NextSpot(l, FailJob, j, known)
  {
    Counts(l.taken, j);
    Counts(l.queue, j);
    Counts(l.active, j);
    if l.taken != [] {
      HeadOff(l.taken, j);
    }
  }

  lemma FailActiveMoves(l: Loop, j: nat, known: bool)
    requires Single(l, j) && l.pc == Running(ToFailActive)
    ensures Spot(OnFailActive(l), j, known) == NextSpot(l, FailJob, j, known)
  {
    Counts(l.taken, j);
    Counts(l.queue, j);
    Counts(l.active, j);
    if l.active != [] {
      HeadOff(l.active, j);
    }
  }

  lemma FailMoves(l: Loop, j: nat, known: bool)
    requires Single(l, j)
    ensures Spot(OnFailJob(l), j, known) == NextSpot(l, FailJob, j, known)
  {
    if l.pc == Running(ToFailTaken) {
      FailTakenMoves(l, j, known);
    } else if l.pc == Running(ToFailActive) {
      FailActiveMoves(l, j, known);
    }
  }

  lemma ListMoves(l: Loop, e: Event, j: nat, known: bool)
    requires PhaseOk(l) && Single(l, j) && ListEvent(e)
    ensures Spot(ListStep(l, e), j, known) == NextSpot(l, e, j, known)
  {
    match e
    case Take => TakeMoves(l, j, known);
    case StartJob(status) => StartMoves(l, status, j, known);
    case AdmissionDone(x, status) => AdmissionMoves(l, x, status, j, known);
    case ExpireJob(expired, status) => ExpireMoves(l, expired, status, j, known);
    case FailJob => FailMoves(l, j, known);
  }

  lemma ListStepState(s: State, e: Event)
    requires Inv(s) && ListEvent(e)
    ensures Step(s, e) == State(s.store, ListStep(s.loop, e)) && PhaseOk(s.loop)
  {
    StepParts(s, e);
    TouchesAlive(s, e);
  }

  lemma SortedSingle(s: State, j: nat)
    requires Sorted(s, j)
    ensures Single(s.loop, j)
    ensures j in s.loop.queue || j in s.loop.taken || j in s.loop.active || (s.loop.pc.Completing? && s.loop.pc.j == j) ==>
              && j !in s.store.verdicts && j in s.store.handlers
              && !s.store.handlers[j].Submitting? && !s.store.handlers[j].Failing?
    ensures j in s.store.verdicts ==>
              j in s.store.handlers && !s.store.handlers[j].Submitting? && !s.store.handlers[j].Failing?
    ensures j in s.store.handlers ==> j < s.store.nextId
  {
    Counts(s.loop.queue, j);
    Counts(s.loop.taken, j);
    Counts(s.loop.active, j);
    Counts(s.store.completed, j);
  }

  lemma PlaceOnList(st: Store, l: Loop, e: Event, j: nat)
    requires ListEvent(e) && j !in st.verdicts
    requires Spot(ListStep(l, e), j, j in st.handlers) == NextSpot(l, e, j, j in st.handlers)
    ensures PlaceOf(State(st, ListStep(l, e)), j) == NextPlace(State(st, l), e, j)
  {
  }

  lemma ListStepMoves(s: State, e: Event, j: nat)
    requires Inv(s) && Sorted(s, j) && ListEvent(e)
    ensures PlaceOf(Step(s, e), j) == NextPlace(s, e, j)
  {
    ListStepState(s, e);
    if j !in s.store.verdicts {
      SortedSingle(s, j);
      ListMoves(s.loop, e, j, j in s.store.handlers);
      PlaceOnList(s.store, s.loop, e, j);
    }
  }

  // ---------- every other step ----------

  lemma ControlSpot(l: Loop, e: Event, j: nat, known: bool)
    requires ControlEvent(e)
    ensures Spot(ControlStep(l, e), j, known) == Spot(l, j, known)
  {
  }

  lemma ControlMoves(s: State, e: Event, j: nat)
    requires Inv(s) && ControlEvent(e)
    ensures PlaceOf(Step(s, e), j) == PlaceOf(s, j)
  {
    StepParts(s, e);
    TouchesAlive(s, e);
    ControlSpot(s.loop, e, j, j in s.store.handlers);
  }

  lemma DropTells(st: Store, k: nat)
    ensures Dropped(st, k).verdicts == st.verdicts && Dropped(st, k).handlers == st.handlers
    ensures Dropped(st, k).completed == st.completed
  {
  }

  lemma AnswerTells(st: Store, x: nat)
    requires At(st, x, Waiting)
    ensures OnAnswer(st, x).verdicts == st.verdicts && OnAnswer(st, x).handlers.Keys == st.handlers.Keys
    ensures OnAnswer(st, x).completed == st.completed
  {
    if x in st.jobs {
      DropTells(Staged(st.(answers := st.answers[x := st.jobs[x].status]), x, Gone), x);
    }
  }

  /** A coroutine's own steps tell no job anything, but for failing its own. */
  lemma StoreTells(s: State, e: Event)
    requires Inv(s) && StoreEvent(e)
    ensures var st := HandlerStep(s.store, e);
      && st.handlers.Keys == s.store.handlers.Keys + (if e.Arrive? then {s.store.nextId} else {})
      && (if e.SelfPublish? && At(s.store, e.j, Failing)
          then st.verdicts == s.store.verdicts[e.j := ERR_IO] && st.completed == s.store.completed + [e.j]
          else st.verdicts == s.store.verdicts && st.completed == s.store.completed)
  {
    match e
    case Arrive =>
    case SelfPublish(x) =>
      if At(s.store, x, Failing) {
        EarlyAlive(s, x);
      }
    case SelfRelease(x) => DropTells(Staged(s.store, x, Waiting).(released := s.store.released + [x]), x);
    case Answer(x) =>
      if At(s.store, x, Waiting) {
        AnswerTells(s.store, x);
      }
    case Disconnect(x) => DropTells(Staged(s.store, x, Gone), x);
  }

  lemma StoreMoves(s: State, e: Event, j: nat)
    requires Inv(s) && Sorted(s, j) && StoreEvent(e)
    ensures PlaceOf(Step(s, e), j) == NextPlace(s, e, j)
  {
    StepParts(s, e);
    StoreTells(s, e);
    SortedSingle(s, j);
    PlaceOnStore(s, HandlerStep(s.store, e), e, j);
  }

  lemma PlaceOnStore(s: State, st: Store, e: Event, j: nat)
    requires StoreEvent(e) && Sorted(s, j)
    requires st.handlers.Keys == s.store.handlers.Keys + (if e.Arrive? then {s.store.nextId} else {})
    requires if e.SelfPublish? && At(s.store, e.j, Failing) then st.verdicts == s.store.verdicts[e.j := ERR_IO]
             else st.verdicts == s.store.verdicts
    ensures PlaceOf(State(st, s.loop), j) == NextPlace(s, e, j)
  {
    SortedSingle(s, j);
    assert j in st.handlers <==> j in st.handlers.Keys;
  }

  lemma LockState(s: State, x: nat)
    requires Inv(s)
    ensures Step(s, Lock(x)) ==
              if !At(s.store, x, Submitting) then s
              else if s.loop.stop then s.(store := Staged(s.store, x, Failing))
              else State(Staged(s.store, x, Waking), s.loop.(queue := s.loop.queue + [x]))
  {
    if s.loop.queue != [] {
      TailAlive(s);
    }
  }

  lemma QueuedMoves(s: State, x: nat, j: nat)
    requires Sorted(s, j) && At(s.store, x, Submitting) && !s.loop.stop
    ensures PlaceOf(State(Staged(s.store, x, Waking), s.loop.(queue := s.loop.queue + [x])), j)
      == NextPlace(s, Lock(x), j)
  {
    SortedSingle(s, j);
    assert j in s.loop.queue + [x] <==> j in s.loop.queue || j == x;
  }

  lemma RefusedMoves(s: State, x: nat, j: nat)
    requires Sorted(s, j) && At(s.store, x, Submitting) && s.loop.stop
    ensures PlaceOf(s.(store := Staged(s.store, x, Failing)), j) == NextPlace(s, Lock(x), j)
  {
    SortedSingle(s, j);
  }

  lemma LockMoves(s: State, x: nat, j: nat)
    requires Inv(s) && Sorted(s, j)
    ensures PlaceOf(Step(s, Lock(x)), j) == NextPlace(s, Lock(x), j)
  {
    LockState(s, x);
    if At(s.store, x, Submitting) {
      if s.loop.stop {
        RefusedMoves(s, x, j);
      } else {
        QueuedMoves(s, x, j);
      }
    }
  }

  lemma WakeMoves(s: State, x: nat, j: nat)
    requires Sorted(s, j)
    ensures PlaceOf(Step(s, Wake(x)), j) == NextPlace(s, Wake(x), j)
  {
    SortedSingle(s, j);
  }

  lemma PublishTells(s: State)
    requires Inv(s)
    ensures var st := Step(s, Publish).store;
      if s.loop.pc.Completing?
      then st.verdicts == s.store.verdicts[s.loop.pc.j := s.loop.pc.status]
        && st.completed == s.store.completed + [s.loop.pc.j]
      else st == s.store
    ensures Step(s, Publish).store.handlers == s.store.handlers
  {
    if s.loop.pc.Completing? {
      assert s.loop.pc.j in Publishing(s.loop.pc);
      JobAlive(s, s.loop.pc.j);
    }
  }

  lemma PlaceOnPublish(s: State, t: State, j: nat)
    requires Sorted(s, j) && t.store.handlers == s.store.handlers
    requires if s.loop.pc.Completing?
             then && t.store.verdicts == s.store.verdicts[s.loop.pc.j := s.loop.pc.status]
                  && t.loop == s.loop.(pc := Releasing(s.loop.pc.j, s.loop.pc.back))
             else t == s
    ensures PlaceOf(t, j) == NextPlace(s, Publish, j)
  {
    SortedSingle(s, j);
  }

  lemma PublishMoves(s: State, j: nat)
    requires Inv(s) && Sorted(s, j)
    ensures PlaceOf(Step(s, Publish), j) == NextPlace(s, Publish, j)
  {
    PublishTells(s);
    PlaceOnPublish(s, Step(s, Publish), j);
  }

  lemma ReleaseMoves(s: State, j: nat)
    requires Sorted(s, j)
    ensures PlaceOf(Step(s, ReleaseJob), j) == NextPlace(s, ReleaseJob, j)
    ensures Step(s, ReleaseJob).store.verdicts == s.store.verdicts
      && Step(s, ReleaseJob).store.completed == s.store.completed
  {
    SortedSingle(s, j);
    if s.loop.pc.Releasing? {
      DropTells(s.store.(released := s.store.released + [s.loop.pc.j]), s.loop.pc.j);
    }
  }

  lemma ControlStays(s: State, e: Event, j: nat)
    requires Sorted(s, j) && ControlEvent(e)
    ensures NextPlace(s, e, j) == PlaceOf(s, j)
  {
    SortedSingle(s, j);
  }

  /** In every interleaving each step takes each job where the table says. */
  lemma StepMoves(s: State, e: Event, j: nat)
    requires Inv(s) && VerdictsOk(s)
    ensures PlaceOf(Step(s, e), j) == NextPlace(s, e, j)
  {
    SortedOk(s, j);
    if ListEvent(e) {
      ListStepMoves(s, e, j);
    } else if StoreEvent(e) {
      StoreMoves(s, e, j);
    } else if ControlEvent(e) {
      ControlMoves(s, e, j);
      ControlStays(s, e, j);
    } else {
      match e
      case Lock(x) => LockMoves(s, x, j);
      case Wake(x) => WakeMoves(s, x, j);
      case Publish => PublishMoves(s, j);
      case ReleaseJob => ReleaseMoves(s, j);
    }
  }

  lemma StepVerdicts(s: State, e: Event)
    requires Inv(s) && VerdictsOk(s)
    ensures VerdictsOk(Step(s, e))
  {
    if ListEvent(e) {
      ListStepState(s, e);
    } else if StoreEvent(e) {
      StepParts(s, e);
      StoreTells(s, e);
    } else if e.Publish? {
      PublishTells(s);
    } else if e.ReleaseJob? {
      SortedOk(s, 0);
      ReleaseMoves(s, 0);
    } else if ControlEvent(e) {
      StepParts(s, e);
    }
  }

  lemma {:induction false} RunVerdicts(capacity: nat, es: seq<Event>)
    requires capacity > 0
    ensures VerdictsOk(Reached(capacity, es)) && Inv(Reached(capacity, es))
  {
    RunKeeps(capacity, es);
    if es != [] {
      RunVerdicts(capacity, es[..|es| - 1]);
      StepVerdicts(Reached(capacity, es[..|es| - 1]), es[|es| - 1]);
    }
  }

  /** In every interleaving, every step takes every job exactly where the table says. */
  lemma Journey(capacity: nat, es: seq<Event>, e: Event, j: nat)
    requires capacity > 0
    ensures PlaceOf(Step(Reached(capacity, es), e), j) == NextPlace(Reached(capacity, es), e, j)
  {
    RunVerdicts(capacity, es);
    StepMoves(Reached(capacity, es), e, j);
  }

  // ---------- verdicts ----------

  /** The thread's events that end job `j`, with the status its coroutine is to be told. */
  ghost predicate Finishes(l: Loop, e: Event, j: nat, v: int) {
    || (e == StartJob(v) && v != OK && l.pc == Running(ToStart) && l.taken != [] && l.taken[0] == j)
    || (e == AdmissionDone(j, v) && l.pc == Running(ToSockets) && j in l.active)
    || (e == ExpireJob(true, v) && AtHead(l.pc, j))
    || (e == FailJob && v == l.failure && l.pc == Running(ToFailTaken) && l.taken != [] && l.taken[0] == j)
    || (e == FailJob && v == l.failure && l.pc == Running(ToFailActive) && l.active != [] && l.active[0] == j)
  }

  /** Those, and a coroutine that fails its own job because the bridge has stopped. */
  ghost predicate Decides(s: State, e: Event, j: nat, v: int) {
    Finishes(s.loop, e, j, v) || (e == SelfPublish(j) && At(s.store, j, Failing) && v == ERR_IO)
  }

  predicate Decided(p: Place, v: int) { p == Ending(v) || p == Told(v) }

  lemma HeadsAreHeld(l: Loop, j: nat)
    requires PhaseOk(l) && Single(l, j)
    ensures AtHead(l.pc, j) ==> j in l.active
    ensures j in l.taken ==> j !in l.active
    ensures j in l.queue ==> j !in l.active && j !in l.taken
    ensures l.pc.Completing? && l.pc.j == j ==> j !in l.active && j !in l.taken && j !in l.queue
  {
    Counts(l.queue, j);
    Counts(l.taken, j);
    Counts(l.active, j);
    if AtHead(l.pc, j) {
      FirstIn(l.pc.back.rest, multiset(l.active));
    }
  }

  lemma HandFinishes(l: Loop, e: Event, j: nat, v: int)
    requires Spot(l, j, true) == InHand && j !in l.active && (AtHead(l.pc, j) ==> j in l.active)
    ensures NextSpot(l, e, j, true) == Ending(v) <==> Finishes(l, e, j, v)
  {
  }

  lemma ActiveFinishes(l: Loop, e: Event, j: nat, v: int)
    requires Spot(l, j, true) == Active && j !in l.taken
    ensures NextSpot(l, e, j, true) == Ending(v) <==> Finishes(l, e, j, v)
  {
  }

  lemma NowhereFinishes(l: Loop, e: Event, j: nat, v: int)
    requires j !in l.active && j !in l.taken && (AtHead(l.pc, j) ==> j in l.active)
    ensures !Finishes(l, e, j, v)
  {
  }

  lemma QueueFinishes(l: Loop, e: Event, j: nat, v: int)
    requires Spot(l, j, true) == InQueue && (AtHead(l.pc, j) ==> j in l.active)
    ensures NextSpot(l, e, j, true) != Ending(v) && !Finishes(l, e, j, v)
  {
    NowhereFinishes(l, e, j, v);
  }

  lemma NeverToldOnList(l: Loop, e: Event, j: nat, v: int)
    ensures NextSpot(l, e, j, true) != Told(v)
  {
  }

  /** On the thread's lists only its own finishing events decide. */
  lemma DecidesOnList(l: Loop, e: Event, j: nat, v: int)
    requires PhaseOk(l) && Single(l, j)
    requires var p := Spot(l, j, true); p == InQueue || p == InHand || p == Active
    ensures Decided(NextSpot(l, e, j, true), v) <==> Finishes(l, e, j, v)
  {
    HeadsAreHeld(l, j);
    NeverToldOnList(l, e, j, v);
    match Spot(l, j, true)
    case InQueue => QueueFinishes(l, e, j, v);
    case InHand => HandFinishes(l, e, j, v);
    case Active => ActiveFinishes(l, e, j, v);
  }

  lemma SpotOfPlace(s: State, j: nat)
    requires Sorted(s, j)
    ensures var p := PlaceOf(s, j);
      && (p == InQueue || p == InHand || p == Active ==>
            Spot(s.loop, j, true) == p && j in s.store.handlers && !At(s.store, j, Failing))
      && (p == Unknown || p == WithCoroutine ==> j !in s.loop.active && j !in s.loop.taken)
  {
    SortedSingle(s, j);
  }

  lemma NextOnList(s: State, e: Event, j: nat)
    requires var p := PlaceOf(s, j); p == InQueue || p == InHand || p == Active
    ensures NextPlace(s, e, j) == NextSpot(s.loop, e, j, true)
  {
  }

  lemma DecidesElse(s: State, e: Event, j: nat, v: int)
    requires PlaceOf(s, j) == Unknown || PlaceOf(s, j) == WithCoroutine
    requires j in s.store.handlers <==> PlaceOf(s, j) == WithCoroutine
    ensures Decided(NextPlace(s, e, j), v) <==> e == SelfPublish(j) && At(s.store, j, Failing) && v == ERR_IO
  {
  }

  /** A step decides a job exactly when it is such an event. */
  lemma DecidesMoves(s: State, e: Event, j: nat, v: int)
    requires PhaseOk(s.loop) && Sorted(s, j) && !PlaceOf(s, j).Ending? && !PlaceOf(s, j).Told?
    ensures Decided(NextPlace(s, e, j), v) <==> Decides(s, e, j, v)
  {
    SortedSingle(s, j);
    HeadsAreHeld(s.loop, j);
    SpotOfPlace(s, j);
    var p := PlaceOf(s, j);
    if p == InQueue || p == InHand || p == Active {
      NextOnList(s, e, j);
      DecidesOnList(s.loop, e, j, v);
    } else {
      NowhereFinishes(s.loop, e, j, v);
      DecidesElse(s, e, j, v);
    }
  }

  /** A decided job is never decided again. */
  lemma DecidedOnce(s: State, e: Event, j: nat, v: int)
    requires PhaseOk(s.loop) && Sorted(s, j) && (PlaceOf(s, j).Ending? || PlaceOf(s, j).Told?)
    ensures !Decides(s, e, j, v)
    ensures forall u :: Decided(PlaceOf(s, j), u) <==> Decided(NextPlace(s, e, j), u)
  {
    SortedSingle(s, j);
    HeadsAreHeld(s.loop, j);
    Counts(s.loop.taken, j);
    Counts(s.loop.active, j);
    NowhereFinishes(s.loop, e, j, v);
  }

  ghost predicate Good(s: State) { Inv(s) && VerdictsOk(s) }

  lemma {:induction false} RunGood(s: State, es: seq<Event>)
    requires Good(s)
    ensures Good(Run(s, es))
  {
    if es != [] {
      RunGood(s, es[..|es| - 1]);
      StepKeeps(Run(s, es[..|es| - 1]), es[|es| - 1]);
      StepVerdicts(Run(s, es[..|es| - 1]), es[|es| - 1]);
    }
  }

  lemma StepDecides(s: State, e: Event, j: nat, v: int)
    requires Good(s)
    ensures Decided(PlaceOf(Step(s, e), j), v) <==> Decided(PlaceOf(s, j), v) || Decides(s, e, j, v)
    ensures PlaceOf(s, j).Ending? || PlaceOf(s, j).Told? ==> !Decides(s, e, j, v)
  {
    StepMoves(s, e, j);
    SortedOk(s, j);
    if PlaceOf(s, j).Ending? || PlaceOf(s, j).Told? {
      DecidedOnce(s, e, j, v);
      DecidedOnce(s, e, j, PlaceOf(s, j).status);
    } else {
      DecidesMoves(s, e, j, v);
    }
  }

  /** Event `k` of the run decides `j`. */
  ghost predicate DecidesAt(s: State, es: seq<Event>, k: int, j: nat, v: int) {
    0 <= k < |es| && Decides(Run(s, es[..k]), es[k], j, v)
  }

  lemma DecidesFront(s: State, es: seq<Event>, k: int, j: nat, v: int)
    requires es != []
    ensures DecidesAt(s, es, k, j, v) <==>
              DecidesAt(s, es[..|es| - 1], k, j, v) || (k == |es| - 1 && Decides(Run(s, es[..k]), es[k], j, v))
  {
    if 0 <= k < |es| - 1 {
      assert es[..|es| - 1][..k] == es[..k];
    }
  }

  lemma {:induction false} RunDecides(s: State, es: seq<Event>, j: nat, v: int)
    requires Good(s) && !PlaceOf(s, j).Ending? && !PlaceOf(s, j).Told?
    ensures Decided(PlaceOf(Run(s, es), j), v) <==> exists k :: DecidesAt(s, es, k, j, v)
  {
    if es != [] {
      var n := |es| - 1;
      var front, s1 := es[..n], Run(s, es[..n]);
      RunDecides(s, front, j, v);
      RunGood(s, front);
      StepDecides(s1, es[n], j, v);
      if k :| DecidesAt(s, es, k, j, v) {
        DecidesFront(s, es, k, j, v);
      }
      if Decided(PlaceOf(s1, j), v) {
        var k :| DecidesAt(s, front, k, j, v);
        DecidesFront(s, es, k, j, v);
      } else if Decides(s1, es[n], j, v) {
        assert DecidesAt(s, es, n, j, v);
      }
    }
  }

  /** What an earlier event decided, no later one decides again. */
  lemma {:induction false} DecidedBefore(s: State, es: seq<Event>, k: int, k': int, j: nat, v: int, v': int)
    requires Good(s) && !PlaceOf(s, j).Ending? && !PlaceOf(s, j).Told?
    requires DecidesAt(s, es, k, j, v) && k < k' < |es|
    ensures !DecidesAt(s, es, k', j, v')
  {
    var front := es[..k'];
    assert es[..k'][..k] == es[..k] && DecidesAt(s, front, k, j, v);
    RunDecides(s, front, j, v);
    RunGood(s, front);
    StepDecides(Run(s, front), es[k'], j, v');
  }

  lemma Same(s: State, e: Event, j: nat, v: int, v': int)
    requires Decides(s, e, j, v) && Decides(s, e, j, v')
    ensures v == v'
  {
  }

  lemma InitGood(capacity: nat, j: nat)
    requires capacity > 0
    ensures Good(Init(capacity)) && PlaceOf(Init(capacity), j) == Unknown
  {
    InitOk(capacity);
  }

  /**
   In every interleaving, what a coroutine is told about job `j` is the status of the one event that
   ended it: a start that failed, its admission's completion, its expiry, the clearing of what the
   leaving thread still had, or the refusal of a stopped bridge.
   */
  lemma VerdictsAreEarned(capacity: nat, es: seq<Event>, j: nat)
    requires capacity > 0 && j in Reached(capacity, es).store.verdicts
    ensures var v := Reached(capacity, es).store.verdicts[j];
      exists k :: DecidesAt(Init(capacity), es, k, j, v)
        && forall k', v' :: DecidesAt(Init(capacity), es, k', j, v') ==> k' == k && v' == v
  {
    var s, v := Init(capacity), Reached(capacity, es).store.verdicts[j];
    InitGood(capacity, j);
    RunDecides(s, es, j, v);
    var k :| DecidesAt(s, es, k, j, v);
    forall k', v' | DecidesAt(s, es, k', j, v') ensures k' == k && v' == v {
      if k < k' {
        DecidedBefore(s, es, k, k', j, v, v');
      } else if k' < k {
        DecidedBefore(s, es, k', k, j, v', v);
      }
      Same(Run(s, es[..k]), es[k], j, v, v');
    }
  }

  /** And an event that ends a job is what its coroutine is told, as soon as it is told anything. */
  lemma DecisionsStand(capacity: nat, es: seq<Event>, k: int, j: nat, v: int)
    requires capacity > 0 && DecidesAt(Init(capacity), es, k, j, v)
    ensures var s := Reached(capacity, es);
      || (j in s.store.verdicts && s.store.verdicts[j] == v)
      || (s.loop.pc.Completing? && s.loop.pc.j == j && s.loop.pc.status == v)
  {
    InitGood(capacity, j);
    RunDecides(Init(capacity), es, j, v);
    DecidedIs(Reached(capacity, es), j, v);
  }

  lemma DecidedIs(s: State, j: nat, v: int)
    requires Decided(PlaceOf(s, j), v)
    ensures || (j in s.store.verdicts && s.store.verdicts[j] == v)
            || (s.loop.pc.Completing? && s.loop.pc.j == j && s.loop.pc.status == v)
  {
  }

  /**
   A job whose admission has started stays active until its admission completes, it expires, or the
   leaving thread clears it; nothing else ends it.
   */
  lemma StartedStaysActive(capacity: nat, es: seq<Event>, later: seq<Event>, j: nat)
    requires capacity > 0
    requires var l := Reached(capacity, es).loop; l.pc == Running(ToStart) && l.taken != [] && l.taken[0] == j
    ensures var s := Step(Reached(capacity, es), StartJob(OK));
      || j in Run(s, later).loop.active
      || exists k, v :: DecidesAt(s, later, k, j, v) && (later[k].AdmissionDone? || later[k].ExpireJob? || later[k].FailJob?)
  {
    var s0 := Reached(capacity, es);
    var s := Step(s0, StartJob(OK));
    RunVerdicts(capacity, es);
    StepMoves(s0, StartJob(OK), j);
    SortedOk(s0, j);
    SortedSingle(s0, j);
    HeadsAreHeld(s0.loop, j);
    StepKeeps(s0, StartJob(OK));
    StepVerdicts(s0, StartJob(OK));
    ActiveUntil(s, later, j);
  }

  lemma ActiveOneMore(s: State, e: Event, j: nat)
    requires Good(s) && PlaceOf(s, j) == Active
    ensures || PlaceOf(Step(s, e), j) == Active
            || exists v :: Decides(s, e, j, v) && (e.AdmissionDone? || e.ExpireJob? || e.FailJob?)
  {
    StepMoves(s, e, j);
    SortedOk(s, j);
    if PlaceOf(Step(s, e), j) != Active {
      DecidesMoves(s, e, j, PlaceOf(Step(s, e), j).status);
    }
  }

  lemma {:induction false} ActiveUntil(s: State, later: seq<Event>, j: nat)
    requires Good(s) && PlaceOf(s, j) == Active
    ensures || PlaceOf(Run(s, later), j) == Active
            || exists k, v :: DecidesAt(s, later, k, j, v) && (later[k].AdmissionDone? || later[k].ExpireJob? || later[k].FailJob?)
  {
    if later != [] {
      var n := |later| - 1;
      var front := later[..n];
      ActiveUntil(s, front, j);
      RunGood(s, front);
      if PlaceOf(Run(s, front), j) == Active {
        ActiveOneMore(Run(s, front), later[n], j);
        if v :| Decides(Run(s, front), later[n], j, v) && (later[n].AdmissionDone? || later[n].ExpireJob? || later[n].FailJob?) {
          assert DecidesAt(s, later, n, j, v);
        }
      } else {
        var k, v :| DecidesAt(s, front, k, j, v)
          && (front[k].AdmissionDone? || front[k].ExpireJob? || front[k].FailJob?);
        DecidesFront(s, later, k, j, v);
      }
    }
  }

  /** A coroutine that waits for a job whose result is out answers with that result and is done. */
  lemma ToldIsAnswered(capacity: nat, es: seq<Event>, j: nat)
    requires capacity > 0 && At(Reached(capacity, es).store, j, Waiting) && j in Reached(capacity, es).store.verdicts
    ensures var s := Reached(capacity, es);
            var t := Step(s, Answer(j));
      && j in t.store.answers && t.store.answers[j] == s.store.verdicts[j]
      && At(t.store, j, Gone)
  {
    var s := Reached(capacity, es);
    RunVerdicts(capacity, es);
    ReadStore(s.store, j);
    StepParts(s, Answer(j));
    DropTells(Staged(s.store.(answers := s.store.answers[j := s.store.jobs[j].status]), j, Gone), j);
    DropAnswers(Staged(s.store.(answers := s.store.answers[j := s.store.jobs[j].status]), j, Gone), j);
  }

  lemma DropAnswers(st: Store, k: nat)
    ensures Dropped(st, k).answers == st.answers
  {
  }
}
