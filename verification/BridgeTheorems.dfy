/** What the bridge promises in every interleaving. */
module BridgeTheorems {
  import opened Bridge
  import opened BridgeRuns

  function Reached(capacity: nat, es: seq<Event>): State { Run(Init(capacity), es) }

  function One(b: bool): nat { if b then 1 else 0 }

  /** No freed job is read, written or released again. */
  lemma MemorySafe(capacity: nat, es: seq<Event>)
    requires capacity > 0
    ensures !Reached(capacity, es).store.fault
  {
    RunKeeps(capacity, es);
  }

  /** A submitted job is in exactly one place: with its coroutine, on one list, in the thread's hands, or completed. */
  lemma ExactlyOnePlace(capacity: nat, es: seq<Event>, j: nat)
    requires capacity > 0 && j in Reached(capacity, es).store.handlers
    ensures var s := Reached(capacity, es);
            multiset(s.loop.queue)[j] + multiset(s.loop.taken)[j] + multiset(s.loop.active)[j]
            + One(s.loop.pc.Completing? && s.loop.pc.j == j)
            + One(s.store.handlers[j].Submitting? || s.store.handlers[j].Failing?)
            + multiset(s.store.completed)[j] == 1
  {
    RunKeeps(capacity, es);
    var s := Reached(capacity, es);
    OneOf(s.loop, Unpublished(s.store.handlers), s.store.completed, s.store.handlers.Keys, j);
  }

  lemma OneOf(l: Loop, own: set<nat>, completed: seq<nat>, all: set<nat>, j: nat)
    requires Placed(Carried(l), own, completed, all) && j in all
    ensures multiset(l.queue)[j] + multiset(l.taken)[j] + multiset(l.active)[j]
            + One(l.pc.Completing? && l.pc.j == j) + One(j in own) + multiset(completed)[j] == 1
  {
    assert multiset(all)[j] == 1;
    assert (Carried(l) + multiset(own) + multiset(completed))[j]
        == Carried(l)[j] + multiset(own)[j] + multiset(completed)[j];
  }

  /** A job is freed once both owners have let go, once, and not before. */
  lemma FreedAfterBoth(capacity: nat, es: seq<Event>, j: nat)
    requires capacity > 0 && j in Reached(capacity, es).store.handlers
    ensures var st := Reached(capacity, es).store;
            && multiset(st.freed)[j] == One(st.handlers[j].Gone? && j in st.released)
            && multiset(st.released)[j] <= 1
            && (j in st.jobs <==> j !in st.freed)
  {
    RunKeeps(capacity, es);
    var s := Reached(capacity, es);
    FreedOnce(s.store, j);
    OneOf(s.loop, Unpublished(s.store.handlers), s.store.completed, s.store.handlers.Keys, j);
    assert multiset(s.store.completed)[j]
        == multiset(s.store.released)[j] + Held(s.loop.pc)[j] + multiset(Unreleased(s.store.handlers))[j];
  }

  lemma FreedOnce(st: Store, j: nat)
    requires StoreOk(st) && j in st.handlers
    ensures multiset(st.freed)[j] == One(st.handlers[j].Gone? && j in st.released)
    ensures j in st.jobs <==> j !in st.freed
  {
    assert multiset(st.freed)[j] == multiset(Finished(st.handlers, st.released))[j];
    assert j in st.freed <==> j in multiset(st.freed);
  }

  /** What a coroutine answers is the result of its job's one completion. */
  lemma AnswersAreVerdicts(capacity: nat, es: seq<Event>, j: nat)
    requires capacity > 0 && j in Reached(capacity, es).store.answers
    ensures var st := Reached(capacity, es).store;
            j in st.verdicts && st.answers[j] == st.verdicts[j] && multiset(st.completed)[j] == 1
  {
    RunKeeps(capacity, es);
    var s := Reached(capacity, es);
    assert j in multiset(s.store.completed);
    CompletedKnown(Carried(s.loop), Unpublished(s.store.handlers), s.store.completed, s.store.handlers.Keys, j);
  }

  lemma CompletedKnown(carried: multiset<nat>, own: set<nat>, completed: seq<nat>, all: set<nat>, j: nat)
    requires Placed(carried, own, completed, all) && j in completed
    ensures j in all && multiset(completed)[j] == 1
  {
    assert j in multiset(completed);
    assert multiset(all)[j] <= 1;
    assert (carried + multiset(own) + multiset(completed))[j] == carried[j] + multiset(own)[j] + multiset(completed)[j];
  }

  // ---------- no lost wakeup ----------

  /** A queued job whose coroutine has done its wake: whatever the others do, the thread is alerted. */
  ghost predicate Queued(s: State, j: nat) {
    j in s.loop.queue && j in s.store.handlers && !s.store.handlers[j].Waking?
  }

  lemma QueuedAlerts(s: State, j: nat)
    requires Inv(s) && Queued(s, j)
    ensures Alert(s.loop)
  {
    assert j !in AboutToWake(s.store.handlers);
  }

  lemma QueuedIsSubmitted(s: State, j: nat)
    requires Inv(s) && j in s.loop.queue
    ensures j in s.store.handlers && j !in Unpublished(s.store.handlers)
  {
    assert j in multiset(s.loop.queue);
    PlacedOnce(Carried(s.loop), Unpublished(s.store.handlers), s.store.completed, s.store.handlers.Keys, j);
  }

  /** Past its submission and its wake. */
  ghost predicate Past(m: map<nat, Stage>, j: nat) { j in m && !Early(m[j]) && !m[j].Waking? }

  lemma LeavingAdvances(st: Store, k: nat, j: nat)
    requires Past(st.handlers, j)
    ensures Past(Dropped(Staged(st, k, Gone), k).handlers, j)
    ensures Past(OnAnswer(st, k).handlers, j)
    ensures Past(Released(Staged(st, k, Waiting), k).handlers, j)
  {
    DropShape(Staged(st, k, Gone), k);
    DropShape(Staged(st, k, Waiting).(released := st.released + [k]), k);
    if k in st.jobs {
      DropShape(Staged(st.(answers := st.answers[k := st.jobs[k].status]), k, Gone), k);
    }
  }

  lemma StoreAdvances(st: Store, e: Event, j: nat)
    requires Past(st.handlers, j) && j < st.nextId
    ensures Past(HandlerStep(st, e).handlers, j)
  {
    if e.SelfRelease? || e.Answer? || e.Disconnect? {
      LeavingAdvances(st, e.j, j);
    }
  }

  /** A coroutine that is past its submission and its wake never stands before them again. */
  lemma StagesAdvance(s: State, e: Event, j: nat)
    requires Past(s.store.handlers, j) && j < s.store.nextId
    ensures Past(Step(s, e).store.handlers, j)
  {
    StepParts(s, e);
    if StoreEvent(e) {
      StoreAdvances(s.store, e, j);
    }
  }

  /** Only the thread's own take removes a job from the queue, and it takes every one. */
  lemma OnlyTakeRemoves(s: State, e: Event, j: nat)
    requires Inv(s) && j in s.loop.queue
    ensures j in Step(s, e).loop.queue || (e.Take? && j in Step(s, e).loop.taken)
  {
    StepParts(s, e);
    if ListEvent(e) {
      ListStepIs(s, e);
    }
  }

  /** Some take of the thread moved job `j` from the queue to its hands. */
  ghost predicate Handed(s: State, later: seq<Event>, j: nat) {
    exists k :: 0 <= k < |later| && later[k].Take?
      && j in Run(s, later[..k]).loop.queue && j in Run(s, later[..k + 1]).loop.taken
  }

  lemma HandedMore(s: State, later: seq<Event>, e: Event, j: nat)
    requires Handed(s, later, j)
    ensures Handed(s, later + [e], j)
  {
    var k :| 0 <= k < |later| && later[k].Take?
      && j in Run(s, later[..k]).loop.queue && j in Run(s, later[..k + 1]).loop.taken;
    var more := later + [e];
    assert more[..k] == later[..k] && more[..k + 1] == later[..k + 1] && more[k] == later[k];
  }

  lemma HandedNow(s: State, later: seq<Event>, e: Event, j: nat)
    requires e.Take? && j in Run(s, later).loop.queue && j in Step(Run(s, later), e).loop.taken
    ensures Handed(s, later + [e], j)
  {
    var more, k := later + [e], |later|;
    assert more[..k] == later && more[..k + 1] == more && more[k] == e;
  }

  lemma QueuedOneMore(s: State, front: seq<Event>, e: Event, j: nat)
    requires Inv(Run(s, front)) && Past(Run(s, front).store.handlers, j)
    requires j in Run(s, front).loop.queue || Handed(s, front, j)
    ensures var t := Step(Run(s, front), e);
      Inv(t) && Past(t.store.handlers, j) && (j in t.loop.queue || Handed(s, front + [e], j))
  {
    var u := Run(s, front);
    StepKeeps(u, e);
    StagesAdvance(u, e, j);
    if Handed(s, front, j) {
      HandedMore(s, front, e, j);
    } else {
      OnlyTakeRemoves(u, e, j);
      if j !in Step(u, e).loop.queue {
        HandedNow(s, front, e, j);
      }
    }
  }

  lemma LastEvent(es: seq<Event>)
    requires es != []
    ensures es == es[..|es| - 1] + [es[|es| - 1]]
  {
  }

  lemma LastStep(s: State, es: seq<Event>)
    requires es != []
    ensures var n := |es| - 1;
      es == es[..n] + [es[n]] && Run(s, es) == Step(Run(s, es[..n]), es[n])
  {
    LastEvent(es);
  }

  lemma {:induction false} QueuedStays(s: State, later: seq<Event>, j: nat)
    requires Inv(s) && Past(s.store.handlers, j) && j in s.loop.queue
    ensures var t := Run(s, later);
      Inv(t) && Past(t.store.handlers, j) && (j in t.loop.queue || Handed(s, later, j))
  {
    if later != [] {
      var n := |later| - 1;
      var front, e := later[..n], later[n];
      QueuedStays(s, front, j);
      LastStep(s, later);
      QueuedOneMore(s, front, e, j);
    }
  }

  lemma AlertLeads(t: State, j: nat)
    requires Inv(t) && Past(t.store.handlers, j) && j in t.loop.queue
    ensures Alert(t.loop)
    ensures t.loop.pc.Polling? ==> Step(t, PollReady).loop.pc.Draining?
    ensures t.loop.pc.Taking? ==> j in Step(t, Take).loop.taken
  {
    QueuedAlerts(t, j);
    TouchesAlive(t, PollReady);
    StepParts(t, PollReady);
    ListStepIs(t, Take);
    StepParts(t, Take);
  }

  /**
   No lost wakeup. Let a job be queued in any reached state, its own coroutine having done its wake.
   Then, whatever the thread, the other coroutines and the shutdown do and in whatever order: as
   long as the job is queued the thread is alerted, a poll returns with the pipe readable, and the
   job leaves the queue only by a take that hands it to the thread.
   */
  lemma QueuedIsTaken(capacity: nat, es: seq<Event>, later: seq<Event>, j: nat)
    requires capacity > 0 && Queued(Reached(capacity, es), j)
    ensures var s := Reached(capacity, es);
            var t := Run(s, later);
      && (j in t.loop.queue || Handed(s, later, j))
      && (j in t.loop.queue ==> Alert(t.loop))
      && (j in t.loop.queue && t.loop.pc.Polling? ==> Step(t, PollReady).loop.pc.Draining?)
      && (j in t.loop.queue && t.loop.pc.Taking? ==> j in Step(t, Take).loop.taken)
  {
    RunKeeps(capacity, es);
    var s := Reached(capacity, es);
    QueuedIsSubmitted(s, j);
    QueuedStays(s, later, j);
    if j in Run(s, later).loop.queue {
      AlertLeads(Run(s, later), j);
    }
  }

  // ---------- shutdown ----------

  /** Once the thread has left, no job is stranded: only a coroutine can still be finishing its own. */
  lemma NothingStranded(capacity: nat, es: seq<Event>, j: nat)
    requires capacity > 0 && Reached(capacity, es).loop.pc.Exited?
    requires j in Reached(capacity, es).store.handlers
    ensures var s := Reached(capacity, es);
            && s.loop.stop && s.loop.queue == [] && s.loop.taken == [] && s.loop.active == []
            && (j in s.store.completed || s.store.handlers[j].Submitting? || s.store.handlers[j].Failing?)
  {
    RunKeeps(capacity, es);
    ExactlyOnePlace(capacity, es, j);
  }

  /** With the thread and every coroutine gone, no job is still allocated. */
  lemma NothingLeaks(capacity: nat, es: seq<Event>)
    requires capacity > 0 && Reached(capacity, es).loop.pc.Exited?
    requires forall j :: j in Reached(capacity, es).store.handlers ==> Reached(capacity, es).store.handlers[j].Gone?
    ensures Reached(capacity, es).store.jobs == map[]
  {
    RunKeeps(capacity, es);
    var s := Reached(capacity, es);
    forall j | j in s.store.handlers ensures j !in s.store.jobs {
      NothingStranded(capacity, es, j);
      GoneIsReleased(s, j);
    }
  }

  lemma GoneIsReleased(s: State, j: nat)
    requires Inv(s) && s.loop.pc.Exited? && j in s.store.handlers
    requires s.store.handlers[j].Gone? && j in s.store.completed
    ensures j !in s.store.jobs
  {
    assert j in multiset(s.store.completed);
    assert j !in Unreleased(s.store.handlers);
    assert j in multiset(s.store.released);
  }

  // ---------- shutdown ends ----------

  predicate Clearing(l: Loop) {
    l.pc.FailTake? || l.pc.Exited?
    || ((l.pc.Running? || l.pc.Completing? || l.pc.Releasing?) && (l.pc.back.ToFailTaken? || l.pc.back.ToFailActive?))
  }

  /** How many steps the thread still has to make before it exits. */
  function ToGo(l: Loop): nat {
    var jobs := 3 * (|l.queue| + |l.taken| + |l.active|);
    if l.pc.FailTake? then jobs + 3
    else if !Clearing(l) || l.pc.Exited? then 0
    else
      var base := if l.pc.back.ToFailTaken? then 2 else 1;
      jobs + base + (if l.pc.Completing? then 2 else if l.pc.Releasing? then 1 else 0)
  }

  /** Steps the thread can make while clearing. */
  predicate ThreadMoves(l: Loop, e: Event) {
    || (l.pc.FailTake? && e.Take?)
    || (l.pc.Running? && e.FailJob?)
    || (l.pc.Completing? && e.Publish?)
    || (l.pc.Releasing? && e.ReleaseJob?)
  }

  function Moves(s: State, es: seq<Event>): nat {
    if es == [] then 0
    else Moves(s, es[..|es| - 1]) + One(ThreadMoves(Run(s, es[..|es| - 1]).loop, es[|es| - 1]))
  }

  lemma ListProgress(l: Loop, e: Event)
    requires Clearing(l) && (e.Take? || e.StartJob? || e.AdmissionDone? || e.ExpireJob? || e.FailJob?)
    ensures Clearing(ListStep(l, e))
    ensures ToGo(ListStep(l, e)) + One(ThreadMoves(l, e)) <= ToGo(l)
  {
  }

  lemma ControlProgress(l: Loop, e: Event)
    requires Clearing(l)
    ensures Clearing(ControlStep(l, e)) && ToGo(ControlStep(l, e)) == ToGo(l)
  {
  }

  lemma ListStepIs(s: State, e: Event)
    requires Inv(s) && ListEvent(e)
    ensures OnList(s, e).loop == ListStep(s.loop, e)
  {
    ListKeeps(s, e);
  }

  lemma LockProgress(s: State, j: nat)
    requires Inv(s) && Clearing(s.loop)
    ensures OnLock(s, j).loop == s.loop
  {
  }

  lemma WakeProgress(l: Loop)
    ensures Clearing(Woken(l)) == Clearing(l) && ToGo(Woken(l)) == ToGo(l)
  {
  }

  lemma CompleteProgress(s: State)
    requires Clearing(s.loop)
    ensures Clearing(OnPublish(s).loop) && Clearing(OnRelease(s).loop)
    ensures ToGo(OnPublish(s).loop) + One(s.loop.pc.Completing?) <= ToGo(s.loop)
    ensures ToGo(OnRelease(s).loop) + One(s.loop.pc.Releasing?) <= ToGo(s.loop)
  {
  }

  lemma StepProgress(s: State, e: Event)
    requires Inv(s) && Clearing(s.loop)
    ensures Clearing(Step(s, e).loop)
    ensures ToGo(Step(s, e).loop) + One(ThreadMoves(s.loop, e)) <= ToGo(s.loop)
  {
    StepParts(s, e);
    if ListEvent(e) {
      ListStepIs(s, e);
      ListProgress(s.loop, e);
    } else if ControlEvent(e) {
      ControlProgress(s.loop, e);
    } else if e.Lock? {
      LockProgress(s, e.j);
    } else if e.Wake? {
      WakeProgress(s.loop);
    } else if e.Publish? || e.ReleaseJob? {
      CompleteProgress(s);
    }
  }

  /**
   Once the stop flag is set by the leaving thread, no interleaving of arrivals and disconnects can
   keep it busy: it makes at most `ToGo` more steps, and has exited exactly when none is left.
   */
  lemma {:induction false} ClearingEnds(s: State, es: seq<Event>)
    requires Inv(s) && Clearing(s.loop)
    ensures Inv(Run(s, es)) && Clearing(Run(s, es).loop)
    ensures Moves(s, es) + ToGo(Run(s, es).loop) <= ToGo(s.loop)
    ensures ToGo(Run(s, es).loop) == 0 <==> Run(s, es).loop.pc.Exited?
  {
    if es != [] {
      var t := Run(s, es[..|es| - 1]);
      ClearingEnds(s, es[..|es| - 1]);
      StepKeeps(t, es[|es| - 1]);
      StepProgress(t, es[|es| - 1]);
    }
  }

  /** Whatever coroutines do after the thread left, nothing is ever handed to the dead thread. */
  lemma ExitIsFinal(s: State, e: Event)
    requires Inv(s) && s.loop.pc.Exited?
    ensures Step(s, e).loop.pc.Exited? && Step(s, e).loop.queue == []
  {
    StepKeeps(s, e);
    StepProgress(s, e);
  }
}
