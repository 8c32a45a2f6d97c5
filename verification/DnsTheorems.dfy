/** What the DNS refresh lifecycle promises over every run the resolver contract allows. */
module DnsTheorems {
  import opened Machine
  import opened DnsRefresh
  import opened DnsRuns
  import R = Request

  /** Nothing freed is used or freed again, no refresh is overwritten, and no dead client is touched. */
  lemma MemorySafe(hasCancel: bool, es: seq<Event>)
    requires AllowedRun(Init(hasCancel), es)
    ensures !Run(Init(hasCancel), es).fault
  {
    RunKeeps(hasCancel, es);
  }

  /** `pending` is the number of linked lookups that have not completed. */
  lemma PendingIsExact(hasCancel: bool, es: seq<Event>)
    requires AllowedRun(Init(hasCancel), es)
    requires Run(Init(hasCancel), es).refresh.Some?
    ensures var s := Run(Init(hasCancel), es);
            var r := s.refresh.value;
            && NoDup(r.linked)
            && SetOf(r.linked) == s.lookups.Keys
            && r.pending == |set l | l in r.linked && l in s.lookups && !s.lookups[l].completed|
  {
    RunKeeps(hasCancel, es);
    PendingCounts(Run(Init(hasCancel), es));
  }

  lemma PendingCounts(s: State)
    requires Inv(s) && s.refresh.Some?
    ensures var r := s.refresh.value;
            && NoDup(r.linked)
            && SetOf(r.linked) == s.lookups.Keys
            && r.pending == |set l | l in r.linked && l in s.lookups && !s.lookups[l].completed|
  {
    LinkedOnce(s.refresh.value.linked, s.lookups.Keys);
    WaitingLinked(s.refresh.value.linked, s.lookups);
  }

  lemma WaitingLinked(linked: seq<nat>, m: map<nat, Lookup>)
    requires SetOf(linked) == m.Keys
    ensures Waiting(m) == set l | l in linked && l in m && !m[l].completed
  {
    assert forall l :: l in m ==> l in SetOf(linked);
  }

  ghost function Alive(s: State): set<nat> {
    s.lookups.Keys + (if s.refresh.Some? then {s.refresh.value.id} else {})
  }

  /** Every lookup and every refresh ever allocated is alive, or has been freed exactly once, never both. */
  lemma FreedExactlyOnce(hasCancel: bool, es: seq<Event>, x: nat)
    requires AllowedRun(Init(hasCancel), es)
    ensures var s := Run(Init(hasCancel), es);
            multiset(s.freed)[x] + (if x in Alive(s) then 1 else 0) == (if x < s.nextId then 1 else 0)
  {
    RunKeeps(hasCancel, es);
    var s := Run(Init(hasCancel), es);
    assert x in SetOf(s.freed) <==> x in multiset(s.freed);
    assert multiset(s.freed)[x] == multiset(SetOf(s.freed))[x];
  }

  /** Once the resolver owes no callback and no hook is running, nothing is left allocated. */
  lemma NothingLeaks(hasCancel: bool, es: seq<Event>)
    requires AllowedRun(Init(hasCancel), es)
    ensures var s := Run(Init(hasCancel), es);
            s.stack == [] && s.open == {} ==> Alive(s) == {}
  {
    RunKeeps(hasCancel, es);
    var s := Run(Init(hasCancel), es);
    if s.stack == [] && s.open == {} {
      NothingPending(s);
    }
  }

  lemma NothingPending(s: State)
    requires Inv(s) && s.stack == [] && s.open == {}
    ensures s.refresh.None?
  {
    assert {} + Looping([]) + {} == {};
  }

  /** The servers in force are known, and an empty answer never replaced any. */
  lemma ServersAreKnown(hasCancel: bool, es: seq<Event>)
    requires AllowedRun(Init(hasCancel), es)
    ensures R.AllKnown(Run(Init(hasCancel), es).servers)
    ensures Run(Init(hasCancel), es).commits != [] ==> Run(Init(hasCancel), es).servers != []
  {
    RunKeeps(hasCancel, es);
    LastServed(Run(Init(hasCancel), es));
  }

  lemma LastServed(s: State)
    requires Served(s.servers, s.commits)
    ensures R.AllKnown(s.servers) && (s.commits != [] ==> s.servers != [])
  {
    if s.commits != [] {
      assert s.commits[|s.commits| - 1] in s.commits;
    }
  }

  // ---------- commits ----------

  ghost predicate Quiet(s: State, t: State) {
    && t.servers == s.servers
    && t.commits == s.commits
    && (t.refresh.Some? ==>
          && s.refresh.Some?
          && t.refresh.value.detached == s.refresh.value.detached
          && t.refresh.value.endpoints == s.refresh.value.endpoints)
    && (t.refresh.None? && Attached(s) ==> s.refresh.value.endpoints == [])
  }

  ghost predicate Commits(s: State, t: State) {
    && s.refresh.Some?
    && !s.refresh.value.detached
    && s.refresh.value.endpoints != []
    && t.refresh.None?
    && t.servers == s.refresh.value.endpoints
    && t.commits == s.commits + [t.servers]
  }

  ghost predicate Change(s: State, t: State) { Quiet(s, t) || Commits(s, t) }

  lemma QuietThen(s: State, t: State, u: State)
    requires Quiet(s, t) && t.refresh.Some? && Change(t, u)
    ensures Change(s, u)
  {
  }

  lemma CompleteChange(s: State)
    ensures Change(s, MaybeComplete(s))
  {
  }

  lemma SettleQuiet(s: State, l: nat)
    requires s.refresh.Some? && l in s.lookups
    ensures Quiet(s, Settle(s, l)) && Settle(s, l).refresh.Some? && l in Settle(s, l).lookups
  {
  }

  lemma DropQuiet(s: State, l: nat)
    requires s.refresh.Some? && l in s.lookups
    ensures Quiet(s, DropLookup(s, l)) && DropLookup(s, l).refresh.Some?
  {
  }

  lemma FinishChange(s: State, l: nat)
    ensures Change(s, LookupFinish(s, l))
  {
    if l in s.lookups && s.refresh.Some? {
      var s1 := Settle(s, l);
      SettleQuiet(s, l);
      var s2 := if s.lookups[l].inCall then s1 else DropLookup(s1, l);
      DropQuiet(s1, l);
      CompleteChange(s2);
      QuietThen(s, s2, MaybeComplete(s2));
    }
  }

  lemma {:induction false} ContinueChange(s: State, l: nat, rest: seq<Record>, ttl: nat)
    ensures Change(s, Continue(s, l, rest, ttl))
    decreases |rest|
  {
    if s.refresh.Some? {
      if rest == [] {
        FinishChange(s.(refresh := Some(s.refresh.value.(minTtl := ttl))), l);
      } else if rest[0].serverId.None? || s.refresh.value.detached {
        ContinueChange(s, l, rest[1..], if rest[0].serverId.None? then ttl else LeastTtl(ttl, rest[0]));
      }
    }
  }

  /** Everything `AfterCall` does before `maybe_complete`. */
  ghost function Unwound(s: State, l: nat, ok: bool, reqId: bool): State
    requires l in s.lookups && s.refresh.Some?
  {
    var completed := s.lookups[l].completed;
    var s1 := if !ok && !completed then Settle(s, l) else s;
    var s2 := Leave(s1, l, ok && !completed && reqId);
    Lower(if !ok || completed then DropLookup(s2, l) else s2)
  }

  lemma UnwoundQuiet(s: State, l: nat, ok: bool, reqId: bool)
    requires l in s.lookups && s.refresh.Some?
    ensures Quiet(s, Unwound(s, l, ok, reqId)) && Unwound(s, l, ok, reqId).refresh.Some?
    ensures AfterCall(s, l, ok, reqId) == MaybeComplete(Unwound(s, l, ok, reqId))
  {
    SettleQuiet(s, l);
    var completed := s.lookups[l].completed;
    var s1 := if !ok && !completed then Settle(s, l) else s;
    DropQuiet(Leave(s1, l, ok && !completed && reqId), l);
  }

  lemma AfterCallChange(s: State, l: nat, ok: bool, reqId: bool)
    ensures Change(s, AfterCall(s, l, ok, reqId))
  {
    if l in s.lookups && s.refresh.Some? {
      var s1 := Unwound(s, l, ok, reqId);
      UnwoundQuiet(s, l, ok, reqId);
      CompleteChange(s1);
      QuietThen(s, s1, MaybeComplete(s1));
    }
  }

  lemma ResumeChange(s: State)
    ensures Change(s, Resume(s))
  {
    if !TopOk(s.stack) {
      var f := s.stack[|s.stack| - 1];
      ContinueChange(s.(stack := s.stack[..|s.stack| - 1]), f.l, f.rest, f.ttl);
    }
  }

  lemma ChangeThen(s: State, t: State, u: State)
    requires Change(s, t) && Change(t, u)
    ensures Change(s, u)
  {
  }

  lemma ReturnedChange(s: State, l: nat, ok: bool, reqId: bool, failedSrv: bool, id: nat)
    requires StartTail(AfterCall(s, l, ok, reqId), id) == AfterCall(s, l, ok, reqId)
    ensures Change(s, Returned(s, l, ok, reqId, failedSrv, id))
  {
    var s1 := AfterCall(s, l, ok, reqId);
    AfterCallChange(s, l, ok, reqId);
    ResumeChange(s1);
    ChangeThen(s, s1, Resume(s1));
  }

  lemma TailUnneeded(s: State, l: nat, ok: bool, reqId: bool, id: nat)
    requires Returning(s, l, ok)
    ensures StartTail(AfterCall(s, l, ok, reqId), id) == AfterCall(s, l, ok, reqId)
  {
    AfterCallKeeps(s, l, ok, reqId);
    StartTailIsDead(AfterCall(s, l, ok, reqId), id);
  }

  lemma CallReturnsChange(s: State, ok: bool, reqId: bool)
    requires Inv(s) && Allowed(s, CallReturns(ok, reqId))
    ensures Change(s, OnCallReturns(s, ok, reqId))
  {
    var l := s.stack[|s.stack| - 1].l;
    PoppedKeeps(s, l, ok);
    CallReturnsIs(s, ok, reqId, l);
    var s0 := Popped(s, l, ok);
    TailUnneeded(s0, l, ok, reqId, s.refresh.value.id);
    ReturnedChange(s0, l, ok, reqId, s.lookups[l].kind == Srv && !ok, s.refresh.value.id);
    PoppedChange(s, s0, OnCallReturns(s, ok, reqId));
  }

  lemma PoppedChange(s: State, s0: State, t: State)
    requires s0.servers == s.servers && s0.commits == s.commits && s0.refresh == s.refresh && Change(s0, t)
    ensures Change(s, t)
  {
  }

  lemma {:induction false} CancelQuiet(s: State, rest: seq<nat>)
    requires s.refresh.Some? && s.refresh.value.detached
    ensures Quiet(s, CancelFrom(s, rest))
    decreases |rest|
  {
    if rest != [] && rest[0] in s.lookups && !(!s.lookups[rest[0]].completed && s.lookups[rest[0]].hasReqId) {
      CancelQuiet(s, rest[1..]);
    }
  }

  /** What an address answer adds to an attached refresh. */
  ghost function Gathered(s: State, e: Event): seq<Endpoint> {
    if s.refresh.None? || s.refresh.value.detached then []
    else if e.AddrAnswer? && e.ok && e.l in s.lookups && s.lookups[e.l].kind.Addr?
    then s.refresh.value.endpoints + EndpointsOf(s.lookups[e.l].kind, e.addrs)
    else s.refresh.value.endpoints
  }

  ghost predicate Same(s: State, t: State) { t.servers == s.servers && t.commits == s.commits }

  /** An attached refresh is committed as soon as it is over, unless it has nothing; nothing else changes. */
  ghost predicate Outcome(s: State, t: State, gathered: seq<Endpoint>) {
    || (Same(s, t) && (t.refresh.None? && Attached(s) ==> gathered == []))
    || (&& s.refresh.Some? && !s.refresh.value.detached
        && t.refresh.None?
        && t.servers == gathered != []
        && t.commits == s.commits + [t.servers])
  }

  lemma ChangeIsOutcome(s: State, s1: State, t: State)
    requires Same(s, s1) && Change(s1, t)
    requires s1.refresh.Some? <==> s.refresh.Some?
    requires s1.refresh.Some? ==> s1.refresh.value.detached == s.refresh.value.detached
    ensures Outcome(s, t, if s1.refresh.Some? then s1.refresh.value.endpoints else [])
  {
  }

  lemma SrvChange(s: State, l: nat, ok: bool, records: seq<Record>)
    requires s.refresh.Some?
    ensures Outcome(s, SrvCallback(Spend(s, l), l, ok, records), s.refresh.value.endpoints)
  {
    var s1 := Spend(s, l);
    if l in s1.lookups {
      FinishChange(s1, l);
      ContinueChange(s1, l, records, 0);
      ChangeIsOutcome(s, s1, SrvCallback(s1, l, ok, records));
    }
  }

  lemma AddrChange(s: State, l: nat, ok: bool, addrs: seq<R.Addr>)
    requires s.refresh.Some? && l in s.lookups && s.lookups[l].kind.Addr?
    ensures Outcome(s, AddrCallback(Spend(s, l), l, ok, addrs), Gathered(s, AddrAnswer(l, ok, addrs)))
  {
    var s1 := Spend(s, l);
    if s1.refresh.value.detached || !ok {
      FinishChange(s1, l);
      ChangeIsOutcome(s, s1, LookupFinish(s1, l));
    } else {
      var s2 := Collect(s1, EndpointsOf(s1.lookups[l].kind, addrs));
      FinishChange(s2, l);
      ChangeIsOutcome(s, s2, LookupFinish(s2, l));
    }
  }

  lemma StartSame(s: State, nameFits: bool)
    requires Inv(s) && Allowed(s, Start(nameFits))
    ensures Same(s, OnStart(s, nameFits)) && (Attached(s) ==> OnStart(s, nameFits) == s)
  {
  }

  lemma {:induction false} CancelHolds(s: State, rest: seq<nat>)
    requires s.refresh.Some? && s.refresh.value.pending > 0
    ensures CancelFrom(s, rest).refresh.Some?
    decreases |rest|
  {
    if rest != [] && rest[0] in s.lookups && !(!s.lookups[rest[0]].completed && s.lookups[rest[0]].hasReqId) {
      CancelHolds(s, rest[1..]);
    }
  }

  /** A refresh cut off by the end of its client still has lookups out. */
  lemma DestroyHolds(s: State)
    requires Inv(s) && Allowed(s, Destroy) && Attached(s)
    ensures OnDestroy(s).refresh.Some?
  {
    CancelHolds(Detach(s), if s.hasCancel then s.refresh.value.linked else []);
  }

  lemma DestroySame(s: State)
    ensures Same(s, OnDestroy(s))
  {
    if s.refresh.Some? && s.current.Some? {
      CancelQuiet(Detach(s), if s.hasCancel then s.refresh.value.linked else []);
    }
  }

  lemma CancelReturnsSame(s: State)
    requires Inv(s)
    ensures Same(s, OnCancelReturns(s))
  {
    if s.stack != [] && s.stack[|s.stack| - 1].Cancelling? {
      LeaveCancel(s);
      CancelQuiet(s.(stack := s.stack[..|s.stack| - 1]), s.stack[|s.stack| - 1].after);
    }
  }

  lemma AnswerOutcome(s: State, e: Event)
    requires Inv(s) && Allowed(s, e) && (e.SrvAnswer? || e.AddrAnswer?)
    ensures Outcome(s, Step(s, e), Gathered(s, e))
  {
    AnswerKeeps(s, e.l);
    if e.SrvAnswer? {
      SrvChange(s, e.l, e.ok, e.records);
    } else {
      AddrChange(s, e.l, e.ok, e.addrs);
    }
  }

  lemma StepChange(s: State, e: Event)
    requires Inv(s) && Allowed(s, e)
    ensures Outcome(s, Step(s, e), Gathered(s, e))
    ensures Same(s, Step(s, e)) || e.SrvAnswer? || e.AddrAnswer? || e.CallReturns?
  {
    match e
    case Start(fits) => StartSame(s, fits);
    case SrvAnswer(_, _, _) => AnswerOutcome(s, e);
    case AddrAnswer(_, _, _) => AnswerOutcome(s, e);
    case CallReturns(ok, reqId) => CallReturnsChange(s, ok, reqId);
    case CancelReturns =>
      CancelReturnsSame(s);
      LeaveCancel(s);
    case Destroy => DestroyChange(s);
  }

  lemma DestroyChange(s: State)
    requires Inv(s) && Allowed(s, Destroy)
    ensures Same(s, OnDestroy(s)) && (Attached(s) ==> OnDestroy(s).refresh.Some?)
  {
    DestroySame(s);
    if Attached(s) {
      DestroyHolds(s);
    }
  }

  // ---------- what is committed ----------

  /**
   The endpoints that successful address answers have delivered since the current refresh started,
   each with the id and port of the SRV record its lookup was scheduled for.
   */
  ghost function Delivered(hasCancel: bool, es: seq<Event>): seq<Endpoint> {
    if es == [] then []
    else
      var front, e := es[..|es| - 1], es[|es| - 1];
      var s := Run(Init(hasCancel), front);
      if e.Start? && !s.inflight then []
      else if e.AddrAnswer? && e.ok && e.l in s.lookups && s.lookups[e.l].kind.Addr?
      then Delivered(hasCancel, front) + EndpointsOf(s.lookups[e.l].kind, e.addrs)
      else Delivered(hasCancel, front)
  }

  ghost predicate Attached(s: State) { s.refresh.Some? && !s.refresh.value.detached }

  lemma StartCollects(s: State, nameFits: bool)
    requires Inv(s) && Allowed(s, Start(nameFits)) && Attached(OnStart(s, nameFits))
    ensures if s.inflight then OnStart(s, nameFits) == s else OnStart(s, nameFits).refresh.value.endpoints == []
  {
  }

  lemma QuietCollects(s: State, s1: State, t: State)
    requires Change(s1, t) && Attached(t)
    ensures s1.refresh.Some? && !s1.refresh.value.detached
    ensures t.refresh.value.endpoints == s1.refresh.value.endpoints
  {
  }

  lemma SrvCollects(s: State, l: nat, ok: bool, records: seq<Record>)
    requires s.refresh.Some? && Attached(SrvCallback(Spend(s, l), l, ok, records))
    ensures Attached(s) && SrvCallback(Spend(s, l), l, ok, records).refresh.value.endpoints == s.refresh.value.endpoints
  {
    var s1 := Spend(s, l);
    if l in s1.lookups {
      FinishChange(s1, l);
      ContinueChange(s1, l, records, 0);
      QuietCollects(s, s1, SrvCallback(s1, l, ok, records));
    }
  }

  lemma AddrCollected(s: State, l: nat, ok: bool, addrs: seq<R.Addr>)
    requires s.refresh.Some? && l in s.lookups && s.lookups[l].kind.Addr?
    requires Attached(AddrCallback(Spend(s, l), l, ok, addrs))
    ensures Attached(s)
    ensures AddrCallback(Spend(s, l), l, ok, addrs).refresh.value.endpoints == Gathered(s, AddrAnswer(l, ok, addrs))
  {
    var s1 := Spend(s, l);
    if s1.refresh.value.detached || !ok {
      FinishChange(s1, l);
      QuietCollects(s, s1, LookupFinish(s1, l));
    } else {
      var s2 := Collect(s1, EndpointsOf(s1.lookups[l].kind, addrs));
      FinishChange(s2, l);
      QuietCollects(s, s2, LookupFinish(s2, l));
    }
  }

  lemma EndsDetached(s: State, e: Event)
    requires Inv(s) && Allowed(s, e) && (e.Destroy? || e.CancelReturns?)
    ensures !Attached(Step(s, e))
  {
    if e.Destroy? {
      if s.refresh.Some? && s.current.Some? {
        CancelQuiet(Detach(s), if s.hasCancel then s.refresh.value.linked else []);
      }
    } else {
      LeaveCancel(s);
      CancelQuiet(s.(stack := s.stack[..|s.stack| - 1]), s.stack[|s.stack| - 1].after);
    }
  }

  /** What an attached refresh holds after a step: what the step gathered, or nothing if it just started. */
  ghost predicate Collected(s: State, e: Event, t: State) {
    Attached(t) ==>
      if e.Start? && !s.inflight then t.refresh.value.endpoints == []
      else Attached(s) && t.refresh.value.endpoints == Gathered(s, e)
  }

  lemma SrvStepCollects(s: State, l: nat, ok: bool, records: seq<Record>)
    requires s.refresh.Some?
    ensures Collected(s, SrvAnswer(l, ok, records), SrvCallback(Spend(s, l), l, ok, records))
  {
    if Attached(SrvCallback(Spend(s, l), l, ok, records)) {
      SrvCollects(s, l, ok, records);
    }
  }

  lemma AddrStepCollects(s: State, l: nat, ok: bool, addrs: seq<R.Addr>)
    requires s.refresh.Some? && l in s.lookups && s.lookups[l].kind.Addr?
    ensures Collected(s, AddrAnswer(l, ok, addrs), AddrCallback(Spend(s, l), l, ok, addrs))
  {
    if Attached(AddrCallback(Spend(s, l), l, ok, addrs)) {
      AddrCollected(s, l, ok, addrs);
    }
  }

  lemma ReturnCollects(s: State, ok: bool, reqId: bool)
    requires Inv(s) && Allowed(s, CallReturns(ok, reqId))
    ensures Collected(s, CallReturns(ok, reqId), OnCallReturns(s, ok, reqId))
  {
    CallReturnsChange(s, ok, reqId);
    if Attached(OnCallReturns(s, ok, reqId)) {
      QuietCollects(s, s, OnCallReturns(s, ok, reqId));
    }
  }

  lemma StartStepCollects(s: State, nameFits: bool)
    requires Inv(s) && Allowed(s, Start(nameFits))
    ensures Collected(s, Start(nameFits), OnStart(s, nameFits))
  {
    if Attached(OnStart(s, nameFits)) {
      StartCollects(s, nameFits);
    }
  }

  lemma AnswerCollects(s: State, e: Event)
    requires Inv(s) && Allowed(s, e) && (e.SrvAnswer? || e.AddrAnswer?)
    ensures Collected(s, e, Step(s, e))
  {
    AnswerKeeps(s, e.l);
    if e.SrvAnswer? {
      SrvStepCollects(s, e.l, e.ok, e.records);
    } else {
      AddrStepCollects(s, e.l, e.ok, e.addrs);
    }
  }

  lemma StepCollects(s: State, e: Event)
    requires Inv(s) && Allowed(s, e)
    ensures Collected(s, e, Step(s, e))
  {
    match e
    case Start(fits) => StartStepCollects(s, fits);
    case SrvAnswer(_, _, _) => AnswerCollects(s, e);
    case AddrAnswer(_, _, _) => AnswerCollects(s, e);
    case CallReturns(ok, reqId) => ReturnCollects(s, ok, reqId);
    case CancelReturns => EndsDetached(s, e);
    case Destroy => EndsDetached(s, e);
  }

  /** An attached refresh has collected exactly what its address lookups have answered. */
  lemma {:induction false} EndpointsAreDelivered(hasCancel: bool, es: seq<Event>)
    requires AllowedRun(Init(hasCancel), es) && Attached(Run(Init(hasCancel), es))
    ensures Run(Init(hasCancel), es).refresh.value.endpoints == Delivered(hasCancel, es)
  {
    if es != [] {
      var front, e := es[..|es| - 1], es[|es| - 1];
      var s := Run(Init(hasCancel), front);
      RunKeeps(hasCancel, front);
      StepCollects(s, e);
      if !(e.Start? && !s.inflight) {
        EndpointsAreDelivered(hasCancel, front);
      }
    }
  }

  lemma CommitStep(s: State, e: Event)
    requires Inv(s) && Allowed(s, e) && !Same(s, Step(s, e))
    ensures Attached(s) && Idle(Step(s, e)) && Step(s, e).servers == Gathered(s, e) != []
    ensures R.AllKnown(Step(s, e).servers)
    ensures e.SrvAnswer? || e.AddrAnswer? || e.CallReturns?
  {
    StepKeeps(s, e);
    StepChange(s, e);
    LastServed(Step(s, e));
  }

  lemma DeliveredMore(hasCancel: bool, es: seq<Event>, e: Event)
    requires Attached(Run(Init(hasCancel), es)) && !e.Start?
    requires Run(Init(hasCancel), es).refresh.value.endpoints == Delivered(hasCancel, es)
    ensures Delivered(hasCancel, es + [e]) == Gathered(Run(Init(hasCancel), es), e)
  {
    assert (es + [e])[..|es|] == es;
  }

  /**
   In every allowed run, the server list changes only when an attached refresh is over: no lookup,
   hook or owed callback remains. The new list is everything its address lookups delivered, in order
   of arrival, which is not empty and has known ids only.
   */
  lemma CommitIsComplete(hasCancel: bool, es: seq<Event>, e: Event)
    requires AllowedRun(Init(hasCancel), es) && Allowed(Run(Init(hasCancel), es), e)
    requires !Same(Run(Init(hasCancel), es), Step(Run(Init(hasCancel), es), e))
    ensures var t := Step(Run(Init(hasCancel), es), e);
      && Attached(Run(Init(hasCancel), es))
      && Idle(t)
      && t.servers == Delivered(hasCancel, es + [e]) != []
      && R.AllKnown(t.servers)
    ensures e.SrvAnswer? || e.AddrAnswer? || e.CallReturns?
  {
    RunKeeps(hasCancel, es);
    CommitStep(Run(Init(hasCancel), es), e);
    EndpointsAreDelivered(hasCancel, es);
    DeliveredMore(hasCancel, es, e);
  }

  /**
   In every allowed run, a refresh that is over while attached has been committed, unless its lookups
   delivered nothing at all; and then the servers in force stay.
   */
  lemma OverMeansCommitted(hasCancel: bool, es: seq<Event>, e: Event)
    requires AllowedRun(Init(hasCancel), es) && Allowed(Run(Init(hasCancel), es), e)
    requires Attached(Run(Init(hasCancel), es)) && Step(Run(Init(hasCancel), es), e).refresh.None?
    ensures var s, t, delivered := Run(Init(hasCancel), es), Step(Run(Init(hasCancel), es), e), Delivered(hasCancel, es + [e]);
      if delivered == [] then Same(s, t) else t.servers == delivered && t.commits == s.commits + [delivered]
  {
    RunKeeps(hasCancel, es);
    EndpointsAreDelivered(hasCancel, es);
    OverIsNotStart(Run(Init(hasCancel), es), e);
    StepChange(Run(Init(hasCancel), es), e);
    DeliveredMore(hasCancel, es, e);
  }

  lemma OverIsNotStart(s: State, e: Event)
    requires Inv(s) && Allowed(s, e) && Attached(s) && Step(s, e).refresh.None?
    ensures !e.Start?
  {
  }

  lemma DetachedFlags(s: State)
    requires Inv(s) && (s.refresh.Some? ==> s.refresh.value.detached)
    ensures s.current.None? && !s.inflight
  {
  }

  lemma DetachedEvents(s: State, e: Event)
    requires Inv(s) && Allowed(s, e) && s.refresh.Some? && s.refresh.value.detached
    ensures e.SrvAnswer? || e.AddrAnswer? || e.CancelReturns?
  {
  }

  lemma DetachedQuiet(s: State, e: Event)
    requires Inv(s) && Allowed(s, e) && s.refresh.Some? && s.refresh.value.detached
    ensures Quiet(s, Step(s, e))
  {
    DetachedEvents(s, e);
    if e.CancelReturns? {
      CancelQuiet(s.(stack := s.stack[..|s.stack| - 1]), s.stack[|s.stack| - 1].after);
    } else {
      FinishChange(Spend(s, e.l), e.l);
    }
  }

  /** A detached refresh changes nothing the client owns, however late its callbacks come. */
  lemma DetachedTouchesNothing(s: State, e: Event)
    requires Inv(s) && Allowed(s, e) && s.refresh.Some? && s.refresh.value.detached
    ensures var t := Step(s, e);
            && t.servers == s.servers
            && t.commits == s.commits
            && t.inflight == s.inflight
            && t.current == s.current
            && (t.refresh.Some? ==> t.refresh.value.detached)
  {
    StepKeeps(s, e);
    DetachedQuiet(s, e);
    DetachedFlags(s);
    DetachedFlags(Step(s, e));
  }
}
