/** Which lookups a client that is destroyed in mid-refresh asks its resolver to cancel. */
module DnsCancels {
  import opened Machine
  import opened Lists
  import opened DnsRefresh
  import opened DnsRuns
  import R = Request
  import DT = DnsTheorems

  // ---------- lookups the resolver gave an id for ----------

  /** The lookup whose hook returns well, with a request id. */
  ghost function NamedNow(s: State, e: Event): set<nat> {
    if e.CallReturns? && e.ok && e.reqId && s.stack != [] && s.stack[|s.stack| - 1].InCall?
    then {s.stack[|s.stack| - 1].l} else {}
  }

  ghost function NamedIn(hasCancel: bool, es: seq<Event>): set<nat> {
    if es == [] then {}
    else NamedIn(hasCancel, es[..|es| - 1]) + NamedNow(Run(Init(hasCancel), es[..|es| - 1]), es[|es| - 1])
  }

  /** Exactly the lookups in `named` carry a request id; one whose hook still runs has none yet. */
  ghost predicate Ids(m: map<nat, Lookup>, named: set<nat>) {
    forall l :: l in m ==> (m[l].hasReqId <==> l in named) && (m[l].inCall ==> l !in named)
  }

  ghost predicate IdsOk(s: State, named: set<nat>) {
    Ids(s.lookups, named) && forall x :: x in named ==> x < s.nextId
  }

  /** Lookups keep their ids while they live. */
  ghost predicate Keeps(s: State, t: State) {
    && t.nextId == s.nextId
    && forall l :: l in t.lookups ==>
         l in s.lookups && t.lookups[l].hasReqId == s.lookups[l].hasReqId && t.lookups[l].inCall == s.lookups[l].inCall
  }

  lemma KeptIds(s: State, t: State, named: set<nat>)
    requires Keeps(s, t) && IdsOk(s, named)
    ensures IdsOk(t, named)
  {
  }

  lemma FreeKeeps(s: State)
    ensures Keeps(s, FreeRefresh(s))
  {
  }

  lemma CompleteKeeps(s: State)
    ensures Keeps(s, MaybeComplete(s))
  {
    if s.refresh.Some? && s.refresh.value.pending == 0 && s.refresh.value.scheduling == 0 {
      var r := s.refresh.value;
      FreeKeeps(s);
      var s1 := if r.endpoints == [] then s
                else s.(servers := r.endpoints, ttl := r.minTtl, commits := s.commits + [r.endpoints]);
      FreeKeeps(s1.(inflight := false, current := if s.current == Some(r.id) then None else s.current));
    }
  }

  lemma FinishKeepsIds(s: State, l: nat)
    ensures Keeps(s, LookupFinish(s, l))
  {
    if l in s.lookups && s.refresh.Some? {
      var s1 := Settle(s, l);
      CompleteKeeps(if s.lookups[l].inCall then s1 else DropLookup(s1, l));
    }
  }

  /** The record loop ends, or suspends and adds one new lookup without an id. */
  lemma {:induction false} ContinueIds(s: State, l: nat, rest: seq<Record>, ttl: nat, named: set<nat>)
    requires IdsOk(s, named)
    ensures IdsOk(Continue(s, l, rest, ttl), named)
    decreases |rest|
  {
    if s.refresh.Some? {
      if rest == [] {
        var s1 := s.(refresh := Some(s.refresh.value.(minTtl := ttl)));
        FinishKeepsIds(s1, l);
        KeptIds(s1, LookupFinish(s1, l), named);
      } else if rest[0].serverId.None? || s.refresh.value.detached {
        ContinueIds(s, l, rest[1..], if rest[0].serverId.None? then ttl else LeastTtl(ttl, rest[0]), named);
      }
    }
  }

  lemma LeftIds(s: State, l: nat, reqId: bool, named: set<nat>)
    requires l in s.lookups && IdsOk(s, named) && l < s.nextId && s.lookups[l].inCall
    ensures IdsOk(Leave(s, l, reqId), named + if reqId then {l} else {})
  {
  }

  lemma DroppedIds(s: State, l: nat, named: set<nat>)
    requires IdsOk(s, named) && l < s.nextId
    ensures IdsOk(DropLookup(s, l), named)
    ensures l in s.lookups && s.refresh.Some? ==> IdsOk(DropLookup(s, l), named + {l})
  {
  }

  lemma SettledIds(s: State, l: nat, named: set<nat>)
    requires l in s.lookups && s.refresh.Some? && IdsOk(s, named)
    ensures IdsOk(Settle(s, l), named) && Settle(s, l).lookups[l].inCall == s.lookups[l].inCall
  {
  }

  lemma UnwoundIds(s: State, l: nat, ok: bool, reqId: bool, named: set<nat>)
    requires l in s.lookups && s.refresh.Some? && IdsOk(s, named) && l < s.nextId && s.lookups[l].inCall
    ensures IdsOk(DT.Unwound(s, l, ok, reqId), named + if ok && reqId then {l} else {})
  {
    var completed := s.lookups[l].completed;
    var s1 := if !ok && !completed then Settle(s, l) else s;
    SettledIds(s, l, named);
    var given := ok && !completed && reqId;
    LeftIds(s1, l, given, named);
    assert named + {} == named;
    DroppedIds(Leave(s1, l, given), l, named + if given then {l} else {});
  }

  /** After a hook: its lookup is gone, or carries an id iff the hook gave one. */
  lemma CallIds(s: State, l: nat, ok: bool, reqId: bool, named: set<nat>)
    requires l in s.lookups && s.refresh.Some? && IdsOk(s, named) && l < s.nextId && s.lookups[l].inCall
    ensures IdsOk(AfterCall(s, l, ok, reqId), named + if ok && reqId then {l} else {})
  {
    var s1 := DT.Unwound(s, l, ok, reqId);
    DT.UnwoundQuiet(s, l, ok, reqId);
    UnwoundIds(s, l, ok, reqId, named);
    CompleteKeeps(s1);
    KeptIds(s1, MaybeComplete(s1), named + if ok && reqId then {l} else {});
  }

  lemma ResumeIds(s: State, named: set<nat>)
    requires IdsOk(s, named)
    ensures IdsOk(Resume(s), named)
  {
    if !TopOk(s.stack) {
      var f := s.stack[|s.stack| - 1];
      ContinueIds(s.(stack := s.stack[..|s.stack| - 1]), f.l, f.rest, f.ttl, named);
    }
  }

  lemma ReturnedIds(s: State, l: nat, ok: bool, reqId: bool, failedSrv: bool, id: nat, named: set<nat>)
    requires Returning(s, l, ok) && IdsOk(s, named) && l < s.nextId && s.lookups[l].inCall
    ensures IdsOk(Returned(s, l, ok, reqId, failedSrv, id), named + if ok && reqId then {l} else {})
  {
    AfterCallKeeps(s, l, ok, reqId);
    StartTailIsDead(AfterCall(s, l, ok, reqId), id);
    CallIds(s, l, ok, reqId, named);
    ResumeIds(AfterCall(s, l, ok, reqId), named + if ok && reqId then {l} else {});
  }

  /** A hook's lookup is alive and marked, and its number was handed out. */
  lemma HookFacts(s: State, l: nat, ok: bool)
    requires Returning(s, l, ok)
    ensures s.lookups[l].inCall && l < s.nextId
  {
    assert l in Entered(s.stack) + {l};
    HandedOut(s.lookups.Keys, s.refresh.value.id, s.freed, s.nextId, l);
  }

  lemma HandedOut(alive: set<nat>, id: nat, freed: seq<nat>, nextId: nat, l: nat)
    requires Owned(alive + {id}, freed, nextId) && l in alive
    ensures l < nextId
  {
    assert l in alive + {id};
  }

  lemma CallReturnsIds(s: State, ok: bool, reqId: bool, named: set<nat>)
    requires Inv(s) && Allowed(s, CallReturns(ok, reqId)) && IdsOk(s, named)
    ensures IdsOk(OnCallReturns(s, ok, reqId), named + NamedNow(s, CallReturns(ok, reqId)))
  {
    var l := s.stack[|s.stack| - 1].l;
    PoppedKeeps(s, l, ok);
    HookFacts(Popped(s, l, ok), l, ok);
    CallReturnsIs(s, ok, reqId, l);
    ReturnedIds(Popped(s, l, ok), l, ok, reqId, s.lookups[l].kind == Srv && !ok, s.refresh.value.id, named);
  }

  lemma SrvIds(s: State, l: nat, ok: bool, records: seq<Record>, named: set<nat>)
    requires IdsOk(s, named)
    ensures IdsOk(SrvCallback(s, l, ok, records), named)
  {
    FinishKeepsIds(s, l);
    KeptIds(s, LookupFinish(s, l), named);
    ContinueIds(s, l, records, 0, named);
  }

  lemma AddrIds(s: State, l: nat, ok: bool, addrs: seq<R.Addr>, named: set<nat>)
    requires IdsOk(s, named)
    ensures IdsOk(AddrCallback(s, l, ok, addrs), named)
  {
    if l in s.lookups && s.refresh.Some? && s.lookups[l].kind.Addr? {
      var s1 := if s.refresh.value.detached || !ok then s else Collect(s, EndpointsOf(s.lookups[l].kind, addrs));
      FinishKeepsIds(s1, l);
      KeptIds(s1, LookupFinish(s1, l), named);
    }
  }

  lemma StartIds(s: State, fits: bool, named: set<nat>)
    requires Inv(s) && Allowed(s, Start(fits)) && IdsOk(s, named)
    ensures IdsOk(OnStart(s, fits), named)
  {
    if !s.inflight {
      var s1 := s.(refresh := Some(Refresh(s.nextId, false, 0, 0, [], [], 0)),
                   inflight := true, current := Some(s.nextId), nextId := s.nextId + 1);
      FreeKeeps(s1.(inflight := false, current := None));
    }
  }

  lemma {:induction false} CancelIds(s: State, rest: seq<nat>, named: set<nat>)
    requires IdsOk(s, named)
    ensures IdsOk(CancelFrom(s, rest), named)
    decreases |rest|
  {
    if rest == [] {
      if s.refresh.Some? {
        CompleteKeeps(Lower(s));
      }
    } else if rest[0] in s.lookups && s.clientAlive && !(!s.lookups[rest[0]].completed && s.lookups[rest[0]].hasReqId) {
      CancelIds(s, rest[1..], named);
    }
  }

  lemma DestroyIds(s: State, named: set<nat>)
    requires IdsOk(s, named)
    ensures IdsOk(OnDestroy(s), named)
  {
    if s.current.Some? && s.refresh.Some? {
      CancelIds(Detach(s), if s.hasCancel then s.refresh.value.linked else [], named);
    }
  }

  lemma CancelReturnsIds(s: State, named: set<nat>)
    requires IdsOk(s, named)
    ensures IdsOk(OnCancelReturns(s), named)
  {
    if s.stack != [] && s.stack[|s.stack| - 1].Cancelling? {
      CancelIds(s.(stack := s.stack[..|s.stack| - 1]), s.stack[|s.stack| - 1].after, named);
    }
  }

  lemma AnswerIds(s: State, e: Event, named: set<nat>)
    requires IdsOk(s, named) && (e.SrvAnswer? || e.AddrAnswer?)
    ensures IdsOk(Step(s, e), named)
  {
    if e.SrvAnswer? {
      SrvIds(Spend(s, e.l), e.l, e.ok, e.records, named);
    } else {
      AddrIds(Spend(s, e.l), e.l, e.ok, e.addrs, named);
    }
  }

  lemma StepIds(s: State, e: Event, named: set<nat>)
    requires Inv(s) && Allowed(s, e) && IdsOk(s, named)
    ensures IdsOk(Step(s, e), named + NamedNow(s, e))
  {
    assert named + {} == named;
    if e.SrvAnswer? || e.AddrAnswer? {
      AnswerIds(s, e, named);
    } else {
      match e
      case Start(fits) => StartIds(s, fits, named);
      case CallReturns(ok, reqId) => CallReturnsIds(s, ok, reqId, named);
      case CancelReturns => CancelReturnsIds(s, named);
      case Destroy => DestroyIds(s, named);
    }
  }

  /** In every allowed run, exactly the lookups whose hook returned well with an id carry one. */
  lemma {:induction false} IdsAreGiven(hasCancel: bool, es: seq<Event>)
    requires AllowedRun(Init(hasCancel), es)
    ensures IdsOk(Run(Init(hasCancel), es), NamedIn(hasCancel, es))
  {
    if es != [] {
      IdsAreGiven(hasCancel, es[..|es| - 1]);
      RunKeeps(hasCancel, es[..|es| - 1]);
      StepIds(Run(Init(hasCancel), es[..|es| - 1]), es[|es| - 1], NamedIn(hasCancel, es[..|es| - 1]));
    }
  }

  // ---------- what is cancelled ----------

  /** The lookups of a list that carry a request id. */
  function WithId(list: seq<nat>, m: map<nat, Lookup>): seq<nat> {
    if list == [] then []
    else (if list[0] in m && m[list[0]].hasReqId then [list[0]] else []) + WithId(list[1..], m)
  }

  /** The lookup a step asks the resolver to cancel. */
  ghost function CancelsNow(e: Event, t: State): seq<nat> {
    if (e.Destroy? || e.CancelReturns?) && t.stack != [] && t.stack[|t.stack| - 1].Cancelling?
    then [t.stack[|t.stack| - 1].at] else []
  }

  ghost function Cancelled(s: State, es: seq<Event>): seq<nat> {
    if es == [] then []
    else Cancelled(s, es[..|es| - 1]) + CancelsNow(es[|es| - 1], Run(s, es))
  }

  lemma DyingUncompleted(s: State, rest: seq<nat>, l: nat)
    requires Dying(s, rest) && l in s.lookups
    ensures !s.lookups[l].completed
  {
    assert Entered(s.stack) + {} == {};
  }

  /** The cancel loop stops at the next lookup with an id, or ends the detach. */
  ghost predicate Looked(s: State, rest: seq<nat>, t: State) {
    || (t.stack == [] && !t.clientAlive && WithId(rest, s.lookups) == [])
    || (&& |t.stack| == 1 && t.stack[0].Cancelling? && t.lookups == s.lookups
        && WithId(rest, s.lookups) == [t.stack[0].at] + WithId(t.stack[0].after, s.lookups))
  }

  lemma {:induction false} CancelLooks(s: State, rest: seq<nat>)
    requires Dying(s, rest)
    ensures Looked(s, rest, CancelFrom(s, rest))
    decreases |rest|
  {
    if rest == [] {
      TailEnds(s, rest);
    } else {
      Tail(rest);
      DyingUncompleted(s, rest, rest[0]);
      if !s.lookups[rest[0]].hasReqId {
        CancelLooks(s, rest[1..]);
        assert [] + WithId(rest[1..], s.lookups) == WithId(rest[1..], s.lookups);
      }
    }
  }

  lemma TailEnds(s: State, rest: seq<nat>)
    requires Dying(s, rest)
    ensures DetachTail(s).stack == [] && !DetachTail(s).clientAlive
  {
    LowerKeeps(s, rest);
    MaybeCompleteKeeps(Lower(s), true);
  }

  /** What has been cancelled and what is still to be looked at make up the goal. */
  ghost predicate Underway(s: State, cancelled: seq<nat>, goal: seq<nat>) {
    || (s.stack == [] && !s.clientAlive && cancelled == goal)
    || (|s.stack| == 1 && s.stack[0].Cancelling? && cancelled + WithId(s.stack[0].after, s.lookups) == goal)
  }

  lemma LooksOn(s: State, rest: seq<nat>, t: State, e: Event, cancelled: seq<nat>, goal: seq<nat>)
    requires Looked(s, rest, t) && cancelled + WithId(rest, s.lookups) == goal && (e.Destroy? || e.CancelReturns?)
    ensures Underway(t, cancelled + CancelsNow(e, t), goal)
  {
    assert cancelled + [] == cancelled;
    if t.stack != [] {
      var at, after := [t.stack[0].at], WithId(t.stack[0].after, s.lookups);
      assert cancelled + (at + after) == cancelled + at + after;
    }
  }

  lemma DestroyLooks(s: State)
    requires Inv(s) && Allowed(s, Destroy) && DT.Attached(s)
    ensures var rest := if s.hasCancel then s.refresh.value.linked else [];
      Dying(Detach(s), rest) && Step(s, Destroy) == CancelFrom(Detach(s), rest)
  {
    LinkedOnce(s.refresh.value.linked, s.lookups.Keys);
    DetachKeeps(s, if s.hasCancel then s.refresh.value.linked else []);
  }

  /** A callback settles its own lookup and no other. */
  lemma FinishOthers(s: State, l: nat)
    requires l in s.lookups && s.refresh.Some?
    ensures var t := LookupFinish(s, l);
      && t.stack == s.stack && t.clientAlive == s.clientAlive
      && (t.refresh.Some? ==> forall k :: k != l ==> (k in t.lookups <==> k in s.lookups) && (k in s.lookups ==> t.lookups[k] == s.lookups[k]))
  {
    var s1 := Settle(s, l);
    var s2 := if s.lookups[l].inCall then s1 else DropLookup(s1, l);
    CompleteKeepsClient(s2);
  }

  lemma {:induction false} WithIdSame(list: seq<nat>, m: map<nat, Lookup>, m': map<nat, Lookup>, x: nat)
    requires x !in list
    requires forall k :: k != x ==> (k in m' <==> k in m) && (k in m ==> m'[k] == m[k])
    ensures WithId(list, m') == WithId(list, m)
  {
    if list != [] {
      WithIdSame(list[1..], m, m', x);
    }
  }

  lemma AnswerFacts(s: State, e: Event)
    requires Inv(s) && Allowed(s, e) && (e.SrvAnswer? || e.AddrAnswer?)
    requires s.stack == [] || s.stack[0].Cancelling?
    requires !s.clientAlive || s.stack != []
    ensures e.l in s.lookups && s.refresh.Some? && s.refresh.value.detached
    ensures Step(s, e) == LookupFinish(Spend(s, e.l), e.l)
    ensures s.stack != [] ==> |s.stack| == 1 && s.stack[0].at == e.l && e.l !in s.stack[0].after
    ensures Step(s, e).stack == [] || Step(s, e).refresh.Some?
  {
    AnswerKeeps(s, e.l);
    StepKeeps(s, e);
    StackOrIdle(Step(s, e));
    DetachedFacts(Spend(s, e.l), e.l);
  }

  lemma StackOrIdle(s: State)
    requires Inv(s)
    ensures s.stack == [] || s.refresh.Some?
  {
  }

  lemma DetachedFacts(s: State, l: nat)
    requires Answering(s, l) && (s.stack == [] || s.stack[0].Cancelling?) && (!s.clientAlive || s.stack != [])
    ensures s.refresh.Some? && s.refresh.value.detached && l in s.lookups
    ensures s.stack != [] ==> |s.stack| == 1 && s.stack[0].at == l && l !in s.stack[0].after
  {
    if !s.refresh.value.detached {
      BottomFrame(s.stack);
    }
  }

  lemma AnswersOn(s: State, e: Event, cancelled: seq<nat>, goal: seq<nat>)
    requires Inv(s) && Allowed(s, e) && (e.SrvAnswer? || e.AddrAnswer?) && Underway(s, cancelled, goal)
    ensures Underway(Step(s, e), cancelled, goal)
  {
    AnswerFacts(s, e);
    FinishOthers(Spend(s, e.l), e.l);
    if s.stack != [] {
      WithIdSame(s.stack[0].after, s.lookups, Step(s, e).lookups, e.l);
    }
  }

  lemma CancelsOn(s: State, cancelled: seq<nat>, goal: seq<nat>)
    requires Inv(s) && Allowed(s, CancelReturns) && Underway(s, cancelled, goal)
    ensures Underway(Step(s, CancelReturns), cancelled + CancelsNow(CancelReturns, Step(s, CancelReturns)), goal)
  {
    var f := s.stack[0];
    var s1 := s.(stack := []);
    assert s.stack[..|s.stack| - 1] == [] && s.stack[|s.stack| - 1] == f;
    LeaveCancel(s);
    CancelLooks(s1, f.after);
    LooksOn(s1, f.after, CancelFrom(s1, f.after), CancelReturns, cancelled, goal);
  }

  lemma UnderwayEvents(s: State, e: Event, cancelled: seq<nat>, goal: seq<nat>)
    requires Allowed(s, e) && Underway(s, cancelled, goal)
    ensures e.SrvAnswer? || e.AddrAnswer? || e.CancelReturns?
  {
  }

  lemma StepsOn(s: State, e: Event, cancelled: seq<nat>, goal: seq<nat>)
    requires Inv(s) && Allowed(s, e) && Underway(s, cancelled, goal)
    ensures Underway(Step(s, e), cancelled + CancelsNow(e, Step(s, e)), goal)
  {
    UnderwayEvents(s, e, cancelled, goal);
    if e.CancelReturns? {
      CancelsOn(s, cancelled, goal);
    } else {
      AnswersOn(s, e, cancelled, goal);
      assert cancelled + [] == cancelled;
    }
  }

  lemma LastCancel(s: State, later: seq<Event>, cancelled: seq<nat>)
    requires later != []
    ensures var front, e := later[..|later| - 1], later[|later| - 1];
      && Run(s, later) == Step(Run(s, front), e)
      && cancelled + Cancelled(s, front) + CancelsNow(e, Run(s, later)) == cancelled + Cancelled(s, later)
  {
  }

  lemma OneOn(s: State, e: Event, cancelled: seq<nat>, goal: seq<nat>)
    requires Inv(s) && Allowed(s, e) && Underway(s, cancelled, goal)
    ensures Inv(Step(s, e)) && Underway(Step(s, e), cancelled + CancelsNow(e, Step(s, e)), goal)
  {
    StepKeeps(s, e);
    StepsOn(s, e, cancelled, goal);
  }

  lemma {:induction false} RunsOn(s: State, later: seq<Event>, cancelled: seq<nat>, goal: seq<nat>)
    requires Inv(s) && AllowedRun(s, later) && Underway(s, cancelled, goal)
    ensures Inv(Run(s, later)) && Underway(Run(s, later), cancelled + Cancelled(s, later), goal)
  {
    if later == [] {
      assert cancelled + [] == cancelled;
    } else {
      var front, e := later[..|later| - 1], later[|later| - 1];
      RunsOn(s, front, cancelled, goal);
      OneOn(Run(s, front), e, cancelled + Cancelled(s, front), goal);
      LastCancel(s, later, cancelled);
    }
  }

  lemma {:induction false} WithIdIsNamed(list: seq<nat>, m: map<nat, Lookup>, named: set<nat>)
    requires SetOf(list) <= m.Keys && Ids(m, named)
    ensures WithId(list, m) == Chosen(list, named)
  {
    if list != [] {
      assert list[0] in SetOf(list);
      assert SetOf(list[1..]) <= SetOf(list);
      WithIdIsNamed(list[1..], m, named);
    }
  }

  /** The elements of a list that are in a set, in list order. */
  ghost function Chosen(list: seq<nat>, chosen: set<nat>): seq<nat> {
    if list == [] then [] else (if list[0] in chosen then [list[0]] else []) + Chosen(list[1..], chosen)
  }

  /**
   A client destroyed in mid-refresh asks a resolver that can cancel, by the time it is gone, to cancel
   exactly the unfinished lookups the resolver gave an id for, once each and in list order, however the
   callbacks of cancelled lookups interleave; and a resolver that cannot cancel is asked nothing.
   */
  lemma DestroyCancels(hasCancel: bool, es: seq<Event>, later: seq<Event>)
    requires AllowedRun(Init(hasCancel), es) && Allowed(Run(Init(hasCancel), es), Destroy)
    requires DT.Attached(Run(Init(hasCancel), es))
    requires AllowedRun(Step(Run(Init(hasCancel), es), Destroy), later)
    requires !Run(Step(Run(Init(hasCancel), es), Destroy), later).clientAlive
    ensures var s := Run(Init(hasCancel), es);
            var t := Step(s, Destroy);
      CancelsNow(Destroy, t) + Cancelled(t, later)
      == if s.hasCancel then Chosen(s.refresh.value.linked, NamedIn(hasCancel, es)) else []
  {
    var s := Run(Init(hasCancel), es);
    var t := Step(s, Destroy);
    var rest := if s.hasCancel then s.refresh.value.linked else [];
    RunKeeps(hasCancel, es);
    IdsAreGiven(hasCancel, es);
    DestroyLooks(s);
    CancelLooks(Detach(s), rest);
    assert [] + WithId(rest, s.lookups) == WithId(rest, s.lookups);
    LooksOn(Detach(s), rest, t, Destroy, [], WithId(rest, s.lookups));
    assert [] + CancelsNow(Destroy, t) == CancelsNow(Destroy, t);
    StepKeeps(s, Destroy);
    RunsOn(t, later, CancelsNow(Destroy, t), WithId(rest, s.lookups));
    GoneMeansDone(Run(t, later));
    LinkedOnce(s.refresh.value.linked, s.lookups.Keys);
    WithIdIsNamed(rest, s.lookups, NamedIn(hasCancel, es));
  }

  lemma GoneMeansDone(s: State)
    requires Inv(s) && !s.clientAlive
    ensures s.stack == []
  {
  }

  // ---------- the order of the list ----------

  /** Newest first: numbers fall along the list, and are all handed out. */
  ghost predicate Falling(list: seq<nat>, nextId: nat) {
    && (forall i, j :: 0 <= i < j < |list| ==> list[i] > list[j])
    && forall i :: 0 <= i < |list| ==> list[i] < nextId
  }

  ghost predicate NewestFirst(s: State) { s.refresh.Some? ==> Falling(s.refresh.value.linked, s.nextId) }

  lemma {:induction false} WithoutFalls(list: seq<nat>, x: nat, nextId: nat)
    requires Falling(list, nextId)
    ensures Falling(Without(list, x), nextId)
    ensures list != [] && Without(list, x) != [] ==> Without(list, x)[0] <= list[0]
  {
    if list != [] && list[0] != x {
      WithoutFalls(list[1..], x, nextId);
    }
  }

  lemma CompleteFalls(s: State)
    requires NewestFirst(s)
    ensures NewestFirst(MaybeComplete(s))
  {
  }

  lemma DropFalls(s: State, l: nat)
    requires NewestFirst(s)
    ensures NewestFirst(DropLookup(s, l))
  {
    if s.refresh.Some? {
      WithoutFalls(s.refresh.value.linked, l, s.nextId);
    }
  }

  lemma FinishFalls(s: State, l: nat)
    requires NewestFirst(s)
    ensures NewestFirst(LookupFinish(s, l))
  {
    if l in s.lookups && s.refresh.Some? {
      var s1 := Settle(s, l);
      DropFalls(s1, l);
      CompleteFalls(if s.lookups[l].inCall then s1 else DropLookup(s1, l));
    }
  }

  lemma ScheduleFalls(s: State, kind: Kind)
    requires NewestFirst(s)
    ensures NewestFirst(Schedule(s, kind))
  {
  }

  lemma {:induction false} ContinueFalls(s: State, l: nat, rest: seq<Record>, ttl: nat)
    requires NewestFirst(s)
    ensures NewestFirst(Continue(s, l, rest, ttl))
    decreases |rest|
  {
    if s.refresh.Some? {
      if rest == [] {
        FinishFalls(s.(refresh := Some(s.refresh.value.(minTtl := ttl))), l);
      } else if rest[0].serverId.None? || s.refresh.value.detached {
        ContinueFalls(s, l, rest[1..], if rest[0].serverId.None? then ttl else LeastTtl(ttl, rest[0]));
      } else {
        ScheduleFalls(s.(stack := s.stack + [Records(l, rest[1..], LeastTtl(ttl, rest[0]))]),
                      Addr(rest[0].serverId.value, rest[0].port));
      }
    }
  }

  lemma UnwoundFalls(s: State, l: nat, ok: bool, reqId: bool)
    requires l in s.lookups && s.refresh.Some? && NewestFirst(s)
    ensures NewestFirst(DT.Unwound(s, l, ok, reqId))
  {
    var completed := s.lookups[l].completed;
    var s1 := if !ok && !completed then Settle(s, l) else s;
    DropFalls(Leave(s1, l, ok && !completed && reqId), l);
  }

  lemma ReturnedFalls(s: State, l: nat, ok: bool, reqId: bool, failedSrv: bool, id: nat)
    requires Returning(s, l, ok) && NewestFirst(s)
    ensures NewestFirst(Returned(s, l, ok, reqId, failedSrv, id))
  {
    DT.TailUnneeded(s, l, ok, reqId, id);
    DT.UnwoundQuiet(s, l, ok, reqId);
    UnwoundFalls(s, l, ok, reqId);
    CompleteFalls(DT.Unwound(s, l, ok, reqId));
    ResumeFalls(AfterCall(s, l, ok, reqId));
  }

  lemma ResumeFalls(s: State)
    requires NewestFirst(s)
    ensures NewestFirst(Resume(s))
  {
    if !TopOk(s.stack) {
      var f := s.stack[|s.stack| - 1];
      ContinueFalls(s.(stack := s.stack[..|s.stack| - 1]), f.l, f.rest, f.ttl);
    }
  }

  lemma CallReturnsFalls(s: State, ok: bool, reqId: bool)
    requires Inv(s) && Allowed(s, CallReturns(ok, reqId)) && NewestFirst(s)
    ensures NewestFirst(OnCallReturns(s, ok, reqId))
  {
    var l := s.stack[|s.stack| - 1].l;
    PoppedKeeps(s, l, ok);
    CallReturnsIs(s, ok, reqId, l);
    ReturnedFalls(Popped(s, l, ok), l, ok, reqId, s.lookups[l].kind == Srv && !ok, s.refresh.value.id);
  }

  lemma AnswerFalls(s: State, e: Event)
    requires NewestFirst(s) && (e.SrvAnswer? || e.AddrAnswer?)
    ensures NewestFirst(Step(s, e))
  {
    var s1 := Spend(s, e.l);
    FinishFalls(s1, e.l);
    if e.SrvAnswer? {
      ContinueFalls(s1, e.l, e.records, 0);
    } else if e.l in s1.lookups && s1.refresh.Some? && s1.lookups[e.l].kind.Addr? {
      FinishFalls(Collect(s1, EndpointsOf(s1.lookups[e.l].kind, e.addrs)), e.l);
    }
  }

  lemma {:induction false} CancelFalls(s: State, rest: seq<nat>)
    requires NewestFirst(s)
    ensures NewestFirst(CancelFrom(s, rest))
    decreases |rest|
  {
    if rest == [] {
      if s.refresh.Some? {
        CompleteFalls(Lower(s));
      }
    } else if rest[0] in s.lookups && s.clientAlive && !(!s.lookups[rest[0]].completed && s.lookups[rest[0]].hasReqId) {
      CancelFalls(s, rest[1..]);
    }
  }

  lemma EndFalls(s: State, e: Event)
    requires NewestFirst(s) && (e.Destroy? || e.CancelReturns?)
    ensures NewestFirst(Step(s, e))
  {
    if e.Destroy? {
      if s.current.Some? && s.refresh.Some? {
        CancelFalls(Detach(s), if s.hasCancel then s.refresh.value.linked else []);
      }
    } else if s.stack != [] && s.stack[|s.stack| - 1].Cancelling? {
      CancelFalls(s.(stack := s.stack[..|s.stack| - 1]), s.stack[|s.stack| - 1].after);
    }
  }

  lemma StartFalls(s: State, fits: bool)
    requires NewestFirst(s)
    ensures NewestFirst(OnStart(s, fits))
  {
  }

  /** In every allowed run the list of lookups is kept newest first. */
  lemma {:induction false} LookupsNewestFirst(hasCancel: bool, es: seq<Event>)
    requires AllowedRun(Init(hasCancel), es)
    ensures NewestFirst(Run(Init(hasCancel), es))
  {
    if es != [] {
      var s, e := Run(Init(hasCancel), es[..|es| - 1]), es[|es| - 1];
      LookupsNewestFirst(hasCancel, es[..|es| - 1]);
      RunKeeps(hasCancel, es[..|es| - 1]);
      match e
      case Start(fits) => StartFalls(s, fits);
      case CallReturns(ok, reqId) => CallReturnsFalls(s, ok, reqId);
      case SrvAnswer(_, _, _) => AnswerFalls(s, e);
      case AddrAnswer(_, _, _) => AnswerFalls(s, e);
      case CancelReturns => EndFalls(s, e);
      case Destroy => EndFalls(s, e);
    }
  }
}
