/** The invariant of the DNS refresh lifecycle, kept by every allowed host action. */
module DnsRuns {
  import opened Machine
  import opened Lists
  import opened DnsRefresh
  import R = Request

  ghost function Waiting(m: map<nat, Lookup>): set<nat> { set l | l in m && !m[l].completed }

  ghost function Entered(stack: seq<Frame>): set<nat> {
    if stack == [] then {}
    else Entered(stack[..|stack| - 1]) + (if stack[|stack| - 1].InCall? then {stack[|stack| - 1].l} else {})
  }

  ghost function Looping(stack: seq<Frame>): set<nat> {
    if stack == [] then {}
    else Looping(stack[..|stack| - 1]) + (if stack[|stack| - 1].Records? then {stack[|stack| - 1].l} else {})
  }

  /** Frames that hold `scheduling` up. */
  ghost function Calls(stack: seq<Frame>): nat {
    if stack == [] then 0
    else Calls(stack[..|stack| - 1]) + (if stack[|stack| - 1].Records? then 0 else 1)
  }

  /** No two hooks and no two record loops share a lookup, and a lookup's hook is never above its own loop. */
  ghost predicate FramesDiffer(stack: seq<Frame>) {
    stack != [] ==>
      var rest, f := stack[..|stack| - 1], stack[|stack| - 1];
      && FramesDiffer(rest)
      && (f.InCall? ==> f.l !in Entered(rest) && f.l !in Looping(rest))
      && (f.Records? ==> f.l !in Looping(rest) && TopOk(rest))
  }

  /** A host is in control only at a hook, or outside every frame. */
  ghost predicate TopOk(stack: seq<Frame>) { stack != [] ==> !stack[|stack| - 1].Records? }

  ghost predicate NoCancel(stack: seq<Frame>) {
    stack != [] ==> NoCancel(stack[..|stack| - 1]) && !stack[|stack| - 1].Cancelling?
  }

  ghost predicate NoDup(list: seq<nat>) { multiset(list) == multiset(SetOf(list)) }

  ghost predicate AllKnown(es: seq<Endpoint>) { R.AllKnown(es) }

  // ---------- the parts of the invariant ----------

  /** Every id ever handed out is either alive or was freed, once. */
  ghost predicate Owned(alive: set<nat>, freed: seq<nat>, nextId: nat) {
    && NoDup(freed)
    && SetOf(freed) !! alive
    && (forall x: nat :: x < nextId <==> x in SetOf(freed) || x in alive)
  }

  /** Only non-empty answers of known servers were ever committed, and the last one stands. */
  ghost predicate Served(servers: seq<Endpoint>, commits: seq<seq<Endpoint>>) {
    && (forall c :: c in commits ==> c != [] && AllKnown(c))
    && servers == (if commits == [] then [] else commits[|commits| - 1])
  }

  /** The list holds every lookup alive, once. */
  ghost predicate Linked(linked: seq<nat>, alive: set<nat>) {
    multiset(linked) == multiset(alive)
  }

  /** `pending` counts the unfinished lookups: those whose callback may still come, or is running. */
  ghost predicate Counted(pending: nat, m: map<nat, Lookup>, open: set<nat>, looping: set<nat>, running: set<nat>) {
    && pending == |Waiting(m)|
    && Waiting(m) == open + looping + running
    && open !! looping
    && open !! running
    && looping !! running
  }

  /** A lookup is marked in a call exactly while its hook is running; only then may it outlive completion. */
  ghost predicate Framed(m: map<nat, Lookup>, entered: set<nat>) {
    && entered <= m.Keys
    && (forall l :: l in m ==> m[l].inCall == (l in entered))
    && (forall l :: l in m && m[l].completed ==> m[l].inCall)
  }

  /** The cancel loop's saved pointers stay valid, and differ from the lookup being cancelled. */
  ghost predicate Walk(f: Frame, alive: set<nat>) {
    && f.Cancelling?
    && NoDup(f.after)
    && f.at !in f.after
    && SetOf(f.after) <= alive
  }

  ghost predicate Detached(s: State, alive: set<nat>, dying: bool) {
    && s.current.None?
    && !s.inflight
    && |s.stack| <= 1
    && (s.stack != [] ==> Walk(s.stack[0], alive))
    && s.clientAlive == (s.stack != [] || dying)
  }

  ghost predicate Attached(s: State, id: nat) {
    && s.clientAlive
    && s.inflight
    && s.current == Some(id)
    && NoCancel(s.stack)
  }

  /** A live refresh between two of its own steps. */
  ghost predicate Mid(s: State, running: set<nat>, entering: set<nat>, held: nat, dying: bool) {
    && !s.fault
    && Served(s.servers, s.commits)
    && s.refresh.Some?
    && var r := s.refresh.value;
    && AllKnown(r.endpoints)
    && Linked(r.linked, s.lookups.Keys)
    && r.id !in s.lookups.Keys
    && Owned(s.lookups.Keys + {r.id}, s.freed, s.nextId)
    && Counted(r.pending, s.lookups, s.open, Looping(s.stack), running)
    && FramesDiffer(s.stack)
    && Entered(s.stack) !! entering
    && Framed(s.lookups, Entered(s.stack) + entering)
    && (if r.detached then Detached(s, s.lookups.Keys, dying) else Attached(s, r.id) && !dying)
    && r.scheduling == Calls(s.stack) + held
  }

  /** No refresh alive: nothing else is either. */
  ghost predicate Idle(s: State) {
    && !s.fault
    && Owned({}, s.freed, s.nextId)
    && Served(s.servers, s.commits)
    && s.refresh.None?
    && s.lookups == map[]
    && s.stack == []
    && s.open == {}
    && s.current.None?
    && !s.inflight
  }

  /** After `maybe_complete`: nothing is left behind once both counters reach zero. */
  ghost predicate Settled(s: State, dying: bool) {
    Idle(s) || (Mid(s, {}, {}, 0, dying) && s.refresh.value.pending + s.refresh.value.scheduling > 0)
  }

  ghost predicate Inv(s: State) {
    && Settled(s, false)
    && TopOk(s.stack)
  }

  // ---------- sequences and sets ----------

  lemma PushFrame(stack: seq<Frame>, f: Frame)
    ensures Entered(stack + [f]) == Entered(stack) + (if f.InCall? then {f.l} else {})
    ensures Looping(stack + [f]) == Looping(stack) + (if f.Records? then {f.l} else {})
    ensures Calls(stack + [f]) == Calls(stack) + (if f.Records? then 0 else 1)
    ensures NoCancel(stack + [f]) == (NoCancel(stack) && !f.Cancelling?)
    ensures FramesDiffer(stack + [f]) == (
        && FramesDiffer(stack)
        && (f.InCall? ==> f.l !in Entered(stack) && f.l !in Looping(stack))
        && (f.Records? ==> f.l !in Looping(stack) && TopOk(stack)))
  {
    var t := stack + [f];
    assert t[..|t| - 1] == stack;
  }

  lemma Appended(list: seq<nat>, x: nat)
    requires NoDup(list) && x !in list
    ensures NoDup(list + [x]) && SetOf(list + [x]) == SetOf(list) + {x}
  {
    assert SetOf(list + [x]) == SetOf(list) + {x};
  }

  lemma SettleWaiting(m: map<nat, Lookup>, l: nat)
    requires l in m && !m[l].completed
    ensures Waiting(m[l := m[l].(completed := true)]) == Waiting(m) - {l}
    ensures |Waiting(m)| > 0
    ensures |Waiting(m) - {l}| == |Waiting(m)| - 1
  {
    assert l in Waiting(m);
  }

  // ---------- small steps ----------

  lemma KeysKept(m: map<nat, Lookup>, l: nat, k: Lookup)
    requires l in m
    ensures m[l := k].Keys == m.Keys
  {
  }

  lemma SettleCounted(pending: nat, m: map<nat, Lookup>, open: set<nat>, looping: set<nat>, running: set<nat>, l: nat)
    requires Counted(pending, m, open, looping, running) && l in running
    ensures l in m && !m[l].completed && pending > 0
    ensures Counted(pending - 1, m[l := m[l].(completed := true)], open, looping, running - {l})
  {
    assert l in Waiting(m);
    SettleWaiting(m, l);
  }

  lemma SettleFramed(m: map<nat, Lookup>, entered: set<nat>, l: nat)
    requires Framed(m, entered) && l in m && m[l].inCall
    ensures Framed(m[l := m[l].(completed := true)], entered)
  {
  }

  lemma SettleKeeps(s: State, l: nat, running: set<nat>, entering: set<nat>, held: nat, dying: bool)
    requires Mid(s, running, entering, held, dying) && l in running
    requires l in s.lookups && s.lookups[l].inCall
    ensures Mid(Settle(s, l), running - {l}, entering, held, dying)
  {
    SettleCounted(s.refresh.value.pending, s.lookups, s.open, Looping(s.stack), running, l);
    SettleFramed(s.lookups, Entered(s.stack) + entering, l);
    KeysKept(s.lookups, l, s.lookups[l].(completed := true));
  }

  // ---------- removing a lookup ----------

  /** `s` without lookup `l`, its completion counted now if it was not before. */
  ghost function Removed(s: State, l: nat): State
    requires s.refresh.Some? && l in s.lookups
  {
    var r := s.refresh.value;
    s.(refresh := Some(r.(linked := Without(r.linked, l),
                          pending := if s.lookups[l].completed then r.pending else Less(r.pending))),
       lookups := s.lookups - {l},
       freed := s.freed + [l])
  }

  lemma RemoveCounted(pending: nat, m: map<nat, Lookup>, open: set<nat>, looping: set<nat>, running: set<nat>, l: nat)
    requires Counted(pending, m, open, looping, running) && l in m
    requires l in running || m[l].completed
    ensures Counted(if m[l].completed then pending else Less(pending), m - {l}, open, looping, running - {l})
  {
    assert l in Waiting(m) <==> !m[l].completed;
    assert Waiting(m - {l}) == Waiting(m) - {l};
  }

  lemma RemoveFramed(m: map<nat, Lookup>, entered: set<nat>, entering: set<nat>, l: nat)
    requires Framed(m, entered + entering) && l !in entered
    ensures Framed(m - {l}, entered + (entering - {l}))
  {
  }

  lemma RemoveOwned(alive: set<nat>, id: nat, freed: seq<nat>, nextId: nat, l: nat)
    requires Owned(alive + {id}, freed, nextId) && l in alive && id !in alive
    ensures Owned(alive - {l} + {id}, freed + [l], nextId)
  {
    assert l in alive + {id} && l !in SetOf(freed);
    Appended(freed, l);
  }

  lemma RemoveLinked(linked: seq<nat>, alive: set<nat>, l: nat)
    requires Linked(linked, alive) && l in alive
    ensures Linked(Without(linked, l), alive - {l})
  {
    assert l in multiset(linked);
    WithoutOne(linked, l);
  }

  lemma RemoveKeys(m: map<nat, Lookup>, l: nat)
    ensures (m - {l}).Keys == m.Keys - {l}
  {
  }

  lemma RemoveBound(s: State, l: nat, dying: bool)
    requires s.refresh.Some? && l in s.lookups
    requires s.stack != [] && s.stack[0].Cancelling? ==> s.stack[0].at == l
    requires Detached(s, s.lookups.Keys, dying)
    ensures Detached(Removed(s, l), s.lookups.Keys - {l}, dying)
  {
  }

  lemma RemoveKeeps(s: State, l: nat, running: set<nat>, entering: set<nat>, held: nat, dying: bool)
    requires Mid(s, running, entering, held, dying) && l in s.lookups
    requires l in running || s.lookups[l].completed
    requires l !in Entered(s.stack)
    requires s.stack != [] && s.stack[0].Cancelling? ==> s.stack[0].at == l
    ensures Mid(Removed(s, l), running - {l}, entering - {l}, held, dying)
  {
    var r := s.refresh.value;
    RemoveKeys(s.lookups, l);
    RemoveCounted(r.pending, s.lookups, s.open, Looping(s.stack), running, l);
    RemoveFramed(s.lookups, Entered(s.stack), entering, l);
    RemoveOwned(s.lookups.Keys, r.id, s.freed, s.nextId, l);
    RemoveLinked(r.linked, s.lookups.Keys, l);
    if r.detached {
      RemoveBound(s, l, dying);
    }
  }

  // ---------- completion ----------

  lemma NothingLeft(m: map<nat, Lookup>, open: set<nat>, stack: seq<Frame>)
    requires Calls(stack) == 0
    requires Counted(0, m, open, Looping(stack), {})
    requires Framed(m, Entered(stack))
    ensures stack == [] && m == map[] && open == {}
  {
    assert Waiting(m) == {};
    assert forall l :: l in m ==> l in Waiting(m);
  }

  lemma FreeOwned(id: nat, freed: seq<nat>, nextId: nat)
    requires Owned({} + {id}, freed, nextId)
    ensures Owned({}, freed + [] + [id], nextId)
  {
    assert id in {} + {id} && id !in SetOf(freed);
    assert freed + [] == freed;
    Appended(freed, id);
  }

  lemma ServedMore(servers: seq<Endpoint>, commits: seq<seq<Endpoint>>, es: seq<Endpoint>)
    requires Served(servers, commits) && es != [] && AllKnown(es)
    ensures Served(es, commits + [es])
  {
  }

  lemma Exhausted(s: State, dying: bool)
    requires Mid(s, {}, {}, 0, dying)
    requires s.refresh.value.pending == 0 && s.refresh.value.scheduling == 0
    ensures s.stack == [] && s.lookups == map[] && s.open == {} && s.refresh.value.linked == []
    ensures Owned({} + {s.refresh.value.id}, s.freed, s.nextId)
  {
    assert Entered(s.stack) + {} == Entered(s.stack);
    NothingLeft(s.lookups, s.open, s.stack);
    assert |multiset(s.refresh.value.linked)| == 0;
  }

  lemma FreeIsIdle(s: State)
    requires !s.fault && s.refresh.Some? && s.refresh.value.linked == []
    requires s.stack == [] && s.lookups == map[] && s.open == {} && s.current.None? && !s.inflight
    requires Owned({} + {s.refresh.value.id}, s.freed, s.nextId)
    requires Served(s.servers, s.commits)
    ensures Idle(FreeRefresh(s))
  {
    FreeOwned(s.refresh.value.id, s.freed, s.nextId);
    assert SetOf([]) == {};
  }

  /** Once both counters are zero the refresh is freed with nothing attached, committed unless detached or empty. */
  lemma CompleteIsIdle(s: State, dying: bool)
    requires Mid(s, {}, {}, 0, dying)
    requires s.refresh.value.pending == 0 && s.refresh.value.scheduling == 0
    ensures Idle(MaybeComplete(s))
  {
    Exhausted(s, dying);
    var r := s.refresh.value;
    if r.detached {
      FreeIsIdle(s);
    } else {
      var s1 := if r.endpoints == [] then s
                else s.(servers := r.endpoints, ttl := r.minTtl, commits := s.commits + [r.endpoints]);
      if r.endpoints != [] {
        ServedMore(s.servers, s.commits, r.endpoints);
      }
      FreeIsIdle(s1.(inflight := false, current := None));
    }
  }

  lemma MaybeCompleteKeeps(s: State, dying: bool)
    requires Mid(s, {}, {}, 0, dying)
    ensures Settled(MaybeComplete(s), dying)
    ensures MaybeComplete(s).stack == s.stack
  {
    if s.refresh.value.pending == 0 && s.refresh.value.scheduling == 0 {
      Exhausted(s, dying);
      CompleteIsIdle(s, dying);
    }
  }

  // ---------- the callbacks ----------

  lemma DropIsRemoved(s: State, l: nat)
    requires s.refresh.Some? && l in s.lookups && !s.lookups[l].completed
    ensures DropLookup(Settle(s, l), l) == Removed(s, l)
  {
    assert s.lookups[l := s.lookups[l].(completed := true)] - {l} == s.lookups - {l};
  }

  lemma IsRunning(pending: nat, m: map<nat, Lookup>, open: set<nat>, looping: set<nat>, l: nat)
    requires Counted(pending, m, open, looping, {l})
    ensures l in m && !m[l].completed
    ensures {l} - {l} == {} && {} - {l} == {}
  {
    assert l in Waiting(m);
  }

  lemma LookupFinishKeeps(s: State, l: nat, dying: bool)
    requires Mid(s, {l}, {}, 0, dying)
    requires s.stack != [] && s.stack[0].Cancelling? ==> s.stack[0].at == l
    ensures Settled(LookupFinish(s, l), dying)
    ensures LookupFinish(s, l).stack == s.stack
  {
    IsRunning(s.refresh.value.pending, s.lookups, s.open, Looping(s.stack), l);
    if s.lookups[l].inCall {
      SettleKeeps(s, l, {l}, {}, 0, dying);
      MaybeCompleteKeeps(Settle(s, l), dying);
    } else {
      RemoveKeeps(s, l, {l}, {}, 0, dying);
      DropIsRemoved(s, l);
      MaybeCompleteKeeps(Removed(s, l), dying);
    }
  }

  lemma ScheduleCounted(pending: nat, m: map<nat, Lookup>, open: set<nat>, looping: set<nat>, running: set<nat>,
                      l: nat, k: Lookup)
    requires Counted(pending, m, open, looping, running) && l !in m && !k.completed
    ensures l !in looping
    ensures Counted(pending + 1, m[l := k], open + {l}, looping, running)
  {
    assert l !in Waiting(m);
    assert Waiting(m[l := k]) == Waiting(m) + {l};
  }

  lemma ScheduleFramed(m: map<nat, Lookup>, entered: set<nat>, l: nat, k: Lookup)
    requires Framed(m, entered + {}) && l !in m && k.inCall && !k.completed
    ensures l !in entered
    ensures Framed(m[l := k], entered + {l} + {})
  {
  }

  lemma ScheduleFrames(stack: seq<Frame>, l: nat)
    requires FramesDiffer(stack) && l !in Entered(stack) && l !in Looping(stack)
    ensures FramesDiffer(stack + [InCall(l)])
    ensures Looping(stack + [InCall(l)]) == Looping(stack)
    ensures Entered(stack + [InCall(l)]) == Entered(stack) + {l}
  {
    PushFrame(stack, InCall(l));
  }

  lemma ScheduleLinked(linked: seq<nat>, alive: set<nat>, l: nat)
    requires Linked(linked, alive) && l !in alive
    ensures Linked([l] + linked, alive + {l})
  {
    assert multiset([l] + linked) == multiset{l} + multiset(linked);
  }

  lemma ScheduleOwned(alive: set<nat>, freed: seq<nat>, l: nat, id: nat)
    requires Owned(alive + {id}, freed, l)
    ensures l !in alive && l != id && Owned(alive + {l} + {id}, freed, l + 1)
  {
    assert forall x :: x in alive ==> x in alive + {id};
    assert id in alive + {id};
  }

  lemma ScheduleKeys(m: map<nat, Lookup>, l: nat, k: Lookup)
    ensures m[l := k].Keys == m.Keys + {l}
  {
  }

  lemma ScheduleMid(s: State, kind: Kind)
    requires Mid(s, {}, {}, 0, false) && !s.refresh.value.detached
    ensures Mid(Enter(s, kind), {}, {}, 0, false)
  {
    var l, r, k := s.nextId, s.refresh.value, Lookup(kind, false, false, true);
    ScheduleOwned(s.lookups.Keys, s.freed, l, r.id);
    ScheduleLinked(r.linked, s.lookups.Keys, l);
    ScheduleCounted(r.pending, s.lookups, s.open, Looping(s.stack), {}, l, k);
    ScheduleFramed(s.lookups, Entered(s.stack), l, k);
    ScheduleFrames(s.stack, l);
    PushFrame(s.stack, InCall(l));
    ScheduleKeys(s.lookups, l, k);
  }

  lemma ScheduleKeeps(s: State, kind: Kind)
    requires Mid(s, {}, {}, 0, false) && !s.refresh.value.detached
    ensures Inv(Schedule(s, kind))
  {
    ScheduleMid(s, kind);
  }

  lemma LoopEnds(s: State, l: nat, ttl: nat)
    requires Mid(s, {l}, {}, 0, false) && !s.refresh.value.detached
    requires TopOk(s.stack)
    ensures Inv(LookupFinish(s.(refresh := Some(s.refresh.value.(minTtl := ttl))), l))
  {
    BottomFrame(s.stack);
    LookupFinishKeeps(s.(refresh := Some(s.refresh.value.(minTtl := ttl))), l, false);
  }

  lemma LoopSchedules(s: State, f: Frame, kind: Kind)
    requires f.Records? && Mid(s, {f.l}, {}, 0, false) && !s.refresh.value.detached
    requires TopOk(s.stack)
    ensures Inv(Schedule(s.(stack := s.stack + [f]), kind))
  {
    SuspendKeeps(s, f.l, f);
    ScheduleKeeps(s.(stack := s.stack + [f]), kind);
  }

  /** The record loop, started or resumed for lookup `l`, whose callback is running. */
  lemma {:induction false} ContinueKeeps(s: State, l: nat, rest: seq<Record>, ttl: nat)
    requires Mid(s, {l}, {}, 0, false) && !s.refresh.value.detached
    requires TopOk(s.stack)
    ensures Inv(Continue(s, l, rest, ttl))
    decreases |rest|
  {
    if rest == [] {
      LoopEnds(s, l, ttl);
    } else if rest[0].serverId.None? {
      ContinueKeeps(s, l, rest[1..], ttl);
    } else {
      LoopSchedules(s, Records(l, rest[1..], LeastTtl(ttl, rest[0])), Addr(rest[0].serverId.value, rest[0].port));
    }
  }

  lemma {:induction false} BottomFrame(stack: seq<Frame>)
    requires NoCancel(stack)
    ensures stack != [] ==> !stack[0].Cancelling?
  {
    if |stack| > 1 {
      BottomFrame(stack[..|stack| - 1]);
    }
  }

  lemma SuspendCounted(pending: nat, m: map<nat, Lookup>, open: set<nat>, looping: set<nat>, l: nat)
    requires Counted(pending, m, open, looping, {l})
    ensures l !in looping
    ensures Counted(pending, m, open, looping + {l}, {})
  {
  }

  lemma SuspendKeeps(s: State, l: nat, f: Frame)
    requires Mid(s, {l}, {}, 0, false) && !s.refresh.value.detached
    requires f.Records? && f.l == l && TopOk(s.stack)
    ensures Mid(s.(stack := s.stack + [f]), {}, {}, 0, false)
  {
    SuspendCounted(s.refresh.value.pending, s.lookups, s.open, Looping(s.stack), l);
    PushFrame(s.stack, f);
    assert Entered(s.stack) + {} == Entered(s.stack);
  }

  // ---------- the events ----------

  lemma AnswerCounted(pending: nat, m: map<nat, Lookup>, open: set<nat>, looping: set<nat>, l: nat)
    requires Counted(pending, m, open, looping, {}) && l in open
    ensures Counted(pending, m, open - {l}, looping, {l})
    ensures l in m
  {
    assert l in Waiting(m);
    assert open - {l} + looping + {l} == open + looping + {};
  }

  /** The callback of `l` is running: it may finish `l`, whatever the host was doing. */
  ghost predicate Answering(s: State, l: nat) {
    && Mid(s, {l}, {}, 0, false)
    && l in s.lookups
    && (s.stack != [] && s.stack[0].Cancelling? ==> s.stack[0].at == l)
    && TopOk(s.stack)
  }

  /** A callback begins: its lookup is alive, and is no longer owed a callback. */
  lemma AnswerKeeps(s: State, l: nat)
    requires Inv(s) && MayAnswer(s, l)
    ensures Answering(Spend(s, l), l)
  {
    AnswerCounted(s.refresh.value.pending, s.lookups, s.open, Looping(s.stack), l);
    if !s.refresh.value.detached {
      BottomFrame(s.stack);
    }
  }

  lemma FinishKeeps(s: State, l: nat)
    requires Answering(s, l)
    ensures Inv(LookupFinish(s, l))
  {
    LookupFinishKeeps(s, l, false);
  }

  lemma SrvLoops(s: State, l: nat, records: seq<Record>)
    requires Answering(s, l) && !s.refresh.value.detached && records != []
    ensures Inv(SrvCallback(s, l, true, records))
  {
    assert SrvCallback(s, l, true, records) == Continue(s, l, records, 0);
    ContinueKeeps(s, l, records, 0);
  }

  lemma SrvEnds(s: State, l: nat, ok: bool, records: seq<Record>)
    requires Answering(s, l) && (s.refresh.value.detached || !ok || records == [])
    ensures Inv(SrvCallback(s, l, ok, records))
  {
    assert SrvCallback(s, l, ok, records) == LookupFinish(s, l);
    FinishKeeps(s, l);
  }

  lemma SrvKeeps(s: State, l: nat, ok: bool, records: seq<Record>)
    requires Answering(s, l)
    ensures Inv(SrvCallback(s, l, ok, records))
  {
    if s.refresh.value.detached || !ok || records == [] {
      SrvEnds(s, l, ok, records);
    } else {
      SrvLoops(s, l, records);
    }
  }

  lemma CollectKeeps(s: State, l: nat, es: seq<Endpoint>)
    requires Answering(s, l) && AllKnown(es)
    ensures Answering(Collect(s, es), l)
  {
  }

  lemma CollectFinishKeeps(s: State, l: nat, es: seq<Endpoint>)
    requires Answering(s, l) && AllKnown(es)
    ensures Inv(LookupFinish(Collect(s, es), l))
  {
    CollectKeeps(s, l, es);
    FinishKeeps(Collect(s, es), l);
  }

  lemma AddrCollects(s: State, l: nat, addrs: seq<R.Addr>)
    requires Answering(s, l) && s.lookups[l].kind.Addr? && !s.refresh.value.detached
    ensures Inv(AddrCallback(s, l, true, addrs))
  {
    AddrCallbackIs(s, l, addrs);
    CollectFinishKeeps(s, l, EndpointsOf(s.lookups[l].kind, addrs));
  }

  lemma AddrCallbackIs(s: State, l: nat, addrs: seq<R.Addr>)
    requires s.refresh.Some? && l in s.lookups && s.lookups[l].kind.Addr? && !s.refresh.value.detached
    ensures AddrCallback(s, l, true, addrs) == LookupFinish(Collect(s, EndpointsOf(s.lookups[l].kind, addrs)), l)
  {
  }

  lemma AddrEnds(s: State, l: nat, ok: bool, addrs: seq<R.Addr>)
    requires Answering(s, l) && s.lookups[l].kind.Addr? && (s.refresh.value.detached || !ok)
    ensures Inv(AddrCallback(s, l, ok, addrs))
  {
    assert AddrCallback(s, l, ok, addrs) == LookupFinish(s, l);
    FinishKeeps(s, l);
  }

  lemma AddrKeeps(s: State, l: nat, ok: bool, addrs: seq<R.Addr>)
    requires Answering(s, l) && s.lookups[l].kind.Addr?
    ensures Inv(AddrCallback(s, l, ok, addrs))
  {
    if s.refresh.value.detached || !ok {
      AddrEnds(s, l, ok, addrs);
    } else {
      AddrCollects(s, l, addrs);
    }
  }

  lemma StartKeeps(s: State, nameFits: bool)
    requires Inv(s) && Allowed(s, Start(nameFits))
    ensures Inv(OnStart(s, nameFits))
  {
    if !s.inflight {
      var s1 := s.(refresh := Some(Refresh(s.nextId, false, 0, 0, [], [], 0)),
                   inflight := true,
                   current := Some(s.nextId),
                   nextId := s.nextId + 1);
      StartMid(s, s1);
      if nameFits {
        ScheduleKeeps(s1, Srv);
      } else {
        RefuseKeeps(s1);
      }
    }
  }

  lemma RefuseKeeps(s: State)
    requires Mid(s, {}, {}, 0, false) && s.lookups == map[] && s.stack == [] && s.open == {}
    requires s.refresh.value.linked == []
    ensures Idle(FreeRefresh(s.(inflight := false, current := None)))
  {
    assert {} + {s.refresh.value.id} == s.lookups.Keys + {s.refresh.value.id};
    FreeIsIdle(s.(inflight := false, current := None));
  }

  /** A refresh starts only when none is alive. */
  lemma StartMid(s: State, s1: State)
    requires Inv(s) && s.clientAlive && !s.inflight
    requires s.stack != [] ==> !s.stack[|s.stack| - 1].Cancelling?
    requires s1 == s.(refresh := Some(Refresh(s.nextId, false, 0, 0, [], [], 0)),
                      inflight := true,
                      current := Some(s.nextId),
                      nextId := s.nextId + 1)
    ensures Idle(s)
    ensures Mid(s1, {}, {}, 0, false)
  {
    EmptyCounts(s.lookups);
    assert s1.lookups.Keys + {s.nextId} == {s.nextId};
  }

  lemma EmptyCounts(m: map<nat, Lookup>)
    requires m == map[]
    ensures Counted(0, m, {}, Looping([]), {})
    ensures Framed(m, Entered([]) + {})
    ensures Linked([], m.Keys)
  {
    assert Waiting(m) == {};
  }

  // ---------- a resolver hook returns ----------

  lemma ReturnCounted(pending: nat, m: map<nat, Lookup>, open: set<nat>, looping: set<nat>, l: nat)
    requires Counted(pending, m, open, looping, {}) && l in m && l !in looping
    ensures Counted(pending, m, open - {l}, looping, if m[l].completed then {} else {l})
  {
    assert l in Waiting(m) <==> !m[l].completed;
    assert l in open <==> !m[l].completed;
  }

  ghost function Unsettled(s: State, l: nat, ok: bool): set<nat>
    requires l in s.lookups
  {
    if ok || s.lookups[l].completed then {} else {l}
  }

  /** The hook's own frame is gone; its lookup is alive and still marked. */
  ghost predicate Returning(s: State, l: nat, ok: bool) {
    && l in s.lookups
    && Mid(s, Unsettled(s, l, ok), {l}, 1, false)
    && !s.refresh.value.detached
  }

  lemma PoppedKeeps(s: State, l: nat, ok: bool)
    requires Inv(s) && s.stack != [] && s.stack[|s.stack| - 1] == InCall(l)
    ensures l in s.lookups && s.refresh.Some?
    ensures Returning(Popped(s, l, ok), l, ok)
  {
    var rest := s.stack[..|s.stack| - 1];
    assert s.stack == rest + [InCall(l)];
    PushFrame(rest, InCall(l));
    InFrames(s.lookups, Entered(rest), l);
    assert Looping(rest) + {} == Looping(rest);
    ReturnCounted(s.refresh.value.pending, s.lookups, s.open, Looping(rest), l);
  }

  lemma InFrames(m: map<nat, Lookup>, entered: set<nat>, l: nat)
    requires Framed(m, entered + {l} + {})
    ensures l in m
    ensures Framed(m, entered + {l})
  {
    assert entered + {l} + {} == entered + {l};
  }

  lemma LeaveCounted(pending: nat, m: map<nat, Lookup>, open: set<nat>, looping: set<nat>, l: nat, k: Lookup)
    requires Counted(pending, m, open, looping, {}) && l in m && k.completed == m[l].completed
    ensures Counted(pending, m[l := k], open, looping, {})
  {
    assert Waiting(m[l := k]) == Waiting(m);
  }

  lemma LeaveFramed(m: map<nat, Lookup>, entered: set<nat>, l: nat, k: Lookup)
    requires Framed(m, entered + {l}) && l in m && l !in entered && !m[l].completed
    requires !k.inCall && !k.completed
    ensures Framed(m[l := k], entered + {})
  {
  }

  lemma LeaveKeeps(s: State, l: nat, reqId: bool)
    requires Returning(s, l, true) && !s.lookups[l].completed
    ensures Mid(Lower(Leave(s, l, reqId)), {}, {}, 0, false)
  {
    var k := s.lookups[l].(inCall := false, hasReqId := s.lookups[l].hasReqId || reqId);
    LeaveCounted(s.refresh.value.pending, s.lookups, s.open, Looping(s.stack), l, k);
    LeaveFramed(s.lookups, Entered(s.stack), l, k);
    KeysKept(s.lookups, l, k);
  }

  lemma ReturnDrops(s: State, l: nat, ok: bool, reqId: bool)
    requires s.refresh.Some? && l in s.lookups && (!ok || s.lookups[l].completed)
    ensures DropLookup(Leave(if !ok && !s.lookups[l].completed then Settle(s, l) else s, l, reqId), l) == Removed(s, l)
  {
    var s1 := if !ok && !s.lookups[l].completed then Settle(s, l) else s;
    assert Leave(s1, l, reqId).lookups - {l} == s.lookups - {l};
  }

  lemma DropKeeps(s: State, l: nat, ok: bool)
    requires Returning(s, l, ok) && (!ok || s.lookups[l].completed)
    ensures Mid(Lower(Removed(s, l)), {}, {}, 0, false)
  {
    BottomFrame(s.stack);
    RemoveKeeps(s, l, Unsettled(s, l, ok), {l}, 1, false);
    assert Unsettled(s, l, ok) - {l} == {} && {l} - {l} == {};
  }

  lemma DropReturn(s: State, l: nat, ok: bool, reqId: bool)
    requires s.refresh.Some? && l in s.lookups && (!ok || s.lookups[l].completed)
    ensures AfterCall(s, l, ok, reqId) == MaybeComplete(Lower(Removed(s, l)))
  {
    ReturnDrops(s, l, ok, ok && !s.lookups[l].completed && reqId);
  }

  lemma DropReturnKeeps(s: State, l: nat, ok: bool)
    requires Returning(s, l, ok) && (!ok || s.lookups[l].completed)
    ensures Settled(MaybeComplete(Lower(Removed(s, l))), false)
    ensures MaybeComplete(Lower(Removed(s, l))).stack == s.stack
  {
    DropKeeps(s, l, ok);
    MaybeCompleteKeeps(Lower(Removed(s, l)), false);
  }

  lemma KeepReturnKeeps(s: State, l: nat, reqId: bool)
    requires Returning(s, l, true) && !s.lookups[l].completed
    ensures AfterCall(s, l, true, reqId) == MaybeComplete(Lower(Leave(s, l, reqId)))
    ensures Settled(AfterCall(s, l, true, reqId), false)
    ensures AfterCall(s, l, true, reqId).stack == s.stack
  {
    LeaveKeeps(s, l, reqId);
    MaybeCompleteKeeps(Lower(Leave(s, l, reqId)), false);
  }

  lemma CompleteKeepsClient(s: State)
    ensures MaybeComplete(s).clientAlive == s.clientAlive
  {
  }

  lemma AfterCallKeeps(s: State, l: nat, ok: bool, reqId: bool)
    requires Returning(s, l, ok)
    ensures Settled(AfterCall(s, l, ok, reqId), false)
    ensures AfterCall(s, l, ok, reqId).stack == s.stack
    ensures AfterCall(s, l, ok, reqId).clientAlive
  {
    if !ok || s.lookups[l].completed {
      DropReturn(s, l, ok, reqId);
      DropReturnKeeps(s, l, ok);
      CompleteKeepsClient(Lower(Removed(s, l)));
    } else {
      KeepReturnKeeps(s, l, reqId);
      CompleteKeepsClient(Lower(Leave(s, l, reqId)));
    }
  }

  /** The source's clean-up after a failed SRV lookup never has anything to do. */
  lemma StartTailIsDead(s: State, id: nat)
    requires Settled(s, false) && s.clientAlive
    ensures StartTail(s, id) == s
  {
  }

  lemma ResumeKeeps(s: State)
    requires Settled(s, false)
    ensures Inv(Resume(s))
  {
    if !TopOk(s.stack) {
      var rest, f := s.stack[..|s.stack| - 1], s.stack[|s.stack| - 1];
      PopRecords(s, rest, f);
      ContinueKeeps(s.(stack := rest), f.l, f.rest, f.ttl);
    }
  }

  lemma ResumeCounted(pending: nat, m: map<nat, Lookup>, open: set<nat>, looping: set<nat>, l: nat)
    requires Counted(pending, m, open, looping + {l}, {}) && l !in looping
    ensures Counted(pending, m, open, looping, {l})
  {
    assert open + (looping + {l}) + {} == open + looping + {l};
  }

  lemma PopRecords(s: State, rest: seq<Frame>, f: Frame)
    requires Settled(s, false) && s.stack == rest + [f] && f.Records?
    ensures Mid(s.(stack := rest), {f.l}, {}, 0, false)
    ensures s.refresh.Some? && !s.refresh.value.detached && TopOk(rest)
  {
    PushFrame(rest, f);
    ResumeCounted(s.refresh.value.pending, s.lookups, s.open, Looping(rest), f.l);
    assert Entered(rest) + {} == Entered(rest);
  }

  lemma ReturnedKeeps(s: State, l: nat, ok: bool, reqId: bool, failedSrv: bool, id: nat)
    requires Returning(s, l, ok)
    ensures Inv(Returned(s, l, ok, reqId, failedSrv, id))
  {
    AfterCallKeeps(s, l, ok, reqId);
    StartTailIsDead(AfterCall(s, l, ok, reqId), id);
    ResumeKeeps(AfterCall(s, l, ok, reqId));
  }

  lemma CallReturnsKeeps(s: State, ok: bool, reqId: bool)
    requires Inv(s) && s.stack != [] && s.stack[|s.stack| - 1].InCall?
    ensures Inv(OnCallReturns(s, ok, reqId))
  {
    var l := s.stack[|s.stack| - 1].l;
    PoppedKeeps(s, l, ok);
    CallReturnsIs(s, ok, reqId, l);
    ReturnedKeeps(Popped(s, l, ok), l, ok, reqId, s.lookups[l].kind == Srv && !ok, s.refresh.value.id);
  }

  // ---------- destruction ----------

  /** The cancel loop is running: the client is going away, `rest` is still to be looked at. */
  ghost predicate Dying(s: State, rest: seq<nat>) {
    && Mid(s, {}, {}, 1, true)
    && s.refresh.value.detached
    && s.stack == []
    && NoDup(rest)
    && SetOf(rest) <= s.lookups.Keys
  }

  lemma LowerKeeps(s: State, rest: seq<nat>)
    requires Dying(s, rest)
    ensures Mid(Lower(s), {}, {}, 0, true) && Lower(s).stack == []
  {
  }

  lemma GoneKeeps(s: State)
    requires Settled(s, true) && s.stack == []
    ensures Inv(s.(clientAlive := false))
  {
  }

  lemma DetachTailKeeps(s: State, rest: seq<nat>)
    requires Dying(s, rest)
    ensures Inv(DetachTail(s))
  {
    LowerKeeps(s, rest);
    MaybeCompleteKeeps(Lower(s), true);
    GoneKeeps(MaybeComplete(Lower(s)));
  }

  lemma Tail(list: seq<nat>)
    requires list != [] && NoDup(list)
    ensures NoDup(list[1..]) && list[0] !in list[1..]
    ensures SetOf(list) == SetOf(list[1..]) + {list[0]}
  {
    assert list == [list[0]] + list[1..];
    assert multiset(list)[list[0]] == 1 + multiset(list[1..])[list[0]];
    assert list[0] in SetOf(list);
    assert multiset(list)[list[0]] == 1;
    assert SetOf(list) == SetOf(list[1..]) + {list[0]};
    assert multiset(list[1..]) == multiset(list) - multiset{list[0]};
  }

  lemma EnterCancel(s: State, rest: seq<nat>)
    requires Dying(s, rest) && rest != []
    ensures Inv(s.(stack := s.stack + [Cancelling(rest[0], rest[1..])]))
  {
    Tail(rest);
    PushFrame(s.stack, Cancelling(rest[0], rest[1..]));
  }

  lemma {:induction false} CancelKeeps(s: State, rest: seq<nat>)
    requires Dying(s, rest)
    ensures Inv(CancelFrom(s, rest))
    decreases |rest|
  {
    if rest == [] {
      DetachTailKeeps(s, rest);
    } else {
      Tail(rest);
      if !s.lookups[rest[0]].completed && s.lookups[rest[0]].hasReqId {
        EnterCancel(s, rest);
      } else {
        CancelKeeps(s, rest[1..]);
      }
    }
  }

  lemma CancelReturnsKeeps(s: State)
    requires Inv(s) && s.stack != [] && s.stack[|s.stack| - 1].Cancelling?
    ensures Inv(OnCancelReturns(s))
  {
    LeaveCancel(s);
    CancelKeeps(s.(stack := s.stack[..|s.stack| - 1]), s.stack[|s.stack| - 1].after);
  }

  lemma LeaveCancel(s: State)
    requires Inv(s) && s.stack != [] && s.stack[|s.stack| - 1].Cancelling?
    ensures Dying(s.(stack := s.stack[..|s.stack| - 1]), s.stack[|s.stack| - 1].after)
  {
    var rest, f := s.stack[..|s.stack| - 1], s.stack[|s.stack| - 1];
    assert s.stack == rest + [f];
    PushFrame(rest, f);
  }

  lemma DetachKeeps(s: State, rest: seq<nat>)
    requires Inv(s) && s.stack == [] && s.refresh.Some? && !s.refresh.value.detached
    requires NoDup(rest) && SetOf(rest) <= s.lookups.Keys
    ensures Dying(Detach(s), rest)
  {
  }

  lemma LinkedOnce(linked: seq<nat>, alive: set<nat>)
    requires Linked(linked, alive)
    ensures NoDup(linked) && SetOf(linked) == alive
  {
    assert forall x :: x in multiset(linked) <==> x in linked;
    assert SetOf(linked) == alive;
  }

  lemma DestroyKeeps(s: State)
    requires Inv(s) && s.stack == [] && s.clientAlive
    ensures Inv(OnDestroy(s))
  {
    if s.current.Some? {
      var rest := if s.hasCancel then s.refresh.value.linked else [];
      LinkedOnce(s.refresh.value.linked, s.lookups.Keys);
      DetachKeeps(s, rest);
      CancelKeeps(Detach(s), rest);
    }
  }

  // ---------- every run ----------

  lemma StepKeeps(s: State, e: Event)
    requires Inv(s) && Allowed(s, e)
    ensures Inv(Step(s, e))
  {
    match e
    case Start(fits) => StartKeeps(s, fits);
    case SrvAnswer(l, ok, records) =>
      AnswerKeeps(s, l);
      SrvKeeps(Spend(s, l), l, ok, records);
    case AddrAnswer(l, ok, addrs) =>
      AnswerKeeps(s, l);
      AddrKeeps(Spend(s, l), l, ok, addrs);
    case CallReturns(ok, reqId) => CallReturnsKeeps(s, ok, reqId);
    case CancelReturns => CancelReturnsKeeps(s);
    case Destroy => DestroyKeeps(s);
  }

  lemma {:induction false} RunKeeps(hasCancel: bool, es: seq<Event>)
    requires AllowedRun(Init(hasCancel), es)
    ensures Inv(Run(Init(hasCancel), es))
  {
    if es == [] {
      assert SetOf([]) == {};
    } else {
      RunKeeps(hasCancel, es[..|es| - 1]);
      StepKeeps(Run(Init(hasCancel), es[..|es| - 1]), es[|es| - 1]);
    }
  }
}
