/**
 The DNS refresh lifecycle with its manual memory. Lookups and the refresh live
 in an explicit heap; using one that has been freed sets `fault`. The host owns
 control whenever a resolver hook runs, and `stack` is what the client has
 suspended meanwhile, so callbacks may come before the hook returns, after it,
 or after the client is gone.

 The resolver contract: a lookup's callback runs at most once, and not after
 its call returned an error (`open` holds the callbacks still allowed);
 cancelling a lookup runs at most that lookup's callback.
 */
module DnsRefresh {
  import opened Machine
  import opened Lists
  import R = Request

  type Endpoint = R.Endpoint

  datatype Kind = Srv | Addr(serverId: nat, port: word16)

  datatype Lookup = Lookup(kind: Kind, hasReqId: bool, completed: bool, inCall: bool)

  datatype Refresh = Refresh(
    id: nat,
    detached: bool,
    pending: nat,
    scheduling: nat,
    linked: seq<nat>,
    endpoints: seq<Endpoint>,
    minTtl: nat)

  /** One SRV record; its target names a server only if the name parses. */
  datatype Record = Record(serverId: Option<nat>, port: word16, ttl: nat)

  datatype Frame =
    | InCall(l: nat)
    | Records(l: nat, rest: seq<Record>, ttl: nat)
    | Cancelling(at: nat, after: seq<nat>)

  datatype State = State(
    clientAlive: bool,
    servers: seq<Endpoint>,
    ttl: nat,
    inflight: bool,
    current: Option<nat>,
    hasCancel: bool,
    refresh: Option<Refresh>,
    lookups: map<nat, Lookup>,
    stack: seq<Frame>,
    open: set<nat>,
    nextId: nat,
    freed: seq<nat>,
    commits: seq<seq<Endpoint>>,
    fault: bool)

  datatype Event =
    | Start(nameFits: bool)
    | SrvAnswer(l: nat, ok: bool, records: seq<Record>)
    | AddrAnswer(l: nat, ok: bool, addrs: seq<R.Addr>)
    | CallReturns(ok: bool, reqId: bool)
    | CancelReturns
    | Destroy

  function Init(hasCancel: bool): State {
    State(true, [], 0, false, None, hasCancel, None, map[], [], {}, 0, [], [], false)
  }

  // ---------- memory ----------

  function Fail(s: State): State { s.(fault := true) }

  function SetOf(list: seq<nat>): set<nat> { set x | x in list }

  /** Unlinks and frees one lookup. */
  function DropLookup(s: State, l: nat): State {
    if l !in s.lookups || s.refresh.None? then Fail(s)
    else
      s.(refresh := Some(s.refresh.value.(linked := Without(s.refresh.value.linked, l))),
         lookups := s.lookups - {l},
         freed := s.freed + [l])
  }

  /** Frees the refresh and whatever is still linked to it. */
  function FreeRefresh(s: State): State {
    if s.refresh.None? then Fail(s)
    else
      var r := s.refresh.value;
      s.(refresh := None,
         lookups := s.lookups - SetOf(r.linked),
         freed := s.freed + r.linked + [r.id],
         fault := s.fault || !(multiset(r.linked) <= multiset(s.lookups.Keys)))
  }

  /** Commits a complete refresh to the client. */
  function Finish(s: State): State {
    if s.refresh.None? || !s.clientAlive then Fail(s)
    else
      var r := s.refresh.value;
      var s1 := if r.endpoints == [] then s
                else s.(servers := r.endpoints, ttl := r.minTtl, commits := s.commits + [r.endpoints]);
      FreeRefresh(s1.(inflight := false, current := if s.current == Some(r.id) then None else s.current))
  }

  function MaybeComplete(s: State): State {
    if s.refresh.None? then Fail(s)
    else
      var r := s.refresh.value;
      if r.pending != 0 || r.scheduling != 0 then s
      else if r.detached then FreeRefresh(s)
      else Finish(s)
  }

  function Less(n: nat): nat { if n > 0 then n - 1 else 0 }

  /** Marks a lookup complete and lowers the pending count. */
  function Settle(s: State, l: nat): State {
    if l !in s.lookups || s.refresh.None? then Fail(s)
    else
      s.(refresh := Some(s.refresh.value.(pending := Less(s.refresh.value.pending))),
         lookups := s.lookups[l := s.lookups[l].(completed := true)])
  }

  function LookupFinish(s: State, l: nat): State {
    if l !in s.lookups || s.refresh.None? then Fail(s)
    else
      var s1 := Settle(s, l);
      MaybeComplete(if s.lookups[l].inCall then s1 else DropLookup(s1, l))
  }

  // ---------- scheduling ----------

  /** Creates and links a lookup, then enters the resolver hook. */
  function Enter(s: State, kind: Kind): State
    requires s.refresh.Some?
  {
    var l, r := s.nextId, s.refresh.value;
    s.(refresh := Some(r.(linked := [l] + r.linked, pending := r.pending + 1, scheduling := r.scheduling + 1)),
       lookups := s.lookups[l := Lookup(kind, false, false, true)],
       stack := s.stack + [InCall(l)],
       open := s.open + {l},
       nextId := s.nextId + 1)
  }

  /** The hook is reached through the client. */
  function Schedule(s: State, kind: Kind): State {
    if s.refresh.None? || !s.clientAlive then Fail(s) else Enter(s, kind)
  }

  function LeastTtl(ttl: nat, record: Record): nat {
    if record.ttl > 0 && (ttl == 0 || record.ttl < ttl) then record.ttl else ttl
  }

  /** The SRV callback's record loop, from `rest` on, until the next resolver hook. */
  function Continue(s: State, l: nat, rest: seq<Record>, ttl: nat): State
    decreases |rest|
  {
    if s.refresh.None? then Fail(s)
    else if rest == [] then LookupFinish(s.(refresh := Some(s.refresh.value.(minTtl := ttl))), l)
    else if rest[0].serverId.None? then Continue(s, l, rest[1..], ttl)
    else
      var ttl' := LeastTtl(ttl, rest[0]);
      if s.refresh.value.detached then Continue(s, l, rest[1..], ttl')
      else Schedule(s.(stack := s.stack + [Records(l, rest[1..], ttl')]), Addr(rest[0].serverId.value, rest[0].port))
  }

  /** Resumes a suspended record loop, if one is on top. */
  function Resume(s: State): State {
    if s.stack == [] || !s.stack[|s.stack| - 1].Records? then s
    else
      var f := s.stack[|s.stack| - 1];
      Continue(s.(stack := s.stack[..|s.stack| - 1]), f.l, f.rest, f.ttl)
  }

  /** After the SRV hook failed: the source frees a refresh that is still current and idle. */
  function StartTail(s: State, id: nat): State {
    if !s.clientAlive then Fail(s)
    else if s.current != Some(id) then s
    else if s.refresh.None? then Fail(s)
    else if s.refresh.value.pending == 0 && s.refresh.value.scheduling == 0
    then FreeRefresh(s.(inflight := false, current := None))
    else s
  }

  function OnStart(s: State, nameFits: bool): State {
    if !s.clientAlive then Fail(s)
    else if s.inflight then s
    else if s.refresh.Some? then Fail(s)
    else
      var s1 := s.(refresh := Some(Refresh(s.nextId, false, 0, 0, [], [], 0)),
                   inflight := true,
                   current := Some(s.nextId),
                   nextId := s.nextId + 1);
      if nameFits then Schedule(s1, Srv) else FreeRefresh(s1.(inflight := false, current := None))
  }

  // ---------- callbacks and returns ----------

  /** The resolver spends its one callback for `l`. */
  function Spend(s: State, l: nat): State { s.(open := s.open - {l}) }

  function SrvCallback(s: State, l: nat, ok: bool, records: seq<Record>): State {
    if l !in s.lookups || s.refresh.None? then Fail(s)
    else if s.refresh.value.detached || !ok || records == [] then LookupFinish(s, l)
    else Continue(s, l, records, 0)
  }

  /** A socket address carries its port in the low 16 bits. */
  function SetPort(addr: R.Addr, port: word16): R.Addr { addr / 0x1_0000 * 0x1_0000 + port }

  function EndpointsOf(kind: Kind, addrs: seq<R.Addr>): seq<Endpoint>
    requires kind.Addr?
  {
    seq(|addrs|, i requires 0 <= i < |addrs| => R.Endpoint(SetPort(addrs[i], kind.port), kind.serverId, true))
  }

  function Collect(s: State, es: seq<Endpoint>): State
    requires s.refresh.Some?
  {
    s.(refresh := Some(s.refresh.value.(endpoints := s.refresh.value.endpoints + es)))
  }

  function AddrCallback(s: State, l: nat, ok: bool, addrs: seq<R.Addr>): State {
    if l !in s.lookups || s.refresh.None? || !s.lookups[l].kind.Addr? then Fail(s)
    else if s.refresh.value.detached || !ok then LookupFinish(s, l)
    else LookupFinish(Collect(s, EndpointsOf(s.lookups[l].kind, addrs)), l)
  }

  function Lower(s: State): State
    requires s.refresh.Some?
  {
    s.(refresh := Some(s.refresh.value.(scheduling := Less(s.refresh.value.scheduling))))
  }

  function Leave(s: State, l: nat, reqId: bool): State
    requires l in s.lookups
  {
    s.(lookups := s.lookups[l := s.lookups[l].(inCall := false, hasReqId := s.lookups[l].hasReqId || reqId)])
  }

  /** What follows a resolver hook's return, for either kind of lookup. */
  function AfterCall(s: State, l: nat, ok: bool, reqId: bool): State {
    if l !in s.lookups || s.refresh.None? then Fail(s)
    else
      var completed := s.lookups[l].completed;
      var s1 := if !ok && !completed then Settle(s, l) else s;
      var s2 := Leave(s1, l, ok && !completed && reqId);
      var s3 := if !ok || completed then DropLookup(s2, l) else s2;
      MaybeComplete(Lower(s3))
  }

  /** The hook returns; after an error its callback is no longer allowed. */
  function Popped(s: State, l: nat, ok: bool): State
    requires s.stack != []
  {
    s.(stack := s.stack[..|s.stack| - 1], open := if ok then s.open else s.open - {l})
  }

  function Returned(s: State, l: nat, ok: bool, reqId: bool, failedSrv: bool, id: nat): State {
    var s1 := AfterCall(s, l, ok, reqId);
    Resume(if failedSrv then StartTail(s1, id) else s1)
  }

  function OnCallReturns(s: State, ok: bool, reqId: bool): State {
    if s.stack == [] || !s.stack[|s.stack| - 1].InCall? then s
    else
      var l := s.stack[|s.stack| - 1].l;
      if l !in s.lookups || s.refresh.None? then Fail(s)
      else Returned(Popped(s, l, ok), l, ok, reqId, s.lookups[l].kind == Srv && !ok, s.refresh.value.id)
  }

  lemma CallReturnsIs(s: State, ok: bool, reqId: bool, l: nat)
    requires s.stack != [] && s.stack[|s.stack| - 1] == InCall(l) && l in s.lookups && s.refresh.Some?
    ensures OnCallReturns(s, ok, reqId)
         == Returned(Popped(s, l, ok), l, ok, reqId, s.lookups[l].kind == Srv && !ok, s.refresh.value.id)
  {
  }

  // ---------- destruction ----------

  function DetachTail(s: State): State {
    if s.refresh.None? then Fail(s)
    else MaybeComplete(Lower(s)).(clientAlive := false)
  }

  /** The cancel loop from `rest` on, until the next resolver hook. */
  function CancelFrom(s: State, rest: seq<nat>): State
    decreases |rest|
  {
    if rest == [] then DetachTail(s)
    else if rest[0] !in s.lookups || !s.clientAlive then Fail(s)
    else if !s.lookups[rest[0]].completed && s.lookups[rest[0]].hasReqId
    then s.(stack := s.stack + [Cancelling(rest[0], rest[1..])])
    else CancelFrom(s, rest[1..])
  }

  function Detach(s: State): State
    requires s.refresh.Some?
  {
    var r := s.refresh.value;
    s.(current := None,
       inflight := false,
       refresh := Some(r.(detached := true, scheduling := r.scheduling + 1)))
  }

  function OnDestroy(s: State): State {
    if s.current.None? then s.(clientAlive := false)
    else if s.refresh.None? then Fail(s)
    else CancelFrom(Detach(s), if s.hasCancel then s.refresh.value.linked else [])
  }

  function OnCancelReturns(s: State): State {
    if s.stack == [] || !s.stack[|s.stack| - 1].Cancelling? then s
    else CancelFrom(s.(stack := s.stack[..|s.stack| - 1]), s.stack[|s.stack| - 1].after)
  }

  function Step(s: State, e: Event): State {
    match e
    case Start(fits) => OnStart(s, fits)
    case SrvAnswer(l, ok, records) => SrvCallback(Spend(s, l), l, ok, records)
    case AddrAnswer(l, ok, addrs) => AddrCallback(Spend(s, l), l, ok, addrs)
    case CallReturns(ok, reqId) => OnCallReturns(s, ok, reqId)
    case CancelReturns => OnCancelReturns(s)
    case Destroy => OnDestroy(s)
  }

  // ---------- what the host may do ----------

  predicate MayAnswer(s: State, l: nat) {
    && l in s.open
    && (s.stack != [] && s.stack[|s.stack| - 1].Cancelling? ==> s.stack[|s.stack| - 1].at == l)
  }

  /** The resolver contract, and the API's: no call on a client being or having been destroyed. */
  predicate Allowed(s: State, e: Event) {
    match e
    case Start(_) => s.clientAlive && (s.stack != [] ==> !s.stack[|s.stack| - 1].Cancelling?)
    case SrvAnswer(l, _, _) => MayAnswer(s, l) && (l in s.lookups ==> s.lookups[l].kind == Srv)
    case AddrAnswer(l, _, _) => MayAnswer(s, l) && (l in s.lookups ==> s.lookups[l].kind.Addr?)
    case CallReturns(_, _) => s.stack != [] && s.stack[|s.stack| - 1].InCall?
    case CancelReturns => s.stack != [] && s.stack[|s.stack| - 1].Cancelling?
    case Destroy => s.clientAlive && s.stack == []
  }

  function Run(s: State, es: seq<Event>): State {
    if es == [] then s else Step(Run(s, es[..|es| - 1]), es[|es| - 1])
  }

  predicate AllowedRun(s: State, es: seq<Event>) {
    es == [] || (AllowedRun(s, es[..|es| - 1]) && Allowed(Run(s, es[..|es| - 1]), es[|es| - 1]))
  }
}
