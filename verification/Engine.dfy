/**
 The client as an object updated in place. Each method is one entry point of the
 API, with the loops of the source, and is proved to take the client through
 exactly the step the run theorems are about.
 */
module Engine {
  import opened Machine
  import opened Results
  import opened Schedule
  import opened Request
  import opened Client

  // ---------- searching and collecting ----------

  method FindRequest(list: seq<Request>, id: Id) returns (i: nat)
    ensures i == IndexOf(list, id)
  {
    i := 0;
    while i < |list|
      invariant i <= |list|
      invariant forall j :: 0 <= j < i ==> list[j].id != id
    {
      if list[i].id == id {
        return;
      }
      i := i + 1;
    }
  }

  /** Adds an element unless a scan finds it. */
  method AddSeen<T(==)>(seen: seq<T>, x: T) returns (r: seq<T>)
    ensures r == Insert(seen, x)
  {
    for i := 0 to |seen|
      invariant forall j :: 0 <= j < i ==> seen[j] != x
    {
      if seen[i] == x {
        return seen;
      }
    }
    r := seen + [x];
  }

  method Contains<T(==)>(list: seq<T>, x: T) returns (b: bool)
    ensures b <==> x in list
  {
    for i := 0 to |list|
      invariant forall j :: 0 <= j < i ==> list[j] != x
    {
      if list[i] == x {
        return true;
      }
    }
    b := false;
  }

  /** No allowed server is older, which is to say none has a smaller id. */
  method IsOldestKnown(allowed: seq<nat>, serverId: nat) returns (b: bool)
    ensures b == OldestKnown(allowed, serverId)
    ensures b <==> forall x :: x in allowed ==> serverId <= x
  {
    OldestIsLeast(allowed, serverId);
    for i := 0 to |allowed|
      invariant forall j :: 0 <= j < i ==> !IsOlder(allowed[j], serverId)
    {
      if allowed[i] != serverId && IsOlder(allowed[i], serverId) {
        return false;
      }
    }
    b := true;
  }

  /** The ids of the current servers, each once; none at all if any is unknown. */
  method Snapshot(servers: seq<Endpoint>) returns (allowed: seq<nat>)
    ensures allowed == AllowedIds(servers)
  {
    var hasUnknown := false;
    for i := 0 to |servers|
      invariant hasUnknown <==> exists j :: 0 <= j < i && !servers[j].known
    {
      if !servers[i].known {
        hasUnknown := true;
      }
    }
    allowed := [];
    if hasUnknown {
      return;
    }
    for i := 0 to |servers|
      invariant allowed == DistinctIds(servers[..i])
    {
      allowed := AddSeen(allowed, servers[i].serverId);
      assert servers[..i + 1][..i] == servers[..i];
    }
    assert servers[..|servers|] == servers;
  }

  method WindowsOk(windows: seq<nat>, limit: Option<nat>) returns (ok: bool)
    ensures ok == WindowsFit(windows, limit)
  {
    if limit.None? {
      return true;
    }
    for i := 0 to |windows|
      invariant forall j :: 0 <= j < i ==> windows[j] <= limit.value
    {
      if windows[i] > limit.value {
        return false;
      }
    }
    ok := true;
  }

  method HasResponded(r: Request, t: Endpoint) returns (b: bool)
    ensures b == Responded(r, t)
  {
    if t.known {
      b := Contains(r.seenIds, t.serverId);
    } else {
      b := Contains(r.seenAddrs, t.addr);
    }
  }

  /** Sends to the targets in order, counting attempts and deliveries. */
  method SendTo(r: Request, missingOnly: bool, up: set<nat>) returns (to: seq<Addr>, delivered: nat)
    ensures to == SendList(r, missingOnly, |r.targets|)
    ensures delivered == Delivered(r, missingOnly, up, |r.targets|)
  {
    to, delivered := [], 0;
    for i := 0 to |r.targets|
      invariant to == SendList(r, missingOnly, i)
      invariant delivered == Delivered(r, missingOnly, up, i)
    {
      var skip := false;
      if missingOnly {
        skip := HasResponded(r, r.targets[i]);
      }
      if !skip {
        to := to + [r.targets[i].addr];
        if i in up {
          delivered := delivered + 1;
        }
      }
    }
  }

  class Engine {
    const policy: Policy
    const quota: Option<u32>
    const windowLimit: Option<nat>
    const hook: bool
    var servers: seq<Endpoint>
    var inflight: seq<Request>
    var pending: bool
    var failures: nat
    var frames: seq<Frame>
    ghost var log: seq<Output>
    ghost var tickets: map<Id, Ticket>

    ghost function View(): State
      reads this
    {
      State(policy, quota, windowLimit, hook, servers, inflight, pending, failures, frames, log, tickets)
    }

    constructor (policy: Policy, quota: Option<u32>, windowLimit: Option<nat>, hook: bool)
      ensures View() == Init(policy, quota, windowLimit, hook)
    {
      this.policy, this.quota, this.windowLimit, this.hook := policy, quota, windowLimit, hook;
      servers, inflight, pending, failures := [], [], false, 0;
      frames, log, tickets := [], [], map[];
    }

    method SetServers(list: seq<Endpoint>)
      modifies this
      ensures View() == Step(old(View()), Servers(list))
    {
      servers := list;
    }

    method NotifySteering()
      modifies this
      ensures View() == Notify(old(View()))
    {
      if pending && inflight == [] && hook {
        pending := false;
        log := log + [Rebind(|inflight|)];
      }
    }

    method RecordFailures(lost: nat)
      modifies this`failures
      ensures failures == AddFailures(old(failures), lost)
    {
      if lost == 0 {
        return;
      }
      if failures > U64_MAX - lost {
        failures := U64_MAX;
        return;
      }
      failures := failures + lost;
    }

    /** Enters a round and sends it; the request is changed only if the round was entered. */
    method BeginRound(r: Request, round: nat, clock: nat, up: set<nat>) returns (r': Request, failed: Option<Code>)
      modifies this
      ensures var launch := StartRound(policy, r, round, clock, up);
        && View() == Transmit(old(View()), launch, clock)
        && r' == (if launch.Launched? then launch.r else r)
        && failed == (if launch.Refused? then Some(launch.code)
                      else if SendFailed(launch) then Some(ErrIo) else None)
    {
      r', failed := r, None;
      if round > policy.replayCount as int || clock >= r.dedupDeadline {
        return r, Some(ErrTimeout);
      }
      var gap := ScheduleUnits(policy.gap, round as u32, false);
      if gap.None? {
        return r, Some(ErrConfig);
      }
      var begin := if round == 0 then r.start else r.roundDeadline;
      var end := Add64(begin, Mul64(policy.unit as int, gap.value as int));
      r' := r.(phase := Round,
               round := round,
               roundStart := begin,
               roundDeadline := end,
               preference := if round == 0 then end else begin,
               armed := end);
      var to, delivered := SendTo(r', round > 0, up);
      log := log + [Sent(r'.id, RoundSend, clock, to, r'.packet)];
      if |to| > 0 && delivered == 0 {
        failed := Some(ErrIo);
      } else if 0 < delivered < |to| {
        RecordFailures(|to| - delivered);
      }
    }

    /** Unlinks request `i` and enters its callback, after delivering to the servers that did not answer. */
    method CompleteRequest(i: nat, r: Request, status: Status, result: Option<Response>, clock: nat)
      requires i < |inflight|
      modifies this
      ensures View() == Complete(old(View()), i, Done(r, status, result), clock)
    {
      if status == StatusOk && result.Some? && policy.completionDelivery && clock < r.dedupDeadline {
        var to, _ := SendTo(r, true, {});
        log := log + [Sent(r.id, CompletionSend, clock, to, r.packet)];
      }
      inflight := RemoveAt(inflight, i);
      pending := pending || r.rebind;
      log := log + [Called(r.id, status, result, r.rebind)];
      frames := frames + [Completion];
    }

    method CallbackReturns()
      modifies this
      ensures View() == Step(old(View()), Return)
    {
      if frames == [] {
        return;
      }
      var top := frames[|frames| - 1];
      frames := frames[..|frames| - 1];
      if top == Completion {
        NotifySteering();
      }
    }

    method CancelRequest(id: Id)
      modifies this
      ensures View() == Step(old(View()), Cancel(id))
    {
      var i := FindRequest(inflight, id);
      if i == |inflight| {
        return;
      }
      inflight := RemoveAt(inflight, i);
      log := log + [Cancelled(id)];
      NotifySteering();
    }

    /** Keeps the older of the candidate and the newcomer. */
    method KeepBest(best: Option<Response>, resp: Response) returns (r: Option<Response>)
      ensures r == Better(best, resp)
      ensures r.Some?
    {
      if best.None? {
        return Some(resp);
      }
      if IsOlder(resp.serverId, best.value.serverId) {
        return Some(resp);
      }
      r := best;
    }

    /** What the source does with an accepted response to request `i`. */
    method Accept(i: nat, resp: Response, from: Addr, clock: nat, sendClock: nat)
      requires i < |inflight|
      modifies this
      ensures View() == Conclude(old(View()), i, Receive(old(inflight[i]), resp, from, clock), sendClock)
    {
      var r := inflight[i];
      if !resp.keepPort {
        r := r.(rebind := true);
      }
      var seenAddrs := AddSeen(r.seenAddrs, from);
      var seenIds := AddSeen(r.seenIds, resp.serverId);
      var best := KeepBest(r.best, resp);
      r := r.(seenAddrs := seenAddrs, seenIds := seenIds, best := best);
      var oldest := IsOldestKnown(r.allowed, best.value.serverId);
      if oldest || clock >= r.preference {
        CompleteRequest(i, r, StatusOk, r.best, sendClock);
      } else {
        if r.preference < r.armed {
          r := r.(armed := r.preference);
        }
        inflight := inflight[i := r];
      }
    }

    /** Returns an error only for packets the wire layer refuses; everything else is quietly ignored. */
    method ReceiveDatagram(ingress: Ingress, from: Addr, arrival: nat, clock: nat, sendClock: nat)
      returns (code: Option<Code>)
      modifies this
      ensures View() == Step(old(View()), Datagram(ingress, from, arrival, clock, sendClock))
      ensures code.Some? ==> View() == old(View()) && (ingress.Garbled? || ingress.answer.Err?)
    {
      if ingress.Garbled? {
        return Some(ingress.code);
      }
      var i := FindRequest(inflight, ingress.id);
      if i == |inflight| || arrival > inflight[i].dedupDeadline {
        return None;
      }
      var known := Contains(inflight[i].allowed, ingress.serverId);
      if inflight[i].allowed != [] && !known {
        return None;
      }
      if ingress.answer.Err? {
        return Some(ingress.answer.code);
      }
      var resp := ingress.answer.value.(serverId := ingress.serverId);
      log := log + [Heard(ingress.id, resp, from)];
      Accept(i, resp, from, clock, sendClock);
      code := None;
    }

    /** A replay round that could not be entered or sent completes the request with that error. */
    method Replay(i: nat, clock: nat, up: set<nat>)
      requires i < |inflight|
      modifies this
      ensures var launch := StartRound(policy, old(inflight[i]), old(inflight[i]).round + 1, clock, up);
        View() == Conclude(Transmit(old(View()), launch, clock), i, AfterLaunch(old(inflight[i]), launch), clock)
    {
      var r, failed := BeginRound(inflight[i], inflight[i].round + 1, clock, up);
      if failed.Some? {
        CompleteRequest(i, r, Failed(failed.value), None, clock);
      } else {
        inflight := inflight[i := r];
      }
    }

    /** The policy's reaction to an expired timer of request `i`. */
    method Expired(i: nat, now: nat, clock: nat, up: set<nat>)
      requires i < |inflight| && now >= inflight[i].armed
      modifies this
      ensures var x := Expire(policy, old(inflight[i]), now, clock, up);
        View() == Conclude(if x.launch.Some? then Transmit(old(View()), x.launch.value, clock) else old(View()),
                           i, x.verdict, clock)
    {
      var r := inflight[i];
      if r.best.Some? {
        if now >= r.preference {
          CompleteRequest(i, r, StatusOk, r.best, clock);
        } else {
          inflight := inflight[i := r.(armed := r.preference)];
        }
        return;
      }
      if now < r.roundDeadline {
        inflight := inflight[i := r.(armed := r.roundDeadline)];
        return;
      }
      if r.phase == Final {
        CompleteRequest(i, r, Failed(ErrTimeout), None, clock);
      } else if r.round < policy.replayCount as int {
        Replay(i, clock, up);
      } else if policy.finalUnits == 0 {
        CompleteRequest(i, r, Failed(ErrTimeout), None, clock);
      } else {
        var end := Add64(r.roundDeadline, Mul64(policy.unit as int, policy.finalUnits as int));
        inflight := inflight[i := r.(phase := Final,
                                     roundStart := r.roundDeadline,
                                     preference := r.roundDeadline,
                                     roundDeadline := end,
                                     armed := end)];
      }
    }

    method FireTimer(id: Id, now: nat, clock: nat, up: set<nat>)
      modifies this
      ensures View() == Step(old(View()), Timeout(id, now, clock, up))
    {
      var i := FindRequest(inflight, id);
      if i == |inflight| {
        return;
      }
      if now < inflight[i].armed {
        assert inflight[i := inflight[i]] == inflight;
        return;
      }
      Expired(i, now, clock, up);
    }

    /** An empty request calls back at once, with nothing in flight. */
    method SubmitNothing()
      modifies this
      ensures View() == Step(old(View()), SubmitEmpty)
    {
      log := log + [CalledEmpty];
      frames := frames + [Immediate];
    }

    /** Returns no error exactly when the request is now in flight. */
    method SubmitRequest(id: Id, windows: seq<nat>, framed: Result<seq<byte>>, start: nat, clock: nat, up: set<nat>)
      returns (code: Option<Code>)
      modifies this
      ensures View() == Step(old(View()), Submit(id, windows, framed, start, clock, up))
      ensures code.None? <==> Admitted(old(View()), Submit(id, windows, framed, start, clock, up))
    {
      ghost var e := Submit(id, windows, framed, start, clock, up);
      ghost var s := View();
      var fit := WindowsOk(windows, windowLimit);
      if !fit {
        return Some(ErrProtocol);
      }
      if servers == [] {
        return Some(ErrDns);
      }
      var ttl := PolicyTtl(policy, quota);
      if ttl.None? || start > U64_MAX - ttl.value as int {
        return Some(ErrConfig);
      }
      if framed.Err? {
        return Some(framed.code);
      }
      var allowed := Snapshot(servers);
      var r := Request(id, framed.value, servers, allowed, start, start + ttl.value as int,
                       Round, 0, 0, 0, 0, 0, [], [], false, None);
      assert r == NewRequest(s, e);
      tickets := tickets[id := TicketFor(r, Admitted(s, e))];
      var r', failed := BeginRound(r, 0, clock, up);
      if failed.Some? {
        return failed;
      }
      inflight := [r'] + inflight;
      code := None;
    }
  }
}
