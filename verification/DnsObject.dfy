/**
 The refresh as the source runs it: records updated in place, with its loops. The
 record loop and the cancel loop stop at each resolver hook and are picked up
 again from the saved frame. A use of freed memory sets `fault`, and every
 method takes the exact step the lifecycle theorems are about.
 */
module DnsObject {
  import opened Machine
  import opened Lists
  import opened DnsRefresh
  import R = Request

  method Unlink(list: seq<nat>, x: nat) returns (r: seq<nat>)
    ensures r == Without(list, x)
  {
    var i := 0;
    while i < |list| && list[i] != x
      invariant i <= |list|
      invariant Without(list, x) == list[..i] + Without(list[i..], x)
    {
      assert list[i..][1..] == list[i + 1..];
      i := i + 1;
    }
    r := if i < |list| then list[..i] + list[i + 1..] else list;
  }

  method AddEndpoints(endpoints: seq<Endpoint>, kind: Kind, addrs: seq<R.Addr>) returns (r: seq<Endpoint>)
    requires kind.Addr?
    ensures r == endpoints + EndpointsOf(kind, addrs)
  {
    r := endpoints;
    for i := 0 to |addrs|
      invariant r == endpoints + EndpointsOf(kind, addrs)[..i]
    {
      r := r + [R.Endpoint(SetPort(addrs[i], kind.port), kind.serverId, true)];
    }
  }

  /** One more element fits under `all` exactly if it is there and was not used up. */
  lemma OneMore(list: seq<nat>, i: nat, all: set<nat>)
    requires i < |list|
    ensures multiset(list[..i + 1]) <= multiset(all)
       <==> multiset(list[..i]) <= multiset(all) && list[i] in all && list[i] !in list[..i]
    ensures SetOf(list[..i + 1]) == SetOf(list[..i]) + {list[i]}
  {
    assert list[..i + 1] == list[..i] + [list[i]];
    var a, b := multiset(list[..i]), multiset(list[..i + 1]);
    assert b == a + multiset{list[i]};
    assert list[i] in list[..i] <==> list[i] in a;
    if b <= multiset(all) {
      assert b[list[i]] <= multiset(all)[list[i]] <= 1;
    }
  }

  lemma StillThere(was: map<nat, Lookup>, linked: seq<nat>, i: nat)
    requires i < |linked|
    ensures linked[i] in was - SetOf(linked[..i]) <==> linked[i] in was && linked[i] !in linked[..i]
    ensures was - SetOf(linked[..i]) - {linked[i]} == was - SetOf(linked[..i + 1])
  {
    assert linked[..i + 1] == linked[..i] + [linked[i]];
  }

  class Refresher {
    var clientAlive: bool
    var servers: seq<Endpoint>
    var ttl: nat
    var inflight: bool
    var current: Option<nat>
    const hasCancel: bool
    var refresh: Option<Refresh>
    var lookups: map<nat, Lookup>
    var stack: seq<Frame>
    var nextId: nat
    var fault: bool
    ghost var open: set<nat>
    ghost var freed: seq<nat>
    ghost var commits: seq<seq<Endpoint>>

    ghost function View(): State
      reads this
    {
      State(clientAlive, servers, ttl, inflight, current, hasCancel, refresh, lookups, stack, open, nextId, freed, commits, fault)
    }

    constructor (hasCancel: bool)
      ensures View() == Init(hasCancel)
    {
      clientAlive, servers, ttl, inflight, current, this.hasCancel := true, [], 0, false, None, hasCancel;
      refresh, lookups, stack, nextId, fault := None, map[], [], 0, false;
      open, freed, commits := {}, [], [];
    }

    method UnlinkAndFree(l: nat)
      modifies this
      ensures View() == DropLookup(old(View()), l)
    {
      if l !in lookups || refresh.None? {
        fault := true;
        return;
      }
      var linked := Unlink(refresh.value.linked, l);
      refresh := Some(refresh.value.(linked := linked));
      lookups := lookups - {l};
      freed := freed + [l];
    }

    /** Frees a list of lookups; freeing one that is gone already is a fault. */
    method FreeAll(linked: seq<nat>)
      modifies `lookups, `freed, `fault
      ensures lookups == old(lookups) - SetOf(linked)
      ensures freed == old(freed) + linked
      ensures fault == (old(fault) || !(multiset(linked) <= multiset(old(lookups).Keys)))
    {
      ghost var was := lookups;
      for i := 0 to |linked|
        invariant lookups == was - SetOf(linked[..i])
        invariant freed == old(freed) + linked[..i]
        invariant fault == (old(fault) || !(multiset(linked[..i]) <= multiset(was.Keys)))
      {
        OneMore(linked, i, was.Keys);
        StillThere(was, linked, i);
        if linked[i] !in lookups {
          fault := true;
        }
        lookups := lookups - {linked[i]};
        freed := freed + [linked[i]];
      }
      assert linked[..|linked|] == linked;
    }

    /** Frees every lookup still linked, then the refresh. */
    method Free()
      modifies this
      ensures View() == FreeRefresh(old(View()))
    {
      if refresh.None? {
        fault := true;
        return;
      }
      FreeAll(refresh.value.linked);
      freed := freed + [refresh.value.id];
      refresh := None;
    }

    method FinishRefresh()
      modifies this
      ensures View() == Finish(old(View()))
    {
      if refresh.None? || !clientAlive {
        fault := true;
        return;
      }
      var r := refresh.value;
      if r.endpoints != [] {
        servers := r.endpoints;
        ttl := r.minTtl;
        commits := commits + [r.endpoints];
      }
      inflight := false;
      if current == Some(r.id) {
        current := None;
      }
      Free();
    }

    method CompleteIfIdle()
      modifies this
      ensures View() == MaybeComplete(old(View()))
    {
      if refresh.None? {
        fault := true;
        return;
      }
      if refresh.value.pending != 0 || refresh.value.scheduling != 0 {
        return;
      }
      if refresh.value.detached {
        Free();
      } else {
        FinishRefresh();
      }
    }

    method MarkCompleted(l: nat)
      requires l in lookups && refresh.Some?
      modifies this
      ensures View() == Settle(old(View()), l)
    {
      lookups := lookups[l := lookups[l].(completed := true)];
      if refresh.value.pending > 0 {
        refresh := Some(refresh.value.(pending := refresh.value.pending - 1));
      }
    }

    method FinishLookup(l: nat)
      modifies this
      ensures View() == LookupFinish(old(View()), l)
    {
      if l !in lookups || refresh.None? {
        fault := true;
        return;
      }
      MarkCompleted(l);
      if !lookups[l].inCall {
        UnlinkAndFree(l);
      }
      CompleteIfIdle();
    }

    method ScheduleLookup(kind: Kind)
      modifies this
      ensures View() == Schedule(old(View()), kind)
    {
      if refresh.None? || !clientAlive {
        fault := true;
        return;
      }
      var l, r := nextId, refresh.value;
      nextId := nextId + 1;
      lookups := lookups[l := Lookup(kind, false, false, true)];
      refresh := Some(r.(linked := [l] + r.linked, pending := r.pending + 1, scheduling := r.scheduling + 1));
      stack := stack + [InCall(l)];
      open := open + {l};
    }

    /** The record loop, until the next resolver hook or the end. */
    method RecordLoop(l: nat, records: seq<Record>, start: nat)
      modifies this
      ensures View() == Continue(old(View()), l, records, start)
    {
      if refresh.None? {
        fault := true;
        return;
      }
      var i, ttl := 0, start;
      while i < |records|
        invariant i <= |records| && View() == old(View()) && refresh.Some?
        invariant Continue(old(View()), l, records, start) == Continue(old(View()), l, records[i..], ttl)
      {
        var record := records[i];
        assert records[i..][1..] == records[i + 1..];
        if record.serverId.Some? {
          if record.ttl > 0 && (ttl == 0 || record.ttl < ttl) {
            ttl := record.ttl;
          }
          if !refresh.value.detached {
            stack := stack + [Records(l, records[i + 1..], ttl)];
            ScheduleLookup(Addr(record.serverId.value, record.port));
            return;
          }
        }
        i := i + 1;
      }
      refresh := Some(refresh.value.(minTtl := ttl));
      FinishLookup(l);
    }

    method SrvAnswered(l: nat, ok: bool, records: seq<Record>)
      modifies this
      ensures View() == Step(old(View()), SrvAnswer(l, ok, records))
    {
      open := open - {l};
      if l !in lookups || refresh.None? {
        fault := true;
        return;
      }
      if refresh.value.detached || !ok || records == [] {
        FinishLookup(l);
      } else {
        RecordLoop(l, records, 0);
      }
    }

    method AddrAnswered(l: nat, ok: bool, addrs: seq<R.Addr>)
      modifies this
      ensures View() == Step(old(View()), AddrAnswer(l, ok, addrs))
    {
      open := open - {l};
      if l !in lookups || refresh.None? || !lookups[l].kind.Addr? {
        fault := true;
        return;
      }
      if !refresh.value.detached && ok {
        var es := AddEndpoints(refresh.value.endpoints, lookups[l].kind, addrs);
        refresh := Some(refresh.value.(endpoints := es));
      }
      FinishLookup(l);
    }

    method StartRefresh(nameFits: bool)
      modifies this
      ensures View() == Step(old(View()), Start(nameFits))
    {
      if !clientAlive {
        fault := true;
        return;
      }
      if inflight {
        return;
      }
      if refresh.Some? {
        fault := true;
        return;
      }
      refresh := Some(Refresh(nextId, false, 0, 0, [], [], 0));
      inflight := true;
      current := Some(nextId);
      nextId := nextId + 1;
      if nameFits {
        ScheduleLookup(Srv);
      } else {
        inflight := false;
        current := None;
        Free();
      }
    }

    /** The source's clean-up after a failed SRV hook. */
    method CleanUp(id: nat)
      modifies this
      ensures View() == StartTail(old(View()), id)
    {
      if !clientAlive {
        fault := true;
        return;
      }
      if current != Some(id) {
        return;
      }
      if refresh.None? {
        fault := true;
        return;
      }
      if refresh.value.pending == 0 && refresh.value.scheduling == 0 {
        inflight := false;
        current := None;
        Free();
      }
    }

    /** What follows a resolver hook's return, for either kind of lookup. */
    method SettleCall(l: nat, ok: bool, reqId: bool)
      requires l in lookups && refresh.Some?
      modifies this
      ensures View() == AfterCall(old(View()), l, ok, reqId)
    {
      var completed := lookups[l].completed;
      if !ok && !completed {
        MarkCompleted(l);
      }
      if ok && !completed && reqId {
        lookups := lookups[l := lookups[l].(hasReqId := true)];
      }
      lookups := lookups[l := lookups[l].(inCall := false)];
      LeaveIs(old(View()), l, ok, reqId, lookups);
      if !ok || completed {
        UnlinkAndFree(l);
      }
      LowerScheduling();
      CompleteIfIdle();
    }

    method ResumeLoop()
      modifies this
      ensures View() == Resume(old(View()))
    {
      if stack == [] || !stack[|stack| - 1].Records? {
        return;
      }
      var f := stack[|stack| - 1];
      stack := stack[..|stack| - 1];
      RecordLoop(f.l, f.rest, f.ttl);
    }

    method PopHook(l: nat, ok: bool)
      requires stack != []
      modifies `stack, `open
      ensures View() == Popped(old(View()), l, ok)
    {
      stack := stack[..|stack| - 1];
      if !ok {
        open := open - {l};
      }
    }

    method HookReturned(ok: bool, reqId: bool)
      modifies this
      ensures View() == OnCallReturns(old(View()), ok, reqId)
    {
      if stack == [] || !stack[|stack| - 1].InCall? {
        return;
      }
      var l := stack[|stack| - 1].l;
      if l !in lookups || refresh.None? {
        fault := true;
        return;
      }
      var srv, id := lookups[l].kind == Srv, refresh.value.id;
      PopHook(l, ok);
      AfterHook(l, ok, reqId, srv && !ok, id);
    }

    method AfterHook(l: nat, ok: bool, reqId: bool, failedSrv: bool, id: nat)
      requires l in lookups && refresh.Some?
      modifies this
      ensures View() == Returned(old(View()), l, ok, reqId, failedSrv, id)
    {
      SettleCall(l, ok, reqId);
      if failedSrv {
        CleanUp(id);
      }
      ResumeLoop();
    }

    /** The cancel loop, until the next resolver hook or the end of the detach. */
    method CancelLoop(list: seq<nat>)
      modifies this
      ensures View() == CancelFrom(old(View()), list)
    {
      var i := 0;
      while i < |list|
        invariant i <= |list| && View() == old(View())
        invariant CancelFrom(old(View()), list) == CancelFrom(old(View()), list[i..])
      {
        assert list[i..][1..] == list[i + 1..];
        if list[i] !in lookups || !clientAlive {
          fault := true;
          return;
        }
        if !lookups[list[i]].completed && lookups[list[i]].hasReqId {
          stack := stack + [Cancelling(list[i], list[i + 1..])];
          return;
        }
        i := i + 1;
      }
      if refresh.None? {
        fault := true;
        return;
      }
      LowerScheduling();
      CompleteIfIdle();
      clientAlive := false;
    }

    method DestroyClient()
      modifies this
      ensures View() == Step(old(View()), Destroy)
    {
      if current.None? {
        clientAlive := false;
        return;
      }
      if refresh.None? {
        fault := true;
        return;
      }
      current := None;
      inflight := false;
      refresh := Some(refresh.value.(detached := true, scheduling := refresh.value.scheduling + 1));
      CancelLoop(if hasCancel then refresh.value.linked else []);
    }

    method CancelReturned()
      modifies this
      ensures View() == Step(old(View()), CancelReturns)
    {
      if stack == [] || !stack[|stack| - 1].Cancelling? {
        return;
      }
      var f := stack[|stack| - 1];
      stack := stack[..|stack| - 1];
      CancelLoop(f.after);
    }

    method LowerScheduling()
      requires refresh.Some?
      modifies `refresh
      ensures View() == Lower(old(View()))
    {
      if refresh.value.scheduling > 0 {
        refresh := Some(refresh.value.(scheduling := refresh.value.scheduling - 1));
      }
    }
  }

  lemma LeaveIs(s: State, l: nat, ok: bool, reqId: bool, after: map<nat, Lookup>)
    requires l in s.lookups && s.refresh.Some?
    requires var completed := s.lookups[l].completed;
      var m := if !ok && !completed then s.lookups[l := s.lookups[l].(completed := true)] else s.lookups;
      after == m[l := m[l].(hasReqId := m[l].hasReqId || (ok && !completed && reqId), inCall := false)]
    ensures var completed := s.lookups[l].completed;
      var s1 := if !ok && !completed then Settle(s, l) else s;
      Leave(s1, l, ok && !completed && reqId).lookups == after
  {
  }
}
