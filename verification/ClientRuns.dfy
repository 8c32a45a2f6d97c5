/** What every run of the client keeps, whatever its host and its callbacks do. */
module ClientRuns {
  import opened Results
  import opened Schedule
  import opened Request
  import opened Client

  // ---------- the ledger ----------

  predicate IsEnd(o: Output, id: Id) {
    (o.Called? || o.Cancelled?) && o.id == id
  }

  /** How many times the log ends request `id`, by callback or by cancellation. */
  function Ends(log: seq<Output>, id: Id): nat {
    if log == [] then 0
    else Ends(log[..|log| - 1], id) + if IsEnd(log[|log| - 1], id) then 1 else 0
  }

  lemma EndsTell(log: seq<Output>, o: Output, id: Id)
    ensures Ends(log + [o], id) == Ends(log, id) + if IsEnd(o, id) then 1 else 0
  {
    assert (log + [o])[..|log|] == log;
  }

  lemma {:induction false} EndsZero(log: seq<Output>, id: Id)
    requires Ends(log, id) == 0
    ensures forall o :: o in log ==> !IsEnd(o, id)
  {
    if log != [] {
      EndsZero(log[..|log| - 1], id);
      assert log == log[..|log| - 1] + [log[|log| - 1]];
    }
  }

  predicate Accepted(s: State, id: Id) {
    id in s.tickets && s.tickets[id].accepted
  }

  /** Every admitted request is in flight or has ended, once; no other id ever ends. */
  predicate Balanced(s: State, id: Id) {
    Ends(s.log, id) + (if InFlight(s.inflight, id) then 1 else 0) == (if Accepted(s, id) then 1 else 0)
  }

  ghost predicate Ledger(s: State) {
    forall id :: Balanced(s, id)
  }

  // ---------- what was heard ----------

  function HeardIds(log: seq<Output>, id: Id): set<nat> {
    set o | o in log && o.Heard? && o.id == id :: o.resp.serverId
  }

  function HeardAddrs(log: seq<Output>, id: Id): set<Addr> {
    set o | o in log && o.Heard? && o.id == id :: o.from
  }

  function IdSet(ids: seq<nat>): set<nat> {
    set x | x in ids
  }

  lemma HeardTell(log: seq<Output>, o: Output, id: Id)
    ensures HeardIds(log + [o], id)
         == HeardIds(log, id) + if o.Heard? && o.id == id then {o.resp.serverId} else {}
  {
    var more := log + [o];
    forall x | x in HeardIds(log, id) ensures x in HeardIds(more, id) {
      var h :| h in log && h.Heard? && h.id == id && h.resp.serverId == x;
      assert h in more;
    }
    if o.Heard? && o.id == id {
      assert o in more;
    }
  }

  lemma HeardFromTell(log: seq<Output>, o: Output, id: Id)
    ensures HeardAddrs(log + [o], id)
         == HeardAddrs(log, id) + if o.Heard? && o.id == id then {o.from} else {}
  {
    var more := log + [o];
    forall x | x in HeardAddrs(log, id) ensures x in HeardAddrs(more, id) {
      var h :| h in log && h.Heard? && h.id == id && h.from == x;
      assert h in more;
    }
    if o.Heard? && o.id == id {
      assert o in more;
    }
  }

  /** The response was accepted for `id`, from somewhere. */
  ghost predicate Spoken(log: seq<Output>, id: Id, resp: Response) {
    exists a :: Heard(id, resp, a) in log
  }

  lemma SpokenTell(log: seq<Output>, o: Output, id: Id, resp: Response)
    requires Spoken(log, id, resp) || (o.Heard? && o.id == id && o.resp == resp)
    ensures Spoken(log + [o], id, resp)
  {
    if Spoken(log, id, resp) {
      var a :| Heard(id, resp, a) in log;
      assert Heard(id, resp, a) in log + [o];
    } else {
      assert Heard(id, resp, o.from) in log + [o];
    }
  }

  /** Some response to `id` asked for a new source port. */
  ghost predicate Asked(log: seq<Output>, id: Id) {
    exists resp :: Spoken(log, id, resp) && !resp.keepPort
  }

  lemma AskedIsHeard(log: seq<Output>, id: Id)
    ensures Asked(log, id) ==> HeardIds(log, id) != {}
  {
    if Asked(log, id) {
      var resp :| Spoken(log, id, resp) && !resp.keepPort;
      var a :| Heard(id, resp, a) in log;
      assert resp.serverId in HeardIds(log, id);
    }
  }

  lemma AskedTell(log: seq<Output>, o: Output, id: Id)
    ensures Asked(log + [o], id) <==> Asked(log, id) || (o.Heard? && o.id == id && !o.resp.keepPort)
  {
    if Asked(log, id) {
      var resp :| Spoken(log, id, resp) && !resp.keepPort;
      SpokenTell(log, o, id, resp);
    }
    if o.Heard? && o.id == id && !o.resp.keepPort {
      SpokenTell(log, o, id, o.resp);
    }
    if Asked(log + [o], id) {
      var resp :| Spoken(log + [o], id, resp) && !resp.keepPort;
      var a :| Heard(id, resp, a) in log + [o];
      assert Heard(id, resp, a) in log || Heard(id, resp, a) == o;
    }
  }

  /** Targets that have not answered, in target order: by server id, or by address if that is unknown. */
  function Unanswered(targets: seq<Endpoint>, ids: set<nat>, addrs: set<Addr>): seq<Addr> {
    if targets == [] then []
    else
      var last := targets[|targets| - 1];
      Unanswered(targets[..|targets| - 1], ids, addrs)
      + if (if last.known then last.serverId in ids else last.addr in addrs) then [] else [last.addr]
  }

  lemma {:induction false} MissingAreUnanswered(r: Request, n: nat)
    requires n <= |r.targets|
    ensures SendList(r, true, n) == Unanswered(r.targets[..n], IdSet(r.seenIds), IdSet(r.seenAddrs))
  {
    if n > 0 {
      MissingAreUnanswered(r, n - 1);
      assert r.targets[..n][..n - 1] == r.targets[..n - 1];
    }
  }

  // ---------- the log ----------

  ghost predicate SendOk(o: Output, log: seq<Output>, tickets: map<Id, Ticket>)
    requires o.Sent?
  {
    && o.id in tickets
    && var t := tickets[o.id];
    && o.bytes == t.packet
    && o.clock < t.dedupDeadline
    && (o.purpose == RoundSend ==> o.to == AllAddrs(t.targets))
    && (o.purpose == CompletionSend ==>
          o.to == Unanswered(t.targets, HeardIds(log, o.id), HeardAddrs(log, o.id)))
  }

  /** No completion delivery has been made for `id`. */
  ghost predicate Quiet(log: seq<Output>, id: Id) {
    forall o :: o in log && o.Sent? && o.purpose == CompletionSend ==> o.id != id
  }

  ghost predicate CallOk(o: Output, log: seq<Output>)
    requires o.Called?
  {
    && (o.status == StatusOk <==> o.result.Some?)
    && (o.rebind <==> Asked(log, o.id))
    && (o.result.Some? ==>
          && Spoken(log, o.id, o.result.value)
          && forall x :: x in HeardIds(log, o.id) ==> o.result.value.serverId <= x)
  }

  ghost predicate EntryOk(o: Output, log: seq<Output>, tickets: map<Id, Ticket>) {
    match o
    case Sent(_, _, _, _, _) => SendOk(o, log, tickets)
    case Called(_, _, _, _) => CallOk(o, log)
    case Heard(id, _, _) => id in tickets && tickets[id].accepted
    case Rebind(inflight) => inflight == 0
    case _ => true
  }

  ghost predicate LogOk(log: seq<Output>, tickets: map<Id, Ticket>) {
    forall o :: o in log ==> EntryOk(o, log, tickets)
  }

  /** An old entry stays good when the log grows by something that is not news for its request. */
  lemma EntryStays(o: Output, log: seq<Output>, new_: Output, tickets: map<Id, Ticket>)
    requires EntryOk(o, log, tickets) && o in log
    requires new_.Heard? ==> Ends(log, new_.id) == 0 && Quiet(log, new_.id)
    ensures EntryOk(o, log + [new_], tickets)
  {
    if o.Called? || (o.Sent? && o.purpose == CompletionSend) {
      HeardTell(log, new_, o.id);
      HeardFromTell(log, new_, o.id);
      AskedTell(log, new_, o.id);
      if o.Called? && o.result.Some? {
        SpokenTell(log, new_, o.id, o.result.value);
      }
      assert o.Called? ==> IsEnd(o, o.id);
      if new_.Heard? {
        EndsZero(log, new_.id);
      }
      assert HeardIds(log + [new_], o.id) == HeardIds(log, o.id);
      assert HeardAddrs(log + [new_], o.id) == HeardAddrs(log, o.id);
    }
  }

  lemma LogGrows(log: seq<Output>, o: Output, tickets: map<Id, Ticket>)
    requires LogOk(log, tickets)
    requires EntryOk(o, log + [o], tickets)
    requires o.Heard? ==> Ends(log, o.id) == 0 && Quiet(log, o.id)
    ensures LogOk(log + [o], tickets)
  {
    forall x | x in log + [o] ensures EntryOk(x, log + [o], tickets) {
      if x in log {
        EntryStays(x, log, o, tickets);
      }
    }
  }

  // ---------- the invariant ----------

  /** Ties a request to its ticket and to the history. */
  ghost predicate Tied(s: State, r: Request) {
    && Candidate(r)
    && r.id in s.tickets
    && s.tickets[r.id] == TicketFor(r, true)
    && HeardIds(s.log, r.id) == IdSet(r.seenIds)
    && HeardAddrs(s.log, r.id) == IdSet(r.seenAddrs)
    && (r.best.Some? ==> Spoken(s.log, r.id, r.best.value))
    && (r.rebind <==> Asked(s.log, r.id))
    && Quiet(s.log, r.id)
  }

  ghost predicate Attached(s: State, r: Request) {
    RequestInv(s.policy, r) && Tied(s, r)
  }

  ghost predicate AllAttached(s: State) {
    forall i :: 0 <= i < |s.inflight| ==> Attached(s, s.inflight[i])
  }

  predicate Distinct(list: seq<Request>) {
    forall i, j :: 0 <= i < j < |list| ==> list[i].id != list[j].id
  }

  /** A due rebind waits for a request still in flight or for a completion callback to return. */
  predicate SteeringOk(s: State) {
    s.pending && s.hook && s.inflight == [] ==> Completion in s.frames
  }

  ghost predicate Inv(s: State) {
    && AllAttached(s)
    && Distinct(s.inflight)
    && Ledger(s)
    && LogOk(s.log, s.tickets)
    && SteeringOk(s)
  }

  // ---------- one request leaves or changes ----------

  lemma RemovedList(list: seq<Request>, i: nat)
    requires Distinct(list) && i < |list|
    ensures Distinct(RemoveAt(list, i))
    ensures forall id :: InFlight(RemoveAt(list, i), id) <==> InFlight(list, id) && id != list[i].id
    ensures forall j :: 0 <= j < |list| - 1 ==> RemoveAt(list, i)[j] in list && RemoveAt(list, i)[j].id != list[i].id
  {
    var rest := RemoveAt(list, i);
    forall id | InFlight(list, id) && id != list[i].id ensures InFlight(rest, id) {
      var j :| 0 <= j < |list| && list[j].id == id;
      assert rest[if j < i then j else j - 1].id == id;
    }
    forall id | InFlight(rest, id) ensures InFlight(list, id) && id != list[i].id {
      var j :| 0 <= j < |rest| && rest[j].id == id;
      assert list[if j < i then j else j + 1].id == id;
    }
  }

  lemma ReplacedList(list: seq<Request>, i: nat, r: Request)
    requires Distinct(list) && i < |list| && r.id == list[i].id
    ensures Distinct(list[i := r])
    ensures forall id :: InFlight(list[i := r], id) <==> InFlight(list, id)
  {
    var list' := list[i := r];
    assert forall j :: 0 <= j < |list| ==> list'[j].id == list[j].id;
    forall id ensures InFlight(list', id) <==> InFlight(list, id) {
      if InFlight(list, id) {
        var j :| 0 <= j < |list| && list[j].id == id;
        assert list'[j].id == id;
      }
    }
  }

  /** Appending to the log something that neither ends nor is heard by a request leaves it attached. */
  lemma StaysTied(s: State, o: Output, r: Request)
    requires Tied(s, r)
    requires o.Heard? || (o.Sent? && o.purpose == CompletionSend) ==> o.id != r.id
    ensures Tied(Tell(s, o), r)
  {
    HeardTell(s.log, o, r.id);
    HeardFromTell(s.log, o, r.id);
    AskedTell(s.log, o, r.id);
    if r.best.Some? {
      SpokenTell(s.log, o, r.id, r.best.value);
    }
  }

  lemma TellKeeps(s: State, o: Output)
    requires Inv(s)
    requires !o.Heard? && !o.Called? && !o.Cancelled? && (o.Sent? ==> o.purpose == RoundSend)
    requires EntryOk(o, s.log + [o], s.tickets)
    ensures Inv(Tell(s, o))
  {
    LogGrows(s.log, o, s.tickets);
    LedgerTell(s, o);
    forall i | 0 <= i < |s.inflight| ensures Attached(Tell(s, o), s.inflight[i]) {
      StaysTied(s, o, s.inflight[i]);
    }
  }

  lemma NotifyKeeps(s: State)
    requires AllAttached(s) && Distinct(s.inflight) && Ledger(s) && LogOk(s.log, s.tickets)
    ensures Inv(Notify(s))
    ensures Notify(s).pending && s.hook ==> s.inflight != []
  {
    if s.pending && s.inflight == [] && s.hook {
      var s1 := s.(pending := false);
      assert AllAttached(s1) && Ledger(s1) by {
        assert forall id :: Balanced(s1, id) <==> Balanced(s, id);
      }
      TellKeeps(s1, Rebind(0));
    }
  }

  // ---------- ending a transition ----------

  /** The invariant, except that request i has moved on to `r`. */
  ghost predicate Moved(s: State, i: nat, r: Request) {
    && i < |s.inflight|
    && r.id == s.inflight[i].id
    && Tied(s, r)
    && (forall j :: 0 <= j < |s.inflight| && j != i ==> Attached(s, s.inflight[j]))
    && Distinct(s.inflight)
    && Ledger(s)
    && LogOk(s.log, s.tickets)
  }

  lemma LiveKeeps(s: State, i: nat, r: Request)
    requires Moved(s, i, r) && RequestInv(s.policy, r)
    ensures Inv(s.(inflight := s.inflight[i := r]))
  {
    var s' := s.(inflight := s.inflight[i := r]);
    ReplacedList(s.inflight, i, r);
    forall id ensures Balanced(s', id) {
      assert Balanced(s, id);
    }
    forall j | 0 <= j < |s'.inflight| ensures Attached(s', s'.inflight[j]) {
      assert Attached(s, s'.inflight[j]);
    }
  }

  /** The same for a request about to be called back; its delivery may already be in the log. */
  ghost predicate Leaving(s: State, i: nat, r: Request) {
    && i < |s.inflight|
    && r.id == s.inflight[i].id
    && Candidate(r)
    && HeardIds(s.log, r.id) == IdSet(r.seenIds)
    && HeardAddrs(s.log, r.id) == IdSet(r.seenAddrs)
    && (r.best.Some? ==> Spoken(s.log, r.id, r.best.value))
    && (r.rebind <==> Asked(s.log, r.id))
    && (forall j :: 0 <= j < |s.inflight| && j != i ==> Attached(s, s.inflight[j]))
    && Distinct(s.inflight)
    && Ledger(s)
    && LogOk(s.log, s.tickets)
  }

  lemma LedgerTell(s: State, o: Output)
    requires Ledger(s) && !o.Called? && !o.Cancelled?
    ensures Ledger(Tell(s, o))
  {
    forall id ensures Balanced(Tell(s, o), id) {
      assert Balanced(s, id);
      EndsTell(s.log, o, id);
    }
  }

  /** Best-effort delivery changes only the log, and reaches exactly the unanswered. */
  lemma DeliveryKeeps(s: State, i: nat, r: Request, clock: nat)
    requires Moved(s, i, r) && clock < r.dedupDeadline
    ensures Leaving(Tell(s, Delivery(r, clock)), i, r)
  {
    var o := Delivery(r, clock);
    HeardTell(s.log, o, r.id);
    HeardFromTell(s.log, o, r.id);
    AskedTell(s.log, o, r.id);
    if r.best.Some? {
      SpokenTell(s.log, o, r.id, r.best.value);
    }
    assert HeardIds(s.log + [o], r.id) == HeardIds(s.log, r.id);
    assert HeardAddrs(s.log + [o], r.id) == HeardAddrs(s.log, r.id);
    MissingAreUnanswered(r, |r.targets|);
    assert r.targets[..|r.targets|] == r.targets;
    LogGrows(s.log, o, s.tickets);
    LedgerTell(s, o);
    forall j | 0 <= j < |s.inflight| && j != i ensures Attached(Tell(s, o), s.inflight[j]) {
      StaysTied(s, o, s.inflight[j]);
    }
  }

  /** Taking request i out and logging its end balances the ledger again. */
  lemma LedgerEnds(s: State, i: nat, o: Output, s': State)
    requires Ledger(s) && Distinct(s.inflight) && i < |s.inflight|
    requires IsEnd(o, s.inflight[i].id)
    requires s'.log == s.log + [o] && s'.inflight == RemoveAt(s.inflight, i) && s'.tickets == s.tickets
    ensures Ledger(s')
  {
    RemovedList(s.inflight, i);
    forall id ensures Balanced(s', id) {
      assert Balanced(s, id);
      EndsTell(s.log, o, id);
    }
  }

  lemma OthersStay(s: State, i: nat, o: Output, s': State)
    requires Distinct(s.inflight) && i < |s.inflight|
    requires forall j :: 0 <= j < |s.inflight| && j != i ==> Attached(s, s.inflight[j])
    requires IsEnd(o, s.inflight[i].id)
    requires s'.log == s.log + [o] && s'.inflight == RemoveAt(s.inflight, i)
    requires s'.tickets == s.tickets && s'.policy == s.policy
    ensures AllAttached(s') && Distinct(s'.inflight)
  {
    RemovedList(s.inflight, i);
    forall j | 0 <= j < |s'.inflight| ensures Attached(s', s'.inflight[j]) {
      var other := s'.inflight[j];
      assert other == s.inflight[if j < i then j else j + 1];
      StaysTied(s, o, other);
    }
  }

  lemma CallKeeps(s: State, i: nat, v: Verdict)
    requires v.Done? && Leaving(s, i, v.r)
    requires v.status == StatusOk <==> v.result.Some?
    requires v.result.Some? ==> v.result == v.r.best
    ensures Inv(Call(s, i, v))
  {
    var o := Called(v.r.id, v.status, v.result, v.r.rebind);
    var s' := Call(s, i, v);
    HeardTell(s.log, o, v.r.id);
    AskedTell(s.log, o, v.r.id);
    if v.r.best.Some? {
      SpokenTell(s.log, o, v.r.id, v.r.best.value);
    }
    assert HeardIds(s.log + [o], v.r.id) == HeardIds(s.log, v.r.id);
    LogGrows(s.log, o, s.tickets);
    LedgerEnds(s, i, o, s');
    OthersStay(s, i, o, s');
    assert s'.frames[|s.frames|] == Completion;
  }

  lemma CompleteKeeps(s: State, i: nat, v: Verdict, clock: nat)
    requires v.Done? && Moved(s, i, v.r)
    requires v.status == StatusOk <==> v.result.Some?
    requires v.result.Some? ==> v.result == v.r.best
    ensures Inv(Complete(s, i, v, clock))
  {
    if Delivers(s, v.r, v, clock) {
      DeliveryKeeps(s, i, v.r, clock);
      CallKeeps(Tell(s, Delivery(v.r, clock)), i, v);
    } else {
      CallKeeps(s, i, v);
    }
  }

  lemma ConcludeKeeps(s: State, i: nat, v: Verdict, clock: nat)
    requires Moved(s, i, v.r)
    requires v.Live? ==> RequestInv(s.policy, v.r)
    requires v.Done? ==> (v.status == StatusOk <==> v.result.Some?) && (v.result.Some? ==> v.result == v.r.best)
    ensures Inv(Conclude(s, i, v, clock))
  {
    if v.Live? {
      LiveKeeps(s, i, v.r);
    } else {
      CompleteKeeps(s, i, v, clock);
    }
  }

  // ---------- the events ----------

  /** An accepted response moves its request on and leaves the others alone. */
  lemma HearMoves(s: State, i: nat, resp: Response, from: Addr, r': Request)
    requires Inv(s) && i < |s.inflight|
    requires Candidate(r') && r'.id == s.inflight[i].id && TicketFor(r', true) == TicketFor(s.inflight[i], true)
    requires r'.seenIds == Insert(s.inflight[i].seenIds, resp.serverId)
    requires r'.seenAddrs == Insert(s.inflight[i].seenAddrs, from)
    requires r'.best == Better(s.inflight[i].best, resp)
    requires r'.rebind == (s.inflight[i].rebind || !resp.keepPort)
    ensures Moved(Tell(s, Heard(r'.id, resp, from)), i, r')
  {
    var r := s.inflight[i];
    var o := Heard(r.id, resp, from);
    var s1 := Tell(s, o);
    assert Attached(s, r);
    assert Balanced(s, r.id) && InFlight(s.inflight, r.id);
    LogGrows(s.log, o, s.tickets);
    LedgerTell(s, o);
    HeardTell(s.log, o, r.id);
    HeardFromTell(s.log, o, r.id);
    AskedTell(s.log, o, r.id);
    SpokenTell(s.log, o, r.id, r'.best.value);
    assert IdSet(r'.seenIds) == IdSet(r.seenIds) + {resp.serverId};
    assert IdSet(r'.seenAddrs) == IdSet(r.seenAddrs) + {from};
    forall j | 0 <= j < |s.inflight| && j != i ensures Attached(s1, s.inflight[j]) {
      StaysTied(s, o, s.inflight[j]);
    }
  }

  lemma DatagramKeeps(s: State, e: Event)
    requires Inv(s) && e.Datagram?
    ensures Inv(OnDatagram(s, e))
  {
    if Accepts(s, e) {
      var i := IndexOf(s.inflight, e.ingress.id);
      var resp := e.ingress.answer.value.(serverId := e.ingress.serverId);
      var v := Receive(s.inflight[i], resp, e.from, e.clock);
      assert Attached(s, s.inflight[i]);
      ReceiveKeeps(s.policy, s.inflight[i], resp, e.from, e.clock);
      HearMoves(s, i, resp, e.from, v.r);
      ConcludeKeeps(Tell(s, Heard(e.ingress.id, resp, e.from)), i, v, e.sendClock);
    }
  }

  lemma TransmitKeeps(s: State, l: Launch, clock: nat)
    requires Inv(s)
    requires l.Launched? ==>
               && EntryOk(Sent(l.r.id, RoundSend, clock, l.to, l.r.packet), s.log, s.tickets)
    ensures Inv(Transmit(s, l, clock))
  {
    if l.Launched? {
      var o := Sent(l.r.id, RoundSend, clock, l.to, l.r.packet);
      TellKeeps(s, o);
      assert forall id :: Balanced(Transmit(s, l, clock), id) <==> Balanced(Tell(s, o), id);
    }
  }

  /** A round's send repeats the packet to every target, before the deduplication deadline. */
  lemma RoundSendOk(p: Policy, r: Request, round: nat, clock: nat, up: set<nat>, s: State)
    requires r.seenIds == [] && r.seenAddrs == []
    requires r.id in s.tickets && TicketFor(r, s.tickets[r.id].accepted) == s.tickets[r.id]
    ensures
      var l := StartRound(p, r, round, clock, up);
      l.Launched? ==> EntryOk(Sent(l.r.id, RoundSend, clock, l.to, l.r.packet), s.log, s.tickets)
  {
    if StartRound(p, r, round, clock, up).Launched? {
      UnansweredSendReachesAll(EnterRound(p, r, round), round > 0, |r.targets|);
      assert AllAddrs(r.targets)[..|r.targets|] == AllAddrs(r.targets);
    }
  }

  /** A timer that does not hear anything moves its request on without news. */
  lemma QuietMove(s: State, i: nat, r': Request)
    requires Inv(s) && i < |s.inflight|
    requires SameBallot(s.inflight[i], r')
    ensures Moved(s, i, r')
  {
    assert Attached(s, s.inflight[i]);
  }

  lemma ReplayKeeps(s: State, i: nat, l: Launch, clock: nat, up: set<nat>)
    requires Inv(s) && i < |s.inflight|
    requires s.inflight[i].seenIds == [] && s.inflight[i].seenAddrs == []
    requires l == StartRound(s.policy, s.inflight[i], s.inflight[i].round + 1, clock, up)
    ensures Inv(Transmit(s, l, clock))
  {
    assert Attached(s, s.inflight[i]);
    RoundSendOk(s.policy, s.inflight[i], s.inflight[i].round + 1, clock, up, s);
    TransmitKeeps(s, l, clock);
  }

  lemma TimeoutKeeps(s: State, e: Event)
    requires Inv(s) && e.Timeout?
    ensures Inv(OnTimeout(s, e))
  {
    var i := IndexOf(s.inflight, e.id);
    if i < |s.inflight| {
      var r := s.inflight[i];
      var x := Expire(s.policy, r, e.now, e.clock, e.up);
      assert Attached(s, r);
      ExpireKeeps(s.policy, r, e.now, e.clock, e.up);
      ExpireShape(s.policy, r, e.now, e.clock, e.up);
      var s1 := if x.launch.Some? then Transmit(s, x.launch.value, e.clock) else s;
      if x.launch.Some? {
        ReplayKeeps(s, i, x.launch.value, e.clock, e.up);
      }
      QuietMove(s1, i, x.verdict.r);
      ConcludeKeeps(s1, i, x.verdict, e.clock);
    }
  }

  lemma CancelKeeps(s: State, id: Id)
    requires Inv(s)
    ensures Inv(OnCancel(s, id))
  {
    var i := IndexOf(s.inflight, id);
    if i < |s.inflight| {
      var o := Cancelled(id);
      var s' := Tell(s.(inflight := RemoveAt(s.inflight, i)), o);
      LogGrows(s.log, o, s.tickets);
      LedgerEnds(s, i, o, s');
      OthersStay(s, i, o, s');
      NotifyKeeps(s');
    }
  }

  lemma ReturnKeeps(s: State)
    requires Inv(s)
    ensures Inv(OnReturn(s))
  {
    if s.frames != [] {
      var s' := s.(frames := s.frames[..|s.frames| - 1]);
      assert forall id :: Balanced(s', id) <==> Balanced(s, id);
      assert AllAttached(s') by {
        assert forall i :: 0 <= i < |s.inflight| ==> Attached(s, s.inflight[i]);
      }
      if s.frames[|s.frames| - 1] == Completion {
        NotifyKeeps(s');
      } else {
        assert s.frames == s'.frames + [Immediate];
      }
    }
  }

  ghost predicate Unheard(log: seq<Output>, id: Id) {
    HeardIds(log, id) == {} && HeardAddrs(log, id) == {}
  }

  /** Nothing in the history mentions an id without a ticket. */
  lemma FreshIsUnheard(s: State, id: Id)
    requires Inv(s) && id !in s.tickets
    ensures Unheard(s.log, id) && Quiet(s.log, id) && !InFlight(s.inflight, id)
  {
    assert Balanced(s, id);
    assert forall o :: o in s.log ==> EntryOk(o, s.log, s.tickets);
  }

  /** Recording a ticket for a fresh id. */
  lemma TicketKeeps(s: State, id: Id, t: Ticket)
    requires Inv(s) && id !in s.tickets && !t.accepted
    ensures Inv(s.(tickets := s.tickets[id := t]))
  {
    var s' := s.(tickets := s.tickets[id := t]);
    FreshIsUnheard(s, id);
    forall x ensures Balanced(s', x) {
      assert Balanced(s, x);
    }
    forall o | o in s.log ensures EntryOk(o, s.log, s'.tickets) {
      assert EntryOk(o, s.log, s.tickets);
    }
    forall i | 0 <= i < |s.inflight| ensures Attached(s', s.inflight[i]) {
      assert Attached(s, s.inflight[i]);
    }
  }

  lemma AdmitBalances(s: State, r: Request, s': State)
    requires Ledger(s) && Distinct(s.inflight) && !Accepted(s, r.id) && !InFlight(s.inflight, r.id)
    requires s' == s.(tickets := s.tickets[r.id := TicketFor(r, true)], inflight := [r] + s.inflight)
    ensures Ledger(s') && Distinct(s'.inflight)
  {
    forall id ensures Balanced(s', id) {
      assert Balanced(s, id);
      assert InFlight(s'.inflight, id) <==> InFlight(s.inflight, id) || id == r.id by {
        assert s'.inflight[0] == r;
        assert forall i :: 0 <= i < |s.inflight| ==> s'.inflight[i + 1] == s.inflight[i];
      }
    }
  }

  lemma AdmitKeeps(s: State, r: Request)
    requires Inv(s) && RequestInv(s.policy, r) && r.best.None? && !r.rebind
    requires r.id in s.tickets && s.tickets[r.id] == TicketFor(r, false)
    requires Unheard(s.log, r.id) && Quiet(s.log, r.id) && !InFlight(s.inflight, r.id)
    ensures Inv(s.(tickets := s.tickets[r.id := TicketFor(r, true)], inflight := [r] + s.inflight))
  {
    var s' := s.(tickets := s.tickets[r.id := TicketFor(r, true)], inflight := [r] + s.inflight);
    AdmitBalances(s, r, s');
    forall o | o in s.log ensures EntryOk(o, s.log, s'.tickets) {
      assert EntryOk(o, s.log, s.tickets);
    }
    assert IdSet(r.seenIds) == {} && IdSet(r.seenAddrs) == {};
    AskedIsHeard(s.log, r.id);
    forall i | 0 <= i < |s'.inflight| ensures Attached(s', s'.inflight[i]) {
      if i > 0 {
        assert Attached(s, s.inflight[i - 1]);
      }
    }
  }

  ghost function Unadmitted(s: State, e: Event): State
    requires e.Submit? && Submittable(s, e)
  {
    Transmit(s.(tickets := s.tickets[e.id := TicketFor(NewRequest(s, e), false)]), FirstLaunch(s, e), e.clock)
  }

  /** The first send of a fresh id, before the request is admitted. */
  lemma FirstSendKeeps(s: State, e: Event)
    requires Inv(s) && e.Submit? && e.id !in s.tickets && Submittable(s, e)
    ensures
      var s2 := Unadmitted(s, e);
      && Inv(s2)
      && Unheard(s2.log, e.id) && Quiet(s2.log, e.id) && !InFlight(s2.inflight, e.id)
  {
    var r := NewRequest(s, e);
    var l := FirstLaunch(s, e);
    var s0 := s.(tickets := s.tickets[e.id := TicketFor(r, false)]);
    FreshIsUnheard(s, e.id);
    TicketKeeps(s, e.id, TicketFor(r, false));
    RoundSendOk(s.policy, r, 0, e.clock, e.up, s0);
    TransmitKeeps(s0, l, e.clock);
    if l.Launched? {
      HeardTell(s.log, Sent(l.r.id, RoundSend, e.clock, l.to, l.r.packet), e.id);
      HeardFromTell(s.log, Sent(l.r.id, RoundSend, e.clock, l.to, l.r.packet), e.id);
    }
  }

  /** Admission is the unadmitted submission plus the link into the in-flight list. */
  lemma SubmitShape(s: State, e: Event)
    requires e.Submit? && Submittable(s, e)
    ensures !Admitted(s, e) ==> OnSubmit(s, e) == Unadmitted(s, e)
    ensures Admitted(s, e) ==>
              var s2 := Unadmitted(s, e);
              var r := FirstLaunch(s, e).r;
              && r.id == e.id && r.best.None? && !r.rebind && s2.policy == s.policy
              && s2.tickets[e.id] == TicketFor(r, false)
              && OnSubmit(s, e) == s2.(tickets := s2.tickets[r.id := TicketFor(r, true)], inflight := [r] + s2.inflight)
  {
  }

  lemma SubmitKeeps(s: State, e: Event)
    requires Inv(s) && e.Submit? && e.id !in s.tickets
    ensures Inv(OnSubmit(s, e))
  {
    if Submittable(s, e) {
      FirstSendKeeps(s, e);
      SubmitShape(s, e);
      if Admitted(s, e) {
        FirstRoundEstablishes(s.policy, NewRequest(s, e), e.clock, e.up);
        AdmitKeeps(Unadmitted(s, e), FirstLaunch(s, e).r);
      }
    }
  }

  lemma StepKeeps(s: State, e: Event)
    requires Inv(s) && Fresh(s, e)
    ensures Inv(Step(s, e))
  {
    match e
    case Servers(list) =>
      assert forall id :: Balanced(Step(s, e), id) <==> Balanced(s, id);
      assert forall i :: 0 <= i < |s.inflight| ==> Attached(s, s.inflight[i]);
    case SubmitEmpty =>
      TellKeeps(s, CalledEmpty);
      assert forall id :: Balanced(Step(s, e), id) <==> Balanced(Tell(s, CalledEmpty), id);
      assert forall i :: 0 <= i < |s.inflight| ==> Attached(Tell(s, CalledEmpty), s.inflight[i]);
    case Submit(_, _, _, _, _, _) => SubmitKeeps(s, e);
    case Datagram(_, _, _, _, _) => DatagramKeeps(s, e);
    case Timeout(_, _, _, _) => TimeoutKeeps(s, e);
    case Cancel(id) => CancelKeeps(s, id);
    case Return => ReturnKeeps(s);
  }

  /** Every run keeps the invariant. */
  lemma {:induction false} RunKeeps(s: State, es: seq<Event>)
    requires Inv(s) && FreshRun(s, es)
    ensures Inv(Run(s, es))
  {
    if es != [] {
      RunKeeps(s, es[..|es| - 1]);
      StepKeeps(Run(s, es[..|es| - 1]), es[|es| - 1]);
    }
  }
}
