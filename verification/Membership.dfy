/** A client fed by DNS knows every server it talks to. */
module Membership {
  import opened Machine
  import opened Results
  import opened Schedule
  import opened Request
  import opened Client
  import CR = ClientRuns
  import opened ClientTheorems
  import Order = ClientOrder
  import DnsRefresh
  import DnsTheorems

  /** Every server list the host installs has known ids only. */
  predicate KnownFeed(es: seq<Event>) {
    forall i :: 0 <= i < |es| && es[i].Servers? ==> AllKnown(es[i].list)
  }

  predicate KnownTargets(list: seq<Request>) {
    forall i :: 0 <= i < |list| ==> AllKnown(list[i].targets)
  }

  lemma ConcludeKnown(s: State, i: nat, v: Verdict, clock: nat)
    requires KnownTargets(s.inflight) && i < |s.inflight| && v.r.targets == s.inflight[i].targets
    ensures KnownTargets(Conclude(s, i, v, clock).inflight)
    ensures Conclude(s, i, v, clock).servers == s.servers
  {
  }

  lemma ExpireTargets(p: Policy, r: Request, now: nat, clock: nat, up: set<nat>)
    ensures Expire(p, r, now, clock, up).verdict.r.targets == r.targets
  {
  }

  lemma TimeoutKnown(s: State, e: Event)
    requires e.Timeout? && KnownTargets(s.inflight)
    ensures KnownTargets(OnTimeout(s, e).inflight) && OnTimeout(s, e).servers == s.servers
  {
    var i := IndexOf(s.inflight, e.id);
    if i < |s.inflight| {
      var x := Expire(s.policy, s.inflight[i], e.now, e.clock, e.up);
      ExpireTargets(s.policy, s.inflight[i], e.now, e.clock, e.up);
      ConcludeKnown(if x.launch.Some? then Transmit(s, x.launch.value, e.clock) else s, i, x.verdict, e.clock);
    }
  }

  lemma DatagramKnown(s: State, e: Event)
    requires e.Datagram? && KnownTargets(s.inflight)
    ensures KnownTargets(OnDatagram(s, e).inflight) && OnDatagram(s, e).servers == s.servers
  {
    if Accepts(s, e) {
      var i := IndexOf(s.inflight, e.ingress.id);
      ConcludeKnown(Tell(s, Heard(e.ingress.id, Answer(e), e.from)), i, Receive(s.inflight[i], Answer(e), e.from, e.clock), e.sendClock);
    }
  }

  lemma SubmitKnown(s: State, e: Event)
    requires e.Submit? && KnownTargets(s.inflight) && AllKnown(s.servers)
    ensures KnownTargets(OnSubmit(s, e).inflight) && OnSubmit(s, e).servers == s.servers
  {
  }

  lemma CancelKnown(s: State, id: Id)
    requires KnownTargets(s.inflight)
    ensures KnownTargets(OnCancel(s, id).inflight) && OnCancel(s, id).servers == s.servers
  {
  }

  lemma StepKnown(s: State, e: Event)
    requires KnownTargets(s.inflight) && AllKnown(s.servers) && (e.Servers? ==> AllKnown(e.list))
    ensures KnownTargets(Step(s, e).inflight) && AllKnown(Step(s, e).servers)
  {
    match e
    case Submit(_, _, _, _, _, _) => SubmitKnown(s, e);
    case Datagram(_, _, _, _, _) => DatagramKnown(s, e);
    case Timeout(_, _, _, _) => TimeoutKnown(s, e);
    case Cancel(id) => CancelKnown(s, id);
    case _ =>
  }

  /** Under a known feed, every request in flight has known targets and its ids are exactly its servers'. */
  lemma {:induction false} MembershipIsKnown(policy: Policy, quota: Option<u32>, windowLimit: Option<nat>, hook: bool,
                      es: seq<Event>)
    requires KnownFeed(es)
    ensures var s := Run(Init(policy, quota, windowLimit, hook), es);
      KnownTargets(s.inflight) && AllKnown(s.servers)
  {
    if es != [] {
      var front := es[..|es| - 1];
      assert forall i :: 0 <= i < |front| ==> front[i] == es[i];
      MembershipIsKnown(policy, quota, windowLimit, hook, front);
      StepKnown(Run(Init(policy, quota, windowLimit, hook), front), es[|es| - 1]);
    }
  }

  lemma TimeoutTickets(s: State, e: Event)
    requires e.Timeout?
    ensures OnTimeout(s, e).tickets == s.tickets
  {
    var i := IndexOf(s.inflight, e.id);
    if i < |s.inflight| {
      var x := Expire(s.policy, s.inflight[i], e.now, e.clock, e.up);
      Order.ConcludeConstants(if x.launch.Some? then Transmit(s, x.launch.value, e.clock) else s, i, x.verdict, e.clock);
    }
  }

  lemma DatagramTickets(s: State, e: Event)
    requires e.Datagram?
    ensures OnDatagram(s, e).tickets == s.tickets
  {
    if Accepts(s, e) {
      var i := IndexOf(s.inflight, e.ingress.id);
      Order.ConcludeConstants(Tell(s, Heard(e.ingress.id, Answer(e), e.from)), i,
                              Receive(s.inflight[i], Answer(e), e.from, e.clock), e.sendClock);
    }
  }

  lemma SubmitTickets(s: State, e: Event)
    requires e.Submit?
    ensures forall id :: id in OnSubmit(s, e).tickets ==>
      (id in s.tickets && OnSubmit(s, e).tickets[id] == s.tickets[id]) || OnSubmit(s, e).tickets[id].targets
        == s.servers
  {
  }

  ghost predicate KnownTickets(tickets: map<Id, Ticket>) {
    forall id :: id in tickets ==> AllKnown(tickets[id].targets)
  }

  lemma StepTickets(s: State, e: Event)
    requires KnownTickets(s.tickets) && AllKnown(s.servers)
    ensures KnownTickets(Step(s, e).tickets)
  {
    match e
    case Submit(_, _, _, _, _, _) => SubmitTickets(s, e);
    case Datagram(_, _, _, _, _) => DatagramTickets(s, e);
    case Timeout(_, _, _, _) => TimeoutTickets(s, e);
    case _ =>
  }

  lemma {:induction false} TicketsAreKnown(policy: Policy, quota: Option<u32>, windowLimit: Option<nat>, hook: bool,
                      es: seq<Event>)
    requires KnownFeed(es)
    ensures KnownTickets(Run(Init(policy, quota, windowLimit, hook), es).tickets)
  {
    if es != [] {
      var front := es[..|es| - 1];
      assert forall i :: 0 <= i < |front| ==> front[i] == es[i];
      TicketsAreKnown(policy, quota, windowLimit, hook, front);
      MembershipIsKnown(policy, quota, windowLimit, hook, front);
      StepTickets(Run(Init(policy, quota, windowLimit, hook), front), es[|es| - 1]);
    }
  }

  // ---------- a client fed by DNS ----------

  /** The list in force after some run of the DNS lifecycle. */
  ghost predicate FromDns(list: seq<Endpoint>) {
    exists hasCancel: bool, ds: seq<DnsRefresh.Event> ::
      DnsRefresh.AllowedRun(DnsRefresh.Init(hasCancel), ds)
      && list == DnsRefresh.Run(DnsRefresh.Init(hasCancel), ds).servers
  }

  /** Every server list the client is given comes from DNS. */
  ghost predicate DnsFed(es: seq<Event>) {
    forall i :: 0 <= i < |es| && es[i].Servers? ==> FromDns(es[i].list)
  }

  lemma DnsListKnown(list: seq<Endpoint>)
    requires FromDns(list)
    ensures AllKnown(list)
  {
    var hasCancel: bool, ds: seq<DnsRefresh.Event> :|
      DnsRefresh.AllowedRun(DnsRefresh.Init(hasCancel), ds)
      && list == DnsRefresh.Run(DnsRefresh.Init(hasCancel), ds).servers;
    DnsTheorems.ServersAreKnown(hasCancel, ds);
  }

  lemma DnsFeedIsKnown(es: seq<Event>)
    requires DnsFed(es)
    ensures KnownFeed(es)
  {
    forall i | 0 <= i < |es| && es[i].Servers? ensures AllKnown(es[i].list) {
      DnsListKnown(es[i].list);
    }
  }

  /** In every run of a client fed by DNS, every request in flight and every ticket has known servers. */
  lemma DnsMembership(policy: Policy, quota: Option<u32>, windowLimit: Option<nat>, hook: bool, es: seq<Event>)
    requires DnsFed(es)
    ensures var s := Run(Init(policy, quota, windowLimit, hook), es);
      KnownTargets(s.inflight) && KnownTickets(s.tickets)
  {
    DnsFeedIsKnown(es);
    MembershipIsKnown(policy, quota, windowLimit, hook, es);
    TicketsAreKnown(policy, quota, windowLimit, hook, es);
  }

  /** Targets whose server id is not among those heard, in target order. */
  function Silent(targets: seq<Endpoint>, ids: set<nat>): seq<Addr> {
    if targets == [] then []
    else
      var last := targets[|targets| - 1];
      Silent(targets[..|targets| - 1], ids) + if last.serverId in ids then [] else [last.addr]
  }

  lemma {:induction false} KnownUnanswered(targets: seq<Endpoint>, ids: set<nat>, addrs: set<Addr>)
    requires AllKnown(targets)
    ensures CR.Unanswered(targets, ids, addrs) == Silent(targets, ids)
  {
    if targets != [] {
      KnownUnanswered(targets[..|targets| - 1], ids, addrs);
    }
  }

  /** Fed by DNS, completion delivery goes to exactly the endpoints whose server id has not answered. */
  lemma DnsDelivery(s: State, policy: Policy, quota: Option<u32>, windowLimit: Option<nat>, hook: bool,
                    es: seq<Event>, o: Output)
    requires Reached(s, policy, quota, windowLimit, hook, es) && DnsFed(es)
    requires o in s.log && o.Sent? && o.purpose == CompletionSend
    ensures o.id in s.tickets
    ensures o.to == Silent(s.tickets[o.id].targets, CR.HeardIds(s.log, o.id))
  {
    TransmissionDiscipline(s, policy, quota, windowLimit, hook, es, o);
    DnsMembership(policy, quota, windowLimit, hook, es);
    KnownUnanswered(s.tickets[o.id].targets, CR.HeardIds(s.log, o.id), CR.HeardAddrs(s.log, o.id));
  }

  /** Fed by DNS, arrival order never matters: the hypothesis of a known membership is always met. */
  lemma DnsArrivalOrder(
    s: State, policy: Policy, quota: Option<u32>, windowLimit: Option<nat>, hook: bool, es: seq<Event>,
    r: Request, a: seq<Event>, b: seq<Event>, ea: Event, eb: Event)
    requires Reached(s, policy, quota, windowLimit, hook, es) && DnsFed(es)
    requires r in s.inflight && r.phase == Round && r.round == 0 && r.best.None?
    requires FreshRun(s, a) && Order.Interleaving(r, a) && FreshRun(s, b) && Order.Interleaving(r, b)
    requires Order.Mine(r, a) != [] && Order.Ids(Order.Mine(r, a)) == Order.Ids(Order.Mine(r, b))
    requires ea.Timeout? && ea.id == r.id && ea.now >= r.roundDeadline
    requires eb.Timeout? && eb.id == r.id && eb.now >= r.roundDeadline
    ensures exists x: Response, y: Response ::
              && Order.Reported(Run(s, a + [ea]), r.id, Some(x))
              && Order.Reported(Run(s, b + [eb]), r.id, Some(y))
              && x.serverId == y.serverId
              && forall id :: id in Order.Ids(Order.Mine(r, a)) ==> x.serverId <= id
  {
    DnsMembership(policy, quota, windowLimit, hook, es);
    Order.ArrivalOrderIrrelevant(s, policy, quota, windowLimit, hook, es, r, a, b, ea, eb);
  }
}
