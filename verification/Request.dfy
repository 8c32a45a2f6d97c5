/**
 One in-flight request: its targets, its round clock, the responses it has heard
 and the candidate it holds. The functions are the request-level transitions of
 the engine; `RoundClock` is what every one of them keeps.
 */
module Request {
  import opened Machine
  import opened Products
  import opened Results
  import opened Schedule

  type Addr = nat
  type Id = seq<byte>

  datatype Endpoint = Endpoint(addr: Addr, serverId: nat, known: bool)

  datatype Phase = Round | Final

  datatype Status = StatusOk | Failed(code: Code)

  datatype Request = Request(
    id: Id,
    packet: seq<byte>,
    targets: seq<Endpoint>,
    allowed: seq<nat>,
    start: nat,
    dedupDeadline: nat,
    phase: Phase,
    round: nat,
    roundStart: nat,
    preference: nat,
    roundDeadline: nat,
    armed: nat,
    seenAddrs: seq<Addr>,
    seenIds: seq<nat>,
    rebind: bool,
    best: Option<Response>)

  // ---------- server age ----------

  const SERVER_EPOCH_S: nat := 1735689600

  function StartSeconds(serverId: nat): nat { SERVER_EPOCH_S + serverId / 0x80_0000 }

  predicate IsOlder(a: nat, b: nat) {
    || StartSeconds(a) < StartSeconds(b)
    || (StartSeconds(a) == StartSeconds(b) && a < b)
  }

  /** The start second is the id's high part, so age order is numeric order. */
  lemma OlderIsSmaller(a: nat, b: nat)
    ensures IsOlder(a, b) <==> a < b
  {
  }

  predicate OldestKnown(allowed: seq<nat>, serverId: nat) {
    forall i :: 0 <= i < |allowed| ==> !IsOlder(allowed[i], serverId)
  }

  lemma OldestIsLeast(allowed: seq<nat>, serverId: nat)
    ensures OldestKnown(allowed, serverId) <==> forall x :: x in allowed ==> serverId <= x
  {
    forall i | 0 <= i < |allowed| ensures IsOlder(allowed[i], serverId) <==> allowed[i] < serverId {
      OlderIsSmaller(allowed[i], serverId);
    }
    assert forall i :: 0 <= i < |allowed| ==> allowed[i] in allowed;
  }

  predicate Allowed(allowed: seq<nat>, serverId: nat) {
    allowed == [] || serverId in allowed
  }

  // ---------- membership snapshot ----------

  function Insert<T(==)>(xs: seq<T>, x: T): seq<T> {
    if x in xs then xs else xs + [x]
  }

  /** Server ids in first-occurrence order. */
  function DistinctIds(servers: seq<Endpoint>): seq<nat> {
    if servers == [] then []
    else Insert(DistinctIds(servers[..|servers| - 1]), servers[|servers| - 1].serverId)
  }

  predicate AllKnown(servers: seq<Endpoint>) {
    forall i :: 0 <= i < |servers| ==> servers[i].known
  }

  /** The ids a response may come from; empty means "any", when some id is unknown. */
  function AllowedIds(servers: seq<Endpoint>): seq<nat> {
    if AllKnown(servers) then DistinctIds(servers) else []
  }

  lemma {:induction false} DistinctIdsAreTheIds(servers: seq<Endpoint>, id: nat)
    ensures id in DistinctIds(servers) <==> exists i :: 0 <= i < |servers| && servers[i].serverId == id
  {
    if servers != [] {
      var front := servers[..|servers| - 1];
      DistinctIdsAreTheIds(front, id);
      assert forall i :: 0 <= i < |front| ==> front[i] == servers[i];
      if exists i :: 0 <= i < |servers| && servers[i].serverId == id {
        var i :| 0 <= i < |servers| && servers[i].serverId == id;
        assert i < |front| ==> front[i].serverId == id;
      }
    }
  }

  // ---------- sending ----------

  predicate Responded(r: Request, t: Endpoint) {
    if t.known then t.serverId in r.seenIds else t.addr in r.seenAddrs
  }

  predicate Skipped(r: Request, missingOnly: bool, i: nat)
    requires i < |r.targets|
  {
    missingOnly && Responded(r, r.targets[i])
  }

  /** The addresses a send goes to, among the first n targets. */
  function SendList(r: Request, missingOnly: bool, n: nat): seq<Addr>
    requires n <= |r.targets|
  {
    if n == 0 then []
    else SendList(r, missingOnly, n - 1)
         + if Skipped(r, missingOnly, n - 1) then [] else [r.targets[n - 1].addr]
  }

  /** How many of those sends the network takes; `up` holds the indices it does. */
  function Delivered(r: Request, missingOnly: bool, up: set<nat>, n: nat): nat
    requires n <= |r.targets|
  {
    if n == 0 then 0
    else Delivered(r, missingOnly, up, n - 1)
         + if !Skipped(r, missingOnly, n - 1) && n - 1 in up then 1 else 0
  }

  function AllAddrs(targets: seq<Endpoint>): seq<Addr> {
    seq(|targets|, i requires 0 <= i < |targets| => targets[i].addr)
  }

  lemma {:induction false} UnansweredSendReachesAll(r: Request, missingOnly: bool, n: nat)
    requires n <= |r.targets| && r.seenIds == [] && r.seenAddrs == []
    ensures SendList(r, missingOnly, n) == AllAddrs(r.targets)[..n]
  {
    if n > 0 {
      UnansweredSendReachesAll(r, missingOnly, n - 1);
      assert AllAddrs(r.targets)[..n] == AllAddrs(r.targets)[..n - 1] + [r.targets[n - 1].addr];
    }
  }

  // ---------- rounds ----------

  datatype Launch =
    | Refused(code: Code)
    | Launched(r: Request, to: seq<Addr>, delivered: nat)

  /** A round's send fails only when nothing at all got out. */
  predicate SendFailed(l: Launch) {
    l.Launched? && |l.to| > 0 && l.delivered == 0
  }

  ghost function EnterRound(p: Policy, r: Request, round: nat): Request {
    var begin := if round == 0 then r.start else r.roundDeadline;
    var end := Add64(begin, Mul64(p.unit as int, Gap(p.gap, round)));
    r.(phase := Round,
       round := round,
       roundStart := begin,
       roundDeadline := end,
       preference := if round == 0 then end else begin,
       armed := end)
  }

  ghost function StartRound(p: Policy, r: Request, round: nat, clock: nat, up: set<nat>): Launch {
    if round > p.replayCount as int || clock >= r.dedupDeadline then Refused(ErrTimeout)
    else if !LegalSchedule(p.gap, false) then Refused(ErrConfig)
    else
      var r' := EnterRound(p, r, round);
      Launched(r', SendList(r', round > 0, |r'.targets|), Delivered(r', round > 0, up, |r'.targets|))
  }

  function EnterFinal(p: Policy, r: Request): Request {
    var end := Add64(r.roundDeadline, Mul64(p.unit as int, p.finalUnits as int));
    r.(phase := Final,
       roundStart := r.roundDeadline,
       preference := r.roundDeadline,
       roundDeadline := end,
       armed := end)
  }

  // ---------- responses ----------

  function Better(best: Option<Response>, resp: Response): Option<Response> {
    if best.None? || IsOlder(resp.serverId, best.value.serverId) then Some(resp) else best
  }

  function Hear(r: Request, resp: Response, from: Addr): Request {
    r.(rebind := r.rebind || !resp.keepPort,
       seenAddrs := Insert(r.seenAddrs, from),
       seenIds := Insert(r.seenIds, resp.serverId),
       best := Better(r.best, resp))
  }

  /** What a request-level transition ends in. */
  datatype Verdict = Live(r: Request) | Done(r: Request, status: Status, result: Option<Response>)

  function Receive(r: Request, resp: Response, from: Addr, clock: nat): Verdict {
    var r' := Hear(r, resp, from);
    if OldestKnown(r'.allowed, r'.best.value.serverId) || clock >= r'.preference
    then Done(r', StatusOk, r'.best)
    else Live(if r'.preference < r'.armed then r'.(armed := r'.preference) else r')
  }

  datatype Expiry = Expiry(verdict: Verdict, launch: Option<Launch>)

  ghost function AfterLaunch(r: Request, launch: Launch): Verdict {
    match launch
    case Refused(code) => Done(r, Failed(code), None)
    case Launched(r', _, _) => if SendFailed(launch) then Done(r', Failed(ErrIo), None) else Live(r')
  }

  /** `now` is the timer's argument, `clock` the host clock a replay round reads. */
  ghost function Expire(p: Policy, r: Request, now: nat, clock: nat, up: set<nat>): Expiry {
    if now < r.armed then Expiry(Live(r), None)
    else if r.best.Some? then
      Expiry(if now >= r.preference then Done(r, StatusOk, r.best) else Live(r.(armed := r.preference)), None)
    else if now < r.roundDeadline then Expiry(Live(r.(armed := r.roundDeadline)), None)
    else if r.phase == Final then Expiry(Done(r, Failed(ErrTimeout), None), None)
    else if r.round < p.replayCount as int then
      var launch := StartRound(p, r, r.round + 1, clock, up);
      Expiry(AfterLaunch(r, launch), Some(launch))
    else if p.finalUnits == 0 then Expiry(Done(r, Failed(ErrTimeout), None), None)
    else Expiry(Live(EnterFinal(p, r)), None)
  }

  // ---------- the round clock ----------

  /** The exact end of round k-1, equivalently the start of round k. */
  ghost function Edge(p: Policy, start: nat, k: nat): nat {
    start + p.unit as int * GapSum(p.gap, k)
  }

  /** Round and final deadlines, written without reference to when timers fired. */
  ghost predicate RoundClock(p: Policy, r: Request) {
    var last := p.replayCount as int;
    && LegalPolicy(p, None)
    && r.dedupDeadline == r.start + Ttl(p) <= U64_MAX
    && r.round <= last
    && (r.phase == Round ==>
          && r.roundStart == Edge(p, r.start, r.round)
          && r.roundDeadline == Edge(p, r.start, r.round + 1)
          && r.preference == (if r.round == 0 then r.roundDeadline else r.roundStart))
    && (r.phase == Final ==>
          && r.round == last
          && p.finalUnits > 0
          && r.roundStart == r.preference == Edge(p, r.start, last + 1)
          && r.roundDeadline == r.dedupDeadline)
    && r.armed == (if r.best.Some? then r.preference else r.roundDeadline)
  }

  /** What the candidate and the answer lists have to do with each other. */
  ghost predicate Candidate(r: Request) {
    && (r.best.None? <==> r.seenIds == [])
    && (r.best.None? <==> r.seenAddrs == [])
    && (r.best.Some? ==> r.best.value.serverId in r.seenIds)
    && (r.best.Some? ==> forall x :: x in r.seenIds ==> r.best.value.serverId <= x)
    && (forall x :: x in r.seenIds ==> Allowed(r.allowed, x))
  }

  ghost predicate RequestInv(p: Policy, r: Request) {
    && RoundClock(p, r)
    && Candidate(r)
    && r.targets != []
    && r.allowed == AllowedIds(r.targets)
  }

  lemma MulDistributes(u: nat, a: nat, b: nat)
    ensures u * (a + b) == u * a + u * b
    ensures u > 0 && b > 0 ==> u * b > 0
  {
  }

  /** Adjacent edges are one gap apart. */
  lemma EdgeStep(p: Policy, start: nat, k: nat)
    requires LegalSchedule(p.gap, false) && p.unit > 0
    ensures Edge(p, start, k + 1) == Edge(p, start, k) + p.unit as int * Gap(p.gap, k)
    ensures Edge(p, start, k) < Edge(p, start, k + 1)
  {
    GapAtLeastOne(p.gap, k);
    MulDistributes(p.unit as int, GapSum(p.gap, k), Gap(p.gap, k));
  }

  /** Every edge is inside the deduplication window. */
  lemma EdgeInWindow(p: Policy, start: nat, k: nat)
    requires LegalSchedule(p.gap, false) && k <= p.replayCount as int + 1
    ensures Edge(p, start, k) <= start + Ttl(p)
  {
    GapSumGrows(p.gap, k, p.replayCount as int + 1);
    MulOrder(GapSum(p.gap, k), TotalUnits(p), p.unit as int);
  }

  lemma NoWrap(a: nat, u: nat, g: nat)
    requires a + u * g <= U64_MAX
    ensures Add64(a, Mul64(u, g)) == a + u * g
  {
  }

  /** The last deadline is the deduplication deadline. */
  lemma LastEdge(p: Policy, start: nat)
    requires LegalPolicy(p, None)
    ensures start + Ttl(p) == Edge(p, start, p.replayCount as int + 1) + p.unit as int * p.finalUnits as int
    ensures p.unit as int * p.finalUnits as int <= Ttl(p) <= U32_MAX
  {
    MulDistributes(p.unit as int, GapSum(p.gap, p.replayCount as int + 1), p.finalUnits as int);
  }

  /** Round k runs from edge k to edge k+1 with no 64-bit wrap, however late it is entered. */
  lemma EnterRoundIsExact(p: Policy, r: Request, round: nat)
    requires LegalPolicy(p, None) && round <= p.replayCount as int
    requires r.dedupDeadline == r.start + Ttl(p) <= U64_MAX
    requires round > 0 ==> r.roundDeadline == Edge(p, r.start, round)
    ensures EnterRound(p, r, round).roundStart == Edge(p, r.start, round)
    ensures EnterRound(p, r, round).roundDeadline == Edge(p, r.start, round + 1)
  {
    EdgeStep(p, r.start, round);
    EdgeInWindow(p, r.start, round + 1);
    assert Edge(p, r.start, 0) == r.start;
    NoWrap(Edge(p, r.start, round), p.unit as int, Gap(p.gap, round));
  }

  lemma EnterFinalIsExact(p: Policy, r: Request)
    requires RoundClock(p, r) && r.phase == Round && r.round == p.replayCount as int
    ensures EnterFinal(p, r).roundDeadline == r.dedupDeadline
  {
    LastEdge(p, r.start);
    NoWrap(r.roundDeadline, p.unit as int, p.finalUnits as int);
  }

  lemma RoundIsInside(p: Policy, r: Request)
    requires RoundClock(p, r) && r.phase == Round
    ensures r.roundStart < r.roundDeadline <= r.dedupDeadline
  {
    EdgeStep(p, r.start, r.round);
    EdgeInWindow(p, r.start, r.round + 1);
  }

  lemma FinalIsInside(p: Policy, r: Request)
    requires RoundClock(p, r) && r.phase == Final
    ensures r.roundStart < r.roundDeadline == r.dedupDeadline
  {
    LastEdge(p, r.start);
    MulDistributes(p.unit as int, 0, p.finalUnits as int);
  }

  // ---------- preservation ----------

  lemma HearKeepsCandidate(r: Request, resp: Response, from: Addr)
    requires Candidate(r) && Allowed(r.allowed, resp.serverId)
    ensures Candidate(Hear(r, resp, from))
  {
    if r.best.Some? {
      OlderIsSmaller(resp.serverId, r.best.value.serverId);
    }
  }

  lemma ReceiveKeeps(p: Policy, r: Request, resp: Response, from: Addr, clock: nat)
    requires RequestInv(p, r) && Allowed(r.allowed, resp.serverId)
    ensures Receive(r, resp, from, clock).Live? ==> RequestInv(p, Receive(r, resp, from, clock).r)
    ensures Candidate(Receive(r, resp, from, clock).r)
  {
    HearKeepsCandidate(r, resp, from);
    if r.phase == Round {
      RoundIsInside(p, r);
    } else {
      FinalIsInside(p, r);
    }
  }

  lemma ExpireKeeps(p: Policy, r: Request, now: nat, clock: nat, up: set<nat>)
    requires RequestInv(p, r)
    ensures Expire(p, r, now, clock, up).verdict.Live? ==> RequestInv(p, Expire(p, r, now, clock, up).verdict.r)
  {
    if r.phase == Round && r.best.None? && now >= r.armed {
      if r.round < p.replayCount as int {
        EnterRoundIsExact(p, r, r.round + 1);
      } else {
        EnterFinalIsExact(p, r);
      }
    }
  }

  /** Two states of one request that differ only in its round clock. */
  predicate SameBallot(r: Request, r': Request) {
    && r'.id == r.id && r'.packet == r.packet && r'.targets == r.targets && r'.allowed == r.allowed
    && r'.dedupDeadline == r.dedupDeadline
    && r'.seenIds == r.seenIds && r'.seenAddrs == r.seenAddrs
    && r'.best == r.best && r'.rebind == r.rebind
  }

  /** A timer hears nothing: it replays only an unanswered round, and answers only with the held candidate. */
  lemma ExpireShape(p: Policy, r: Request, now: nat, clock: nat, up: set<nat>)
    requires Candidate(r)
    ensures
      var x := Expire(p, r, now, clock, up);
      && SameBallot(r, x.verdict.r)
      && (x.launch.Some? ==> r.seenIds == [] && r.seenAddrs == [])
      && (x.launch.Some? ==> x.launch.value == StartRound(p, r, r.round + 1, clock, up))
      && (x.verdict.Done? ==> (x.verdict.status == StatusOk <==> x.verdict.result.Some?))
      && (x.verdict.Done? && x.verdict.result.Some? ==> x.verdict.result == r.best)
  {
  }

  /** Round 0 of a fresh request establishes the invariant. */
  lemma FirstRoundEstablishes(p: Policy, r: Request, clock: nat, up: set<nat>)
    requires LegalPolicy(p, None) && r.dedupDeadline == r.start + Ttl(p) <= U64_MAX
    requires r.best.None? && r.seenIds == [] && r.seenAddrs == []
    requires r.targets != [] && r.allowed == AllowedIds(r.targets)
    ensures StartRound(p, r, 0, clock, up).Launched? ==> RequestInv(p, StartRound(p, r, 0, clock, up).r)
  {
    EnterRoundIsExact(p, r, 0);
  }

  // ---------- timer progress ----------

  /** Timer calls a request can still absorb. */
  function TimerCallsLeft(p: Policy, r: Request): nat {
    if r.phase == Final || r.round > p.replayCount as int then 1
    else p.replayCount as int - r.round + 2
  }

  /** A timer call at or after the armed deadline finishes the request or uses up one call. */
  lemma ExpireProgresses(p: Policy, r: Request, now: nat, clock: nat, up: set<nat>)
    requires RequestInv(p, r) && now >= r.armed
    ensures
      var v := Expire(p, r, now, clock, up).verdict;
      v.Live? ==> TimerCallsLeft(p, v.r) < TimerCallsLeft(p, r)
  {
  }
}
