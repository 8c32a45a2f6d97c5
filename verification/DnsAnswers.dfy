/**
 From the answer to an SRV lookup to the server list: which address lookups it leads to, and what is
 committed in the end, told from the events of the run.
 */
module DnsAnswers {
  import opened Machine
  import opened DnsRefresh
  import opened DnsRuns
  import R = Request
  import DT = DnsTheorems

  // ---------- what records ask for ----------

  /** The address lookups a list of records asks for: one for each record that names a server, in order. */
  function Usable(records: seq<Record>): seq<Kind> {
    if records == [] then []
    else
      var r := records[|records| - 1];
      Usable(records[..|records| - 1]) + if r.serverId.Some? then [Addr(r.serverId.value, r.port)] else []
  }

  lemma UsableMore(records: seq<Record>, n: nat)
    requires n < |records|
    ensures Usable(records[..n + 1])
         == Usable(records[..n]) + if records[n].serverId.Some? then [Addr(records[n].serverId.value, records[n].port)] else []
  {
    assert records[..n + 1][..n] == records[..n];
  }

  predicate Timed(r: Record, ttl: nat) { r.serverId.Some? && r.ttl == ttl > 0 }

  /** The least positive time to live of the records that name a server, or zero if none is positive. */
  ghost predicate LeastTime(records: seq<Record>, ttl: nat) {
    && (forall i :: 0 <= i < |records| && records[i].serverId.Some? && records[i].ttl > 0 ==> 0 < ttl <= records[i].ttl)
    && (ttl > 0 ==> exists i :: 0 <= i < |records| && Timed(records[i], ttl))
  }

  lemma LeastTimeMore(records: seq<Record>, n: nat, ttl: nat)
    requires n < |records| && LeastTime(records[..n], ttl)
    ensures LeastTime(records[..n + 1], if records[n].serverId.Some? then LeastTtl(ttl, records[n]) else ttl)
  {
    var front, more := records[..n], records[..n + 1];
    var ttl' := if records[n].serverId.Some? then LeastTtl(ttl, records[n]) else ttl;
    assert forall i :: 0 <= i < n ==> more[i] == front[i];
    if ttl' == ttl {
      if ttl > 0 {
        var i :| 0 <= i < |front| && Timed(front[i], ttl);
        assert Timed(more[i], ttl);
      }
    } else {
      assert Timed(more[n], ttl');
    }
  }

  // ---------- the story of a refresh ----------

  /** The lookup a step created, if any. */
  function NewKind(s: State, t: State): seq<Kind> {
    if t.nextId > s.nextId && t.nextId - 1 in t.lookups then [t.lookups[t.nextId - 1].kind] else []
  }

  /** What the current refresh has asked for, and what the SRV lookup was answered. */
  datatype Story = Story(asked: seq<Kind>, answer: Option<seq<Record>>)

  ghost function After(s: State, e: Event, t: State, story: Story): Story {
    var before := if e.Start? && !s.inflight then Story([], None) else story;
    Story(before.asked + NewKind(s, t),
          if e.SrvAnswer? && DT.Attached(s) then Some(if e.ok then e.records else []) else before.answer)
  }

  ghost function StoryOf(hasCancel: bool, es: seq<Event>): Story {
    if es == [] then Story([], None)
    else
      var s := Run(Init(hasCancel), es[..|es| - 1]);
      After(s, es[|es| - 1], Step(s, es[|es| - 1]), StoryOf(hasCancel, es[..|es| - 1]))
  }

  // ---------- what a refresh still has to ask ----------

  function Loops(stack: seq<Frame>): nat {
    if stack == [] then 0 else Loops(stack[..|stack| - 1]) + if stack[|stack| - 1].Records? then 1 else 0
  }

  /** The innermost suspended record loop. */
  function LoopFrame(stack: seq<Frame>): Option<Frame> {
    if stack == [] then None
    else if stack[|stack| - 1].Records? then Some(stack[|stack| - 1])
    else LoopFrame(stack[..|stack| - 1])
  }

  lemma PushLoop(stack: seq<Frame>, f: Frame)
    ensures Loops(stack + [f]) == Loops(stack) + if f.Records? then 1 else 0
    ensures LoopFrame(stack + [f]) == if f.Records? then Some(f) else LoopFrame(stack)
  {
    assert (stack + [f])[..|stack|] == stack;
  }

  lemma {:induction false} NoLoop(stack: seq<Frame>)
    ensures Loops(stack) == 0 <==> LoopFrame(stack).None?
  {
    if stack != [] {
      NoLoop(stack[..|stack| - 1]);
    }
  }

  /** The loop is suspended at record `n`, having found the least time to live before it. */
  ghost predicate Pauses(f: Frame, records: seq<Record>, n: nat) {
    n <= |records| && f.Records? && f.rest == records[n..] && LeastTime(records[..n], f.ttl)
  }

  /** The SRV lookup is out, and is the only one. */
  ghost predicate Unanswered(s: State, story: Story) {
    && story.answer.None? && story.asked == [Srv]
    && Loops(s.stack) == 0
    && s.refresh.Some? && s.refresh.value.minTtl == 0 && s.refresh.value.endpoints == []
    && (forall l :: l in s.lookups ==> s.lookups[l].kind == Srv)
    && (forall k, l :: k in s.lookups && l in s.lookups ==> k == l)
  }

  /** Everything up to record `n` has been asked, and the loop waits there; or all has been asked. */
  ghost predicate Answered(s: State, story: Story) {
    && story.answer.Some? && s.refresh.Some?
    && var records := story.answer.value;
    && (forall l :: l in s.open && l in s.lookups ==> s.lookups[l].kind.Addr?)
    && Asking(s.stack, s.refresh.value.minTtl, story.asked, records)
  }

  ghost predicate Asking(stack: seq<Frame>, minTtl: nat, asked: seq<Kind>, records: seq<Record>) {
    && Loops(stack) <= 1
    && match LoopFrame(stack)
       case None => asked == [Srv] + Usable(records) && LeastTime(records, minTtl)
       case Some(f) => exists n: nat :: Pauses(f, records, n) && asked == [Srv] + Usable(records[..n])
  }

  ghost predicate Follows(s: State, story: Story) {
    DT.Attached(s) ==> Unanswered(s, story) || Answered(s, story)
  }

  // ---------- steps that ask for nothing ----------

  /** Lookups may finish and the refresh may end, with what it has; nothing is asked. */
  ghost predicate Winds(s: State, t: State) {
    && t.nextId == s.nextId && t.open == s.open && t.stack == s.stack
    && (forall l :: l in t.lookups ==> l in s.lookups && t.lookups[l].kind == s.lookups[l].kind)
    && (if t.commits == s.commits then t.ttl == s.ttl
        else s.refresh.Some? && t.refresh.None? && t.ttl == s.refresh.value.minTtl && s.refresh.value.endpoints != [])
    && (t.refresh.Some? ==>
          && s.refresh.Some? && t.refresh.value.minTtl == s.refresh.value.minTtl && t.commits == s.commits
          && t.refresh.value.endpoints == s.refresh.value.endpoints
            && t.refresh.value.detached == s.refresh.value.detached)
  }

  lemma WindsThen(s: State, t: State, u: State)
    requires Winds(s, t) && Winds(t, u) && t.refresh.Some?
    ensures Winds(s, u)
  {
  }

  lemma CompleteWinds(s: State)
    ensures Winds(s, MaybeComplete(s))
  {
  }

  lemma SettleWinds(s: State, l: nat)
    requires l in s.lookups && s.refresh.Some?
    ensures Winds(s, Settle(s, l)) && Settle(s, l).refresh.Some? && l in Settle(s, l).lookups
  {
  }

  lemma DropWinds(s: State, l: nat)
    requires l in s.lookups && s.refresh.Some?
    ensures Winds(s, DropLookup(s, l)) && DropLookup(s, l).refresh.Some?
  {
  }

  lemma FinishWinds(s: State, l: nat)
    ensures Winds(s, LookupFinish(s, l))
  {
    if l in s.lookups && s.refresh.Some? {
      var s1 := Settle(s, l);
      SettleWinds(s, l);
      var s2 := if s.lookups[l].inCall then s1 else DropLookup(s1, l);
      DropWinds(s1, l);
      assert Winds(s, s2) && s2.refresh.Some? by {
        WindsThen(s, s1, s2);
      }
      CompleteWinds(s2);
      WindsThen(s, s2, MaybeComplete(s2));
    }
  }

  lemma LeaveWinds(s: State, l: nat, reqId: bool)
    requires l in s.lookups && s.refresh.Some?
    ensures Winds(s, Leave(s, l, reqId)) && l in Leave(s, l, reqId).lookups
  {
  }

  lemma LowerWinds(s: State)
    requires s.refresh.Some?
    ensures Winds(s, Lower(s)) && Lower(s).refresh.Some?
  {
  }

  lemma LeftWinds(s: State, l: nat, ok: bool, reqId: bool)
    requires l in s.lookups && s.refresh.Some?
    ensures var completed := s.lookups[l].completed;
      var s2 := Leave(if !ok && !completed then Settle(s, l) else s, l, ok && !completed && reqId);
      Winds(s, s2) && s2.refresh.Some? && l in s2.lookups
  {
    var completed := s.lookups[l].completed;
    var s1 := if !ok && !completed then Settle(s, l) else s;
    SettleWinds(s, l);
    LeaveWinds(s1, l, ok && !completed && reqId);
    WindsThen(s, s1, Leave(s1, l, ok && !completed && reqId));
  }

  lemma UnwoundWinds(s: State, l: nat, ok: bool, reqId: bool)
    requires l in s.lookups && s.refresh.Some?
    ensures Winds(s, DT.Unwound(s, l, ok, reqId)) && DT.Unwound(s, l, ok, reqId).refresh.Some?
  {
    var completed := s.lookups[l].completed;
    var s2 := Leave(if !ok && !completed then Settle(s, l) else s, l, ok && !completed && reqId);
    LeftWinds(s, l, ok, reqId);
    var s3 := if !ok || completed then DropLookup(s2, l) else s2;
    DropWinds(s2, l);
    WindsThen(s, s2, s3);
    LowerWinds(s3);
    WindsThen(s, s3, Lower(s3));
  }

  lemma CallWinds(s: State, l: nat, ok: bool, reqId: bool)
    requires l in s.lookups && s.refresh.Some?
    ensures Winds(s, AfterCall(s, l, ok, reqId))
  {
    var s1 := DT.Unwound(s, l, ok, reqId);
    DT.UnwoundQuiet(s, l, ok, reqId);
    UnwoundWinds(s, l, ok, reqId);
    CompleteWinds(s1);
    WindsThen(s, s1, MaybeComplete(s1));
  }

  // ---------- the record loop ----------

  /** What is committed comes of an SRV answer all of whose lookups have been asked for. */
  ghost predicate Told(t: State, story: Story) {
    && story.answer.Some?
    && story.asked == [Srv] + Usable(story.answer.value)
    && LeastTime(story.answer.value, t.ttl)
  }

  /** Every lookup is an old one, or the one just created. */
  ghost predicate Known(s: State, t: State) {
    forall l :: l in t.lookups ==>
      (l in s.lookups && t.lookups[l].kind == s.lookups[l].kind) || t.lookups[l].kind in NewKind(s, t)
  }

  /** After a step: an attached refresh is on its story, and a commit has told it. */
  ghost predicate Goes(s: State, t: State, story: Story) {
    && Follows(t, story)
    && (t.commits != s.commits ==> Told(t, story))
    && Known(s, t)
  }

  ghost predicate OnlyAddrs(s: State) { forall l :: l in s.open && l in s.lookups ==> s.lookups[l].kind.Addr? }

  /** A loop that is through leaves nothing to ask. */
  lemma LoopThrough(s: State, t: State, asked: seq<Kind>, records: seq<Record>)
    requires s.refresh.Some? && Winds(s, t) && OnlyAddrs(s) && Loops(s.stack) == 0
    requires asked == [Srv] + Usable(records) && LeastTime(records, s.refresh.value.minTtl)
    ensures NewKind(s, t) == [] && Goes(s, t, Story(asked, Some(records)))
  {
    NoLoop(s.stack);
  }

  lemma LoopAsks(s: State, f: Frame, kind: Kind, asked: seq<Kind>, records: seq<Record>, n: nat)
    requires s.refresh.Some? && s.clientAlive && OnlyAddrs(s) && Loops(s.stack) == 0
    requires kind.Addr? && Pauses(f, records, n) && asked + [kind] == [Srv] + Usable(records[..n])
    ensures var t := Schedule(s.(stack := s.stack + [f]), kind);
      NewKind(s, t) == [kind] && Goes(s, t, Story(asked + [kind], Some(records)))
  {
    PushLoop(s.stack, f);
    PushLoop(s.stack + [f], InCall(s.nextId));
  }

  lemma {:induction false} ContinueAsks(s: State, l: nat, rest: seq<Record>, ttl: nat, asked: seq<Kind>,
                      records: seq<Record>, n: nat)
    requires s.refresh.Some? && !s.refresh.value.detached && s.clientAlive && OnlyAddrs(s) && Loops(s.stack) == 0
    requires n <= |records| && rest == records[n..] && LeastTime(records[..n], ttl)
      && asked == [Srv] + Usable(records[..n])
    ensures var t := Continue(s, l, rest, ttl);
      Goes(s, t, Story(asked + NewKind(s, t), Some(records)))
    decreases |rest|
  {
    if rest == [] {
      assert records[..n] == records;
      var s1 := s.(refresh := Some(s.refresh.value.(minTtl := ttl)));
      FinishWinds(s1, l);
      LoopThrough(s1, LookupFinish(s1, l), asked, records);
      assert asked + [] == asked;
    } else {
      assert rest[1..] == records[n + 1..] && rest[0] == records[n];
      UsableMore(records, n);
      LeastTimeMore(records, n, ttl);
      if rest[0].serverId.None? {
        assert Usable(records[..n]) + [] == Usable(records[..n]);
        ContinueAsks(s, l, rest[1..], ttl, asked, records, n + 1);
      } else {
        var kind := Addr(rest[0].serverId.value, rest[0].port);
        assert asked + [kind] == [Srv] + (Usable(records[..n]) + [kind]);
        LoopAsks(s, Records(l, rest[1..], LeastTtl(ttl, rest[0])), kind, asked, records, n + 1);
      }
    }
  }

  // ---------- the events ----------

  lemma StartGoes(s: State, fits: bool, story: Story)
    requires Inv(s) && Allowed(s, Start(fits)) && Follows(s, story)
    ensures var t := OnStart(s, fits);
      Goes(s, t, After(s, Start(fits), t, story))
  {
    if s.inflight {
      assert story.asked + [] == story.asked;
    } else {
      StartIdle(s, fits);
    }
  }

  lemma StartIdle(s: State, fits: bool)
    requires Inv(s) && Allowed(s, Start(fits)) && !s.inflight
    ensures var t := OnStart(s, fits);
      && t.commits == s.commits
      && (DT.Attached(t) ==> Unanswered(t, Story([Srv], None)) && NewKind(s, t) == [Srv])
      && Known(s, t)
      && [] + [Srv] == [Srv]
  {
    assert Idle(s);
    if fits {
      PushLoop([], InCall(s.nextId + 1));
    }
  }

  lemma SrvUnanswered(s: State, l: nat, story: Story)
    requires Inv(s) && MayAnswer(s, l) && l in s.lookups && s.lookups[l].kind == Srv
    requires DT.Attached(s) && Follows(s, story)
    ensures Unanswered(s, story) && Spend(s, l).open == {}
  {
    assert s.open <= Waiting(s.lookups);
    assert forall k :: k in s.open ==> k == l;
  }

  lemma SrvGoes(s: State, l: nat, ok: bool, records: seq<Record>, story: Story)
    requires Inv(s) && Allowed(s, SrvAnswer(l, ok, records)) && DT.Attached(s) && Follows(s, story)
    ensures var t := SrvCallback(Spend(s, l), l, ok, records);
      Goes(s, t, After(s, SrvAnswer(l, ok, records), t, story))
  {
    AnswerKeeps(s, l);
    SrvUnanswered(s, l, story);
    var s1 := Spend(s, l);
    if !ok || records == [] {
      FinishWinds(s1, l);
      LoopThrough(s1, LookupFinish(s1, l), story.asked, []);
      assert story.asked + [] == story.asked;
    } else {
      assert records[..0] == [] && records[0..] == records && [Srv] + [] == [Srv];
      ContinueAsks(s1, l, records, 0, story.asked, records, 0);
    }
  }

  lemma WoundGoes(s: State, s1: State, t: State, story: Story)
    requires Winds(s1, t) && s1.commits == s.commits && s1.nextId == s.nextId && s1.lookups == s.lookups
    requires t.stack == [] || t.refresh.Some?
    requires s1.refresh.Some? && (Unanswered(s1, story) || Answered(s1, story))
    ensures Goes(s, t, Story(story.asked + NewKind(s, t), story.answer))
  {
    NoLoop(s1.stack);
    assert story.asked + [] == story.asked;
  }

  lemma EndsEmpty(s: State)
    requires Inv(s)
    ensures s.stack == [] || s.refresh.Some?
  {
  }

  /** Spending a callback and collecting addresses leaves the story where it is. */
  lemma CollectedStory(s: State, l: nat, s1: State, story: Story)
    requires s.refresh.Some? && Answered(s, story)
    requires s1 == Spend(s, l) || exists es :: s1 == Collect(Spend(s, l), es)
    ensures s1.refresh.Some? && Answered(s1, story)
    ensures s1.commits == s.commits && s1.nextId == s.nextId && s1.lookups == s.lookups
  {
  }

  lemma AddrAnswered(s: State, l: nat, story: Story)
    requires l in s.lookups && s.lookups[l].kind.Addr? && DT.Attached(s) && Follows(s, story)
    ensures Answered(s, story)
  {
  }

  lemma AddrIs(s: State, l: nat, ok: bool, addrs: seq<R.Addr>)
    requires s.refresh.Some? && !s.refresh.value.detached && l in s.lookups && s.lookups[l].kind.Addr?
    ensures AddrCallback(s, l, ok, addrs)
         == LookupFinish(if ok then Collect(s, EndpointsOf(s.lookups[l].kind, addrs)) else s, l)
  {
  }

  lemma AddrFacts(s: State, l: nat, ok: bool, addrs: seq<R.Addr>)
    requires Inv(s) && Allowed(s, AddrAnswer(l, ok, addrs))
    ensures l in s.lookups && s.lookups[l].kind.Addr?
    ensures var t := AddrCallback(Spend(s, l), l, ok, addrs); t.stack == [] || t.refresh.Some?
  {
    AnswerKeeps(s, l);
    AddrKeeps(Spend(s, l), l, ok, addrs);
    EndsEmpty(AddrCallback(Spend(s, l), l, ok, addrs));
  }

  lemma AddrWinds(s: State, l: nat, ok: bool, addrs: seq<R.Addr>, story: Story)
    requires l in s.lookups && s.lookups[l].kind.Addr? && DT.Attached(s) && Follows(s, story)
    requires var t := AddrCallback(Spend(s, l), l, ok, addrs); t.stack == [] || t.refresh.Some?
    ensures var t := AddrCallback(Spend(s, l), l, ok, addrs);
      Goes(s, t, Story(story.asked + NewKind(s, t), story.answer))
  {
    var s0 := Spend(s, l);
    AddrAnswered(s, l, story);
    AddrIs(s0, l, ok, addrs);
    var s1 := if ok then Collect(s0, EndpointsOf(s.lookups[l].kind, addrs)) else s0;
    CollectedStory(s, l, s1, story);
    FinishWinds(s1, l);
    WoundGoes(s, s1, LookupFinish(s1, l), story);
  }

  lemma AddrGoes(s: State, l: nat, ok: bool, addrs: seq<R.Addr>, story: Story)
    requires Inv(s) && Allowed(s, AddrAnswer(l, ok, addrs)) && DT.Attached(s) && Follows(s, story)
    ensures var t := AddrCallback(Spend(s, l), l, ok, addrs);
      Goes(s, t, Story(story.asked + NewKind(s, t), story.answer))
  {
    AddrFacts(s, l, ok, addrs);
    AddrWinds(s, l, ok, addrs, story);
  }

  // ---------- a hook returns ----------

  lemma PoppedStory(s: State, l: nat, ok: bool, story: Story)
    requires s.stack != [] && s.stack[|s.stack| - 1] == InCall(l) && s.refresh.Some?
    requires Unanswered(s, story) || Answered(s, story)
    ensures var s1 := Popped(s, l, ok);
      && (Unanswered(s1, story) || Answered(s1, story))
      && s1.commits == s.commits && s1.nextId == s.nextId && s1.refresh == s.refresh && s1.lookups == s.lookups
  {
    var rest := s.stack[..|s.stack| - 1];
    assert s.stack == rest + [InCall(l)];
    PushLoop(rest, InCall(l));
  }

  lemma ResumeFacts(s: State)
    requires Settled(s, false) && !TopOk(s.stack)
    ensures DT.Attached(s) && s.clientAlive
  {
    var rest, f := s.stack[..|s.stack| - 1], s.stack[|s.stack| - 1];
    assert s.stack == rest + [f];
    PopRecords(s, rest, f);
    MidFacts(s.(stack := rest), {f.l});
  }

  lemma MidFacts(s: State, running: set<nat>)
    requires Mid(s, running, {}, 0, false) && !s.refresh.value.detached
    ensures s.clientAlive
  {
  }

  lemma PausedAt(stack: seq<Frame>, f: Frame, minTtl: nat, asked: seq<Kind>, records: seq<Record>) returns (n: nat)
    requires f.Records? && Asking(stack + [f], minTtl, asked, records)
    ensures Loops(stack) == 0 && Pauses(f, records, n) && asked == [Srv] + Usable(records[..n])
  {
    PushLoop(stack, f);
    n :| Pauses(f, records, n) && asked == [Srv] + Usable(records[..n]);
  }

  lemma PausedStory(s: State, rest: seq<Frame>, f: Frame, story: Story)
    requires s.stack == rest + [f] && f.Records? && (Unanswered(s, story) || Answered(s, story))
    ensures Answered(s, story)
  {
    PushLoop(rest, f);
  }

  lemma PoppedLoopGoes(s: State, rest: seq<Frame>, t: State, story: Story)
    requires Goes(s.(stack := rest), t, story)
    ensures Goes(s, t, story)
  {
  }

  /** A suspended loop goes on where it was. */
  lemma ResumeGoes(s: State, story: Story)
    requires DT.Attached(s) && s.clientAlive && !TopOk(s.stack) && (Unanswered(s, story) || Answered(s, story))
    ensures var t := Resume(s);
      Goes(s, t, Story(story.asked + NewKind(s, t), story.answer))
  {
    var rest, f := s.stack[..|s.stack| - 1], s.stack[|s.stack| - 1];
    assert s.stack == rest + [f];
    PausedStory(s, rest, f, story);
    var records := story.answer.value;
    var n := PausedAt(rest, f, s.refresh.value.minTtl, story.asked, records);
    var s1 := s.(stack := rest);
    ContinueAsks(s1, f.l, f.rest, f.ttl, story.asked, records, n);
    PoppedLoopGoes(s, rest, Resume(s), Story(story.asked + NewKind(s1, Resume(s)), story.answer));
  }

  lemma SettledEnds(s: State)
    requires Settled(s, false)
    ensures s.stack == [] || s.refresh.Some?
  {
  }

  lemma WoundStory(s: State, t: State, story: Story)
    requires Winds(s, t) && t.refresh.Some? && s.refresh.Some? && (Unanswered(s, story) || Answered(s, story))
    ensures Unanswered(t, story) || Answered(t, story)
  {
  }

  lemma ReturnFacts(s: State, l: nat, ok: bool, reqId: bool, failedSrv: bool, id: nat)
    requires Returning(s, l, ok)
    ensures l in s.lookups && s.refresh.Some?
    ensures var s1 := AfterCall(s, l, ok, reqId);
      && (s1.stack == [] || s1.refresh.Some?)
      && (!TopOk(s1.stack) ==> DT.Attached(s1) && s1.clientAlive)
      && Returned(s, l, ok, reqId, failedSrv, id) == Resume(s1)
  {
    var s1 := AfterCall(s, l, ok, reqId);
    AfterCallKeeps(s, l, ok, reqId);
    StartTailIsDead(s1, id);
    SettledEnds(s1);
    if !TopOk(s1.stack) {
      ResumeFacts(s1);
    }
  }

  lemma ReturnWinds(s: State, s1: State, story: Story)
    requires Winds(s, s1) && s.refresh.Some? && (Unanswered(s, story) || Answered(s, story))
    requires s1.stack == [] || s1.refresh.Some?
    requires !TopOk(s1.stack) ==> DT.Attached(s1) && s1.clientAlive
    ensures var t := Resume(s1);
      Goes(s, t, Story(story.asked + NewKind(s, t), story.answer))
  {
    if TopOk(s1.stack) {
      WoundGoes(s, s, s1, story);
    } else {
      WoundStory(s, s1, story);
      ResumeGoes(s1, story);
    }
  }

  lemma ReturnedGoes(s: State, l: nat, ok: bool, reqId: bool, failedSrv: bool, id: nat, story: Story)
    requires Returning(s, l, ok) && (Unanswered(s, story) || Answered(s, story))
    ensures var t := Returned(s, l, ok, reqId, failedSrv, id);
      Goes(s, t, Story(story.asked + NewKind(s, t), story.answer))
  {
    ReturnFacts(s, l, ok, reqId, failedSrv, id);
    CallWinds(s, l, ok, reqId);
    ReturnWinds(s, AfterCall(s, l, ok, reqId), story);
  }

  lemma PoppedGoes(s: State, s1: State, t: State, story: Story)
    requires s1.commits == s.commits && s1.nextId == s.nextId && s1.lookups == s.lookups
    requires Goes(s1, t, Story(story.asked + NewKind(s1, t), story.answer))
    ensures Goes(s, t, Story(story.asked + NewKind(s, t), story.answer))
  {
  }

  lemma CallGoes(s: State, ok: bool, reqId: bool, story: Story)
    requires Inv(s) && Allowed(s, CallReturns(ok, reqId)) && DT.Attached(s) && Follows(s, story)
    ensures var t := OnCallReturns(s, ok, reqId);
      Goes(s, t, Story(story.asked + NewKind(s, t), story.answer))
  {
    var l := s.stack[|s.stack| - 1].l;
    PoppedKeeps(s, l, ok);
    CallReturnsIs(s, ok, reqId, l);
    PoppedStory(s, l, ok, story);
    var s1 := Popped(s, l, ok);
    ReturnedGoes(s1, l, ok, reqId, s.lookups[l].kind == Srv && !ok, s.refresh.value.id, story);
    PoppedGoes(s, s1, OnCallReturns(s, ok, reqId), story);
  }

  // ---------- every run ----------

  lemma DetachedGoes(s: State, e: Event, story: Story)
    requires Inv(s) && Allowed(s, e) && !e.Start? && !DT.Attached(s)
    ensures !DT.Attached(Step(s, e)) && Step(s, e).commits == s.commits
  {
    if s.refresh.Some? {
      DT.DetachedTouchesNothing(s, e);
    } else {
      NothingAllowed(s, e);
    }
  }

  lemma NothingAllowed(s: State, e: Event)
    requires Inv(s) && Allowed(s, e) && s.refresh.None? && !e.Start?
    ensures e.Destroy? && Step(s, e) == s.(clientAlive := false)
  {
  }

  lemma DestroyGoes(s: State, e: Event)
    requires Inv(s) && Allowed(s, e) && (e.Destroy? || e.CancelReturns?)
    ensures !DT.Attached(Step(s, e)) && Step(s, e).commits == s.commits
  {
    DT.EndsDetached(s, e);
    DT.StepChange(s, e);
  }

  lemma AttachedGoes(s: State, e: Event, story: Story)
    requires Inv(s) && Allowed(s, e) && Follows(s, story) && DT.Attached(s)
      && (e.SrvAnswer? || e.AddrAnswer? || e.CallReturns?)
    ensures Goes(s, Step(s, e), After(s, e, Step(s, e), story))
  {
    match e
    case SrvAnswer(l, ok, records) => SrvGoes(s, l, ok, records, story);
    case AddrAnswer(l, ok, addrs) => AddrGoes(s, l, ok, addrs, story);
    case CallReturns(ok, reqId) => CallGoes(s, ok, reqId, story);
  }

  /** What a step means for the story, whoever made it. */
  ghost predicate Carried(s: State, t: State, story: Story) {
    && Follows(t, story)
    && (t.commits != s.commits ==> Told(t, story))
    && (DT.Attached(t) ==> Known(s, t))
  }

  lemma StepGoes(s: State, e: Event, story: Story)
    requires Inv(s) && Allowed(s, e) && Follows(s, story)
    ensures Carried(s, Step(s, e), After(s, e, Step(s, e), story))
  {
    if e.Start? {
      StartGoes(s, e.nameFits, story);
    } else if !DT.Attached(s) {
      DetachedGoes(s, e, story);
    } else if e.Destroy? || e.CancelReturns? {
      DestroyGoes(s, e);
    } else {
      AttachedGoes(s, e, story);
    }
  }

  lemma {:induction false} RunGoes(hasCancel: bool, es: seq<Event>)
    requires AllowedRun(Init(hasCancel), es)
    ensures Follows(Run(Init(hasCancel), es), StoryOf(hasCancel, es))
  {
    if es != [] {
      var front := es[..|es| - 1];
      RunGoes(hasCancel, front);
      RunKeeps(hasCancel, front);
      StepGoes(Run(Init(hasCancel), front), es[|es| - 1], StoryOf(hasCancel, front));
    }
  }

  /**
   In every allowed run an attached refresh first asks for the SRV records, and nothing else before
   they are answered. Once the record loop of the answer is over, it has asked for the addresses of
   exactly the records that name a server, in their order, and knows their least time to live.
   */
  lemma RecordsAreAsked(hasCancel: bool, es: seq<Event>)
    requires AllowedRun(Init(hasCancel), es) && DT.Attached(Run(Init(hasCancel), es))
    ensures var s, story := Run(Init(hasCancel), es), StoryOf(hasCancel, es);
      if story.answer.None? then story.asked == [Srv]
      else if LoopFrame(s.stack).None? then
        story.asked == [Srv] + Usable(story.answer.value) && LeastTime(story.answer.value, s.refresh.value.minTtl)
      else exists n :: 0 <= n <= |story.answer.value| && story.asked == [Srv] + Usable(story.answer.value[..n])
  {
    RunGoes(hasCancel, es);
  }

  // ---------- what is committed ----------

  /** What the address lookups of the current refresh have been answered, address by address. */
  ghost function Deliveries(hasCancel: bool, es: seq<Event>): seq<(Kind, R.Addr)> {
    if es == [] then []
    else
      var front, e := es[..|es| - 1], es[|es| - 1];
      var s := Run(Init(hasCancel), front);
      if e.Start? && !s.inflight then []
      else if e.AddrAnswer? && e.ok && e.l in s.lookups && s.lookups[e.l].kind.Addr?
      then Deliveries(hasCancel, front) + Tagged(s.lookups[e.l].kind, e.addrs)
      else Deliveries(hasCancel, front)
  }

  function Tagged(kind: Kind, addrs: seq<R.Addr>): seq<(Kind, R.Addr)> {
    seq(|addrs|, i requires 0 <= i < |addrs| => (kind, addrs[i]))
  }

  /** The endpoint of a record and an address: the record's server and port, the rest of the address. */
  ghost predicate Made(p: Endpoint, kind: Kind, addr: R.Addr) {
    && kind.Addr? && p.known && p.serverId == kind.serverId
    && p.addr % 0x1_0000 == kind.port && p.addr / 0x1_0000 == addr / 0x1_0000
  }

  ghost predicate AllMade(ps: seq<Endpoint>, ds: seq<(Kind, R.Addr)>) {
    |ps| == |ds| && forall i :: 0 <= i < |ps| ==> Made(ps[i], ds[i].0, ds[i].1)
  }

  lemma EndpointsMade(kind: Kind, addrs: seq<R.Addr>)
    requires kind.Addr?
    ensures AllMade(EndpointsOf(kind, addrs), Tagged(kind, addrs))
  {
  }

  lemma {:induction false} DeliveredMade(hasCancel: bool, es: seq<Event>)
    ensures AllMade(DT.Delivered(hasCancel, es), Deliveries(hasCancel, es))
  {
    if es != [] {
      var front, e := es[..|es| - 1], es[|es| - 1];
      var s := Run(Init(hasCancel), front);
      DeliveredMade(hasCancel, front);
      if e.AddrAnswer? && e.ok && e.l in s.lookups && s.lookups[e.l].kind.Addr? {
        EndpointsMade(s.lookups[e.l].kind, e.addrs);
      }
    }
  }

  /** Every lookup alive, and every delivery, is of something this refresh asked for. */
  ghost predicate Sourced(s: State, story: Story, ds: seq<(Kind, R.Addr)>) {
    && (forall l :: l in s.lookups ==> s.lookups[l].kind in story.asked)
    && forall i :: 0 <= i < |ds| ==> ds[i].0 in story.asked
  }

  lemma StepSourced(s: State, t: State, story: Story, asked: seq<Kind>, answer: Option<seq<Record>>,
                    ds: seq<(Kind, R.Addr)>, more: seq<(Kind, R.Addr)>)
    requires Known(s, t) && Sourced(s, story, ds) && asked == story.asked + NewKind(s, t)
    requires forall i :: 0 <= i < |more| ==> more[i].0 in story.asked
    ensures Sourced(t, Story(asked, answer), ds + more)
  {
  }

  lemma StartSourced(s: State, t: State)
    requires s.lookups == map[] && Known(s, t)
    ensures Sourced(t, Story([] + NewKind(s, t), None), [])
  {
  }

  lemma StepKnown(hasCancel: bool, front: seq<Event>, e: Event)
    requires AllowedRun(Init(hasCancel), front) && Allowed(Run(Init(hasCancel), front), e)
    requires DT.Attached(Step(Run(Init(hasCancel), front), e))
    ensures Known(Run(Init(hasCancel), front), Step(Run(Init(hasCancel), front), e))
    ensures if e.Start? && !Run(Init(hasCancel), front).inflight then Run(Init(hasCancel), front).lookups == map[]
            else DT.Attached(Run(Init(hasCancel), front))
  {
    var s := Run(Init(hasCancel), front);
    RunKeeps(hasCancel, front);
    RunGoes(hasCancel, front);
    StepGoes(s, e, StoryOf(hasCancel, front));
    DT.StepCollects(s, e);
  }

  lemma {:induction false} RunSourced(hasCancel: bool, es: seq<Event>)
    requires AllowedRun(Init(hasCancel), es) && DT.Attached(Run(Init(hasCancel), es))
    ensures Sourced(Run(Init(hasCancel), es), StoryOf(hasCancel, es), Deliveries(hasCancel, es))
  {
    if es != [] {
      var front, e := es[..|es| - 1], es[|es| - 1];
      var s := Run(Init(hasCancel), front);
      var t := Step(s, e);
      StepKnown(hasCancel, front, e);
      if e.Start? && !s.inflight {
        StartSourced(s, t);
      } else {
        RunSourced(hasCancel, front);
        var more := if e.AddrAnswer? && e.ok && e.l in s.lookups && s.lookups[e.l].kind.Addr?
                    then Tagged(s.lookups[e.l].kind, e.addrs) else [];
        var story := After(s, e, t, StoryOf(hasCancel, front));
        StepSourced(s, t, StoryOf(hasCancel, front), story.asked, story.answer, Deliveries(hasCancel, front), more);
        assert Deliveries(hasCancel, front) + [] == Deliveries(hasCancel, front);
      }
    }
  }

  lemma DeliveriesSourced(hasCancel: bool, es: seq<Event>, e: Event)
    requires AllowedRun(Init(hasCancel), es) && DT.Attached(Run(Init(hasCancel), es)) && !e.Start?
    ensures forall i :: 0 <= i < |Deliveries(hasCancel, es + [e])| ==>
              Deliveries(hasCancel, es + [e])[i].0 in StoryOf(hasCancel, es + [e]).asked
  {
    assert (es + [e])[..|es|] == es;
    RunSourced(hasCancel, es);
  }

  /**
   What a commit puts in force, in every allowed run: the refresh's SRV lookup was answered with some
   records, an address lookup was made for each of them that names a server, and the new list is what
   those lookups delivered. Each endpoint has its record's server id and port and an address that was
   delivered for that record. The list's time to live is the least the records gave.
   */
  lemma CommitTellsAnswer(hasCancel: bool, es: seq<Event>, e: Event)
    requires AllowedRun(Init(hasCancel), es) && Allowed(Run(Init(hasCancel), es), e)
    requires !DT.Same(Run(Init(hasCancel), es), Step(Run(Init(hasCancel), es), e))
    ensures var t := Step(Run(Init(hasCancel), es), e);
            var story, ds := StoryOf(hasCancel, es + [e]), Deliveries(hasCancel, es + [e]);
      && Told(t, story)
      && t.servers != [] && AllMade(t.servers, ds)
      && forall i :: 0 <= i < |ds| ==> ds[i].0 in Usable(story.answer.value)
  {
    var t := Step(Run(Init(hasCancel), es), e);
    CommitTold(hasCancel, es, e);
    DT.CommitIsComplete(hasCancel, es, e);
    DeliveredMade(hasCancel, es + [e]);
    DeliveriesSourced(hasCancel, es, e);
    OnlyAddrsMade(t.servers, Deliveries(hasCancel, es + [e]), StoryOf(hasCancel, es + [e]).asked,
                  Usable(StoryOf(hasCancel, es + [e]).answer.value));
  }

  lemma CommitTold(hasCancel: bool, es: seq<Event>, e: Event)
    requires AllowedRun(Init(hasCancel), es) && Allowed(Run(Init(hasCancel), es), e)
    requires !DT.Same(Run(Init(hasCancel), es), Step(Run(Init(hasCancel), es), e))
    ensures Told(Step(Run(Init(hasCancel), es), e), StoryOf(hasCancel, es + [e])) && !e.Start?
    ensures DT.Attached(Run(Init(hasCancel), es))
  {
    var s := Run(Init(hasCancel), es);
    assert (es + [e])[..|es|] == es;
    RunKeeps(hasCancel, es);
    RunGoes(hasCancel, es);
    StepGoes(s, e, StoryOf(hasCancel, es));
    DT.StepChange(s, e);
  }

  lemma OnlyAddrsMade(ps: seq<Endpoint>, ds: seq<(Kind, R.Addr)>, asked: seq<Kind>, usable: seq<Kind>)
    requires AllMade(ps, ds) && asked == [Srv] + usable && forall i :: 0 <= i < |ds| ==> ds[i].0 in asked
    ensures forall i :: 0 <= i < |ds| ==> ds[i].0 in usable
  {
    forall i | 0 <= i < |ds| ensures ds[i].0 in usable {
      assert Made(ps[i], ds[i].0, ds[i].1);
    }
  }
}
