/** Turning a completed request into an admission decision. */
module Admission {
  import opened Machine
  import opened Results
  import opened Parse

  datatype Decision = Failed | Admitted | RateLimited | LatencyLimited | RateAndLatencyLimited

  datatype Outcome = Outcome(
    decision: Decision,
    allowed: bool,
    rateLimited: bool,
    latencyLimited: bool,
    deficit: nat,
    current: nat,
    threshold: nat)

  const NoOutcome := Outcome(Failed, false, false, false, 0, 0, 0)

  predicate SomeDeficit(r: Response) { exists x :: x in r.resources && x.deficit > 0 }

  predicate SomeFailure(r: Response) { exists g :: g in r.guards && !g.passed }

  /** The first deficit, if any: what the caller is told to wait for. */
  predicate FirstDeficit(r: Response, i: nat) {
    i < |r.resources| && r.resources[i].deficit > 0 && forall j :: 0 <= j < i ==> r.resources[j].deficit == 0
  }

  predicate FirstFailure(r: Response, i: nat) {
    i < |r.guards| && !r.guards[i].passed && forall j :: 0 <= j < i ==> r.guards[j].passed
  }

  method FindDeficit(r: Response) returns (found: bool, i: nat)
    ensures found <==> SomeDeficit(r)
    ensures found ==> FirstDeficit(r, i)
  {
    found := false;
    i := 0;
    while i < |r.resources|
      invariant i <= |r.resources|
      invariant forall j :: 0 <= j < i ==> r.resources[j].deficit == 0
    {
      if r.resources[i].deficit > 0 {
        return true, i;
      }
      i := i + 1;
    }
  }

  method FindFailure(r: Response) returns (found: bool, i: nat)
    ensures found <==> SomeFailure(r)
    ensures found ==> FirstFailure(r, i)
  {
    found := false;
    i := 0;
    while i < |r.guards|
      invariant i <= |r.guards|
      invariant forall j :: 0 <= j < i ==> r.guards[j].passed
    {
      if !r.guards[i].passed {
        return true, i;
      }
      i := i + 1;
    }
  }

  /** The class of a decision is the pair of its two flags. */
  predicate Classed(o: Outcome) {
    o.decision == if o.rateLimited && o.latencyLimited then RateAndLatencyLimited
                  else if o.latencyLimited then LatencyLimited
                  else RateLimited
  }

  method Classify(ok: bool, result: Option<Response>) returns (o: Outcome)
    ensures !ok || result.None? ==> o == NoOutcome
    ensures o.allowed <==> ok && result.Some? && result.value.success
    ensures o.allowed ==>
      && o.decision == Admitted && !o.rateLimited && !o.latencyLimited && o.deficit == 0
      && (if result.value.guards == [] then o.current == 0 && o.threshold == 0
          else o.current == result.value.guards[0].current && o.threshold == result.value.guards[0].threshold)
    ensures ok && result.Some? && !o.allowed ==>
      && Classed(o)
      && (o.rateLimited <==> SomeDeficit(result.value) || !SomeFailure(result.value))
      && (o.latencyLimited <==> SomeFailure(result.value))
    ensures ok && result.Some? && !o.allowed ==>
      && (forall i: nat :: FirstDeficit(result.value, i) ==> o.deficit == result.value.resources[i].deficit)
      && (forall i: nat :: FirstFailure(result.value, i) ==>
            o.current == result.value.guards[i].current && o.threshold == result.value.guards[i].threshold)
      && (!SomeDeficit(result.value) ==> o.deficit == 0)
      && (!SomeFailure(result.value) ==> o.current == 0 && o.threshold == 0)
  {
    o := NoOutcome;
    if !ok || result.None? {
      return;
    }
    var r := result.value;
    if r.success {
      if r.guards != [] {
        o := o.(current := r.guards[0].current, threshold := r.guards[0].threshold);
      }
      o := o.(decision := Admitted, allowed := true);
      return;
    }
    var rate, i := FindDeficit(r);
    if rate {
      o := o.(rateLimited := true, deficit := r.resources[i].deficit);
      UniqueDeficit(r, i);
    }
    var late, k := FindFailure(r);
    if late {
      o := o.(latencyLimited := true, current := r.guards[k].current, threshold := r.guards[k].threshold);
      UniqueFailure(r, k);
    }
    if !o.rateLimited && !o.latencyLimited {
      o := o.(rateLimited := true);
    }
    if o.rateLimited && o.latencyLimited {
      o := o.(decision := RateAndLatencyLimited);
    } else if o.latencyLimited {
      o := o.(decision := LatencyLimited);
    } else {
      o := o.(decision := RateLimited);
    }
  }

  lemma UniqueDeficit(r: Response, i: nat)
    requires FirstDeficit(r, i)
    ensures forall k: nat :: FirstDeficit(r, k) ==> k == i
  {
  }

  lemma UniqueFailure(r: Response, i: nat)
    requires FirstFailure(r, i)
    ensures forall k: nat :: FirstFailure(r, k) ==> k == i
  {
  }

  /**
   The wire parser and the classifier together. For every PDU the parser accepts under the caller's
   capacities, the decision is explained by the blocks of the PDU itself: allowed iff every guard
   passes and no deficit is left, rate limited iff some deficit is positive, latency limited iff some
   guard failed. The conservative fallback is never needed.
   */
  method ClassifyParsed(pdu: seq<byte>, guardCap: nat, resourceCap: nat, serverId: nat, keepPort: bool)
    returns (o: Option<Outcome>)
    ensures o.Some? <==> WellFormed(pdu) && GuardCount(pdu) <= guardCap && ResourceCount(pdu) <= resourceCap
    ensures o.Some? ==>
      var gs := ParsedGuards(pdu, GuardCount(pdu));
      var rs := ParsedResources(pdu, GuardsEnd(pdu), ResourceCount(pdu));
      && (o.value.allowed <==> AllPass(gs) && NoDeficit(rs))
      && (o.value.rateLimited <==> exists i :: 0 <= i < |rs| && rs[i].deficit > 0)
      && (o.value.latencyLimited <==> exists i :: 0 <= i < |gs| && !gs[i].passed)
      && (!o.value.allowed ==> Classed(o.value))
  {
    var parsed := ParseRateResponse(pdu, guardCap, resourceCap);
    if parsed.Err? {
      return None;
    }
    var p := parsed.value;
    var r := Response(serverId, keepPort, p.success, p.guards, p.resources);
    var outcome := Classify(true, Some(r));
    o := Some(outcome);
  }
}
