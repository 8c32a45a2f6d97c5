# A verified model of rl-c-client

This project models the C rate-limit client `rl-c-client` in Dafny and proves what it promises. The modules follow the
program's parts:

- **The HA request engine.** `Schedule` (replay gaps and the policy validator), `Request` (one request: targets, round
  clock, candidate), `Client` (the machine a host drives, with re-entrant callbacks), `Engine` (the same client as an
  object updated in place, with the source's loops), `ClientRuns` (the invariant of every run), and what follows:
  `ClientTheorems`, `ClientOrder`, `ClientCalls` (each call's effect on its request), `ClientFates` (why and when a
  request ends) and `Membership` (for clients fed by DNS).
- **The DNS refresh lifecycle.** `DnsRefresh` (the lifecycle over an explicit heap), `DnsObject` (the same as an object
  with the source's loops), `DnsRuns` (its invariant), `DnsTheorems`, `DnsAnswers` (from records to servers),
  `DnsCancels` (what is cancelled), and `ServerName` (ids in SRV target names).
- **The wire.** `Bytes`, `Wire` (formats and builders), `Parse` (the client's readers), `Responder` (the independently
  written test responder), `EndToEnd` and `Exchange` (the two sides together), `Service` (with the engine), `Admission`
  (the decision drawn from an answer), `ContentId` (the preimages of bucket and tracker ids).
- **Credentials.** `Bech32` (checksum), `Bech32Field` (its algebra), `Regroup` (5-to-8-bit regrouping), `Quota`,
  `Credential` (the decoder as a function), `CredentialDecoder` (its loops), `CredentialTheorems`.
- **The load generator.** `Pacer` and `Histogram`.
- **The Lwan bridge.** `Bridge` (coroutines, client thread and shutdown as interleaved atomic steps), `BridgeRuns`,
  `BridgeTheorems`, `BridgeJobs` (each job's way through it), `BridgeOrder` (order, expiry and shutdown).

`Machine`, `Products`, `Lists` and `Results` hold what several parts share.
`dafny verify dfyconfig.toml` checks everything.

## How the model reads the program

- **Hosts and callbacks.** The client never blocks, so a run is a list of host actions. While a completion callback
  runs, the host may submit, cancel, feed datagrams or fire timers; `Client.State.frames` is the stack of callbacks
  that have not returned. The steering hook runs after a completion callback returns, or from inside a callback that
  itself cancels the last other request (`include/r_client_io.h:53-54` speaks only of the first); the safety claim is
  therefore stated as "nothing is in flight", which holds in both.
- **Two clocks.** A timer call carries its own `now`; every other reading is of the host clock. They need not agree.
  Claims about the timer path speak of `now`, claims about the receive and send paths of the host clock; no theorem
  needs the two to be equal.
- **64-bit and 32-bit arithmetic** is written out (`Add64`, `Mul64`, `Wrap`) and proved not to wrap where the source
  relies on it.
- **Memory** in the DNS lifecycle and the bridge is an explicit heap: using a record after it was freed sets `fault`,
  and the theorems say that never happens.
- **The resolver** may answer inside its call, later, or after the client is gone. It is assumed to call back at most
  once per lookup, not after its call returned an error, and to complete at most the named lookup when asked to cancel.
- **AES-GCM** is an ideal pair of functions: opening what was sealed with the same key, nonce and associated bytes
  gives the text back, and the cipher text is as long as the plain text.
- Request ids are fresh and memory allocation succeeds.

What the proofs brought out:

- `src/r_client.c:846-850`, which frees an idle refresh after a failed SRV lookup, is never reached with anything to
  free (`DnsRuns.StartTailIsDead`): the refresh has always been completed by then.
- `r_parse_server_id_from_target` accumulates without an overflow check, so for every accepted target the id equals
  the number in the name exactly when that number fits in 64 bits (`ServerName.IdIsNumber`). Two targets share an id
  exactly when their numbers are equal modulo 2^64 (`ServerName.SharedIds`): a leading zero does that however
  small the number (`ServerName.LeadingZeroShares`), and so does a number 2^64 higher (`ServerName.WideNamesCollide`).
- The choice of the oldest server is independent of arrival order because the membership is known: with one
  unknown server in the snapshot the first response that counts wins (`ClientOrder.UnknownTakesFirst`). A list that
  DNS installs has none (`Membership.DnsArrivalOrder`).
- The responder takes a framed request exactly when its label is at most 256 bytes (`Exchange.RequestRecovered`,
  `Exchange.LongLabelRefused`).

## Model

| member | source | states |
|---|---|---|
| `Schedule.ScheduleUnits` | src/r_client.c:222-274 | accepts exactly the legal schedules; the gap of a round is min(max, initial + round*step) or min(max, initial*factor^round), with no overflow on the way |
| `Schedule.LinearUnits` | src/r_client.c:240-252 | the overflow-checked loop-free linear growth equals the capped mathematical value |
| `Schedule.ExponentialUnits` | src/r_client.c:253-267 | the saturating loop computes min(max, initial * factor^round) for every round |
| `Schedule.RoundUnits` | src/r_client.c:297-315 | the running total over all rounds is the exact sum of gaps; it gives up only when no legal policy has such gaps |
| `Schedule.PolicyTtl` | src/r_client.c:276-328 | a policy is accepted iff its parameters are legal and unit * (sum of gaps + final) is within the credential's limit; the result is that product and not zero |
| `Request.OlderIsSmaller` | src/r_client.c:203-205 | age order by start second and id is numeric order of ids |
| `Request.OldestIsLeast` | src/r_client.c:408-425 | "no allowed server is older" means the id is least among the allowed ids |
| `Request.DistinctIdsAreTheIds` | src/r_client.c:945-988 | the allowed ids of a snapshot are exactly the ids of its endpoints |
| `Request.UnansweredSendReachesAll` | src/r_client.c:1105-1126 | while no response has been accepted, a "missing only" send goes to every target |
| `Request.EnterRoundIsExact` | src/r_client.c:1431-1439 | round k runs from start + unit*sum(gap 0..k-1) to start + unit*sum(gap 0..k) however late it is entered, and no 64-bit addition wraps |
| `Request.EnterFinalIsExact` | src/r_client.c:1445-1463 | the final phase ends exactly at the deduplication deadline |
| `Request.LastEdge` | src/r_client.c:1816-1820 | the last deadline equals start + ttl |
| `Request.ReceiveKeeps` | src/r_client.c:2098-2128 | an accepted response keeps the round clock, the armed deadline rule and the candidate rule |
| `Request.ExpireKeeps` | src/r_client.c:2143-2210 | so does every timer call |
| `Request.ExpireProgresses` | src/r_client.c:2143-2210 | a timer call at or after the armed deadline completes the request or leaves strictly fewer effective calls |
| `Request.FirstRoundEstablishes` | src/r_client.c:1816-1841 | a submitted request enters round 0 with all of that established |
| `Engine.FindRequest` | src/r_client.c:2050-2056 | the scan finds the first request in flight with the id, or none |
| `Engine.AddSeen` | src/r_client.c:348-390 | adds an element exactly when it is not there |
| `Engine.IsOldestKnown` | src/r_client.c:408-425 | true iff the id is least among the allowed ids |
| `Engine.Snapshot` | src/r_client.c:945-988 | each server id once in first-occurrence order, none if any is unknown |
| `Engine.SendTo` | src/r_client.c:1150-1193 | the send loop reaches exactly the targets not skipped, in order, and counts exactly the deliveries |
| `Engine.Engine.BeginRound` | src/r_client.c:1406-1443 | the new state, the request and the error of entering a round are those of the model's round start |
| `Engine.Engine.CompleteRequest` | src/r_client.c:1477-1511 | completion is one delivery to the servers that did not answer (in time and if enabled), unlinking, and one callback |
| `Engine.Engine.NotifySteering` | src/r_client.c:1467-1475 | the hook runs exactly if pending, drained and installed, and consumes the flag |
| `Engine.Engine.CallbackReturns` | src/r_client.c:1505-1510 | a returning completion callback notifies steering, an immediate one does not |
| `Engine.Engine.CancelRequest` | src/r_client.c:2216-2225 | cancelling takes the client through the model's cancel step |
| `Engine.Engine.Accept` | src/r_client.c:2094-2128 | an accepted response updates rebind flag, seen lists and candidate, then completes or re-arms, as the model's receive step |
| `Engine.Engine.ReceiveDatagram` | src/r_client.c:2034-2130 | a datagram takes the client through the model's step; an error return means the wire layer refused it and nothing changed |
| `Engine.Engine.Replay` | src/r_client.c:2165-2180 | a replay round that cannot be entered or sent completes the request with that error |
| `Engine.Engine.Expired` | src/r_client.c:2143-2196 | the policy's reaction to an expired timer is the model's |
| `Engine.Engine.FireTimer` | src/r_client.c:2198-2210 | a timer call takes the client through the model's step |
| `Engine.Engine.SubmitRequest` | src/r_client.c:1736-1853 | a submission takes the client through the model's step and returns no error exactly when the request is in flight |
| `Engine.Engine.SubmitNothing` | src/r_client.c:1708-1735 | an empty request calls back at once and puts nothing in flight |
| `Engine.Engine.SetServers` | src/r_client.c:651-661 | a new server list takes the client through the model's step; requests in flight keep their snapshot |
| `ClientRuns.StepKeeps` | src/r_client.c:1477-1511 | every host action keeps the client invariant: ledger, log, request invariants, steering |
| `ClientRuns.RunKeeps` | src/r_client.c:1477-1511 | so does every run |
| `ClientTheorems.ExactlyOnce` | src/r_client.c:488-501 | in every run an admitted request is in flight, called back or cancelled, exactly one of these and once; OK carries an accepted response with the least id heard, anything else carries none |
| `ClientTheorems.TransmissionDiscipline` | src/r_client.c:1105-1223 | every send repeats the request's packet and passed its clock check before the deduplication deadline; every round reaches all targets; completion delivery reaches exactly the endpoints that had not answered, by server id, or by address where the id is unknown |
| `ClientTheorems.SteeringDrains` | src/r_client.c:1467-1511 | the hook runs only with nothing in flight; the pending flag is set exactly when a completion that was asked to rebind came after the last hook call; outside callbacks a pending flag means something is in flight |
| `ClientTheorems.DeadlinesTelescope` | src/r_client.c:1431-1461 | in every run a request's deadlines are start + unit * sum of gaps, the last one start + ttl, within 64 bits; the armed deadline is the preference deadline with a candidate and the round deadline without |
| `ClientTheorems.EarlySuccessIsOldest` | src/r_client.c:2121-2128 | before the end of round 0 a response completes the request exactly when the best so far is by the oldest allowed server |
| `ClientTheorems.TimerSuccessIsLate` | src/r_client.c:2151-2158 | in every run a timer that reports a round-0 success fires at or after the end of the round by its own clock, and hands over the candidate |
| `ClientCalls.TimerCall` | src/r_client.c:2132-2210 | in every run, the whole effect of a timer call on its request, as a table: too early nothing; with a response in hand that response is handed over; an unanswered round is replayed to every server, entering the next round, or after the last one the final phase; only then a timeout |
| `ClientCalls.ResponseCall` | src/r_client.c:2094-2128 | in every run, the whole effect of an accepted response, in and after round 0: handed over at once, or kept with the preferred of the two and the deadline that then counts |
| `ClientCalls.SubmitCall` | src/r_client.c:1736-1853 | in every state, the whole effect of a submission: granted exactly within the credential's windows and quota, sent once to every server in force, in flight exactly when one send got through |
| `ClientFates.OneSendPerRound` | src/r_client.c:1406-1443 | in every run a request in round k has been sent exactly k + 1 times |
| `ClientFates.FailuresAreExplained` | src/r_client.c:2143-2196 | in every run a callback without success is explained by a timer call of that request: a replay the network took nothing of, or a clock at or past the deduplication deadline with every replay sent |
| `ClientFates.StaysUntilDeadline` | src/r_client.c:2164-2196 | an unanswered request stays in flight, whatever happens to others, while it is not cancelled and its timer calls come before that deadline and get a send through |
| `ClientFates.WindowWithinQuota` | src/r_client.c:276-328 | in every run the window of every request in flight is within the credential's quota |
| `ClientFates.HookIsInstalled` | src/r_client.c:1467-1475 | in every run a steering call means a hook was installed |
| `ClientFates.ServersInForce` | src/r_client.c:651-661 | in every run the servers in force are those installed last |
| `ClientOrder.TimersFinish` | src/r_client.c:2143-2210 | in every run at most replay_count + 2 timer calls at or after the armed deadline are absorbed by one request, and that many finish it, whatever happens in between |
| `ClientOrder.ArrivalOrderIrrelevant` | src/r_client.c:401-474 | for a request of a known membership in round 0 with nothing heard, in any reached state: two runs in which the same servers answer before the deadline, in any order and number and with any foreign events between, and then the round timer fires, report the same server, the oldest that answered |
| `ClientOrder.Arrivals` | src/r_client.c:2098-2128 | after any such interleaving the request holds, or has reported, the response with the least id heard so far |
| `ClientOrder.SameResponse` | src/r_client.c:401-474 | if moreover no server contradicts itself, the whole reported response is the same |
| `ClientOrder.UnknownTakesFirst` | src/r_client.c:408-425 | the known membership is needed: with an unknown server in the snapshot the first response that counts ends the wait |
| `ClientOrder.PickIsLeast` | src/r_client.c:455-474 | the candidate after any arrivals is one of them with the least server id |
| `ClientOrder.NoiseErases` | src/r_client.c:2034-2096 | deleting every datagram that was not accepted from a run gives the same state and history |
| `Membership.MembershipIsKnown` | src/r_client.c:945-988 | if every installed server list has known ids, so has every request in flight, in every run |
| `Membership.DnsMembership` | src/r_client.c:915-922 | in every run of a client whose server lists come from runs of the DNS lifecycle, every request in flight and every ticket has known servers |
| `Membership.DnsDelivery` | src/r_client.c:1214-1223 | fed by DNS, completion delivery goes to exactly the endpoints whose server id has not answered |
| `Membership.DnsArrivalOrder` | src/r_client.c:401-474 | fed by DNS, arrival order is irrelevant as above with no hypothesis on the membership |
| `DnsObject.Unlink` | src/r_client.c:618-631 | removes the first occurrence and nothing else |
| `DnsObject.Refresher.FreeAll` | src/r_client.c:602-608 | frees each lookup once; a second free or a free of a dead one is a fault |
| `DnsObject.Refresher.Free` | src/r_client.c:633-640 | frees the linked lookups and the refresh |
| `DnsObject.Refresher.FinishRefresh` | src/r_client.c:642-667 | commits a non-empty answer, clears the client's flags, frees |
| `DnsObject.Refresher.CompleteIfIdle` | src/r_client.c:669-678 | acts only when both counters are zero |
| `DnsObject.Refresher.FinishLookup` | src/r_client.c:680-695 | the model's lookup completion |
| `DnsObject.Refresher.RecordLoop` | src/r_client.c:901-926 | the SRV record loop up to the next resolver hook is the model's |
| `DnsObject.Refresher.SrvAnswered` | src/r_client.c:891-927 | an SRV callback is the model's step |
| `DnsObject.Refresher.AddrAnswered` | src/r_client.c:929-943 | an address callback is the model's step |
| `DnsObject.Refresher.SettleCall` | src/r_client.c:761-782 | what follows a resolver hook's return is the model's |
| `DnsObject.Refresher.HookReturned` | src/r_client.c:759-783 | with the record loop it suspended and the caller's clean-up |
| `DnsObject.Refresher.StartRefresh` | src/r_client.c:825-852 | starting a refresh is the model's step |
| `DnsObject.Refresher.CancelLoop` | src/r_client.c:697-731 | the cancel loop and the end of a detach are the model's |
| `DnsObject.Refresher.CancelReturned` | src/r_client.c:702-708 | the cancel loop resumes at the saved successor as in the model's step |
| `DnsObject.Refresher.DestroyClient` | src/r_client.c:1661-1683 | destroying the client is the model's step |
| `DnsRuns.StepKeeps` | src/r_client.c:581-852 | every action the contract allows keeps the lifecycle invariant |
| `DnsRuns.RunKeeps` | src/r_client.c:581-852 | so does every run |
| `DnsRuns.StartTailIsDead` | src/r_client.c:846-850 | the clean-up after a failed SRV lookup changes nothing |
| `DnsTheorems.MemorySafe` | src/r_client.c:680-731 | in every allowed run nothing freed is used or freed again, no live refresh is overwritten and no dead client is touched |
| `DnsTheorems.PendingIsExact` | src/r_client.c:669-695 | `pending` is the number of linked uncompleted lookups, and the list holds every lookup alive once |
| `DnsTheorems.FreedExactlyOnce` | src/r_client.c:602-640 | every lookup and refresh ever allocated is alive or was freed exactly once, never both |
| `DnsTheorems.NothingLeaks` | src/r_client.c:669-678 | once no callback is owed and no hook runs, nothing is left allocated |
| `DnsTheorems.EndpointsAreDelivered` | src/r_client.c:929-943 | in every allowed run an attached refresh holds exactly the endpoints that successful address answers delivered since it started, in order |
| `DnsTheorems.CommitIsComplete` | src/r_client.c:642-678 | in every allowed run the server list changes only when an attached refresh is over, with no lookup, hook or owed callback left, to the non-empty list of everything delivered since it started, all ids known |
| `DnsTheorems.OverMeansCommitted` | src/r_client.c:642-678 | conversely a refresh that ends while attached has been committed, unless nothing at all was delivered, and then the servers stay |
| `DnsAnswers.RecordsAreAsked` | src/r_client.c:891-927 | in every allowed run an attached refresh asks first for the SRV records; once their loop is over it has asked for the addresses of exactly the records that name a server, in order, and knows their least time to live |
| `DnsAnswers.CommitTellsAnswer` | src/r_client.c:642-667 | what a commit puts in force: one endpoint per delivered address, in order, each with the server id and port of the record it was asked for; every such record was asked; the time to live is the least given |
| `DnsCancels.IdsAreGiven` | src/r_client.c:759-783 | exactly the lookups whose hook returned well with an id carry one |
| `DnsCancels.LookupsNewestFirst` | src/r_client.c:610-631 | the list of lookups is kept newest first |
| `DnsCancels.DestroyCancels` | src/r_client.c:697-731 | destroying a client in mid-refresh asks the resolver to cancel exactly the unfinished lookups it gave an id for, once each and in list order, however callbacks interleave |
| `DnsTheorems.DetachedTouchesNothing` | src/r_client.c:711-731 | a detached refresh never changes the client, however late its callbacks |
| `DnsTheorems.ServersAreKnown` | src/r_client.c:651-661 | the servers in force are known, and once a list was committed it is never replaced by an empty one |
| `ServerName.Parse` | src/r_client.c:537-564 | accepts exactly the targets whose first label is `s-` and digits; the id is the 64-bit accumulation of the digits, the number modulo 2^64 |
| `ServerName.IdIsNumber` | src/r_client.c:552-559 | for every accepted target the id is the number in the name iff the number fits in 64 bits |
| `ServerName.SharedIds` | src/r_client.c:552-559 | two accepted targets share an id iff their numbers are equal modulo 2^64 |
| `ServerName.WideNamesCollide` | src/r_client.c:552-559 | under any domain every id has a second accepted name, 2^64 higher |
| `ServerName.LeadingZeroShares` | src/r_client.c:552-559 | a leading zero makes another accepted name with the same id |
| `Bytes.ReadWritten` | src/r_protocol.c:5-48 | reading what was written little-endian gives the number back |
| `Bytes.WriteRead` | src/r_protocol.c:5-48 | and writing what was read gives the bytes back |
| `Wire.AppendLabel` | src/r_protocol.c:175-211 | appends the padded label TLV exactly when it fits |
| `Wire.LabelAligned` | src/r_protocol.c:175-211 | the label TLV is padded with zeros to the next multiple of four bytes and no further |
| `Wire.BuildBody` | src/r_protocol.c:213-283 | builds the request body exactly when the whole body fits |
| `Wire.BuildReportBody` | src/r_protocol.c:285-326 | builds the report body exactly when the whole body fits |
| `Wire.BuildPdu` | src/r_protocol.c:328-373 | builds the PDU exactly when it fits: its own length in bytes 2 to 3, the deduplication time in bytes 4 to 7, then the body |
| `Wire.BuildPacket` | src/r_client.c:1036-1102 | builds header, authentication and PDU exactly when the packet fits |
| `Wire.FrameRequest` | src/r_client.c:990-1103 | a request is framed exactly when its whole packet is at most 1200 bytes |
| `EndToEnd.TenantRead` | src/r_protocol.c:50-105 | the tenant header a side writes is read back, whatever follows it |
| `EndToEnd.AuthHeadRead` | src/r_protocol.c:107-142 | so is the authentication header, with its kind and size |
| `Parse.ReadGuards` | src/r_protocol.c:415-430 | the guard loop accepts iff all guards fit, yields them in order, and its flag says whether all pass |
| `Parse.ReadResources` | src/r_protocol.c:432-444 | likewise for resources and deficits |
| `Parse.ParseRateResponse` | src/r_protocol.c:375-456 | the parser with capacities accepts exactly the well-formed responses that fit them, with success iff all guards pass and all deficits are zero |
| `EndToEnd.RequestBodyRead` | tools/r_test_responder_protocol.c:243-260 | the responder cuts a built request body into exactly its guard blocks, resource blocks and label |
| `Responder.WriteGuards` | tools/r_test_responder_protocol.c:329-344 | the guard loop writes the scenario's answer to each block in order |
| `Responder.WriteResources` | tools/r_test_responder_protocol.c:346-375 | likewise for resources |
| `Responder.BuildAnswer` | tools/r_test_responder_protocol.c:290-378 | the response PDU is built exactly when it fits |
| `Responder.BuildReply` | tools/r_test_responder_protocol.c:380-454 | the responder's own writer builds the reply exactly when it fits |
| `Responder.ReplyIsPacket` | tools/r_test_responder_protocol.c:394-452 | its layout, written apart, is the layout the client reads |
| `Responder.Process` | tools/r_test_responder_protocol.c:456-548 | one packet in, its answer out, for the allow, token-denial and latency-denial scenarios |
| `EndToEnd.SameAssociatedBytes` | src/r_client.c:1068-1092 | the bytes the writer authenticates are the bytes the reader authenticates |
| `EndToEnd.PacketOpens` | tools/r_test_responder_protocol.c:115-184 | either side recovers the PDU of a packet built under the same credential |
| `EndToEnd.PiecesAreBlocks` | tools/r_test_responder_protocol.c:246-260 | cutting a run of equal-sized blocks gives the blocks back |
| `EndToEnd.LabelRead` | tools/r_test_responder_protocol.c:186-208 | the responder reads the label the client wrote |
| `EndToEnd.RequestPduRead` | tools/r_test_responder_protocol.c:224-260 | the responder reads a built request PDU as its blocks and label, and its deduplication time |
| `EndToEnd.ReportPduRead` | tools/r_test_responder_protocol.c:261-269 | and a built report PDU as its blocks, with deduplication time zero |
| `EndToEnd.GuardRead` | src/r_protocol.c:240-256 | a guard block says exactly what the guard says |
| `EndToEnd.ResourceRead` | src/r_protocol.c:258-272 | likewise for resources |
| `EndToEnd.ReportRead` | src/r_protocol.c:308-322 | likewise for latency reports |
| `EndToEnd.AnswerRead` | src/r_protocol.c:415-444 | the client reads the responder's answer as one entry per request entry, in order; its deduplication time is zero |
| `EndToEnd.SuccessMeans` | tools/r_test_responder_protocol.c:337-342 | allow succeeds iff every threshold is positive, token denial iff there is no resource as well, latency denial iff there is no guard |
| `Exchange.RequestRecovered` | tools/r_test_responder_protocol.c:115-260 | every framed request with a label of at most 256 bytes is recovered entry by entry, with its label and its deduplication time |
| `Exchange.LongLabelRefused` | tools/r_test_responder_protocol.c:201-204 | and with a longer label it is refused |
| `Exchange.RequestAnswered` | tools/r_test_responder_protocol.c:456-548 | its answer fits (it is no longer than the request), repeats the request's id and time stamp, and the client takes it as that server's authentic response with entries in request order, succeeding as the scenario and thresholds decide |
| `Exchange.ReportObserved` | tools/r_test_responder_protocol.c:261-269 | a framed latency report is taken and answered with nothing |
| `Exchange.AuthenticIsCarried` | tools/r_test_responder_protocol.c:115-184 | the responder takes a packet iff it carries the credential's proof of that PDU, byte by byte, and names its key |
| `Exchange.InquiriesAreTaken` | tools/r_test_responder_protocol.c:186-271 | it takes a PDU iff its declared sizes are exactly its own: as many blocks as counted, then nothing or one label that fits |
| `Exchange.ReplyCounts` | src/r_client.c:2050-2067 | the answer is accepted while the request is in flight, in time, and the server allowed |
| `Exchange.GenuineIsRead` | src/r_client.c:1225-1308 | the receive path reads a response exactly from authentic, well-formed packets |
| `Exchange.RefusalsTellWhy` | src/r_client.c:1225-1308 | a refusal is an authentication failure iff the proof is of the other kind or a cookie differs, and a protocol error otherwise |
| `Exchange.OnlyGenuineCounts` | src/r_client.c:2034-2088 | a datagram is accepted iff it is genuine and answers in time a request in flight that allows its sender; any other changes nothing |
| `Service.OneExchange` | src/r_client.c:2034-2130 | in any run, a framed request waiting for a single server is completed by that server's answer to its packet: OK, one result per entry, and under the allow scenario success iff every threshold is positive |
| `Service.WindowIsAnnounced` | src/r_client.c:1736-1853 | in every run, any server with the credential finds in any packet the client sent the request's id and the window the client itself keeps to |
| `Admission.FindDeficit` | src/r_client_workflow.c:108-114 | finds the first deficit iff there is one |
| `Admission.FindFailure` | src/r_client_workflow.c:115-122 | finds the first failed guard iff there is one |
| `Admission.Classify` | src/r_client_workflow.c:86-136 | allowed iff OK with a success; a denial's flags, class and reported values, fallback included; values without a cause are zero |
| `Admission.ClassifyParsed` | src/r_client_workflow.c:108-127 | for every PDU the parser accepts under the given capacities: allowed iff all guards pass and no deficit is left, rate limited iff a positive deficit, latency limited iff a failed guard, so the fallback is never needed |
| `ContentId.Feed` | src/r_crypto.c:197-266 | the digest is fed domain, name length, name and fields; a name too long for its length field is refused |
| `ContentId.PreimageInjective` | src/r_client.c:2227-2276 | different kinds, parameters or names never hash the same bytes |
| `ContentId.NameInPreimage` | src/r_crypto.c:197-266 | where the domain, the length and the name lie in the hashed bytes, for every name |
| `ContentId.FieldsInPreimage` | src/r_crypto.c:197-266 | and where each parameter lies, little-endian |
| `Bech32.ComputePolymod` | src/r_crypto.c:66-79 | the shifting word loop computes the polymod register |
| `Bech32Field.NoZeroDivisors` | src/r_crypto.c:66-79 | the product by which the generator words are read has no zero divisors |
| `Bech32Field.FeedbackIsMultiple` | src/r_crypto.c:66-79 | the five generator words are the multiples of one generator over GF(32): what is fed back is the digit shifted out times it |
| `Bech32Field.PolymodIsRemainder` | src/r_crypto.c:66-79 | for every string the register is the remainder of the symbols, behind a leading one, on division by the generator |
| `Bech32.AbsorbInjective` | src/r_crypto.c:66-79 | one polymod step is injective in the 30-bit state |
| `Bech32.PolymodInjective` | src/r_crypto.c:66-79 | so is any number of steps |
| `Bech32.WindowDetected` | src/r_crypto.c:66-79 | six symbols are determined by the states around them |
| `Bech32.BurstDetected` | src/r_crypto.c:66-103 | two strings of any length that differ only inside six consecutive symbols never both pass |
| `Bech32.ChecksumPasses` | src/r_crypto.c:81-103 | every string has a six-symbol checksum that passes |
| `Bech32.ChecksumExact` | src/r_crypto.c:81-103 | and exactly one |
| `Regroup.RegroupBytes` | src/r_crypto.c:105-141 | the bit accumulator accepts exactly the regular symbol strings whose bytes fit the buffer, and yields the bytes with the same value |
| `Regroup.SymbolsUnique` | src/r_crypto.c:105-141 | bytes determine the symbols that regroup to them |
| `Regroup.BytesUnique` | src/r_crypto.c:105-141 | symbols determine the bytes |
| `Regroup.SymbolsRegroup` | src/r_crypto.c:105-141 | every byte string is the regrouping of some symbols |
| `Quota.QuotaInjective` | src/r_crypto.c:173-195 | two accepted 32-bit words that grant the same quotas are equal |
| `Quota.QuotaOfFields` | src/r_crypto.c:173-195 | for any exponents and units, the word packed from them is accepted iff they are legal, and grants the powers of two and ten milliseconds a unit |
| `Quota.WordOfFields` | src/r_crypto.c:173-195 | every 32-bit word is such a word |
| `CredentialDecoder.ScanCase` | src/r_crypto.c:305-317 | printable and not of mixed case |
| `CredentialDecoder.FindSeparator` | src/r_crypto.c:328-332 | the last `1` |
| `CredentialDecoder.ReadSymbols` | src/r_crypto.c:351-357 | succeeds iff every character is a symbol, with their values |
| `CredentialDecoder.VerifyChecksum` | src/r_crypto.c:81-103 | expanding the prefix and comparing the polymod with one decides the checksum |
| `CredentialDecoder.DecodeKey` | src/r_crypto.c:287-439 | the loops of the source decode exactly as the specification function |
| `CredentialTheorems.DecodeInjective` | src/r_crypto.c:287-439 | two accepted keys that decode to one credential are the same key up to letter case |
| `CredentialTheorems.DecodeEncode` | src/r_crypto.c:287-439 | every credential with a legal quota word has a key that decodes to it |
| `CredentialTheorems.DecodeExact` | src/r_crypto.c:287-439 | for any key id, secret and legal exponents, the keys that decode to them are exactly two: the encoding with the packed quota word, and the same in capitals |
| `CredentialTheorems.DecodeComplete` | src/r_crypto.c:287-439 | and every accepted key grants the quotas of some legal exponents |
| `CredentialTheorems.PrefixSpreads` | src/r_crypto.c:81-103 | what the prefix contributes to the checksum: the high part of each code, a zero, the low parts |
| `CredentialTheorems.TailForced` | src/r_crypto.c:81-103 | a prefix and payload admit one checksum |
| `Pacer.PacerObject.Init` | bin/perf_pacer.h:20-40 | accepts exactly the legal configurations and starts at ordinal zero |
| `Pacer.PacerObject.Skip` | bin/perf_pacer.h:47-58 | jumps to the first ordinal whose slot is not late, counting what it skips |
| `Pacer.PacerObject.Next` | bin/perf_pacer.h:42-68 | one call on 64-bit fields |
| `Pacer.NoWrapping` | bin/perf_pacer.h:42-68 | within the command line's limits the 64-bit arithmetic is the exact arithmetic |
| `Pacer.DueNotPast` | bin/perf_pacer.h:48-61 | the slot taken is not before the current one, so its due time has not passed |
| `Pacer.SkippedWereLate` | bin/perf_pacer.h:48-58 | every ordinal skipped was due before now |
| `Pacer.IssuesFirstOpen` | bin/perf_pacer.h:42-68 | a call issues a slot iff one is open, and then the first; whatever it passes over was due before now; after the end nothing changes |
| `Pacer.IssueInTime` | bin/perf_pacer.h:60-67 | an issued slot is due in [max(now, start), end) and is a planned one |
| `Pacer.AdvanceKeeps` | bin/perf_pacer.h:42-68 | every ordinal passed is issued or counted as skipped |
| `Pacer.FleetConserves` | bin/perf_client.c:1498-1500 | for any interleaving of workers: no slot twice, every issue due at its slot's time and in its window, per worker next = skipped + issued, and at most rps * seconds issues, so the missed-slot subtraction cannot underflow |
| `Pacer.EverySlotAccounted` | bin/perf_pacer.h:42-68 | for any interleaving every slot a worker has passed was issued to it, or it asked after the slot was due |
| `Histogram.EdgeIsTight` | bin/perf_latency_hist.h:11-35 | below one second the edge is above the sample by at most one bin |
| `Histogram.PercentileUpperEdge` | bin/perf_latency_hist.h:37-54 | the scan returns the edge of the first bucket whose running total reaches the rank |
| `Histogram.ReachedIsRanked` | bin/perf_latency_hist.h:46-52 | that bucket is the bucket of the rank-th smallest sample |
| `Histogram.PercentileRanks` | bin/perf_latency_hist.h:37-54 | the percentile is the upper edge of the bucket of the rank-th smallest sample, where rank is the least r with 100 r >= p * total, and the fall-through return is unreachable |
| `BridgeRuns.StepKeeps` | examples/lwan/main.c:243-304 | every step of every thread keeps the bridge invariant |
| `BridgeRuns.RunKeeps` | examples/lwan/main.c:243-304 | so does every interleaving |
| `BridgeTheorems.MemorySafe` | examples/lwan/main.c:67-102 | no freed job is read, written or released, the reads of the timeout scan and of unlinking included |
| `BridgeTheorems.ExactlyOnePlace` | examples/lwan/main.c:134-167 | a job is with its coroutine, on one list, in the thread's hands, or completed: exactly one, and completed once |
| `BridgeJobs.Journey` | examples/lwan/main.c:134-167 | in every interleaving every step takes every job exactly where a table says: a started job becomes active if its admission started, and is completed with the status if not |
| `BridgeJobs.StartedStaysActive` | examples/lwan/main.c:143-167 | a job whose admission has started stays active until its admission completes, it expires or the leaving thread clears it |
| `BridgeJobs.VerdictsAreEarned` | examples/lwan/main.c:77-91 | what a coroutine is told is the status of exactly one event: a failed start, the admission's completion, the expiry, the clearing, or the refusal of a stopped bridge |
| `BridgeJobs.DecisionsStand` | examples/lwan/main.c:77-91 | and conversely the status of such an event is what is told |
| `BridgeJobs.ToldIsAnswered` | examples/lwan/main.c:399-409 | a waiting coroutine whose result is out answers with that result and is done |
| `BridgeOrder.FirstComeFirstServed` | examples/lwan/main.c:354-379 | the thread takes jobs up in the order in which they were linked, losing none |
| `BridgeOrder.ExpiryVisitsAll` | examples/lwan/main.c:191-213 | each turn that gets past its poll ends with a pass over every job active when it began, once each and in order, though jobs leave the list meanwhile |
| `BridgeOrder.FailuresTellTheReason` | examples/lwan/main.c:243-304 | jobs the leaving thread fails are told why it left: an I/O error on request or a failed poll, otherwise the first failure of sockets or expiry |
| `BridgeTheorems.FreedAfterBoth` | examples/lwan/main.c:67-73 | a job is freed exactly once, when both owners have let go |
| `BridgeTheorems.AnswersAreVerdicts` | examples/lwan/main.c:399-409 | what a coroutine answers is the result of its job's one completion |
| `BridgeTheorems.QueuedIsTaken` | examples/lwan/main.c:354-379 | no lost wakeup, job by job and over every continuation: a queued job whose own coroutine has written the pipe keeps the thread alerted (pipe readable, draining or taking) whatever the other coroutines and the shutdown do, so a poll returns readable; it leaves the queue only by a take that hands it to the thread |
| `BridgeTheorems.NothingStranded` | examples/lwan/main.c:222-241 | once the thread left, every job is completed or still with its own coroutine |
| `BridgeTheorems.ExitIsFinal` | examples/lwan/main.c:363-379 | and nothing is queued for it again |
| `BridgeTheorems.ClearingEnds` | examples/lwan/main.c:228-241 | after the stop flag no arrivals or disconnects can keep the thread busy: a bounded number of its steps remain, and it has exited exactly when none does |
| `BridgeOrder.StopEnds` | examples/lwan/main.c:243-304 | once told to stop, wherever the thread is, a bounded number of its steps remain, plus one per wakeup still written; it has exited exactly when none does |
| `BridgeOrder.NeverStuck` | examples/lwan/main.c:243-304 | and until then it can always make one |
| `BridgeOrder.StopIsObeyed` | examples/lwan/main.c:344-352 | from the shutdown's request on the bridge stays stopped and that bound holds |
| `BridgeOrder.StopWakes` | examples/lwan/main.c:344-352 | the shutdown's wakeup is not lost: until the thread has read the pipe any poll finds it readable |
| `BridgeOrder.PipeDrains` | examples/lwan/main.c:169-173 | a draining read takes what is there, up to 64 bytes |
| `BridgeTheorems.NothingLeaks` | examples/lwan/main.c:67-73 | with the thread and all coroutines gone no job is allocated |

## Left out

- Requests are records in a sequence keyed by id, not heap objects on a linked list: aliasing of request handles, and
  calls with a handle whose request has already ended, are outside the model.
- The bridge is modelled on values as a transition system, since its subject is interleaving; its lists are sequences.
- The request profile callback and the steering hook do not call back into the client.
- The DNS refresh timing rules (intervals, forced refresh, jitter): a refresh may start whenever the host likes.
- The client is destroyed only outside resolver hooks, as the API's serialisation rule asks.
- Bodies of the SRV and address queries, sockets, polling, real clocks and threads: they are the events' parameters.
- AES-GCM, BLAKE2s and random bytes beyond the ideal properties named above.
- Allocation failure.
- Responder.Process: does not model the responder's quota, drop, malformed and count-mismatch scenarios, which are test
  fixtures rather than protocol meaning.
- `parse_metrics_label` stores the label in a zero-terminated buffer: the model keeps the bytes and their count.
- The workflow's prepare, start and report calls, client configuration, steering helpers and policy defaults.
- Error detection in the Bech32 prefix, and the four-error guarantee of BIP-173.
- The other example programs, the performance client's networking, and the Python tooling.
- Bech32.ComputePolymod: registers are six 5-bit digits; the 32-bit word of the source is tied to them, bits 30 and 31
  being zero throughout.
- Histogram.PercentileUpperEdge: the running total is unbounded; with the sum of the buckets within 64 bits, which it
  requires, the source's does not wrap either.
