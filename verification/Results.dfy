/** What a server's answer carries once parsed. */
module Results {
  import opened Machine

  datatype GuardResult = GuardResult(trackerId: seq<byte>, threshold: nat, current: nat, passed: bool)

  datatype ResourceResult = ResourceResult(bucketId: seq<byte>, deficit: nat, actualRate: nat)

  datatype Response = Response(
    serverId: nat,
    keepPort: bool,
    success: bool,
    guards: seq<GuardResult>,
    resources: seq<ResourceResult>)
}
