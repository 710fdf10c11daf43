/** The two pairing messages and the checks each side makes on the one it receives. */
module Messages {
  import opened Wrappers
  import opened Text
  import opened Identity
  import opened Records

  const MESSAGE_VERSION := 1
  const PAIR_REQUEST := "pair_request"
  const PAIR_RESPONSE := "pair_response"

  datatype PairRequest = PairRequest(
    version: int, kind: string, code: string, role: Role, peer: PublicPeer, time: Time)

  datatype PairResponse = PairResponse(
    version: int, kind: string, accepted: bool, networkId: NetworkId, master: PublicPeer, joinedNodeId: NodeId)

  function PublicPeerFromIdentity(local: Identity): PublicPeer {
    PublicPeer(local.nodeId, local.networkId, local.role, local.publicKeys)
  }

  function CheckRequest(p: Primitives, r: PairRequest): Option<Error> {
    if r.version != MESSAGE_VERSION || r.kind != PAIR_REQUEST then Some(InvalidMessage)
    else if Blank(r.code) then Some(InvalidCode)
    else if !ValidRole(r.role) then Some(InvalidRole)
    else match CheckPublicPeer(p, r.peer)
      case Some(e) => Some(e)
      case None => if r.time == 0 then Some(InvalidMessage) else None
  }

  /** The checks of accept that come before any store is read. */
  function CheckAdmission(p: Primitives, master: PublicPeer, r: PairRequest): Option<Error> {
    match CheckRequest(p, r)
    case Some(e) => Some(e)
    case None =>
      if r.peer.networkId != master.networkId then Some(WrongNetwork)
      else if r.role != r.peer.role then Some(WrongRole)
      else None
  }

  function ConsumeRequestOf(master: PublicPeer, r: PairRequest): ConsumeRequest {
    ConsumeRequest(r.code, master.networkId, r.role, r.peer.nodeId)
  }

  function AcceptedResponse(master: PublicPeer, r: PairRequest): PairResponse {
    PairResponse(MESSAGE_VERSION, PAIR_RESPONSE, true, master.networkId, master, r.peer.nodeId)
  }

  function CheckResponse(p: Primitives, r: PairResponse, expectedMaster: NodeId, localNode: NodeId,
                         networkId: NetworkId): Option<Error>
  {
    if r.version != MESSAGE_VERSION || r.kind != PAIR_RESPONSE || !r.accepted then Some(InvalidMessage)
    else if r.networkId != networkId || r.master.networkId != networkId then Some(WrongNetwork)
    else if r.master.nodeId != expectedMaster || !r.master.role.Master? then Some(MasterMismatch)
    else if r.joinedNodeId != localNode then Some(InvalidMessage)
    else CheckPublicPeer(p, r.master)
  }

  // ---------- what the checks come to ----------

  /** A request that a master may grant, written out. */
  predicate WellMadeRequest(p: Primitives, master: PublicPeer, r: PairRequest) {
    && r.version == 1 && r.kind == "pair_request" && !Blank(r.code) && r.time != 0
    && (r.role == Master || r.role == Worker) && r.role == r.peer.role
    && r.peer.networkId == master.networkId && !Blank(master.networkId)
    && !Blank(r.peer.nodeId) && ValidKeys(r.peer.publicKeys)
    && DeriveNodeId(p, r.peer.publicKeys) == Ok(r.peer.nodeId)
  }

  lemma AdmissionIff(p: Primitives, master: PublicPeer, r: PairRequest)
    ensures CheckAdmission(p, master, r).None? <==> WellMadeRequest(p, master, r)
  {
    hide Blank, DeriveNodeId;
    PublicPeerIff(p, r.peer);
  }

  /** Which refusal comes first: the form of the message, the code, the network, the role. */
  lemma AdmissionRefusals(p: Primitives, master: PublicPeer, r: PairRequest)
    ensures r.version != 1 || r.kind != "pair_request" ==> CheckAdmission(p, master, r) == Some(InvalidMessage)
    ensures r.version == 1 && r.kind == "pair_request" && Blank(r.code) ==>
              CheckAdmission(p, master, r) == Some(InvalidCode)
    ensures WellMadeRequest(p, master.(networkId := r.peer.networkId), r) && r.peer.networkId != master.networkId ==>
              CheckAdmission(p, master, r) == Some(WrongNetwork)
    ensures WellMadeRequest(p, master, r.(role := r.peer.role)) && ValidRole(r.role) && r.role != r.peer.role ==>
              CheckAdmission(p, master, r) == Some(WrongRole)
  {
    hide Blank, DeriveNodeId;
    PublicPeerIff(p, r.peer);
  }

  /** An answer that the joining node takes, written out. */
  predicate WellMadeResponse(p: Primitives, r: PairResponse, expectedMaster: NodeId, localNode: NodeId,
                             networkId: NetworkId)
  {
    && r.version == 1 && r.kind == "pair_response" && r.accepted && r.joinedNodeId == localNode
    && r.networkId == networkId && r.master.networkId == networkId && !Blank(networkId)
    && r.master.nodeId == expectedMaster && !Blank(expectedMaster) && r.master.role == Master
    && ValidKeys(r.master.publicKeys) && DeriveNodeId(p, r.master.publicKeys) == Ok(r.master.nodeId)
  }

  lemma ResponseIff(p: Primitives, r: PairResponse, expectedMaster: NodeId, localNode: NodeId, networkId: NetworkId)
    ensures CheckResponse(p, r, expectedMaster, localNode, networkId).None?
            <==> WellMadeResponse(p, r, expectedMaster, localNode, networkId)
  {
    hide Blank, DeriveNodeId;
    PublicPeerIff(p, r.master);
  }

  /** Which refusal comes first: the form of the message, the network, the master, the rest. */
  lemma ResponseRefusals(p: Primitives, r: PairResponse, expectedMaster: NodeId, localNode: NodeId,
                         networkId: NetworkId)
    ensures r.version != 1 || r.kind != "pair_response" || !r.accepted ==>
              CheckResponse(p, r, expectedMaster, localNode, networkId) == Some(InvalidMessage)
    ensures
      r.version == 1 && r.kind == "pair_response" && r.accepted
      && (r.networkId != networkId || r.master.networkId != networkId) ==>
        CheckResponse(p, r, expectedMaster, localNode, networkId) == Some(WrongNetwork)
    ensures
      r.version == 1 && r.kind == "pair_response" && r.accepted
      && r.networkId == networkId && r.master.networkId == networkId
      && (r.master.nodeId != expectedMaster || r.master.role != Master) ==>
        CheckResponse(p, r, expectedMaster, localNode, networkId) == Some(MasterMismatch)
  {
    hide Blank, DeriveNodeId;
  }
}
