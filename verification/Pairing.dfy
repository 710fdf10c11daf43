/**
 * Pairing between two machines: the joining node's side, what a finished exchange means on both disks,
 * what a crash of the joining node leaves behind, and why reconnecting works afterwards.
 */
module Pairing {
  import opened Wrappers
  import opened Text
  import opened Identity
  import opened Records
  import opened StoreOps
  import opened TlsIdentity
  import opened Messages

  // ---------- the joining node ----------

  /** What a join may write on the joining node's root: three files, and the lock directory of the last one. */
  datatype WorkerDisk =
    WorkerDisk(identity: Option<Identity>, network: Option<Network>, peers: Peers, peersLock: bool)

  /** What a join is called with, what the master's TLS certificate was, and what clock and key generator return. */
  datatype JoinInput = JoinInput(
    expectedMaster: NodeId, role: Role, code: string, certificate: Certificate,
    publicKeys: KeySet, privateKeys: KeySet,
    handshakeTime: Time, identityTime: Time, requestTime: Time, saveTime: Time)

  datatype JoinResult = JoinResult(localNodeId: NodeId, masterNodeId: NodeId, networkId: NetworkId, role: Role)

  /** One request sent and what comes back; an error stands for anything that breaks the connection. */
  type Exchange = PairRequest -> Result<PairResponse, Error>

  /** The certificate callback of the client's TLS configuration. */
  function CheckMaster(p: Primitives, c: Certificate, expectedMaster: NodeId, now: Time): Result<Metadata, Error> {
    var m :- MetadataOf(p, c);
    if m.nodeId != expectedMaster || !m.role.Master? then Err(MasterMismatch)
    else if now < c.notBefore || c.notAfter < now then Err(InvalidCertificate)
    else Ok(m)
  }

  /** localJoinIdentity: the stored identity if it fits, a new one if there is none; the flag says which. */
  function LocalJoinIdentity(p: Primitives, w: WorkerDisk, networkId: NetworkId, i: JoinInput)
    : Result<(Identity, bool), Error>
  {
    match w.identity
    case Some(local) =>
      if !ValidIdentity(local) then Err(InvalidRecord)
      else if local.networkId != networkId then Err(LocalStateMismatch)
      else if local.role != i.role then Err(WrongRole)
      else Ok((local, false))
    case None =>
      var local :- GenerateIdentity(p, networkId, i.role, i.publicKeys, i.privateKeys, i.identityTime);
      Ok((local, true))
  }

  function EnsureNetwork(w: WorkerDisk, networkId: NetworkId, createdBy: NodeId, now: Time): Result<WorkerDisk, Error> {
    match w.network
    case Some(n) =>
      if !ValidNetwork(n) then Err(InvalidRecord) else if n.id != networkId then Err(LocalStateMismatch) else Ok(w)
    case None =>
      var n := Network(1, networkId, now, createdBy);
      if ValidNetwork(n) then Ok(w.(network := Some(n))) else Err(InvalidRecord)
  }

  function EnsureIdentity(w: WorkerDisk, local: Identity, generated: bool): Result<WorkerDisk, Error> {
    if !generated then Ok(w) else if ValidIdentity(local) then Ok(w.(identity := Some(local))) else Err(InvalidRecord)
  }

  predicate OnFile(peers: Peers, id: NodeId) {
    FindPeer(peers, id).Some?
  }

  /** Adding the master does not fail for the lock directory: it is not there, or there is nothing to add. */
  predicate NotBlocked(w: WorkerDisk, id: NodeId) {
    !w.peersLock || OnFile(w.peers, id)
  }

  /** addPeerIfMissing, uninterrupted: the lock is taken for adding only, and only once; nothing waits for it. */
  function EnsureMaster(p: Primitives, w: WorkerDisk, master: PublicPeer, now: Time): Result<WorkerDisk, Error> {
    var peers :- EnsurePeer(p, w.peers, master, now);
    if NotBlocked(w, master.nodeId) then Ok(w.(peers := peers)) else Err(LockHeld)
  }

  /** Every disk that addPeerIfMissing can stop at; inside the section, and after a failed release, the lock stays. */
  function EnsureMasterStops(p: Primitives, w: WorkerDisk, master: PublicPeer, now: Time): (stops: seq<WorkerDisk>)
    ensures stops != []
  {
    match EnsureMaster(p, w, master, now)
    case Err(_) => [w]
    case Ok(w') =>
      if OnFile(w.peers, master.nodeId) then [w]
      else [w, w.(peersLock := true), w'.(peersLock := true), w']
  }

  /** saveJoinedState, uninterrupted: network, then identity, then the master as a peer. */
  function SaveJoined(p: Primitives, w: WorkerDisk, local: Identity, generated: bool, master: PublicPeer, now: Time)
    : Result<WorkerDisk, Error>
  {
    var w1 :- EnsureNetwork(w, local.networkId, master.nodeId, now);
    var w2 :- EnsureIdentity(w1, local, generated);
    EnsureMaster(p, w2, master, now)
  }

  /** Every disk that saveJoinedState can stop at, in order, whether it stops by an error or by a crash. */
  function SaveJoinedStops(p: Primitives, w: WorkerDisk, local: Identity, generated: bool, master: PublicPeer,
                           now: Time)
    : (stops: seq<WorkerDisk>)
    ensures stops != []
  {
    match EnsureNetwork(w, local.networkId, master.nodeId, now)
    case Err(_) => [w]
    case Ok(w1) =>
      match EnsureIdentity(w1, local, generated)
      case Err(_) => [w, w1]
      case Ok(w2) => [w, w1] + EnsureMasterStops(p, w2, master, now)
  }

  /** A stop lies before the first write, between the first two, or in the part that adds the master. */
  lemma WhereItStops(p: Primitives, w: WorkerDisk, local: Identity, generated: bool, master: PublicPeer, now: Time)
    ensures var stops, w1 := SaveJoinedStops(p, w, local, generated, master, now),
                             EnsureNetwork(w, local.networkId, master.nodeId, now);
            && stops[0] == w
            && (w1.Ok? ==> |stops| >= 2 && stops[1] == w1.value)
            && (w1.Ok? && EnsureIdentity(w1.value, local, generated).Ok? ==>
                  var w2 := EnsureIdentity(w1.value, local, generated).value;
                  && stops[2..] == EnsureMasterStops(p, w2, master, now)
                  && EnsureMasterStops(p, w2, master, now)[0] == w2)
  {
    hide EnsureMaster, EnsureNetwork, EnsureIdentity, OnFile;
  }

  function RequestOf(local: Identity, i: JoinInput): PairRequest {
    PairRequest(MESSAGE_VERSION, PAIR_REQUEST, i.code, i.role, PublicPeerFromIdentity(local), i.requestTime)
  }

  /** Join up to the point where something is to be saved. */
  function Negotiate(p: Primitives, w: WorkerDisk, i: JoinInput, exchange: Exchange)
    : Result<(Identity, bool, PairResponse), Error>
  {
    if !ValidRole(i.role) then Err(InvalidRole)
    else if Blank(i.expectedMaster) then Err(InvalidNodeId)
    else
      var m :- CheckMaster(p, i.certificate, i.expectedMaster, i.handshakeTime);
      var (local, generated) :- LocalJoinIdentity(p, w, m.networkId, i);
      var response :- exchange(RequestOf(local, i));
      match CheckResponse(p, response, i.expectedMaster, local.nodeId, m.networkId)
      case Some(e) => Err(e)
      case None => Ok((local, generated, response))
  }

  function Join(p: Primitives, w: WorkerDisk, i: JoinInput, exchange: Exchange)
    : Result<(JoinResult, WorkerDisk), Error>
  {
    var (local, generated, response) :- Negotiate(p, w, i, exchange);
    var saved :- SaveJoined(p, w, local, generated, response.master, i.saveTime);
    Ok((JoinResult(local.nodeId, response.master.nodeId, response.networkId, local.role), saved))
  }

  /** Every disk a join can leave behind. */
  function JoinStops(p: Primitives, w: WorkerDisk, i: JoinInput, exchange: Exchange): (stops: seq<WorkerDisk>)
    ensures stops != []
  {
    match Negotiate(p, w, i, exchange)
    case Err(_) => [w]
    case Ok((local, generated, response)) => SaveJoinedStops(p, w, local, generated, response.master, i.saveTime)
  }

  /** The release that comes last may fail, which nobody looks at, and then the lock directory stays. */
  predicate UpToLock(saved: WorkerDisk, disk: WorkerDisk) {
    disk == saved || disk == saved.(peersLock := true)
  }

  lemma KnownMaster(p: Primitives, w: WorkerDisk, master: PublicPeer, now: Time)
    requires EnsurePeer(p, w.peers, master, now).Ok? && OnFile(w.peers, master.nodeId)
    ensures EnsureMaster(p, w, master, now) == Ok(w)
  {
    hide CheckPublicPeer, FindPeer, SamePeer;
  }

  /** The joining node's root. A write that reports an error, or after which the process dies, may have committed. */
  class WorkerRoot {
    var disk: WorkerDisk
    ghost var faults: nat

    constructor (disk: WorkerDisk)
      ensures this.disk == disk
    {
      this.disk := disk;
      faults := 0;
    }

    /** One atomic file replacement; the answer is false for an error and for a crash. */
    method Write(next: WorkerDisk) returns (ok: bool)
      modifies this
      ensures disk == next || disk == old(disk)
      ensures ok ==> disk == next
      ensures faults == old(faults) + if ok then 0 else 1
    {
      var committed: bool := *;
      if committed {
        disk := next;
      }
      ok := *;
      ok := ok && committed;
      faults := faults + if ok then 0 else 1;
    }

    /** addPeerIfMissing on this root: the lock directory, the peers file, and the deferred release. */
    method SaveMaster(p: Primitives, master: PublicPeer, now: Time) returns (r: Result<(), Error>)
      modifies this
      ensures r.Ok? ==> exists saved :: EnsureMaster(p, old(disk), master, now) == Ok(saved) && UpToLock(saved, disk)
      ensures disk in EnsureMasterStops(p, old(disk), master, now)
      ensures faults >= old(faults)
      ensures faults == old(faults) ==>
                match EnsureMaster(p, old(disk), master, now)
                case Ok(saved) => r.Ok? && disk == saved
                case Err(e) => r == Err(e) && disk == old(disk)
    {
      hide EnsurePeer, OnFile;
      var w := disk;
      var peers := EnsurePeer(p, w.peers, master, now);
      if peers.Err? {
        return Err(peers.error);
      }
      if OnFile(w.peers, master.nodeId) {
        KnownMaster(p, w, master, now);
        return Ok(());
      }
      if w.peersLock {
        return Err(LockHeld);
      }
      var locked := Write(w.(peersLock := true));
      if !locked {
        return Err(IoError);
      }
      var saved := Write(disk.(peers := peers.value));
      var released := Write(disk.(peersLock := false));
      if !saved {
        return Err(IoError);
      }
      assert EnsureMaster(p, w, master, now) == Ok(w.(peers := peers.value));
      r := Ok(());
    }

    method SaveJoinedState(p: Primitives, local: Identity, generated: bool, master: PublicPeer, now: Time)
      returns (r: Result<(), Error>)
      modifies this
      ensures r.Ok? ==>
                exists saved ::
                  SaveJoined(p, old(disk), local, generated, master, now) == Ok(saved) && UpToLock(saved, disk)
      ensures disk in SaveJoinedStops(p, old(disk), local, generated, master, now)
      ensures faults >= old(faults)
      ensures faults == old(faults) ==>
                match SaveJoined(p, old(disk), local, generated, master, now)
                case Ok(saved) => r.Ok? && disk == saved
                case Err(e) => r == Err(e)
    {
      hide EnsureNetwork, ValidIdentity, EnsureMaster, EnsureMasterStops, UpToLock, SaveJoinedStops;
      var w := disk;
      WhereItStops(p, w, local, generated, master, now);
      ghost var stops := SaveJoinedStops(p, w, local, generated, master, now);
      var w1 := EnsureNetwork(w, local.networkId, master.nodeId, now);
      if w1.Err? {
        return Err(w1.error);
      }
      if w1.value != w {
        var ok := Write(w1.value);
        if !ok {
          return Err(IoError);
        }
      }
      var w2 := EnsureIdentity(w1.value, local, generated);
      if w2.Err? {
        return Err(w2.error);
      }
      if generated {
        var ok := Write(w2.value);
        if !ok {
          return Err(IoError);
        }
      }
      assert disk == w2.value;
      r := SaveMaster(p, master, now);
      assert disk in stops[2..];
      assert forall x :: EnsureMaster(p, w2.value, master, now) == Ok(x) ==>
               SaveJoined(p, w, local, generated, master, now) == Ok(x);
    }

    /** Join: on success the uninterrupted join's result and disk, and in every case one of its stops. */
    method PerformJoin(p: Primitives, i: JoinInput, exchange: Exchange) returns (r: Result<JoinResult, Error>)
      modifies this
      ensures r.Ok? ==> exists saved :: Join(p, old(disk), i, exchange) == Ok((r.value, saved)) && UpToLock(saved, disk)
      ensures disk in JoinStops(p, old(disk), i, exchange)
      ensures faults >= old(faults)
      ensures faults == old(faults) ==>
                match Join(p, old(disk), i, exchange)
                case Ok((result, saved)) => r == Ok(result) && disk == saved
                case Err(e) => r == Err(e)
    {
      hide SaveJoined, SaveJoinedStops, CheckMaster, LocalJoinIdentity, CheckResponse, UpToLock;
      if !ValidRole(i.role) {
        return Err(InvalidRole);
      }
      if Blank(i.expectedMaster) {
        return Err(InvalidNodeId);
      }
      var m := CheckMaster(p, i.certificate, i.expectedMaster, i.handshakeTime);
      if m.Err? {
        return Err(m.error);
      }
      var local := LocalJoinIdentity(p, disk, m.value.networkId, i);
      if local.Err? {
        return Err(local.error);
      }
      var response := exchange(RequestOf(local.value.0, i));
      if response.Err? {
        return Err(response.error);
      }
      var refused := CheckResponse(p, response.value, i.expectedMaster, local.value.0.nodeId, m.value.networkId);
      if refused.Some? {
        return Err(refused.value);
      }
      var saved := SaveJoinedState(p, local.value.0, local.value.1, response.value.master, i.saveTime);
      if saved.Err? {
        return Err(saved.error);
      }
      r := Ok(JoinResult(local.value.0.nodeId, response.value.master.nodeId, response.value.networkId,
                         local.value.0.role));
    }
  }

  // ---------- crash consistency of the joining node ----------

  /** An identity is never without its network, and every peer belongs to that network. */
  ghost predicate RootConsistent(w: WorkerDisk) {
    && (w.identity.Some? ==> w.network.Some? && w.identity.value.networkId == w.network.value.id)
    && (forall k :: 0 <= k < |w.peers| ==> w.network.Some? && w.peers[k].networkId == w.network.value.id)
  }

  /** What the master's TLS certificate has to be like: it is the pinned master's own, and in its window. */
  predicate MasterPresents(p: Primitives, c: Certificate, expectedMaster: NodeId, now: Time, m: Metadata) {
    && FirstMetadata(c.extensions) == Decoded(m) && m.version == 1 && m.createdAt != 0
    && !Blank(m.networkId) && !Blank(m.nodeId) && m.nodeId == expectedMaster && m.role == Master
    && DeriveNodeId(p, m.publicKeys) == Ok(m.nodeId)
    && c.publicKey == Ed25519Key(m.publicKeys.signing.bytes)
    && c.notBefore <= now <= c.notAfter
  }

  /** Exactly which certificates the joining node goes on with; the pin is looked at before the window. */
  lemma CheckMasterIff(p: Primitives, c: Certificate, expectedMaster: NodeId, now: Time, m: Metadata)
    ensures CheckMaster(p, c, expectedMaster, now) == Ok(m) <==> MasterPresents(p, c, expectedMaster, now, m)
    ensures MetadataOf(p, c) == Ok(m) && (m.nodeId != expectedMaster || m.role != Master) ==>
              CheckMaster(p, c, expectedMaster, now) == Err(MasterMismatch)
    ensures
      MetadataOf(p, c) == Ok(m) && m.nodeId == expectedMaster && m.role == Master
      && (now < c.notBefore || c.notAfter < now) ==>
        CheckMaster(p, c, expectedMaster, now) == Err(InvalidCertificate)
  {
    hide NodeIdOfDigest, Material, Blank, FirstMetadata;
  }

  /** The identity a join acts under: the one on file if it fits, or a new one made from fresh keys. */
  predicate ActsAs(p: Primitives, w: WorkerDisk, networkId: NetworkId, i: JoinInput, local: Identity, generated: bool) {
    && local.version > 0 && !Blank(local.nodeId) && !Blank(networkId) && local.networkId == networkId
    && (local.role == Master || local.role == Worker) && local.role == i.role
    && ValidKeys(local.publicKeys) && ValidKeys(local.privateKeys) && local.createdAt != 0
    && (if generated
        then w.identity == None && DeriveNodeId(p, i.publicKeys) == Ok(local.nodeId) && local.version == 1
             && local.publicKeys == i.publicKeys && local.privateKeys == i.privateKeys
             && local.createdAt == i.identityTime
        else w.identity == Some(local))
  }

  lemma LocalJoinIdentityIff(p: Primitives, w: WorkerDisk, networkId: NetworkId, i: JoinInput,
                             local: Identity, generated: bool)
    ensures LocalJoinIdentity(p, w, networkId, i) == Ok((local, generated)) <==>
              ActsAs(p, w, networkId, i, local, generated)
    ensures w.identity.Some? && ValidIdentity(w.identity.value) && w.identity.value.networkId != networkId ==>
              LocalJoinIdentity(p, w, networkId, i) == Err(LocalStateMismatch)
    ensures
      w.identity.Some? && ValidIdentity(w.identity.value) && w.identity.value.networkId == networkId
      && w.identity.value.role != i.role ==>
        LocalJoinIdentity(p, w, networkId, i) == Err(WrongRole)
  {
    hide Blank, DeriveNodeId;
    GenerateIdentityIff(p, networkId, i.role, i.publicKeys, i.privateKeys, i.identityTime, local);
    if w.identity.None? && GenerateIdentity(p, networkId, i.role, i.publicKeys, i.privateKeys, i.identityTime).Ok? {
      var made := GenerateIdentity(p, networkId, i.role, i.publicKeys, i.privateKeys, i.identityTime).value;
      GenerateIdentityIff(p, networkId, i.role, i.publicKeys, i.privateKeys, i.identityTime, made);
    }
  }

  /**
   * Exactly when a join gets as far as saving: the certificate is the pinned master's, there is an identity
   * to act under, and the answer to the one request sent is an acceptance of this node by that master for
   * the certificate's network.
   */
  lemma NegotiateIff(p: Primitives, w: WorkerDisk, i: JoinInput, exchange: Exchange,
                     local: Identity, generated: bool, response: PairResponse)
    ensures Negotiate(p, w, i, exchange) == Ok((local, generated, response))
            <==>
            && (i.role == Master || i.role == Worker) && !Blank(i.expectedMaster)
            && (exists m :: MasterPresents(p, i.certificate, i.expectedMaster, i.handshakeTime, m)
                            && m.networkId == local.networkId)
            && ActsAs(p, w, local.networkId, i, local, generated)
            && exchange(PairRequest(1, "pair_request", i.code, i.role,
                                    PublicPeer(local.nodeId, local.networkId, local.role, local.publicKeys),
                                    i.requestTime)) == Ok(response)
            && WellMadeResponse(p, response, i.expectedMaster, local.nodeId, local.networkId)
  {
    hide CheckMaster, LocalJoinIdentity, CheckResponse, Blank, MasterPresents, ActsAs, WellMadeResponse;
    MasterChecked(p, i.certificate, i.expectedMaster, i.handshakeTime);
    if CheckMaster(p, i.certificate, i.expectedMaster, i.handshakeTime).Ok? {
      var m := CheckMaster(p, i.certificate, i.expectedMaster, i.handshakeTime).value;
      ActingAfterCheck(p, w, m.networkId, i, local, generated);
      ResponseIff(p, response, i.expectedMaster, local.nodeId, m.networkId);
      var request := RequestOf(local, i);
      assert request
          == PairRequest(1, "pair_request", i.code, i.role,
                         PublicPeer(local.nodeId, local.networkId, local.role, local.publicKeys), i.requestTime);
      assert (exists m' :: MasterPresents(p, i.certificate, i.expectedMaster, i.handshakeTime, m')
                           && m'.networkId == local.networkId) <==> m.networkId == local.networkId;
      if LocalJoinIdentity(p, w, m.networkId, i) == Ok((local, generated)) {
        assert m.networkId == local.networkId;
      } else if LocalJoinIdentity(p, w, m.networkId, i).Ok? {
        var (other, flag) := LocalJoinIdentity(p, w, m.networkId, i).value;
        assert Negotiate(p, w, i, exchange).Ok? ==> Negotiate(p, w, i, exchange).value.0 == other
                                                    && Negotiate(p, w, i, exchange).value.1 == flag;
      }
    }
  }

  lemma MasterChecked(p: Primitives, c: Certificate, expectedMaster: NodeId, now: Time)
    ensures forall m ::
              MasterPresents(p, c, expectedMaster, now, m) <==> CheckMaster(p, c, expectedMaster, now) == Ok(m)
  {
    hide CheckMaster, MasterPresents;
    forall m ensures MasterPresents(p, c, expectedMaster, now, m) <==> CheckMaster(p, c, expectedMaster, now) == Ok(m) {
      CheckMasterIff(p, c, expectedMaster, now, m);
    }
  }

  lemma ActingAfterCheck(p: Primitives, w: WorkerDisk, networkId: NetworkId, i: JoinInput,
                         local: Identity, generated: bool)
    ensures LocalJoinIdentity(p, w, networkId, i) == Ok((local, generated)) <==>
              networkId == local.networkId && ActsAs(p, w, local.networkId, i, local, generated)
  {
    hide ValidIdentity, DeriveNodeId, LocalJoinIdentity;
    LocalJoinIdentityIff(p, w, networkId, i, local, generated);
  }

  /** Exactly what is saved, and when: nothing on file is replaced. */
  lemma SaveJoinedIff(p: Primitives, w: WorkerDisk, local: Identity, generated: bool, master: PublicPeer, now: Time,
                      after: WorkerDisk)
    ensures SaveJoined(p, w, local, generated, master, now) == Ok(after)
            <==>
            && (match w.network
                case Some(n) =>
                  && after.network == Some(n) && n.version > 0 && !Blank(n.id) && n.createdAt != 0
                  && n.id == local.networkId
                case None =>
                  && after.network == Some(Network(1, local.networkId, now, master.nodeId))
                  && !Blank(local.networkId) && now != 0)
            && after.identity == (if generated then Some(local) else w.identity) && (generated ==> ValidIdentity(local))
            && EnsurePeer(p, w.peers, master, now) == Ok(after.peers)
            && (w.peersLock ==> FindPeer(w.peers, master.nodeId).Some?) && after.peersLock == w.peersLock
    ensures w.network.Some? && ValidNetwork(w.network.value) && w.network.value.id != local.networkId ==>
              SaveJoined(p, w, local, generated, master, now) == Err(LocalStateMismatch)
  {
    hide Blank, EnsurePeer, FindPeer, ValidIdentity;
  }

  /** What later steps use of it. */
  lemma Negotiated(p: Primitives, w: WorkerDisk, i: JoinInput, exchange: Exchange)
    requires Negotiate(p, w, i, exchange).Ok?
    ensures var (local, generated, response) := Negotiate(p, w, i, exchange).value;
            && ValidIdentity(local) && local.role == i.role
            && (if generated then w.identity.None? else w.identity == Some(local))
            && exchange(RequestOf(local, i)) == Ok(response)
            && response.networkId == local.networkId
            && response.master.networkId == local.networkId && response.master.nodeId == i.expectedMaster
            && response.master.role.Master?
            && CheckPublicPeer(p, response.master).None?
  {
    hide DeriveNodeId, MetadataOf, Blank;
  }

  lemma MasterStopsConsistent(p: Primitives, w: WorkerDisk, master: PublicPeer, now: Time, k: nat)
    requires RootConsistent(w) && w.network.Some? && master.networkId == w.network.value.id
    requires k < |EnsureMasterStops(p, w, master, now)|
    ensures RootConsistent(EnsureMasterStops(p, w, master, now)[k])
  {
    hide CheckPublicPeer, ValidPeerRecord, FindPeer;
  }

  lemma SaveStopsConsistent(p: Primitives, w: WorkerDisk, local: Identity, generated: bool, master: PublicPeer,
                            now: Time, k: nat)
    requires RootConsistent(w) && master.networkId == local.networkId
    requires generated ==> w.identity.None?
    requires k < |SaveJoinedStops(p, w, local, generated, master, now)|
    ensures RootConsistent(SaveJoinedStops(p, w, local, generated, master, now)[k])
  {
    hide EnsureMasterStops, ValidIdentity, ValidNetwork;
    var w1 := EnsureNetwork(w, local.networkId, master.nodeId, now);
    if w1.Ok? && EnsureIdentity(w1.value, local, generated).Ok? && k >= 2 {
      MasterStopsConsistent(p, EnsureIdentity(w1.value, local, generated).value, master, now, k - 2);
    }
  }

  /** One join attempt: its inputs, the other side's answer, and after which write it stops. */
  datatype Attempt = Attempt(input: JoinInput, exchange: Exchange, stop: nat)

  function AfterAttempt(p: Primitives, w: WorkerDisk, a: Attempt): WorkerDisk {
    var stops := JoinStops(p, w, a.input, a.exchange);
    if a.stop < |stops| then stops[a.stop] else stops[|stops| - 1]
  }

  function AfterAttempts(p: Primitives, w: WorkerDisk, attempts: seq<Attempt>): WorkerDisk
    decreases |attempts|
  {
    if attempts == [] then w else AfterAttempts(p, AfterAttempt(p, w, attempts[0]), attempts[1..])
  }

  lemma StopsConsistent(p: Primitives, w: WorkerDisk, i: JoinInput, exchange: Exchange, k: nat)
    requires RootConsistent(w) && k < |JoinStops(p, w, i, exchange)|
    ensures RootConsistent(JoinStops(p, w, i, exchange)[k])
  {
    hide SaveJoinedStops, Negotiate, RootConsistent;
    match Negotiate(p, w, i, exchange) {
      case Err(_) =>
      case Ok((local, generated, response)) =>
        Negotiated(p, w, i, exchange);
        SaveStopsConsistent(p, w, local, generated, response.master, i.saveTime, k);
    }
  }

  lemma AttemptKeepsRootConsistent(p: Primitives, w: WorkerDisk, a: Attempt)
    requires RootConsistent(w)
    ensures RootConsistent(AfterAttempt(p, w, a))
  {
    hide JoinStops, RootConsistent;
    var last := |JoinStops(p, w, a.input, a.exchange)| - 1;
    StopsConsistent(p, w, a.input, a.exchange, if a.stop <= last then a.stop else last);
  }

  /**
   * A consistent root is consistent after any sequence of join attempts, against any masters, each
   * stopped by an error or a crash at any point.
   */
  lemma {:induction false} AttemptsKeepRootConsistent(p: Primitives, w: WorkerDisk, attempts: seq<Attempt>)
    requires RootConsistent(w)
    ensures RootConsistent(AfterAttempts(p, w, attempts))
    decreases |attempts|
  {
    hide RootConsistent, AfterAttempt;
    if attempts != [] {
      AttemptKeepsRootConsistent(p, w, attempts[0]);
      AttemptsKeepRootConsistent(p, AfterAttempt(p, w, attempts[0]), attempts[1..]);
    }
  }

  /** In particular from nothing: whatever was attempted, an identity is never on disk without its network. */
  lemma FreshRootStaysConsistent(p: Primitives, attempts: seq<Attempt>)
    ensures RootConsistent(AfterAttempts(p, WorkerDisk(None, None, [], false), attempts))
  {
    AttemptsKeepRootConsistent(p, WorkerDisk(None, None, [], false), attempts);
  }

  // ---------- a lock directory that nobody removes ----------

  lemma LockedStops(p: Primitives, w: WorkerDisk, i: JoinInput, exchange: Exchange, k: nat)
    requires w.peersLock && k < |JoinStops(p, w, i, exchange)|
    ensures JoinStops(p, w, i, exchange)[k].peersLock && JoinStops(p, w, i, exchange)[k].peers == w.peers
  {
    hide Negotiate, ValidIdentity, ValidNetwork, EnsurePeer;
  }

  /**
   * A root with the peers lock directory on it keeps it and gains no peer, whatever joins are attempted;
   * joining a master that is not on file never succeeds on it again.
   */
  lemma {:induction false} LockedRootStaysBlocked(p: Primitives, w: WorkerDisk, attempts: seq<Attempt>,
                                                  i: JoinInput, exchange: Exchange)
    requires !NotBlocked(w, i.expectedMaster)
    ensures var later := AfterAttempts(p, w, attempts);
            && later.peersLock && later.peers == w.peers
            && Join(p, later, i, exchange).Err?
    decreases |attempts|
  {
    hide Join, JoinStops, OnFile;
    if attempts == [] {
      BlockedJoinFails(p, w, i, exchange);
    } else {
      var stops := JoinStops(p, w, attempts[0].input, attempts[0].exchange);
      var k := if attempts[0].stop < |stops| then attempts[0].stop else |stops| - 1;
      LockedStops(p, w, attempts[0].input, attempts[0].exchange, k);
      LockedRootStaysBlocked(p, stops[k], attempts[1..], i, exchange);
    }
  }

  lemma BlockedJoinFails(p: Primitives, w: WorkerDisk, i: JoinInput, exchange: Exchange)
    requires !NotBlocked(w, i.expectedMaster)
    ensures Join(p, w, i, exchange).Err?
  {
    hide Negotiate, ValidIdentity, ValidNetwork, EnsurePeer, OnFile, CheckPublicPeer;
    if Negotiate(p, w, i, exchange).Ok? {
      Negotiated(p, w, i, exchange);
    }
  }
}
