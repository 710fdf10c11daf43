/** Resuming, agreement between the two disks, and reconnecting after pairing. */
module PairingTheorems {
  import opened Wrappers
  import opened Text
  import opened Base32
  import opened Identity
  import opened Records
  import opened StoreOps
  import opened TlsIdentity
  import opened Messages
  import opened Protocol
  import opened ProtocolInvariant
  import opened ProtocolRuns
  import opened ProtocolTheorems
  import opened ProtocolAdmission
  import opened ProtocolAlone
  import opened ProtocolUndisturbed
  import opened Pairing

  // ---------- resuming ----------

  /** A disk between the two ends of a save differs from the first in nothing but what was to be saved. */
  lemma StopShape(p: Primitives, w: WorkerDisk, local: Identity, generated: bool, master: PublicPeer, now: Time, k: nat)
    requires SaveJoined(p, w, local, generated, master, now).Ok?
    requires generated ==> w.identity.None?
    requires !generated ==> w.identity == Some(local)
    requires k < |SaveJoinedStops(p, w, local, generated, master, now)|
    ensures var s := SaveJoinedStops(p, w, local, generated, master, now)[k];
            && (s.network == w.network
                || (s.network.Some? && ValidNetwork(s.network.value) && s.network.value.id == local.networkId))
            && (w.network.Some? ==> ValidNetwork(w.network.value) && w.network.value.id == local.networkId)
            && (s.identity == w.identity || s.identity == Some(local))
            && (s.peers == w.peers || EnsurePeer(p, w.peers, master, now) == Ok(s.peers))
            && EnsurePeer(p, w.peers, master, now).Ok?
  {
    hide EnsurePeer, ValidIdentity, OnFile;
  }

  /** Making sure of a peer that has been made sure of, or that could have been, succeeds at any nonzero time. */
  lemma EnsureAgain(p: Primitives, peers: Peers, s: Peers, x: PublicPeer, now: Time, later: Time)
    requires EnsurePeer(p, peers, x, now).Ok? && later != 0
    requires s == peers || EnsurePeer(p, peers, x, now) == Ok(s)
    ensures EnsurePeer(p, s, x, later).Ok? && HasPeer(EnsurePeer(p, s, x, later).value, x)
  {
    hide CheckPublicPeer;
    match FindPeer(peers, x.nodeId) {
      case Some(i) => assert SamePeer(s[i], x);
      case None =>
        if s == peers {
          var added := peers + [NewPeer(x, later)];
          assert SamePeer(added[|peers|], x);
        } else {
          assert s[|peers|] == NewPeer(x, now);
          assert forall j :: 0 <= j < |peers| ==> s[j] == peers[j];
          assert FindPeer(s, x.nodeId) == Some(|peers|);
          assert SamePeer(s[|peers|], x);
        }
    }
  }

  /** What an attempt on disk `w` sends to a master of the given network, if it gets so far. */
  function NextRequest(p: Primitives, w: WorkerDisk, networkId: NetworkId, again: JoinInput): Option<PairRequest> {
    match LocalJoinIdentity(p, w, networkId, again)
    case Ok((local, _)) => Some(RequestOf(local, again))
    case Err(_) => None
  }

  /** `again` is a further attempt, with the same role, at the master of the first one; its own calls work. */
  predicate Retries(p: Primitives, i: JoinInput, again: JoinInput, master: PublicPeer) {
    && again.role == i.role && again.expectedMaster == i.expectedMaster && again.saveTime != 0
    && (match CheckMaster(p, again.certificate, again.expectedMaster, again.handshakeTime)
        case Ok(m) => m.networkId == master.networkId
        case Err(_) => false)
    && GenerateIdentity(p, master.networkId, again.role, again.publicKeys, again.privateKeys, again.identityTime).Ok?
  }

  lemma RetryHasIdentity(p: Primitives, w: WorkerDisk, i: JoinInput, exchange: Exchange, k: nat,
                         again: JoinInput, master: PublicPeer)
    requires Join(p, w, i, exchange).Ok? && k < |JoinStops(p, w, i, exchange)|
    requires Negotiate(p, w, i, exchange).value.2.master == master && Retries(p, i, again, master)
    ensures var s := JoinStops(p, w, i, exchange)[k];
            && LocalJoinIdentity(p, s, master.networkId, again).Ok?
            && NextRequest(p, s, master.networkId, again).Some?
            && (s.identity == w.identity || s.identity == Some(Negotiate(p, w, i, exchange).value.0))
  {
    hide CheckMaster, CheckPublicPeer, DeriveNodeId, ValidKeys, EnsurePeer, SaveJoinedStops, Blank;
    Negotiated(p, w, i, exchange);
    var (local, generated, response) := Negotiate(p, w, i, exchange).value;
    StopShape(p, w, local, generated, master, i.saveTime, k);
  }

  /**
   * Exactly when a join that would have succeeded and was stopped somewhere can be repeated on the disk it
   * left: a new attempt whose one request the master accepts succeeds, with the stored identity if it got
   * that far, unless the stop left the peers lock directory without the master on file.
   */
  lemma StoppedJoinResumes(p: Primitives, w: WorkerDisk, i: JoinInput, exchange: Exchange, k: nat,
                           again: JoinInput, exchange': Exchange, master: PublicPeer)
    requires Join(p, w, i, exchange).Ok? && k < |JoinStops(p, w, i, exchange)|
    requires Negotiate(p, w, i, exchange).value.2.master == master && Retries(p, i, again, master)
    requires match NextRequest(p, JoinStops(p, w, i, exchange)[k], master.networkId, again)
             case Some(request) => exchange'(request) == Ok(AcceptedResponse(master, request))
             case None => true
    ensures NextRequest(p, JoinStops(p, w, i, exchange)[k], master.networkId, again).Some?
    ensures var s := JoinStops(p, w, i, exchange)[k];
            var resumed := Join(p, s, again, exchange');
            && (resumed.Ok? <==> NotBlocked(s, master.nodeId))
            && (resumed.Err? ==> resumed == Err(LockHeld))
            && (resumed.Ok? ==>
                  && resumed.value.0.networkId == master.networkId && resumed.value.0.masterNodeId == master.nodeId
                  && (s.identity.Some? ==> resumed.value.0.localNodeId == s.identity.value.nodeId)
                  && resumed.value.0.localNodeId == NextRequest(p, s, master.networkId, again).value.peer.nodeId
                  && HasPeer(resumed.value.1.peers, master))
  {
    hide CheckMaster, CheckPublicPeer, DeriveNodeId, ValidKeys, EnsurePeer, HasPeer, SaveJoinedStops, Blank, OnFile;
    Negotiated(p, w, i, exchange);
    var (local, generated, response) := Negotiate(p, w, i, exchange).value;
    var s := JoinStops(p, w, i, exchange)[k];
    StopShape(p, w, local, generated, master, i.saveTime, k);
    EnsureAgain(p, w.peers, s.peers, master, i.saveTime, again.saveTime);
    var networkId := master.networkId;
    RetryHasIdentity(p, w, i, exchange, k, again, master);
    var (local', generated') := LocalJoinIdentity(p, s, networkId, again).value;
    var request := RequestOf(local', again);
    assert exchange'(request) == Ok(AcceptedResponse(master, request));
    assert Negotiate(p, s, again, exchange') == Ok((local', generated', AcceptedResponse(master, request)));
    assert local'.networkId == networkId && ValidIdentity(local');
    NetworkEnsured(s, networkId, master.nodeId, again.saveTime);
  }

  /** Every join that has its master to add has one blocked stop: after taking the lock and before the save. */
  lemma SomeStopIsBlocked(p: Primitives, w: WorkerDisk, i: JoinInput, exchange: Exchange)
    requires Join(p, w, i, exchange).Ok? && !OnFile(w.peers, i.expectedMaster)
    ensures |JoinStops(p, w, i, exchange)| == 6
    ensures forall k :: 0 <= k < 6 ==> (NotBlocked(JoinStops(p, w, i, exchange)[k], i.expectedMaster) <==> k != 3)
  {
    hide Negotiate, SaveJoined, SaveJoinedStops, OnFile, NotBlocked;
    Negotiated(p, w, i, exchange);
    var (local, generated, response) := Negotiate(p, w, i, exchange).value;
    BlockedSaveStop(p, w, local, generated, response.master, i.saveTime);
  }

  lemma BlockedSaveStop(p: Primitives, w: WorkerDisk, local: Identity, generated: bool, master: PublicPeer, now: Time)
    requires SaveJoined(p, w, local, generated, master, now).Ok? && !OnFile(w.peers, master.nodeId)
    ensures var stops := SaveJoinedStops(p, w, local, generated, master, now);
            |stops| == 6 && forall k :: 0 <= k < 6 ==> (NotBlocked(stops[k], master.nodeId) <==> k != 3)
  {
    hide EnsurePeer, OnFile, ValidIdentity, ValidNetwork;
    MasterGetsOnFile(p, w.peers, master, now);
  }

  lemma MasterGetsOnFile(p: Primitives, peers: Peers, x: PublicPeer, now: Time)
    requires EnsurePeer(p, peers, x, now).Ok?
    ensures OnFile(EnsurePeer(p, peers, x, now).value, x.nodeId)
  {
    hide CheckPublicPeer, ValidPeerRecord;
    if FindPeer(peers, x.nodeId).None? {
      assert (peers + [NewPeer(x, now)])[|peers|].nodeId == x.nodeId;
    }
  }

  lemma NetworkEnsured(s: WorkerDisk, networkId: NetworkId, createdBy: NodeId, now: Time)
    requires !Blank(networkId) && now != 0
    requires s.network.Some? ==> ValidNetwork(s.network.value) && s.network.value.id == networkId
    ensures EnsureNetwork(s, networkId, createdBy, now).Ok?
    ensures EnsureNetwork(s, networkId, createdBy, now).value.peers == s.peers
    ensures EnsureNetwork(s, networkId, createdBy, now).value.peersLock == s.peersLock
  {
    hide Blank;
  }

  // ---------- agreement ----------

  /** The pipe is authenticated and delivers intact: what comes back was produced for the request that was sent. */
  ghost predicate AnsweredBy(t: Thread, exchange: Exchange) {
    && t.op.Pair?
    && forall r, response :: exchange(r) == Ok(response) ==>
         t.Succeeded() && t.op.request == r && response == AcceptedResponse(t.op.master, r)
  }

  /** What a successful pairing has put on the master's disk, then and ever after. */
  lemma PairingStays(p: Primitives, s0: State, a: seq<Action>, b: seq<Action>, id: nat)
    requires Initial(s0) && id in Run(p, s0, a).threads
    requires Run(p, s0, a).threads[id].op.Pair? && Run(p, s0, a).threads[id].Succeeded()
    ensures var t, later := Run(p, s0, a).threads[id], Run(p, s0, a + b);
            && DiskOk(later.disk)
            && CheckAdmission(p, t.op.master, t.op.request).None? && WellMadeRequest(p, t.op.master, t.op.request)
            && HasPeer(later.disk.peers, t.op.request.peer)
            && t.consumed.Some?
            && ConsumedFor(later.disk.codes, t.consumed.value, ConsumeRequestOf(t.op.master, t.op.request))
  {
    hide DiskOk, ThreadOk, OneOwner, ConsumedOnce, Replay, Run, Grows, HasPeer, CheckAdmission, ConsumedFor,
      WellMadeRequest;
    InitialInv(p, s0);
    RunOk(p, s0.disk, s0, a);
    RunOk(p, s0.disk, s0, a + b);
    RunConcat(p, s0, a, b);
    EndedStays(p, Run(p, s0, a), b, id);
    AdmissionIff(p, Run(p, s0, a).threads[id].op.master, Run(p, s0, a).threads[id].op.request);
    SuccessConsumes(p, Run(p, s0, a + b).disk, Run(p, s0, a + b).threads[id]);
  }

  /** What a successful join has put on the joining node's disk. */
  lemma JoinedDisk(p: Primitives, w: WorkerDisk, i: JoinInput, exchange: Exchange)
    requires Join(p, w, i, exchange).Ok?
    ensures var (result, saved) := Join(p, w, i, exchange).value;
            var (local, generated, response) := Negotiate(p, w, i, exchange).value;
            && result == JoinResult(local.nodeId, i.expectedMaster, local.networkId, i.role)
            && saved.identity == Some(local) && local.role == i.role
            && saved.network.Some? && saved.network.value.id == local.networkId
            && HasPeer(saved.peers, response.master)
            && EnsurePeer(p, w.peers, response.master, i.saveTime) == Ok(saved.peers)
  {
    hide Negotiate, EnsurePeer, HasPeer, ValidIdentity, CheckPublicPeer;
    Negotiated(p, w, i, exchange);
    var (local, generated, response) := Negotiate(p, w, i, exchange).value;
    var saved := Join(p, w, i, exchange).value.1;
    EnsuredPeerIsThere(p, w.peers, response.master, i.saveTime);
  }

  lemma EnsuredPeerIsThere(p: Primitives, peers: Peers, x: PublicPeer, now: Time)
    requires EnsurePeer(p, peers, x, now).Ok?
    ensures HasPeer(EnsurePeer(p, peers, x, now).value, x)
  {
    hide CheckPublicPeer, ValidPeerRecord;
    match FindPeer(peers, x.nodeId) {
      case Some(i) => assert SamePeer(peers[i], x);
      case None => assert SamePeer((peers + [NewPeer(x, now)])[|peers|], x);
    }
  }

  /**
   * When Join returns success, the two disks agree with its result: the master has the node under its
   * id, network, role and keys and a join record consumed by it, now and in every later state; the
   * joining node has that network, that identity, and the pinned master as a peer of that network.
   */
  lemma TwoDisksAgree(p: Primitives, s0: State, a: seq<Action>, b: seq<Action>, id: nat,
                      w: WorkerDisk, i: JoinInput, exchange: Exchange)
    requires Initial(s0) && id in Run(p, s0, a).threads
    requires AnsweredBy(Run(p, s0, a).threads[id], exchange)
    requires Join(p, w, i, exchange).Ok?
    ensures var later := Run(p, s0, a + b).disk;
            var (result, saved) := Join(p, w, i, exchange).value;
            var master := Run(p, s0, a).threads[id].op.master;
            && saved.identity.Some?
            && saved.identity.value.nodeId == result.localNodeId
            && saved.identity.value.networkId == result.networkId
            && saved.identity.value.role == result.role == i.role
            && saved.network.Some? && saved.network.value.id == result.networkId
            && HasPeer(saved.peers, master)
            && master.nodeId == result.masterNodeId == i.expectedMaster
            && master.networkId == result.networkId && master.role.Master?
            && HasPeer(later.peers, PublicPeerFromIdentity(saved.identity.value))
            && exists c :: 0 <= c < |later.codes| && later.codes[c].status.Consumed?
                           && later.codes[c].consumedBy == result.localNodeId
                           && later.codes[c].networkId == result.networkId
                           && later.codes[c].expectedRole == result.role
  {
    hide DiskOk, Run, HasPeer, Negotiate, Join, CheckAdmission, EnsurePeer, WellMadeRequest, ConsumedFor,
      CheckPublicPeer, ValidIdentity;
    var t := Run(p, s0, a).threads[id];
    JoinedDisk(p, w, i, exchange);
    JoinNegotiates(p, w, i, exchange);
    Negotiated(p, w, i, exchange);
    var (local, generated, response) := Negotiate(p, w, i, exchange).value;
    assert exchange(RequestOf(local, i)) == Ok(response);
    PairingStays(p, s0, a, b, id);
    ConsumedRecord(Run(p, s0, a + b).disk.codes, t.consumed.value, ConsumeRequestOf(t.op.master, t.op.request));
  }

  lemma ConsumedRecord(codes: Codes, c: nat, q: ConsumeRequest)
    requires ConsumedFor(codes, c, q)
    ensures exists c :: 0 <= c < |codes| && codes[c].status.Consumed? && codes[c].consumedBy == q.consumedBy
                        && codes[c].networkId == q.networkId && codes[c].expectedRole == q.expectedRole
  {
  }

  lemma JoinNegotiates(p: Primitives, w: WorkerDisk, i: JoinInput, exchange: Exchange)
    requires Join(p, w, i, exchange).Ok?
    ensures Negotiate(p, w, i, exchange).Ok?
  {
  }

  // ---------- which code a stopped join can be resumed with ----------

  lemma GeneratedIdFits(p: Primitives, networkId: NetworkId, role: Role, publicKeys: KeySet, privateKeys: KeySet,
                        at: Time)
    requires GenerateIdentity(p, networkId, role, publicKeys, privateKeys, at).Ok?
    ensures var local := GenerateIdentity(p, networkId, role, publicKeys, privateKeys, at).value;
            && DeriveNodeId(p, local.publicKeys) == Ok(local.nodeId)
            && ValidIdentity(local) && local.role == role && local.networkId == networkId
  {
    hide DeriveNodeId, ValidIdentity, Blank;
  }

  /** The stored identity of a root, if it has one, has the id its keys give. */
  predicate StoredIdFits(p: Primitives, w: WorkerDisk) {
    w.identity.Some? ==> DeriveNodeId(p, w.identity.value.publicKeys) == Ok(w.identity.value.nodeId)
  }

  lemma NegotiatedIdFits(p: Primitives, w: WorkerDisk, i: JoinInput, exchange: Exchange)
    requires Negotiate(p, w, i, exchange).Ok? && StoredIdFits(p, w)
    ensures var local := Negotiate(p, w, i, exchange).value.0;
            DeriveNodeId(p, local.publicKeys) == Ok(local.nodeId)
  {
    hide DeriveNodeId, CheckResponse, CheckMaster, GenerateIdentity, ValidIdentity, Blank;
    var m := CheckMaster(p, i.certificate, i.expectedMaster, i.handshakeTime).value;
    if w.identity.None? {
      GeneratedIdFits(p, m.networkId, i.role, i.publicKeys, i.privateKeys, i.identityTime);
    }
  }

  lemma RequestPasses(p: Primitives, local: Identity, i: JoinInput, master: PublicPeer)
    requires ValidIdentity(local) && DeriveNodeId(p, local.publicKeys) == Ok(local.nodeId)
    requires local.role == i.role && local.networkId == master.networkId
    requires !Blank(i.code) && i.requestTime != 0
    ensures CheckAdmission(p, master, RequestOf(local, i)).None?
  {
    hide Blank, DeriveNodeId, ValidKeys;
  }

  lemma RetryPasses(p: Primitives, w: WorkerDisk, i: JoinInput, exchange: Exchange, k: nat,
                    again: JoinInput, master: PublicPeer)
    requires Join(p, w, i, exchange).Ok? && k < |JoinStops(p, w, i, exchange)| && StoredIdFits(p, w)
    requires Negotiate(p, w, i, exchange).value.2.master == master && Retries(p, i, again, master)
    requires !Blank(again.code) && again.requestTime != 0
    ensures NextRequest(p, JoinStops(p, w, i, exchange)[k], master.networkId, again).Some?
    ensures var request := NextRequest(p, JoinStops(p, w, i, exchange)[k], master.networkId, again).value;
            && CheckAdmission(p, master, request).None?
            && request.code == again.code && request.role == again.role
  {
    hide Join, JoinStops, Negotiate, DeriveNodeId, Blank, CheckMaster, CheckAdmission, GenerateIdentity, ValidIdentity;
    RetryHasIdentity(p, w, i, exchange, k, again, master);
    JoinNegotiates(p, w, i, exchange);
    NegotiatedIdFits(p, w, i, exchange);
    var s := JoinStops(p, w, i, exchange)[k];
    GeneratedIdFits(p, master.networkId, again.role, again.publicKeys, again.privateKeys, again.identityTime);
    var (local, _) := LocalJoinIdentity(p, s, master.networkId, again).value;
    RequestPasses(p, local, again, master);
  }

  /** A connection on which only `sent` was sent and `master` granted it. */
  function GrantingExchange(sent: PairRequest, master: PublicPeer): Exchange {
    (r: PairRequest) => if r == sent then Ok(AcceptedResponse(master, r)) else Err(IoError)
  }

  /**
   * With a fresh code a stopped join can be resumed: the master's file has at `j` the record of a code
   * that was made for this network and role and that no earlier record takes for its own; the locks
   * it needs are free, the node is neither revoked nor known there under other data. Then the master's attempt
   * for the new request, left alone, succeeds, the resumed join does, and the two disks agree.
   */
  lemma FreshCodeResumes(p: Primitives, w: WorkerDisk, i: JoinInput, exchange: Exchange, k: nat,
                         again: JoinInput, master: PublicPeer,
                         s0: State, a: seq<Action>, id: nat, clock: Clock,
                         create: CreateRequest, at: Time, secret: seq<Byte>, salt: seq<Byte>, j: nat)
    requires Join(p, w, i, exchange).Ok? && k < |JoinStops(p, w, i, exchange)| && StoredIdFits(p, w)
    requires Negotiate(p, w, i, exchange).value.2.master == master && Retries(p, i, again, master)
    requires again.requestTime != 0
    requires Initial(s0) && id !in Run(p, s0, a).threads
    requires clock(7) != 0 && clock(6) != 0 && clock(2) != 0
    requires NewJoinRecord(p, create, at, secret, salt).Ok?
    requires SpellingOf(NewJoinRecord(p, create, at, secret, salt).value.0, again.code)
    requires create.networkId == master.networkId && create.expectedRole == again.role
    requires j < |Run(p, s0, a).disk.codes|
    requires Run(p, s0, a).disk.codes[j] == NewJoinRecord(p, create, at, secret, salt).value.1
    requires match NextRequest(p, JoinStops(p, w, i, exchange)[k], master.networkId, again)
             case Some(request) =>
               var s := Run(p, s0, a);
               && !IsRevokedIn(s.disk.revs, request.peer.nodeId) && NoOtherPeer(s.disk.peers, request.peer)
               && CodesLock !in s.locks
               && (PeersLock in s.locks ==> FindPeer(s.disk.peers, request.peer.nodeId).Some?)
               && (forall m :: 0 <= m < j ==> Judge(p, s.disk.codes[m], ConsumeRequestOf(master, request)).Skip?)
             case None => true
    ensures NextRequest(p, JoinStops(p, w, i, exchange)[k], master.networkId, again).Some?
    ensures var request := NextRequest(p, JoinStops(p, w, i, exchange)[k], master.networkId, again).value;
            var end := Run(p, s0, a + ([Spawn(id, Pair(master, request))] + SmoothTurns(id, clock, 12)));
            var resumed := Join(p, JoinStops(p, w, i, exchange)[k], again, GrantingExchange(request, master));
            && id in end.threads && AnsweredBy(end.threads[id], GrantingExchange(request, master))
            && j < |end.disk.codes| && end.disk.codes[j].consumedBy == request.peer.nodeId
            && HasPeer(end.disk.peers, request.peer)
            && (resumed.Ok? <==> NotBlocked(JoinStops(p, w, i, exchange)[k], master.nodeId))
            && (resumed.Ok? ==>
                  && resumed.value.0.networkId == master.networkId
                  && resumed.value.0.localNodeId == request.peer.nodeId
                  && HasPeer(resumed.value.1.peers, master))
  {
    hide Join, JoinStops, Negotiate, NewJoinRecord, SpellingOf, Blank, LocalJoinIdentity, CheckAdmission, Judge, Run,
      NoOtherPeer, FindPeer, IsRevokedIn, HasPeer, AnsweredBy, CheckMaster, DeriveNodeId, GrantingExchange,
      GenerateIdentity;
    FreshCodeIsReadable(p, create, at, secret, salt, again.code);
    RetryPasses(p, w, i, exchange, k, again, master);
    var request := NextRequest(p, JoinStops(p, w, i, exchange)[k], master.networkId, again).value;
    FreshCodeIsGranted(p, s0, a, id, master, request, clock, create, at, secret, salt, j);
    GrantingAnswers(request, master);
    StoppedJoinResumes(p, w, i, exchange, k, again, GrantingExchange(request, master), master);
  }

  lemma GrantingAnswers(request: PairRequest, master: PublicPeer)
    ensures GrantingExchange(request, master)(request) == Ok(AcceptedResponse(master, request))
    ensures forall t: Thread :: t.op == Pair(master, request) && t.Succeeded() ==>
              AnsweredBy(t, GrantingExchange(request, master))
  {
  }

  lemma FreshCodeIsGranted(p: Primitives, s0: State, a: seq<Action>, id: nat, master: PublicPeer, request: PairRequest,
                           clock: Clock, create: CreateRequest, at: Time, secret: seq<Byte>, salt: seq<Byte>, j: nat)
    requires Initial(s0) && id !in Run(p, s0, a).threads
    requires clock(7) != 0 && clock(6) != 0 && clock(2) != 0
    requires CheckAdmission(p, master, request).None?
    requires NewJoinRecord(p, create, at, secret, salt).Ok?
    requires SpellingOf(NewJoinRecord(p, create, at, secret, salt).value.0, request.code)
    requires create.networkId == master.networkId && create.expectedRole == request.role
    requires var s := Run(p, s0, a);
             && j < |s.disk.codes| && s.disk.codes[j] == NewJoinRecord(p, create, at, secret, salt).value.1
             && !IsRevokedIn(s.disk.revs, request.peer.nodeId) && NoOtherPeer(s.disk.peers, request.peer)
             && CodesLock !in s.locks
             && (PeersLock in s.locks ==> FindPeer(s.disk.peers, request.peer.nodeId).Some?)
             && (forall m :: 0 <= m < j ==> Judge(p, s.disk.codes[m], ConsumeRequestOf(master, request)).Skip?)
    ensures var end := Run(p, s0, a + ([Spawn(id, Pair(master, request))] + SmoothTurns(id, clock, 12)));
            && id in end.threads && end.threads[id].op == Pair(master, request) && end.threads[id].Succeeded()
            && j < |end.disk.codes| && end.disk.codes[j].consumedBy == request.peer.nodeId
            && HasPeer(end.disk.peers, request.peer)
  {
    hide NewJoinRecord, SpellingOf, CheckAdmission, Judge, Scan, Run, NoOtherPeer, FindPeer, IsRevokedIn, HasPeer,
      Consume,
      EnsurePeer;
    var s := Run(p, s0, a);
    var q := ConsumeRequestOf(master, request);
    NewCodeIsAccepted(p, s.disk.codes, j, create, at, secret, salt, q);
    UndisturbedPairingIff(p, s0, a, id, master, request, clock);
    var end := Run(p, s0, a + ([Spawn(id, Pair(master, request))] + SmoothTurns(id, clock, 12)));
    ConsumedAt(p, s.disk.codes, end.disk.codes, q, ConsumptionTime(s.disk, request, clock), j);
    EnsuredPeerIsThere(p, s.disk.peers, request.peer, clock(7));
  }

  lemma FreshCodeIsReadable(p: Primitives, create: CreateRequest, at: Time, secret: seq<Byte>, salt: seq<Byte>,
                            typed: string)
    requires NewJoinRecord(p, create, at, secret, salt).Ok?
    requires SpellingOf(NewJoinRecord(p, create, at, secret, salt).value.0, typed)
    ensures !Blank(typed)
  {
    hide SpellingOf, NewJoinRecord, Blank, DecodeNoPadding;
    EverySpellingVerifies(p, create, at, secret, salt, typed);
  }

  lemma ConsumedAt(p: Primitives, codes: Codes, after: Codes, q: ConsumeRequest, now: Time, j: nat)
    requires Consume(p, codes, q, now) == Ok(after) && Scan(p, codes, q, 0) == Ok(j)
    ensures j < |after| && after[j].status.Consumed? && after[j].consumedBy == q.consumedBy
  {
    hide CheckConsumeRequest, Scan, ValidJoinRecord;
  }

  /**
   * With a code that has been used it cannot be resumed: once any attempt has consumed a record with it,
   * whether or not its answer, its save or its process got any further, no other attempt of the master
   * grants a request with the same code bytes, in any continuation. A retry with that code fails and
   * leaves the disk as it is.
   */
  lemma UsedCodeCannotResume(p: Primitives, s0: State, a: seq<Action>, b: seq<Action>, first: nat, second: nat,
                             w: WorkerDisk, again: JoinInput, exchange: Exchange)
    requires Initial(s0) && first != second
    requires first in Run(p, s0, a).threads && second in Run(p, s0, a + b).threads
    requires Consumes(Run(p, s0, a).threads[first].op) && Run(p, s0, a).threads[first].consumed.Some?
    requires AnsweredBy(Run(p, s0, a + b).threads[second], exchange)
    requires DecodeNoPadding(p.upper, again.code)
          == DecodeNoPadding(p.upper, ConsumeOf(Run(p, s0, a).threads[first].op).code)
    ensures Negotiate(p, w, again, exchange).Err? && Join(p, w, again, exchange).Err?
    ensures JoinStops(p, w, again, exchange) == [w]
  {
    hide Run, Inv, CheckMaster, LocalJoinIdentity, CheckResponse, SaveJoined, SaveJoinedStops, DecodeNoPadding;
    var s, later := Run(p, s0, a), Run(p, s0, a + b);
    InitialInv(p, s0);
    RunOk(p, s0.disk, s0, a);
    RunConcat(p, s0, a, b);
    ConsumedStays(p, s0.disk, s, b, first);
    if Negotiate(p, w, again, exchange).Ok? {
      AnswerComes(p, w, again, exchange, later.threads[second]);
      RunOk(p, s0.disk, s0, a + b);
      SuccessIsConsumption(p, s0.disk, later, second);
      OneCodeOneUse(p, s0, a + b, first, second);
    }
  }

  lemma AnswerComes(p: Primitives, w: WorkerDisk, i: JoinInput, exchange: Exchange, t: Thread)
    requires AnsweredBy(t, exchange) && Negotiate(p, w, i, exchange).Ok?
    ensures t.op.Pair? && t.Succeeded() && t.op.request.code == i.code
  {
    hide CheckMaster, LocalJoinIdentity, CheckResponse;
  }

  lemma SuccessIsConsumption(p: Primitives, d0: Disk, s: State, id: nat)
    requires Inv(p, d0, s) && id in s.threads && s.threads[id].op.Pair? && s.threads[id].Succeeded()
    ensures s.threads[id].consumed.Some?
  {
    hide DiskOk, Replay, OneOwner, ConsumedOnce, ThreadOk;
    SuccessConsumes(p, s.disk, s.threads[id]);
  }

  // ---------- reconnecting ----------

  ghost predicate WithinWindow(issued: Time, now: Time) {
    issued - CLOCK_SKEW <= now <= issued + CERTIFICATE_TTL
  }

  /** A peer on file that is not revoked gets in with any certificate it issues, whatever its stored status was. */
  lemma KnownPeerAccepted(p: Primitives, d: Disk, revsLater: Revocations, local: Identity, issued: Time, now: Time,
                          expected: Option<Role>)
    requires DiskOk(d) && HasPeer(d.peers, PublicPeerFromIdentity(local))
    requires d.revs <= revsLater && !IsRevokedIn(revsLater, local.nodeId)
    requires NewCertificate(p, local, issued).Ok? && WithinWindow(issued, now)
    requires expected == None || expected == Some(local.role)
    ensures VerifyCertificate(p, VerifyOptions(local.networkId, expected), NewCertificate(p, local, issued).value, now,
                              d.peers, revsLater) == Ok(MetadataFor(local, issued))
  {
    hide VerifyCertificate, IsRevokedIn, NewCertificate, DiskOk, FindPeer, HasPeer;
    IssuerIsValid(p, local, issued);
    var j := FoundInSoundFiles(d, PublicPeerFromIdentity(local));
    if IsRevokedIn(d.revs, local.nodeId) {
      RevokedStaysRevoked(d.revs, revsLater, local.nodeId);
    }
    IssuedCertificateAcceptedIff(p, VerifyOptions(local.networkId, expected), local, issued, now, d.peers, revsLater);
  }

  lemma FoundInSoundFiles(d: Disk, x: PublicPeer) returns (j: nat)
    requires DiskOk(d) && HasPeer(d.peers, x)
    ensures FindPeer(d.peers, x.nodeId) == Some(j) && SamePeer(d.peers[j], x)
    ensures d.peers[j].IsActive() || IsRevokedIn(d.revs, x.nodeId)
  {
    hide StatusAgrees, IsRevokedIn, AllValidCodes, AllValidPeers, AllValidRevs, DistinctRevs;
    j :| 0 <= j < |d.peers| && SamePeer(d.peers[j], x);
    assert FindPeer(d.peers, x.nodeId) == Some(j);
    ActiveOrRevoked(d.peers[j], d.revs);
  }

  lemma ActiveOrRevoked(r: PeerRecord, revs: Revocations)
    requires StatusAgrees(r, revs)
    ensures r.IsActive() || IsRevokedIn(revs, r.nodeId)
  {
  }

  lemma IssuerIsValid(p: Primitives, local: Identity, issued: Time)
    requires NewCertificate(p, local, issued).Ok?
    ensures ValidRole(local.role)
  {
  }

  /**
   * The master lets the paired node in. The two store reads of one verification may be any number of
   * steps apart; what counts is that the node is not revoked when the second one happens.
   */
  lemma MasterAcceptsWorker(p: Primitives, s0: State, a: seq<Action>, b: seq<Action>, c: seq<Action>, id: nat,
                            w: WorkerDisk, i: JoinInput, exchange: Exchange, issued: Time, now: Time,
                            expected: Option<Role>)
    requires Initial(s0) && id in Run(p, s0, a).threads
    requires expected == None || expected == Some(i.role)
    requires AnsweredBy(Run(p, s0, a).threads[id], exchange)
    requires Join(p, w, i, exchange).Ok? && Join(p, w, i, exchange).value.1.identity.Some?
    requires !IsRevokedIn(Run(p, s0, a + b + c).disk.revs, Join(p, w, i, exchange).value.0.localNodeId)
    requires NewCertificate(p, Join(p, w, i, exchange).value.1.identity.value, issued).Ok?
    requires WithinWindow(issued, now)
    ensures var worker := Join(p, w, i, exchange).value.1.identity.value;
            var master := Run(p, s0, a).threads[id].op.master;
            VerifyCertificate(p, VerifyOptions(master.networkId, expected),
                              NewCertificate(p, worker, issued).value, now,
                              Run(p, s0, a + b).disk.peers, Run(p, s0, a + b + c).disk.revs)
            == Ok(MetadataFor(worker, issued))
  {
    hide DiskOk, Run, HasPeer, Join, VerifyCertificate, NewCertificate, IsRevokedIn, CodesGrow, PeersGrow, ThreadsOk,
      OneOwner, ConsumedOnce, Replay, WellMadeRequest, CheckAdmission, ConsumedFor, AnsweredBy;
    TwoDisksAgree(p, s0, a, b, id, w, i, exchange);
    var mid := Run(p, s0, a + b);
    AnswerEnds(p, w, i, exchange, Run(p, s0, a).threads[id]);
    PairingStays(p, s0, a, b, id);
    InitialInv(p, s0);
    RunOk(p, s0.disk, s0, a + b);
    RunConcat(p, s0, a + b, c);
    RunOk(p, s0.disk, mid, c);
    var worker := Join(p, w, i, exchange).value.1.identity.value;
    KnownPeerAccepted(p, mid.disk, Run(p, s0, a + b + c).disk.revs, worker, issued, now, expected);
  }

  lemma AnswerEnds(p: Primitives, w: WorkerDisk, i: JoinInput, exchange: Exchange, t: Thread)
    requires AnsweredBy(t, exchange) && Join(p, w, i, exchange).Ok?
    ensures t.op.Pair? && t.Succeeded()
  {
    hide CheckMaster, LocalJoinIdentity, CheckResponse, SaveJoined;
  }

  lemma JoinKeepsFilesSound(p: Primitives, w: WorkerDisk, i: JoinInput, exchange: Exchange, codes: Codes,
                            revs: Revocations)
    requires DiskOk(Disk(codes, w.peers, revs)) && Join(p, w, i, exchange).Ok?
    ensures DiskOk(Disk(codes, Join(p, w, i, exchange).value.1.peers, revs))
  {
    hide DiskOk, Join, Negotiate, CheckPublicPeer, HasPeer, AddPeer;
    JoinedDisk(p, w, i, exchange);
    JoinNegotiates(p, w, i, exchange);
    var master := Negotiate(p, w, i, exchange).value.2.master;
    if FindPeer(w.peers, master.nodeId).None? {
      AppendedPeer(Disk(codes, w.peers, revs), master, i.saveTime);
    }
  }

  /**
   * The joined node lets the master in, in every later state of its own root: its other files were
   * sound before the join, and the master is not revoked there when the revocations are read.
   */
  lemma WorkerAcceptsMaster(p: Primitives, w: WorkerDisk, i: JoinInput, exchange: Exchange, t: Thread, master: Identity,
                            sw: State, codes: Codes, revs: Revocations, a: seq<Action>, b: seq<Action>,
                            issued: Time, now: Time, expected: Option<Role>)
    requires expected == None || expected == Some(Master)
    requires Join(p, w, i, exchange).Ok? && AnsweredBy(t, exchange)
    requires t.op.master == PublicPeerFromIdentity(master)
    requires DiskOk(Disk(codes, w.peers, revs))
    requires sw.disk == Disk(codes, Join(p, w, i, exchange).value.1.peers, revs) && sw.threads == map[] && sw.log == []
    requires !IsRevokedIn(Run(p, sw, a + b).disk.revs, master.nodeId)
    requires NewCertificate(p, master, issued).Ok? && WithinWindow(issued, now)
    ensures VerifyCertificate(p, VerifyOptions(Join(p, w, i, exchange).value.0.networkId, expected),
                              NewCertificate(p, master, issued).value, now,
                              Run(p, sw, a).disk.peers, Run(p, sw, a + b).disk.revs)
            == Ok(MetadataFor(master, issued))
  {
    hide DiskOk, Run, HasPeer, Join, Negotiate, VerifyCertificate, NewCertificate, IsRevokedIn, CodesGrow, PeersGrow,
      ThreadsOk, OneOwner, ConsumedOnce, Replay, EnsurePeer, CheckPublicPeer, ValidIdentity;
    JoinKeepsFilesSound(p, w, i, exchange, codes, revs);
    JoinedDisk(p, w, i, exchange);
    JoinNegotiates(p, w, i, exchange);
    Negotiated(p, w, i, exchange);
    var (local, generated, response) := Negotiate(p, w, i, exchange).value;
    assert exchange(RequestOf(local, i)) == Ok(response);
    InitialInv(p, sw);
    RunOk(p, sw.disk, sw, a);
    HasPeerGrows(sw.disk.peers, Run(p, sw, a).disk.peers, response.master);
    RunConcat(p, sw, a, b);
    RunOk(p, sw.disk, Run(p, sw, a), b);
    KnownPeerAccepted(p, Run(p, sw, a).disk, Run(p, sw, a + b).disk.revs, master, issued, now, expected);
  }
}
