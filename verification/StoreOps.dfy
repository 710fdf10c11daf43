/**
 * Each store operation as one indivisible step on the contents of its file. The store methods and the
 * concurrent protocol are both proved against these functions.
 */
module StoreOps {
  import opened Wrappers
  import opened Text
  import opened Base32
  import opened Identity
  import opened Records

  type Codes = seq<JoinRecord>
  type Peers = seq<PeerRecord>
  type Revocations = seq<RevocationRecord>

  // ---------- join codes ----------

  datatype Verdict = Skip | Reject(error: Error) | Accept

  /** What the scan does on reaching one record. */
  function Judge(p: Primitives, r: JoinRecord, q: ConsumeRequest): Verdict {
    if r.algorithm != VERIFIER_ALGORITHM then Skip
    else match VerifierForCode(p, q.code, r.salt)
      case Err(e) => Reject(e)
      case Ok(v) =>
        if v != r.verifier then Skip
        else if r.status.Consumed? then Reject(CodeConsumed)
        else if r.networkId != q.networkId then Reject(WrongNetwork)
        else if r.expectedRole != q.expectedRole then Reject(WrongRole)
        else Accept
  }

  /**
   * When a record is accepted, when it is passed over, and what is answered otherwise: a used record before
   * a wrong network, and that before a wrong role.
   */
  lemma JudgeIff(p: Primitives, r: JoinRecord, q: ConsumeRequest)
    ensures
      Judge(p, r, q).Accept? <==>
        && r.algorithm == "hmac-sha256-v1" && r.salt != [] && !Blank(q.code)
        && (exists secret :: DecodeNoPadding(p.upper, q.code) == Ok(secret) && p.hmac(r.salt, secret) == r.verifier)
        && !r.status.Consumed? && r.networkId == q.networkId && r.expectedRole == q.expectedRole
    ensures
      r.salt != [] && !Blank(q.code) ==>
        match DecodeNoPadding(p.upper, q.code)
        case Err(_) => Judge(p, r, q) == if r.algorithm == "hmac-sha256-v1" then Reject(InvalidCode) else Skip
        case Ok(secret) =>
          if r.algorithm != "hmac-sha256-v1" || p.hmac(r.salt, secret) != r.verifier then Judge(p, r, q) == Skip
          else if r.status.Consumed? then Judge(p, r, q) == Reject(CodeConsumed)
          else if r.networkId != q.networkId then Judge(p, r, q) == Reject(WrongNetwork)
          else r.expectedRole != q.expectedRole ==> Judge(p, r, q) == Reject(WrongRole)
  {
    hide DecodeNoPadding, Blank;
  }

  /** The first record from `from` on that is not skipped decides; the result is its index. */
  function Scan(p: Primitives, codes: Codes, q: ConsumeRequest, from: nat): (r: Result<nat, Error>)
    requires from <= |codes|
    ensures r.Ok? ==> from <= r.value < |codes| && Judge(p, codes[r.value], q).Accept?
    ensures r.Ok? ==> forall j :: from <= j < r.value ==> Judge(p, codes[j], q).Skip?
    decreases |codes| - from
  {
    if from == |codes| then Err(InvalidCode)
    else match Judge(p, codes[from], q)
      case Skip => Scan(p, codes, q, from + 1)
      case Reject(e) => Err(e)
      case Accept => Ok(from)
  }

  /** The first record that is not skipped. */
  predicate Decides(p: Primitives, codes: Codes, q: ConsumeRequest, from: nat, k: nat)
    requires k < |codes|
  {
    from <= k && !Judge(p, codes[k], q).Skip? && forall j :: from <= j < k ==> Judge(p, codes[j], q).Skip?
  }

  /**
   * The scan answers with the first record that is not skipped: its index when it is accepted, its own
   * refusal otherwise; and with an invalid code only when there is no such record or it says so itself.
   */
  lemma {:induction false} ScanIsFirstDecision(p: Primitives, codes: Codes, q: ConsumeRequest, from: nat)
    requires from <= |codes|
    ensures (forall j :: from <= j < |codes| ==> Judge(p, codes[j], q).Skip?) ==>
              Scan(p, codes, q, from) == Err(InvalidCode)
    ensures forall k :: 0 <= k < |codes| && Decides(p, codes, q, from, k) ==>
              Scan(p, codes, q, from) == (match Judge(p, codes[k], q) case Reject(e) => Err(e) case _ => Ok(k))
    decreases |codes| - from
  {
    hide Judge;
    if from < |codes| && Judge(p, codes[from], q).Skip? {
      ScanIsFirstDecision(p, codes, q, from + 1);
      forall k | 0 <= k < |codes| && Decides(p, codes, q, from, k) ensures Decides(p, codes, q, from + 1, k) {
      }
    }
  }

  function MarkConsumed(r: JoinRecord, consumer: NodeId, at: Time): JoinRecord {
    r.(status := Consumed, consumedAt := Some(at), consumedBy := consumer)
  }

  /** Consume the record at `i`, which the scan chose; the changed record is validated before the save. */
  function ConsumeAt(codes: Codes, i: nat, consumer: NodeId, at: Time): Result<Codes, Error>
    requires i < |codes|
  {
    var r := MarkConsumed(codes[i], consumer, at);
    if ValidJoinRecord(r) then Ok(codes[i := r]) else Err(InvalidRecord)
  }

  function Consume(p: Primitives, codes: Codes, q: ConsumeRequest, at: Time): Result<Codes, Error> {
    match CheckConsumeRequest(q)
    case Some(e) => Err(e)
    case None =>
      match Scan(p, codes, q, 0)
      case Err(e) => Err(e)
      case Ok(i) => ConsumeAt(codes, i, q.consumedBy, at)
  }

  // ---------- peers ----------

  function FindPeer(peers: Peers, id: NodeId): (r: Option<nat>)
    ensures r.Some? ==> r.value < |peers| && peers[r.value].nodeId == id
    ensures r.Some? ==> forall j :: 0 <= j < r.value ==> peers[j].nodeId != id
    ensures r.None? ==> forall j :: 0 <= j < |peers| ==> peers[j].nodeId != id
  {
    if peers == [] then None
    else if peers[0].nodeId == id then Some(0)
    else match FindPeer(peers[1..], id)
      case None => None
      case Some(j) => assert peers[1..][j] == peers[j + 1]; Some(j + 1)
  }

  function AddPeer(peers: Peers, r: PeerRecord): Result<Peers, Error> {
    if !ValidPeerRecord(r) then Err(InvalidRecord)
    else if FindPeer(peers, r.nodeId).Some? then Err(PeerExists)
    else Ok(peers + [r])
  }

  function MarkRevoked(peers: Peers, r: RevocationRecord): Result<Peers, Error> {
    if !ValidRevocation(r) then Err(InvalidRecord)
    else match FindPeer(peers, r.nodeId)
      case None => Err(PeerNotFound)
      case Some(i) => Ok(peers[i := peers[i].(status := Revoked, revokedAt := Some(r.revokedAt))])
  }

  function GetPeer(peers: Peers, id: NodeId): Result<PeerRecord, Error> {
    if Blank(id) then Err(InvalidNodeId)
    else match FindPeer(peers, id)
      case None => Err(PeerNotFound)
      case Some(i) => Ok(peers[i])
  }

  function ActivePeers(peers: Peers): Peers {
    if peers == [] then []
    else if peers[0].IsActive() then [peers[0]] + ActivePeers(peers[1..])
    else ActivePeers(peers[1..])
  }

  /** `active` lists the active ones of `peers`, each once and in order; `places` are their indices. */
  predicate ActiveAt(peers: Peers, active: Peers, places: seq<nat>) {
    && |places| == |active|
    && (forall k :: 0 <= k < |places| ==> places[k] < |peers| && active[k] == peers[places[k]])
    && (forall k, m :: 0 <= k < m < |places| ==> places[k] < places[m])
    && (forall i :: 0 <= i < |peers| ==> (i in places <==> peers[i].IsActive()))
  }

  lemma NextActive(peers: Peers, active: Peers, places: seq<nat>, last: PeerRecord)
    requires ActiveAt(peers, active, places)
    ensures last.IsActive() ==> ActiveAt(peers + [last], active + [last], places + [|peers|])
    ensures !last.IsActive() ==> ActiveAt(peers + [last], active, places)
  {
    forall i | 0 <= i < |peers| ensures i in places + [|peers|] <==> i in places {
    }
  }

  /** The filter keeps exactly the active peers, each once and in the order of the file. */
  lemma {:induction false} ActivePeersInOrder(peers: Peers) returns (places: seq<nat>)
    ensures ActiveAt(peers, ActivePeers(peers), places)
  {
    if peers == [] {
      places := [];
    } else {
      hide ActiveAt;
      var front, last := peers[..|peers| - 1], peers[|peers| - 1];
      var before := ActivePeersInOrder(front);
      assert peers == front + [last];
      ActiveConcat(front, [last]);
      assert ActivePeers([last]) == if last.IsActive() then [last] else [];
      NextActive(front, ActivePeers(front), before, last);
      places := if last.IsActive() then before + [|front|] else before;
    }
  }

  lemma {:induction false} ActiveConcat(a: Peers, b: Peers)
    ensures ActivePeers(a + b) == ActivePeers(a) + ActivePeers(b)
  {
    if a == [] {
      assert a + b == b;
    } else {
      assert (a + b)[1..] == a[1..] + b;
      ActiveConcat(a[1..], b);
    }
  }

  /** addPeerIfMissing on one reading of the file: a peer that agrees is enough, another one is in the way. */
  function EnsurePeer(p: Primitives, peers: Peers, x: PublicPeer, now: Time): Result<Peers, Error> {
    match CheckPublicPeer(p, x)
    case Some(e) => Err(e)
    case None =>
      match FindPeer(peers, x.nodeId)
      case Some(i) => if SamePeer(peers[i], x) then Ok(peers) else Err(PeerExists)
      case None => AddPeer(peers, NewPeer(x, now))
  }

  /** Exactly when a record is added, and that nothing else changes. */
  lemma AddPeerIff(peers: Peers, r: PeerRecord, after: Peers)
    ensures AddPeer(peers, r) == Ok(after)
            <==>
            && after == peers + [r] && (forall j :: 0 <= j < |peers| ==> peers[j].nodeId != r.nodeId)
            && !Blank(r.nodeId) && !Blank(r.networkId) && (r.role == Master || r.role == Worker)
            && ValidKeys(r.publicKeys) && (r.status == Active || (r.status == Revoked && r.revokedAt != None))
            && r.addedAt != 0
    ensures ValidPeerRecord(r) && AddPeer(peers, r).Err? ==> AddPeer(peers, r) == Err(PeerExists)
  {
    hide Blank;
  }

  lemma AddErrors(peers: Peers, r: PeerRecord)
    ensures AddPeer(peers, r) != Err(PeerNotFound) && AddPeer(peers, r) != Err(LockHeld)
  {
    hide ValidPeerRecord, FindPeer;
  }

  /** Marking changes the status and the time of the first record with the node's id, and nothing else. */
  lemma MarkRevokedIff(peers: Peers, r: RevocationRecord, after: Peers)
    requires ValidRevocation(r)
    ensures MarkRevoked(peers, r) == Ok(after)
            <==>
            exists i :: 0 <= i < |peers| && peers[i].nodeId == r.nodeId
              && (forall j :: 0 <= j < i ==> peers[j].nodeId != r.nodeId)
              && after == peers[i := PeerRecord(peers[i].nodeId, peers[i].networkId, peers[i].role, peers[i].publicKeys,
                                                Revoked, peers[i].addedAt, Some(r.revokedAt))]
    ensures MarkRevoked(peers, r).Err? ==> MarkRevoked(peers, r) == Err(PeerNotFound)
  {
    hide ValidRevocation;
    if FindPeer(peers, r.nodeId).Some? {
      var i := FindPeer(peers, r.nodeId).value;
      assert peers[i].nodeId == r.nodeId && forall j :: 0 <= j < i ==> peers[j].nodeId != r.nodeId;
    }
  }

  /** Exactly when a peer is made sure of: it agrees with the one on file, or it is added as active. */
  lemma EnsurePeerIff(p: Primitives, peers: Peers, x: PublicPeer, now: Time, after: Peers)
    ensures EnsurePeer(p, peers, x, now) == Ok(after)
            <==>
            && !Blank(x.nodeId) && !Blank(x.networkId) && (x.role == Master || x.role == Worker)
            && ValidKeys(x.publicKeys) && DeriveNodeId(p, x.publicKeys) == Ok(x.nodeId)
            && (match FindPeer(peers, x.nodeId)
                case Some(i) =>
                  && after == peers && peers[i].networkId == x.networkId && peers[i].role == x.role
                  && peers[i].publicKeys == x.publicKeys
                case None =>
                  && now != 0
                  && after == peers + [PeerRecord(x.nodeId, x.networkId, x.role, x.publicKeys, Active, now, None)])
    ensures CheckPublicPeer(p, x).None? && FindPeer(peers, x.nodeId).Some? && EnsurePeer(p, peers, x, now).Err? ==>
              EnsurePeer(p, peers, x, now) == Err(PeerExists)
  {
    hide Blank, DeriveNodeId, FindPeer;
    PublicPeerIff(p, x);
  }

  // ---------- revocations ----------

  function FindRevocation(revs: Revocations, id: NodeId): (r: Option<nat>)
    ensures r.Some? ==> r.value < |revs| && revs[r.value].nodeId == id
    ensures r.Some? ==> forall j :: 0 <= j < r.value ==> revs[j].nodeId != id
    ensures r.None? ==> forall j :: 0 <= j < |revs| ==> revs[j].nodeId != id
  {
    if revs == [] then None
    else if revs[0].nodeId == id then Some(0)
    else match FindRevocation(revs[1..], id)
      case None => None
      case Some(j) => assert revs[1..][j] == revs[j + 1]; Some(j + 1)
  }

  predicate IsRevokedIn(revs: Revocations, id: NodeId) {
    FindRevocation(revs, id).Some?
  }

  /** The new contents and the record to answer with: a node already revoked keeps its first record. */
  function Revoke(revs: Revocations, q: RevokeRequest, now: Time): Result<(Revocations, RevocationRecord), Error> {
    match FindRevocation(revs, q.nodeId)
    case Some(i) => Ok((revs, revs[i]))
    case None =>
      match NewRevocation(q, now)
      case Err(e) => Err(e)
      case Ok(r) => Ok((revs + [r], r))
  }

  /**
   * Exactly what revoking does. A node with a record keeps it, and that is the answer; for any other node
   * one record is added that says who was revoked, when, by whom and why, and that is the answer.
   */
  lemma RevokeIff(revs: Revocations, q: RevokeRequest, now: Time, after: Revocations, answer: RevocationRecord)
    ensures Revoke(revs, q, now) == Ok((after, answer))
            <==>
            match FindRevocation(revs, q.nodeId)
            case Some(i) => after == revs && answer == revs[i]
            case None =>
              && !Blank(q.nodeId) && (q.role == Master || q.role == Worker) && now != 0 && !Blank(q.revokedBy)
              && answer == RevocationRecord(q.nodeId, q.role, now, q.revokedBy, q.reason)
              && after == revs + [answer]
    ensures Revoke(revs, q, now).Err? ==> Revoke(revs, q, now) == Err(InvalidRecord)
  {
    hide Blank, FindRevocation;
    NewRevocationIff(q, now, answer);
  }

  // ---------- how contents may develop ----------

  ghost predicate RecordGrows(a: JoinRecord, b: JoinRecord) {
    || b == a
    || (a.status.Unused? && exists consumer, at :: b == MarkConsumed(a, consumer, at))
  }

  /** Records keep their place; the only change is from unused to consumed, once. */
  ghost predicate CodesGrow(a: Codes, b: Codes) {
    && |a| <= |b|
    && forall i :: 0 <= i < |a| ==> RecordGrows(a[i], b[i])
  }

  predicate PeerGrows(a: PeerRecord, b: PeerRecord) {
    && b.nodeId == a.nodeId && b.networkId == a.networkId && b.role == a.role
    && b.publicKeys == a.publicKeys && b.addedAt == a.addedAt
    && (b == a || b.status.Revoked?)
  }

  /** Peers keep their place and everything but their status, which only goes to revoked. */
  predicate PeersGrow(a: Peers, b: Peers) {
    && |a| <= |b|
    && forall i :: 0 <= i < |a| ==> PeerGrows(a[i], b[i])
  }

  lemma CodesGrowTransitive(a: Codes, b: Codes, c: Codes)
    requires CodesGrow(a, b) && CodesGrow(b, c)
    ensures CodesGrow(a, c)
  {
    forall i | 0 <= i < |a| ensures RecordGrows(a[i], c[i]) {
      assert RecordGrows(a[i], b[i]) && RecordGrows(b[i], c[i]);
    }
  }

  lemma PeersGrowTransitive(a: Peers, b: Peers, c: Peers)
    requires PeersGrow(a, b) && PeersGrow(b, c)
    ensures PeersGrow(a, c)
  {
    forall i | 0 <= i < |a| ensures PeerGrows(a[i], c[i]) {
      assert PeerGrows(a[i], b[i]) && PeerGrows(b[i], c[i]);
    }
  }

  // ---------- from making a code to using it ----------

  /** Consuming changes the record the scan chose, from unused to consumed by the requester, and no other. */
  lemma ConsumeChangesOneRecord(p: Primitives, codes: Codes, q: ConsumeRequest, at: Time)
    requires Consume(p, codes, q, at).Ok?
    ensures var used := Consume(p, codes, q, at).value;
            exists i :: 0 <= i < |codes| && |used| == |codes|
              && !codes[i].status.Consumed? && used[i].status.Consumed?
              && VerifierForCode(p, q.code, codes[i].salt) == Ok(codes[i].verifier)
              && used[i].consumedBy == q.consumedBy && used[i].consumedAt == Some(at) && at != 0
              && used[i].networkId == q.networkId && used[i].expectedRole == q.expectedRole
              && used[i] == codes[i].(status := Consumed, consumedAt := Some(at), consumedBy := q.consumedBy)
              && forall j :: 0 <= j < |codes| && j != i ==> used[j] == codes[j]
  {
    hide VerifierForCode, CheckConsumeRequest;
    var i := Scan(p, codes, q, 0).value;
    var used := Consume(p, codes, q, at).value;
    assert used == codes[i := MarkConsumed(codes[i], q.consumedBy, at)];
  }

  lemma {:induction false} ScanAccepts(p: Primitives, codes: Codes, q: ConsumeRequest, from: nat, i: nat)
    requires from <= i < |codes|
    requires forall j :: from <= j < i ==> Judge(p, codes[j], q).Skip?
    requires Judge(p, codes[i], q).Accept?
    ensures Scan(p, codes, q, from) == Ok(i)
    decreases i - from
  {
    hide Judge;
    if from < i {
      ScanAccepts(p, codes, q, from + 1, i);
    }
  }

  lemma MadeRecord(p: Primitives, request: CreateRequest, at: Time, secret: seq<Byte>, salt: seq<Byte>)
    requires NewJoinRecord(p, request, at, secret, salt).Ok?
    ensures var r := NewJoinRecord(p, request, at, secret, salt).value.1;
            && r.algorithm == VERIFIER_ALGORITHM && r.salt == salt && r.status.Unused?
            && r.networkId == request.networkId && r.expectedRole == request.expectedRole
  {
    hide VerifierForCode, CodeIdForVerifier, Blank;
  }

  /**
   * The code that came out of making a record is accepted for it wherever the record is in the file:
   * typed in any way, for the record's network and role, unless an earlier record matches too.
   */
  lemma NewCodeIsAccepted(p: Primitives, codes: Codes, j: nat, request: CreateRequest, at: Time, secret: seq<Byte>,
                          salt: seq<Byte>, q: ConsumeRequest)
    requires NewJoinRecord(p, request, at, secret, salt).Ok?
    requires j < |codes| && codes[j] == NewJoinRecord(p, request, at, secret, salt).value.1
    requires SpellingOf(NewJoinRecord(p, request, at, secret, salt).value.0, q.code)
    requires q.networkId == request.networkId && q.expectedRole == request.expectedRole
    requires forall k :: 0 <= k < j ==> Judge(p, codes[k], q).Skip?
    ensures Scan(p, codes, q, 0) == Ok(j)
    ensures !Blank(q.code)
  {
    hide SpellingOf, NewJoinRecord, Scan, Blank, DecodeNoPadding;
    EverySpellingVerifies(p, request, at, secret, salt, q.code);
    MadeRecord(p, request, at, secret, salt);
    assert Judge(p, codes[j], q).Accept?;
    ScanAccepts(p, codes, q, 0, j);
  }

  // ---------- a used code stays used ----------

  /** Whether a record is passed over depends on the typed code's bytes and on what never changes in the record. */
  lemma SkippingIsStable(p: Primitives, a: JoinRecord, b: JoinRecord, q: ConsumeRequest, again: ConsumeRequest)
    requires RecordGrows(a, b)
    requires !Blank(q.code) && !Blank(again.code)
    requires DecodeNoPadding(p.upper, again.code) == DecodeNoPadding(p.upper, q.code)
    ensures Judge(p, a, q).Skip? <==> Judge(p, b, again).Skip?
  {
    hide DecodeNoPadding, Blank;
  }

  lemma {:induction false} ScanReaches(p: Primitives, codes: Codes, q: ConsumeRequest, from: nat, i: nat)
    requires from <= i < |codes|
    requires forall j :: from <= j < i ==> Judge(p, codes[j], q).Skip?
    requires Judge(p, codes[i], q).Reject?
    ensures Scan(p, codes, q, from) == Err(Judge(p, codes[i], q).error)
    decreases i - from
  {
    hide Judge;
    if from < i {
      ScanReaches(p, codes, q, from + 1, i);
    }
  }

  /**
   * However the file develops after a code was consumed, the same code, in any spelling and for any
   * node, network and role, is refused as consumed.
   */
  lemma UsedCodeStaysRefused(p: Primitives, codes: Codes, q: ConsumeRequest, at: Time, later: Codes,
                             again: ConsumeRequest)
    requires Consume(p, codes, q, at).Ok? && CodesGrow(Consume(p, codes, q, at).value, later)
    requires forall j :: 0 <= j < |codes| ==> ValidJoinRecord(codes[j])
    requires CheckConsumeRequest(again).None?
    requires DecodeNoPadding(p.upper, again.code) == DecodeNoPadding(p.upper, q.code)
    ensures Scan(p, later, again, 0) == Err(CodeConsumed)
  {
    hide DecodeNoPadding, Blank;
    var i := Scan(p, codes, q, 0).value;
    var used := Consume(p, codes, q, at).value;
    assert used == codes[i := MarkConsumed(codes[i], q.consumedBy, at)];
    forall j | 0 <= j < i ensures Judge(p, later[j], again).Skip? {
      assert RecordGrows(used[j], later[j]) && used[j] == codes[j];
      SkippingIsStable(p, codes[j], later[j], q, again);
    }
    assert RecordGrows(codes[i], used[i]) by {
      assert ValidJoinRecord(codes[i]);
    }
    assert RecordGrows(used[i], later[i]);
    SkippingIsStable(p, codes[i], later[i], q, again);
    assert Judge(p, later[i], again) == Reject(CodeConsumed);
    ScanReaches(p, later, again, 0, i);
  }

}
