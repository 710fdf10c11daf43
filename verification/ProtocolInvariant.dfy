/** What holds in every state of every run of the protocol, and why one step keeps it. */
module ProtocolInvariant {
  import opened Wrappers
  import opened Base32
  import opened Identity
  import opened Records
  import opened StoreOps
  import opened TlsIdentity
  import opened Messages
  import opened Protocol

  // ---------- the files ----------

  ghost predicate DistinctPeers(peers: Peers) {
    forall i, j :: 0 <= i < j < |peers| ==> peers[i].nodeId != peers[j].nodeId
  }

  ghost predicate DistinctRevs(revs: Revocations) {
    forall i, j :: 0 <= i < j < |revs| ==> revs[i].nodeId != revs[j].nodeId
  }

  /** A peer is active without a revocation time, or revoked with the time its revocation record has. */
  ghost predicate StatusAgrees(r: PeerRecord, revs: Revocations) {
    if r.status.Active? then r.revokedAt.None?
    else exists k :: 0 <= k < |revs| && revs[k].nodeId == r.nodeId && r.revokedAt == Some(revs[k].revokedAt)
  }

  ghost predicate StatusesAgree(peers: Peers, revs: Revocations) {
    forall i :: 0 <= i < |peers| ==> StatusAgrees(peers[i], revs)
  }

  ghost predicate DiskOk(d: Disk) {
    && AllValidCodes(d.codes) && AllValidPeers(d.peers) && AllValidRevs(d.revs)
    && DistinctPeers(d.peers) && DistinctRevs(d.revs)
    && StatusesAgree(d.peers, d.revs)
  }

  ghost predicate Grows(a: Disk, b: Disk) {
    && CodesGrow(a.codes, b.codes)
    && PeersGrow(a.peers, b.peers)
    && a.revs <= b.revs
  }

  lemma GrowsTransitive(a: Disk, b: Disk, c: Disk)
    requires Grows(a, b) && Grows(b, c)
    ensures Grows(a, c)
  {
    CodesGrowTransitive(a.codes, b.codes, c.codes);
    PeersGrowTransitive(a.peers, b.peers, c.peers);
  }

  ghost predicate HasPeer(peers: Peers, x: PublicPeer) {
    exists j :: 0 <= j < |peers| && SamePeer(peers[j], x)
  }

  lemma HasPeerGrows(a: Peers, b: Peers, x: PublicPeer)
    requires PeersGrow(a, b) && HasPeer(a, x)
    ensures HasPeer(b, x)
  {
    var j :| 0 <= j < |a| && SamePeer(a[j], x);
    assert PeerGrows(a[j], b[j]);
    assert SamePeer(b[j], x);
  }

  // ---------- one attempt ----------

  predicate Consumes(op: Op) {
    op.ConsumeCode? || op.Pair?
  }

  predicate UsesCodes(op: Op) {
    op.CreateCode? || Consumes(op)
  }

  predicate EnsuresPeer(op: Op) {
    op.Pair? || op.TrustPeer? || op.ImportPeer?
  }

  /** Nothing loaded, nothing written, nothing failed. */
  predicate Fresh(t: Thread) {
    && t.failure.None? && t.codes.None? && t.peers.None? && t.revs.None? && t.consumed.None? && !t.added
  }

  predicate Admitted(p: Primitives, op: Op) {
    op.Pair? ==> CheckAdmission(p, op.master, op.request).None?
  }

  predicate ConsumeChecked(op: Op) {
    Consumes(op) ==> CheckConsumeRequest(ConsumeOf(op)).None?
  }

  /** The record at `i` was consumed for request `q`. */
  predicate ConsumedFor(codes: Codes, i: nat, q: ConsumeRequest) {
    && i < |codes|
    && codes[i].status.Consumed? && codes[i].consumedBy == q.consumedBy
    && codes[i].networkId == q.networkId && codes[i].expectedRole == q.expectedRole
  }

  /** Inside the join-code section with the scan's choice not yet written. */
  ghost predicate Chosen(p: Primitives, file: Codes, op: Op, codes: Option<Codes>, index: nat) {
    && codes == Some(file)
    && Admitted(p, op) && ConsumeChecked(op)
    && (Consumes(op) ==> index < |file| && Scan(p, file, ConsumeOf(op), 0) == Ok(index))
  }

  ghost predicate InCodes(p: Primitives, d: Disk, t: Thread) {
    CodesLock in t.held && t.consumed.None? && Chosen(p, d.codes, t.op, t.codes, t.index)
  }

  /** The revocation a peer is to be marked with is already on file. */
  ghost predicate RevocationOnFile(revs: Revocations, op: Op, revocation: Option<RevocationRecord>) {
    && op.RevokeNode? && revocation.Some?
    && revocation.value in revs && revocation.value.nodeId == op.revoke.nodeId
  }

  /** Why an attempt works on the peers file. */
  ghost predicate InPeersFor(p: Primitives, d: Disk, t: Thread) {
    && t.consumed.None?
    && (   (t.op.Pair? && InCodes(p, d, t))
        || t.op.TrustPeer? || t.op.ImportPeer?
        || (t.op.RevokeNode? && !t.added && RevocationOnFile(d.revs, t.op, t.revocation)))
  }

  /** Where the part that works on the peers file is entered from. */
  ghost predicate BeforePeers(p: Primitives, d: Disk, t: Thread) {
    && t.failure.None? && !t.added
    && InPeersFor(p, d, t)
  }

  /** If the attempt consumed a record, that record is consumed for it, and for a pairing the peer is there. */
  ghost predicate ConsumptionHolds(p: Primitives, d: Disk, t: Thread) {
    t.consumed.Some? ==>
      && Consumes(t.op) && Admitted(p, t.op)
      && ConsumedFor(d.codes, t.consumed.value, ConsumeOf(t.op))
      && (t.op.Pair? ==> HasPeer(d.peers, t.op.request.peer))
  }

  /** What a success answer means. */
  ghost predicate AnswerHolds(d: Disk, t: Thread) {
    t.failure.None? ==>
      && (Consumes(t.op) ==> t.consumed.Some?)
      && (t.op.TrustPeer? || t.op.ImportPeer? ==> HasPeer(d.peers, TrustedPeer(t.op)))
      && (t.op.RevokeNode? ==> RevocationOnFile(d.revs, t.op, t.revocation))
      && (t.op.VerifyPeer? ==> t.metadata.Some?)
  }

  predicate AddsOnlyPeers(t: Thread) {
    t.added ==> EnsuresPeer(t.op)
  }

  /** What holds of an attempt at each program point. */
  ghost predicate ThreadOk(p: Primitives, d: Disk, t: Thread) {
    match t.pc
    case Start => Fresh(t)
    case CheckRevoked => t.op.Pair? && Fresh(t) && Admitted(p, t.op)
    case CheckPeer => t.op.Pair? && Fresh(t) && Admitted(p, t.op)
    case LockCodes => UsesCodes(t.op) && Fresh(t) && Admitted(p, t.op) && ConsumeChecked(t.op)
    case LoadCodes =>
      UsesCodes(t.op) && Fresh(t) && Admitted(p, t.op) && ConsumeChecked(t.op) && CodesLock in t.held
    case SaveCodes =>
      && UsesCodes(t.op) && t.failure.None? && InCodes(p, d, t) && AddsOnlyPeers(t)
      && (t.op.Pair? ==> HasPeer(d.peers, t.op.request.peer))
    case ReleaseCodes =>
      && UsesCodes(t.op) && CodesLock in t.held && AddsOnlyPeers(t)
      && ConsumptionHolds(p, d, t) && AnswerHolds(d, t)
    case EnsureRead =>
      t.failure.None? && !t.added && ((t.op.Pair? && InCodes(p, d, t)) || (t.op.TrustPeer? && t.consumed.None?))
    case LockPeers => BeforePeers(p, d, t)
    case LoadPeers => BeforePeers(p, d, t) && PeersLock in t.held
    case SavePeers => BeforePeers(p, d, t) && PeersLock in t.held && t.peers == Some(d.peers)
    case ReleasePeers =>
      && PeersLock in t.held && AddsOnlyPeers(t)
      && InPeersFor(p, d, t)
      && (EnsuresPeer(t.op) && t.failure.None? ==> HasPeer(d.peers, TrustedPeer(t.op)))
    case LockRevs => t.op.RevokeNode? && Fresh(t)
    case LoadRevs => t.op.RevokeNode? && Fresh(t) && RevocationsLock in t.held
    case SaveRevs =>
      && t.op.RevokeNode? && t.failure.None? && !t.added && t.consumed.None? && RevocationsLock in t.held
      && t.revs == Some(d.revs) && t.revocation.Some?
      && Revoke(d.revs, t.op.revoke, t.now) == Ok((d.revs + [t.revocation.value], t.revocation.value))
    case ReleaseRevs =>
      && t.op.RevokeNode? && !t.added && t.consumed.None? && RevocationsLock in t.held
      && (t.failure.None? ==> RevocationOnFile(d.revs, t.op, t.revocation))
    case VerifyRead => t.op.VerifyPeer? && t.metadata.Some? && Fresh(t)
    case VerifyRevoked => t.op.VerifyPeer? && t.metadata.Some? && Fresh(t)
    case Done => ConsumptionHolds(p, d, t) && AnswerHolds(d, t) && AddsOnlyPeers(t)
    case Crashed => ConsumptionHolds(p, d, t) && AddsOnlyPeers(t)
  }

  lemma ThreadOkIsWellFormed(p: Primitives, d: Disk, t: Thread)
    requires ThreadOk(p, d, t)
    ensures WellFormed(t)
  {
    hide CheckAdmission, CheckConsumeRequest, Scan, HasPeer, Revoke;
  }

  // ---------- what one step of one attempt guarantees ----------

  ghost predicate LocksTracked(locks: set<LockName>, t: Thread, r: Effect) {
    && (r.thread.held - t.held) !! locks
    && r.locks == locks + (r.thread.held - t.held) - (t.held - r.thread.held)
  }

  ghost predicate WritesUnderLock(d: Disk, t: Thread, r: Effect) {
    && (r.disk.codes != d.codes ==> CodesLock in t.held)
    && (r.disk.peers != d.peers ==> PeersLock in t.held)
    && (r.disk.revs != d.revs ==> RevocationsLock in t.held)
  }

  ghost predicate CommitIsTheChange(p: Primitives, d: Disk, r: Effect) {
    match r.commit
    case None => r.disk == d
    case Some(c) => ApplyCommit(p, d, c) == Ok(r.disk)
  }

  ghost predicate ConsumesUnused(d: Disk, t: Thread, r: Effect) {
    || r.thread.consumed == t.consumed
    || (t.consumed.None? && r.thread.consumed.Some? && r.thread.consumed.value < |d.codes|
        && !d.codes[r.thread.consumed.value].status.Consumed?)
  }

  ghost predicate GoodEffect(p: Primitives, d: Disk, locks: set<LockName>, t: Thread, r: Effect) {
    && DiskOk(r.disk) && Grows(d, r.disk)
    && r.thread.op == t.op && ThreadOk(p, r.disk, r.thread)
    && LocksTracked(locks, t, r) && WritesUnderLock(d, t, r)
    && CommitIsTheChange(p, d, r) && ConsumesUnused(d, t, r)
  }

  lemma GrowsReflexive(d: Disk)
    ensures Grows(d, d)
  {
  }

  /** A step that writes no file only has to keep the attempt and the locks in order. */
  lemma QuietStep(p: Primitives, d: Disk, locks: set<LockName>, t: Thread, r: Effect)
    requires DiskOk(d) && r.disk == d && r.commit.None?
    requires r.thread.op == t.op && ThreadOk(p, d, r.thread) && r.thread.consumed == t.consumed
    requires LocksTracked(locks, t, r)
    ensures GoodEffect(p, d, locks, t, r)
  {
    hide ThreadOk, DiskOk;
    GrowsReflexive(d);
  }

  lemma StartOk(p: Primitives, d: Disk, locks: set<LockName>, t: Thread, e: Env)
    requires DiskOk(d) && t.held <= locks
    requires ThreadOk(p, d, t) && (t.pc.Start?) && WellFormed(t)
    ensures GoodEffect(p, d, locks, t, Advance(p, d, locks, t, e))
  {
    hide DiskOk, GoodEffect, CheckAdmission, CheckConsumeRequest, Scan, HasPeer, Revoke, ConsumedFor,
      CheckCertificate, ValidPeerRecord;
    QuietStep(p, d, locks, t, Advance(p, d, locks, t, e));
  }

  lemma CheckRevokedOk(p: Primitives, d: Disk, locks: set<LockName>, t: Thread, e: Env)
    requires DiskOk(d) && t.held <= locks
    requires ThreadOk(p, d, t) && (t.pc.CheckRevoked?) && WellFormed(t)
    ensures GoodEffect(p, d, locks, t, Advance(p, d, locks, t, e))
  {
    hide DiskOk, Chosen, RevocationOnFile, GoodEffect, Admitted, CheckConsumeRequest, Scan, HasPeer, Revoke,
      ConsumedFor, AllValidRevs, IsRevokedIn;
    QuietStep(p, d, locks, t, Advance(p, d, locks, t, e));
  }

  lemma CheckPeerOk(p: Primitives, d: Disk, locks: set<LockName>, t: Thread, e: Env)
    requires DiskOk(d) && t.held <= locks
    requires ThreadOk(p, d, t) && (t.pc.CheckPeer?) && WellFormed(t)
    ensures GoodEffect(p, d, locks, t, Advance(p, d, locks, t, e))
  {
    hide DiskOk, Chosen, RevocationOnFile, GoodEffect, Admitted, CheckConsumeRequest, HasPeer, ConsumedFor, SamePeer,
      AllValidPeers;
    QuietStep(p, d, locks, t, Advance(p, d, locks, t, e));
  }

  lemma LockCodesOk(p: Primitives, d: Disk, locks: set<LockName>, t: Thread, e: Env)
    requires DiskOk(d) && t.held <= locks
    requires ThreadOk(p, d, t) && (t.pc.LockCodes?) && WellFormed(t)
    ensures GoodEffect(p, d, locks, t, Advance(p, d, locks, t, e))
  {
    hide DiskOk, Chosen, RevocationOnFile, Admitted, ConsumeChecked, GoodEffect, CheckAdmission, CheckConsumeRequest,
      Scan, HasPeer, Revoke, ConsumedFor;
    QuietStep(p, d, locks, t, Advance(p, d, locks, t, e));
  }

  lemma LockPeersOk(p: Primitives, d: Disk, locks: set<LockName>, t: Thread, e: Env)
    requires DiskOk(d) && t.held <= locks
    requires ThreadOk(p, d, t) && (t.pc.LockPeers?) && WellFormed(t)
    ensures GoodEffect(p, d, locks, t, Advance(p, d, locks, t, e))
  {
    hide DiskOk, Chosen, RevocationOnFile, GoodEffect, CheckAdmission, CheckConsumeRequest, Scan, HasPeer, Revoke,
      ConsumedFor;
    QuietStep(p, d, locks, t, Advance(p, d, locks, t, e));
  }

  lemma LockRevsOk(p: Primitives, d: Disk, locks: set<LockName>, t: Thread, e: Env)
    requires DiskOk(d) && t.held <= locks
    requires ThreadOk(p, d, t) && (t.pc.LockRevs?) && WellFormed(t)
    ensures GoodEffect(p, d, locks, t, Advance(p, d, locks, t, e))
  {
    hide DiskOk, Chosen, RevocationOnFile, GoodEffect, CheckAdmission, CheckConsumeRequest, Scan, HasPeer, Revoke,
      ConsumedFor;
    QuietStep(p, d, locks, t, Advance(p, d, locks, t, e));
  }

  lemma ReleaseCodesOk(p: Primitives, d: Disk, locks: set<LockName>, t: Thread, e: Env)
    requires DiskOk(d) && t.held <= locks
    requires ThreadOk(p, d, t) && (t.pc.ReleaseCodes?) && WellFormed(t)
    ensures GoodEffect(p, d, locks, t, Advance(p, d, locks, t, e))
  {
    hide DiskOk, Chosen, RevocationOnFile, GoodEffect, CheckAdmission, CheckConsumeRequest, Scan, HasPeer, Revoke,
      ConsumedFor;
    QuietStep(p, d, locks, t, Advance(p, d, locks, t, e));
  }

  lemma ReleasePeersOk(p: Primitives, d: Disk, locks: set<LockName>, t: Thread, e: Env)
    requires DiskOk(d) && t.held <= locks
    requires ThreadOk(p, d, t) && (t.pc.ReleasePeers?) && WellFormed(t)
    ensures GoodEffect(p, d, locks, t, Advance(p, d, locks, t, e))
  {
    hide DiskOk, Chosen, RevocationOnFile, GoodEffect, CheckAdmission, CheckConsumeRequest, Scan, HasPeer, Revoke,
      ConsumedFor;
    if t.op.Pair? {
      QuietStep(p, d, locks, t, Advance(p, d, locks, t, e));
    } else if t.op.RevokeNode? {
      QuietStep(p, d, locks, t, Advance(p, d, locks, t, e));
    } else {
      QuietStep(p, d, locks, t, Advance(p, d, locks, t, e));
    }
  }

  lemma ReleaseRevsOk(p: Primitives, d: Disk, locks: set<LockName>, t: Thread, e: Env)
    requires DiskOk(d) && t.held <= locks
    requires ThreadOk(p, d, t) && (t.pc.ReleaseRevs?) && WellFormed(t)
    ensures GoodEffect(p, d, locks, t, Advance(p, d, locks, t, e))
  {
    hide DiskOk, Chosen, RevocationOnFile, GoodEffect, CheckAdmission, CheckConsumeRequest, Scan, HasPeer, Revoke,
      ConsumedFor;
    QuietStep(p, d, locks, t, Advance(p, d, locks, t, e));
  }

  lemma VerifyOk(p: Primitives, d: Disk, locks: set<LockName>, t: Thread, e: Env)
    requires DiskOk(d) && t.held <= locks
    requires ThreadOk(p, d, t) && (t.pc.VerifyRead? || t.pc.VerifyRevoked?) && WellFormed(t)
    ensures GoodEffect(p, d, locks, t, Advance(p, d, locks, t, e))
  {
    hide DiskOk, Chosen, RevocationOnFile, GoodEffect, CheckAdmission, CheckConsumeRequest, Scan, HasPeer, Revoke,
      ConsumedFor, CheckStoredPeer;
    QuietStep(p, d, locks, t, Advance(p, d, locks, t, e));
  }

  lemma LoadCodesOk(p: Primitives, d: Disk, locks: set<LockName>, t: Thread, e: Env)
    requires DiskOk(d) && t.held <= locks
    requires ThreadOk(p, d, t) && t.pc.LoadCodes? && WellFormed(t)
    ensures GoodEffect(p, d, locks, t, Advance(p, d, locks, t, e))
  {
    hide DiskOk, GoodEffect, CheckAdmission, CheckConsumeRequest, Judge, HasPeer, Revoke, ConsumedFor, AllValidCodes;
    QuietStep(p, d, locks, t, Advance(p, d, locks, t, e));
  }

  lemma EnsureReadOk(p: Primitives, d: Disk, locks: set<LockName>, t: Thread, e: Env)
    requires DiskOk(d) && t.held <= locks
    requires ThreadOk(p, d, t) && t.pc.EnsureRead? && WellFormed(t)
    ensures GoodEffect(p, d, locks, t, Advance(p, d, locks, t, e))
  {
    hide DiskOk, Chosen, RevocationOnFile, GoodEffect, CheckAdmission, CheckConsumeRequest, Scan, Revoke, ConsumedFor,
      AllValidPeers, SamePeer,
      CheckPublicPeer, ValidPeerRecord;
    if t.op.Pair? {
      QuietStep(p, d, locks, t, Advance(p, d, locks, t, e));
    } else {
      QuietStep(p, d, locks, t, Advance(p, d, locks, t, e));
    }
  }

  lemma LoadPeersOk(p: Primitives, d: Disk, locks: set<LockName>, t: Thread, e: Env)
    requires DiskOk(d) && t.held <= locks
    requires ThreadOk(p, d, t) && t.pc.LoadPeers? && WellFormed(t)
    ensures GoodEffect(p, d, locks, t, Advance(p, d, locks, t, e))
  {
    hide DiskOk, Chosen, GoodEffect, CheckAdmission, CheckConsumeRequest, Scan, Revoke, ConsumedFor, AllValidPeers,
      HasPeer,
      ValidPeerRecord, MarkRevoked, FindPeer;
    if t.op.Pair? {
      QuietStep(p, d, locks, t, Advance(p, d, locks, t, e));
    } else if t.op.RevokeNode? {
      QuietStep(p, d, locks, t, Advance(p, d, locks, t, e));
    } else {
      QuietStep(p, d, locks, t, Advance(p, d, locks, t, e));
    }
  }

  lemma LoadRevsOk(p: Primitives, d: Disk, locks: set<LockName>, t: Thread, e: Env)
    requires DiskOk(d) && t.held <= locks
    requires ThreadOk(p, d, t) && t.pc.LoadRevs? && WellFormed(t)
    ensures GoodEffect(p, d, locks, t, Advance(p, d, locks, t, e))
  {
    hide DiskOk, GoodEffect, CheckAdmission, CheckConsumeRequest, Scan, ConsumedFor, HasPeer, AllValidRevs,
      FindRevocation,
      ValidRevocation;
    QuietStep(p, d, locks, t, Advance(p, d, locks, t, e));
  }

  // ---------- the writes ----------

  lemma AppendedCode(p: Primitives, d: Disk, q: CreateRequest, at: Time, secret: seq<Byte>, salt: seq<Byte>)
    requires DiskOk(d) && NewJoinRecord(p, q, at, secret, salt).Ok?
    ensures var d' := d.(codes := d.codes + [NewJoinRecord(p, q, at, secret, salt).value.1]);
            DiskOk(d') && Grows(d, d')
  {
    hide StatusesAgree, DistinctPeers, DistinctRevs, VerifierForCode, CodeIdForVerifier;
  }

  lemma ConsumedCodeAt(d: Disk, i: nat, consumer: NodeId, at: Time)
    requires DiskOk(d) && i < |d.codes| && !d.codes[i].status.Consumed?
    requires ConsumeAt(d.codes, i, consumer, at).Ok?
    ensures var d' := d.(codes := ConsumeAt(d.codes, i, consumer, at).value); DiskOk(d') && Grows(d, d')
  {
    hide StatusesAgree, DistinctPeers, DistinctRevs;
    assert ValidJoinRecord(d.codes[i]);
    assert RecordGrows(d.codes[i], MarkConsumed(d.codes[i], consumer, at));
  }

  lemma AppendedPeer(d: Disk, x: PublicPeer, now: Time)
    requires DiskOk(d) && AddPeer(d.peers, NewPeer(x, now)).Ok?
    ensures var d' := d.(peers := AddPeer(d.peers, NewPeer(x, now)).value);
            DiskOk(d') && Grows(d, d') && HasPeer(d'.peers, x)
  {
    hide ValidPeerRecord;
    var peers := d.peers + [NewPeer(x, now)];
    assert SamePeer(peers[|d.peers|], x);
  }

  lemma MarkedPeer(d: Disk, r: RevocationRecord)
    requires DiskOk(d) && r in d.revs && MarkRevoked(d.peers, r).Ok?
    ensures var d' := d.(peers := MarkRevoked(d.peers, r).value); DiskOk(d') && Grows(d, d')
  {
    var i := FindPeer(d.peers, r.nodeId).value;
    var peers := MarkRevoked(d.peers, r).value;
    assert ValidPeerRecord(d.peers[i]);
    forall j | 0 <= j < |peers| ensures StatusAgrees(peers[j], d.revs) {
      assert StatusAgrees(d.peers[j], d.revs);
    }
  }

  lemma AppendedRevocation(d: Disk, q: RevokeRequest, at: Time, r: RevocationRecord)
    requires DiskOk(d) && Revoke(d.revs, q, at) == Ok((d.revs + [r], r))
    ensures var d' := d.(revs := d.revs + [r]); DiskOk(d') && Grows(d, d') && r.nodeId == q.nodeId
  {
    var revs := d.revs + [r];
    assert |revs| != |d.revs|;
    assert FindRevocation(d.revs, q.nodeId).None?;
    forall j | 0 <= j < |d.peers| ensures StatusAgrees(d.peers[j], revs) {
      assert StatusAgrees(d.peers[j], d.revs);
      if !d.peers[j].status.Active? {
        var k :| 0 <= k < |d.revs| && d.revs[k].nodeId == d.peers[j].nodeId
                 && d.peers[j].revokedAt == Some(d.revs[k].revokedAt);
        assert revs[k] == d.revs[k];
      }
    }
  }

  lemma SaveNewCodeOk(p: Primitives, d: Disk, locks: set<LockName>, t: Thread, e: Env)
    requires DiskOk(d) && t.held <= locks
    requires ThreadOk(p, d, t) && t.pc.SaveCodes? && t.op.CreateCode? && WellFormed(t)
    ensures GoodEffect(p, d, locks, t, Advance(p, d, locks, t, e))
  {
    hide DiskOk, Grows, CheckAdmission, CheckConsumeRequest, Scan, HasPeer, NewJoinRecord, ValidJoinRecord;
    GrowsReflexive(d);
    if NewJoinRecord(p, t.op.create, e.now, t.op.secret, t.op.salt).Ok? {
      AppendedCode(p, d, t.op.create, e.now, t.op.secret, t.op.salt);
    }
  }

  lemma ChosenIsConsumed(p: Primitives, d: Disk, op: Op, index: nat, now: Time)
    requires Consumes(op) && ConsumeChecked(op) && index < |d.codes| && Scan(p, d.codes, ConsumeOf(op), 0) == Ok(index)
    requires ConsumeAt(d.codes, index, ConsumeOf(op).consumedBy, now).Ok?
    ensures ApplyCommit(p, d, ConsumedCode(ConsumeOf(op), now))
         == Ok(d.(codes := ConsumeAt(d.codes, index, ConsumeOf(op).consumedBy, now).value))
    ensures ConsumedFor(ConsumeAt(d.codes, index, ConsumeOf(op).consumedBy, now).value, index, ConsumeOf(op))
    ensures !d.codes[index].status.Consumed?
  {
    hide CheckConsumeRequest, VerifierForCode, ValidJoinRecord;
  }

  lemma SaveConsumedOk(p: Primitives, d: Disk, locks: set<LockName>, t: Thread, e: Env)
    requires DiskOk(d) && t.held <= locks
    requires ThreadOk(p, d, t) && t.pc.SaveCodes? && Consumes(t.op) && WellFormed(t)
    ensures GoodEffect(p, d, locks, t, Advance(p, d, locks, t, e))
  {
    hide DiskOk, Grows, CheckAdmission, HasPeer, VerifierForCode, ValidJoinRecord, RevocationOnFile,
      CheckConsumeRequest,
      Admitted, ApplyCommit, ConsumedFor, Scan, ConsumeAt;
    GrowsReflexive(d);
    if ConsumeAt(d.codes, t.index, ConsumeOf(t.op).consumedBy, e.now).Ok? {
      ChosenIsConsumed(p, d, t.op, t.index, e.now);
      ConsumedCodeAt(d, t.index, ConsumeOf(t.op).consumedBy, e.now);
    }
  }

  lemma SaveMarkOk(p: Primitives, d: Disk, locks: set<LockName>, t: Thread, e: Env)
    requires DiskOk(d) && t.held <= locks
    requires ThreadOk(p, d, t) && t.pc.SavePeers? && t.op.RevokeNode? && WellFormed(t)
    ensures GoodEffect(p, d, locks, t, Advance(p, d, locks, t, e))
  {
    hide DiskOk, Grows, HasPeer, MarkRevoked, Chosen;
    GrowsReflexive(d);
    if MarkRevoked(d.peers, t.revocation.value).Ok? {
      MarkedPeer(d, t.revocation.value);
    }
  }

  lemma SavePeerOk(p: Primitives, d: Disk, locks: set<LockName>, t: Thread, e: Env)
    requires DiskOk(d) && t.held <= locks
    requires ThreadOk(p, d, t) && t.pc.SavePeers? && EnsuresPeer(t.op) && WellFormed(t)
    ensures GoodEffect(p, d, locks, t, Advance(p, d, locks, t, e))
  {
    hide DiskOk, Grows, HasPeer, AddPeer, Chosen, RevocationOnFile;
    GrowsReflexive(d);
    if AddPeer(d.peers, NewPeer(TrustedPeer(t.op), t.now)).Ok? {
      AppendedPeer(d, TrustedPeer(t.op), t.now);
    }
  }

  lemma SaveRevsOk(p: Primitives, d: Disk, locks: set<LockName>, t: Thread, e: Env)
    requires DiskOk(d) && t.held <= locks
    requires ThreadOk(p, d, t) && t.pc.SaveRevs? && WellFormed(t)
    ensures GoodEffect(p, d, locks, t, Advance(p, d, locks, t, e))
  {
    hide DiskOk, Grows, Revoke;
    GrowsReflexive(d);
    AppendedRevocation(d, t.op.revoke, t.now, t.revocation.value);
    assert (d.revs + [t.revocation.value])[|d.revs|] == t.revocation.value;
  }
}
