/** A store file with a record that its own checks refuse: nobody gets past it, and nobody writes over it. */
module ProtocolUnreadable {
  import opened Wrappers
  import opened Text
  import opened Identity
  import opened Records
  import opened StoreOps
  import opened Messages
  import opened TlsIdentity
  import opened Protocol

  /** What is wrong with a join-code record. */
  predicate BadCode(r: JoinRecord) {
    || r.id == "" || r.algorithm == "" || r.salt == [] || r.verifier == []
    || Blank(r.networkId) || Blank(r.issuedBy)
    || !(r.expectedRole == Master || r.expectedRole == Worker)
    || r.createdAt == 0
    || !(r.status == Unused || r.status == Consumed)
    || (r.status == Consumed && (r.consumedAt == None || r.consumedAt == Some(0) || Blank(r.consumedBy)))
  }

  predicate BadPeer(r: PeerRecord) {
    || Blank(r.nodeId) || Blank(r.networkId) || !(r.role == Master || r.role == Worker)
    || !ValidKeys(r.publicKeys)
    || !(r.status == Active || r.status == Revoked) || (r.status == Revoked && r.revokedAt == None)
    || r.addedAt == 0
  }

  predicate BadRevocation(r: RevocationRecord) {
    Blank(r.nodeId) || Blank(r.revokedBy) || !(r.role == Master || r.role == Worker) || r.revokedAt == 0
  }

  /** The file that `name` is the lock of has a bad record somewhere. */
  predicate Unreadable(d: Disk, name: LockName) {
    match name
    case CodesLock => exists i :: 0 <= i < |d.codes| && BadCode(d.codes[i])
    case PeersLock => exists i :: 0 <= i < |d.peers| && BadPeer(d.peers[i])
    case RevocationsLock => exists i :: 0 <= i < |d.revs| && BadRevocation(d.revs[i])
  }

  predicate SameFile(a: Disk, b: Disk, name: LockName) {
    match name
    case CodesLock => a.codes == b.codes
    case PeersLock => a.peers == b.peers
    case RevocationsLock => a.revs == b.revs
  }

  /** The operations that read the file. */
  predicate Reads(op: Op, name: LockName) {
    match name
    case CodesLock => op.CreateCode? || op.ConsumeCode? || op.Pair?
    case PeersLock => !op.CreateCode? && !op.ConsumeCode?
    case RevocationsLock => op.RevokeNode? || op.Pair? || op.VerifyPeer?
  }

  /** The program points up to the first reading of the file. */
  predicate NotPast(t: Thread, name: LockName) {
    match name
    case CodesLock => t.pc.Start? || t.pc.CheckRevoked? || t.pc.CheckPeer? || t.pc.LockCodes? || t.pc.LoadCodes?
    case PeersLock =>
      || t.pc.Start? || t.pc.CheckRevoked? || t.pc.CheckPeer? || (t.pc.EnsureRead? && t.op.TrustPeer?)
      || (t.op.RevokeNode? && (t.pc.LockRevs? || t.pc.LoadRevs? || t.pc.SaveRevs? || t.pc.ReleaseRevs?))
      || ((t.op.RevokeNode? || t.op.ImportPeer?) && (t.pc.LockPeers? || t.pc.LoadPeers?))
      || t.pc.VerifyRead?
    case RevocationsLock =>
      || t.pc.Start? || t.pc.LockRevs? || t.pc.LoadRevs? || t.pc.CheckRevoked?
      || t.pc.VerifyRead? || t.pc.VerifyRevoked?
  }

  /** An attempt that reads the file is before it, on its way out with an error, or dead. */
  predicate Stopped(t: Thread, name: LockName) {
    Reads(t.op, name) ==>
      || NotPast(t, name) || t.pc.Crashed?
      || (t.failure.Some? && (t.pc.ReleaseCodes? || t.pc.ReleasePeers? || t.pc.ReleaseRevs? || t.pc.Done?))
  }

  /** A file loads exactly when it has no bad record. */
  lemma LoadsIff(d: Disk, name: LockName)
    ensures Unreadable(d, name) <==>
              match name
              case CodesLock => !AllValidCodes(d.codes)
              case PeersLock => !AllValidPeers(d.peers)
              case RevocationsLock => !AllValidRevs(d.revs)
  {
    hide Blank, ValidKeys;
  }

  lemma CodesTurnStopped(p: Primitives, d: Disk, locks: set<LockName>, t: Thread, e: Env)
    requires WellFormed(t) && t.Live() && Stopped(t, CodesLock) && Unreadable(d, CodesLock)
    ensures var r := Advance(p, d, locks, t, e);
            Stopped(r.thread, CodesLock) && SameFile(d, r.disk, CodesLock) && r.thread.op == t.op
  {
    hide Unreadable, AllValidCodes, AllValidPeers, AllValidRevs, CheckCertificate, CheckAdmission,
      CheckConsumeRequest, CheckPublicPeer, CheckStoredPeer, FindPeer, SamePeer, ValidPeerRecord, ValidExport,
      CodesToSave, PeersToSave, Scan, Revoke, IsRevokedIn;
    LoadsIff(d, CodesLock);
  }

  lemma PeersTurnStopped(p: Primitives, d: Disk, locks: set<LockName>, t: Thread, e: Env)
    requires WellFormed(t) && t.Live() && Stopped(t, PeersLock) && Unreadable(d, PeersLock)
    ensures var r := Advance(p, d, locks, t, e);
            Stopped(r.thread, PeersLock) && SameFile(d, r.disk, PeersLock) && r.thread.op == t.op
  {
    hide Unreadable, AllValidCodes, AllValidPeers, AllValidRevs, CheckCertificate, CheckAdmission,
      CheckConsumeRequest, CheckPublicPeer, CheckStoredPeer, FindPeer, SamePeer, ValidPeerRecord, ValidExport,
      CodesToSave, PeersToSave, Scan, Revoke, IsRevokedIn;
    LoadsIff(d, PeersLock);
  }

  lemma RevsTurnStopped(p: Primitives, d: Disk, locks: set<LockName>, t: Thread, e: Env)
    requires WellFormed(t) && t.Live() && Stopped(t, RevocationsLock) && Unreadable(d, RevocationsLock)
    ensures var r := Advance(p, d, locks, t, e);
            Stopped(r.thread, RevocationsLock) && SameFile(d, r.disk, RevocationsLock) && r.thread.op == t.op
  {
    hide Unreadable, AllValidCodes, AllValidPeers, AllValidRevs, CheckCertificate, CheckAdmission,
      CheckConsumeRequest, CheckPublicPeer, CheckStoredPeer, FindPeer, SamePeer, ValidPeerRecord, ValidExport,
      CodesToSave, PeersToSave, Scan, Revoke, IsRevokedIn;
    LoadsIff(d, RevocationsLock);
  }

  lemma StoppedTurn(p: Primitives, d: Disk, locks: set<LockName>, t: Thread, e: Env, name: LockName)
    requires WellFormed(t) && t.Live() && Stopped(t, name) && Unreadable(d, name)
    ensures var r := Advance(p, d, locks, t, e);
            Stopped(r.thread, name) && SameFile(d, r.disk, name) && r.thread.op == t.op
  {
    hide Unreadable, Advance, WellFormed, Stopped;
    match name
    case CodesLock => CodesTurnStopped(p, d, locks, t, e);
    case PeersLock => PeersTurnStopped(p, d, locks, t, e);
    case RevocationsLock => RevsTurnStopped(p, d, locks, t, e);
  }

  ghost predicate AllStopped(d: Disk, s: State, name: LockName) {
    SameFile(d, s.disk, name) && forall id :: id in s.threads ==> Stopped(s.threads[id], name)
  }

  lemma SameIsUnreadable(d: Disk, d': Disk, name: LockName)
    requires Unreadable(d, name) && SameFile(d, d', name)
    ensures Unreadable(d', name)
  {
    hide BadCode, BadPeer, BadRevocation;
  }

  lemma StoppedStep(p: Primitives, d: Disk, s: State, a: Action, name: LockName)
    requires Unreadable(d, name) && AllStopped(d, s, name)
    ensures AllStopped(d, Step(p, s, a), name)
  {
    hide Unreadable, Advance, WellFormed;
    SameIsUnreadable(d, s.disk, name);
    if a.Go? && a.id in s.threads && s.threads[a.id].Live() && WellFormed(s.threads[a.id]) {
      StoppedTurn(p, s.disk, s.locks, s.threads[a.id], a.env, name);
    }
  }

  lemma {:induction false} StoppedRun(p: Primitives, d: Disk, s: State, actions: seq<Action>, name: LockName)
    requires Unreadable(d, name) && AllStopped(d, s, name)
    ensures AllStopped(d, Run(p, s, actions), name)
    decreases |actions|
  {
    hide Unreadable, AllStopped, Step;
    if actions != [] {
      StoppedRun(p, d, s, actions[..|actions| - 1], name);
      StoppedStep(p, d, Run(p, s, actions[..|actions| - 1]), actions[|actions| - 1], name);
    }
  }

  /**
   * If one record of a file is bad, that file never changes again, whatever runs and fails, and no attempt that
   * reads it succeeds. The other two files may be in any condition.
   */
  lemma UnreadableFileStays(p: Primitives, s: State, actions: seq<Action>, name: LockName)
    requires s.threads == map[] && Unreadable(s.disk, name)
    ensures var end := Run(p, s, actions);
            && SameFile(s.disk, end.disk, name)
            && forall id :: id in end.threads && Reads(end.threads[id].op, name) ==> !end.threads[id].Succeeded()
  {
    hide Unreadable, Run;
    StoppedRun(p, s.disk, s, actions, name);
  }
}
