/** What the invariant gives: statements about every run, every crash point and every continuation. */
module ProtocolTheorems {
  import opened Wrappers
  import opened Text
  import opened Base32
  import opened Identity
  import opened Records
  import opened StoreOps
  import opened TlsIdentity
  import opened Protocol
  import opened ProtocolInvariant
  import opened ProtocolRuns

  // ---------- serialisability ----------

  lemma StepExtendsLog(p: Primitives, s: State, a: Action)
    ensures s.log <= Step(p, s, a).log
  {
    hide Advance, WellFormed;
  }

  lemma {:induction false} RunExtendsLog(p: Primitives, s: State, actions: seq<Action>)
    ensures s.log <= Run(p, s, actions).log
    decreases |actions|
  {
    hide Step;
    if actions != [] {
      RunExtendsLog(p, s, actions[..|actions| - 1]);
      StepExtendsLog(p, Run(p, s, actions[..|actions| - 1]), actions[|actions| - 1]);
    }
  }

  /**
   * At every point of every run the three files are what the committed operations give when they are
   * applied one at a time, in commit order, to the starting files, and none of them fails there. What
   * an attempt reads without a lock at point `k` is therefore the result of a prefix of the final log.
   */
  lemma Serialisable(p: Primitives, s0: State, actions: seq<Action>, k: nat)
    requires Initial(s0) && k <= |actions|
    ensures var now, end := Run(p, s0, actions[..k]), Run(p, s0, actions);
            && now.log <= end.log
            && Replay(p, s0.disk, now.log) == Ok(now.disk)
            && Replay(p, s0.disk, end.log) == Ok(end.disk)
  {
    hide DiskOk, ThreadsOk, OneOwner, ConsumedOnce, Grows, Replay, Step;
    InitialInv(p, s0);
    RunOk(p, s0.disk, s0, actions);
    RunOk(p, s0.disk, s0, actions[..k]);
    assert actions == actions[..k] + actions[k..];
    RunConcat(p, s0, actions[..k], actions[k..]);
    RunExtendsLog(p, Run(p, s0, actions[..k]), actions[k..]);
  }

  /** In particular from the empty root, whatever stale lock directories it has. */
  lemma FromEmptyRoot(p: Primitives, locks: set<LockName>, actions: seq<Action>)
    ensures var end := Run(p, State(Disk([], [], []), locks, map[], []), actions);
            DiskOk(end.disk) && Replay(p, Disk([], [], []), end.log) == Ok(end.disk)
  {
    hide ThreadsOk, OneOwner, ConsumedOnce, Grows, Replay, Run;
    var s0 := State(Disk([], [], []), locks, map[], []);
    InitialInv(p, s0);
    RunOk(p, s0.disk, s0, actions);
  }

  // ---------- the files stay loadable and consistent ----------

  /**
   * Whatever was committed, each record passes the validation its own load applies, node ids are
   * unique in both files, and a revoked peer carries the time of a revocation on file.
   */
  lemma FilesStaySound(p: Primitives, s0: State, actions: seq<Action>)
    requires Initial(s0)
    ensures var d := Run(p, s0, actions).disk;
            && AllValidCodes(d.codes) && AllValidPeers(d.peers) && AllValidRevs(d.revs)
            && DistinctPeers(d.peers) && DistinctRevs(d.revs)
            && forall i :: 0 <= i < |d.peers| && !d.peers[i].status.Active? ==>
                 exists k :: 0 <= k < |d.revs| && d.revs[k].nodeId == d.peers[i].nodeId
                             && d.peers[i].revokedAt == Some(d.revs[k].revokedAt)
  {
    hide ThreadsOk, OneOwner, ConsumedOnce, Grows, Replay, Run;
    InitialInv(p, s0);
    RunOk(p, s0.disk, s0, actions);
    var d := Run(p, s0, actions).disk;
    forall i | 0 <= i < |d.peers| && !d.peers[i].status.Active?
      ensures exists k :: 0 <= k < |d.revs| && d.revs[k].nodeId == d.peers[i].nodeId
                          && d.peers[i].revokedAt == Some(d.revs[k].revokedAt)
    {
      assert StatusAgrees(d.peers[i], d.revs);
    }
  }

  // ---------- cross-file admission ----------

  ghost predicate ConsumedByPairing(s: State, i: nat) {
    exists id :: id in s.threads && s.threads[id].op.Pair? && s.threads[id].consumed == Some(i)
  }

  /** A stored peer that fits a join record and whose id belongs to its keys. */
  predicate AdmittedBy(p: Primitives, r: PeerRecord, c: JoinRecord) {
    && r.nodeId == c.consumedBy && r.networkId == c.networkId && r.role == c.expectedRole
    && DeriveNodeId(p, r.publicKeys) == Ok(r.nodeId)
  }

  lemma AdmissionOfThread(p: Primitives, d: Disk, t: Thread)
    requires ThreadOk(p, d, t) && t.op.Pair? && t.consumed.Some?
    ensures t.consumed.value < |d.codes| && d.codes[t.consumed.value].status.Consumed?
    ensures exists j :: 0 <= j < |d.peers| && AdmittedBy(p, d.peers[j], d.codes[t.consumed.value])
  {
    hide ThreadOk, DeriveNodeId;
    ConsumedOnDisk(p, d, t);
    var j :| 0 <= j < |d.peers| && SamePeer(d.peers[j], t.op.request.peer);
    assert AdmittedBy(p, d.peers[j], d.codes[t.consumed.value]);
  }

  /**
   * In every state, at every crash point: a record that pairing consumed names a node that is in the
   * peers file with the record's network and role and with keys its id derives from.
   */
  lemma AdmissionSpansBothFiles(p: Primitives, s0: State, actions: seq<Action>, i: nat)
    requires Initial(s0) && ConsumedByPairing(Run(p, s0, actions), i)
    ensures var d := Run(p, s0, actions).disk;
            && i < |d.codes| && d.codes[i].status.Consumed?
            && exists j :: 0 <= j < |d.peers| && AdmittedBy(p, d.peers[j], d.codes[i])
  {
    hide DiskOk, ThreadOk, OneOwner, ConsumedOnce, Grows, Replay, Run, AdmittedBy;
    InitialInv(p, s0);
    RunOk(p, s0.disk, s0, actions);
    var s := Run(p, s0, actions);
    var id :| id in s.threads && s.threads[id].op.Pair? && s.threads[id].consumed == Some(i);
    AdmissionOfThread(p, s.disk, s.threads[id]);
  }

  // ---------- single use ----------

  /**
   * Between any two points of a run join records keep their place, go at most from unused to
   * consumed, and do not change again; and no two attempts ever consume one record, so each yields at
   * most one success.
   */
  lemma SingleUse(p: Primitives, s0: State, a: seq<Action>, b: seq<Action>)
    requires Initial(s0)
    ensures var s, later := Run(p, s0, a), Run(p, s0, a + b);
            && CodesGrow(s.disk.codes, later.disk.codes)
            && (forall i :: 0 <= i < |s.disk.codes| && s.disk.codes[i].status.Consumed? ==>
                  later.disk.codes[i] == s.disk.codes[i])
            && (forall x, y ::
                  x in later.threads && y in later.threads && x != y
                  && Consumes(later.threads[x].op) && later.threads[x].Succeeded()
                  && Consumes(later.threads[y].op) && later.threads[y].Succeeded() ==>
                  later.threads[x].consumed != later.threads[y].consumed)
            && (forall x :: x in later.threads && Consumes(later.threads[x].op) && later.threads[x].Succeeded() ==>
                  later.threads[x].consumed.Some?
                  && ConsumedFor(later.disk.codes, later.threads[x].consumed.value, ConsumeOf(later.threads[x].op)))
  {
    hide DiskOk, ThreadOk, OneOwner, Replay, Run, PeersGrow, ConsumedFor;
    InitialInv(p, s0);
    RunOk(p, s0.disk, s0, a);
    RunConcat(p, s0, a, b);
    RunOk(p, s0.disk, Run(p, s0, a), b);
    var s, later := Run(p, s0, a), Run(p, s0, a + b);
    forall i | 0 <= i < |s.disk.codes| && s.disk.codes[i].status.Consumed?
      ensures later.disk.codes[i] == s.disk.codes[i]
    {
      assert RecordGrows(s.disk.codes[i], later.disk.codes[i]);
    }
    forall x | x in later.threads && Consumes(later.threads[x].op) && later.threads[x].Succeeded()
      ensures later.threads[x].consumed.Some?
      ensures ConsumedFor(later.disk.codes, later.threads[x].consumed.value, ConsumeOf(later.threads[x].op))
    {
      SuccessConsumes(p, later.disk, later.threads[x]);
    }
  }

  lemma SuccessConsumes(p: Primitives, d: Disk, t: Thread)
    requires ThreadOk(p, d, t) && Consumes(t.op) && t.Succeeded()
    ensures t.consumed.Some?
    ensures ConsumedFor(d.codes, t.consumed.value, ConsumeOf(t.op))
    ensures t.op.Pair? ==> Admitted(p, t.op) && HasPeer(d.peers, t.op.request.peer)
  {
    hide HasPeer, Chosen, RevocationOnFile, Admitted, ConsumedFor;
  }

  /** A step that extends the log by `c` has performed `c`. */
  lemma CommitApplies(p: Primitives, s0: State, a: seq<Action>, g: Action, c: Commit)
    requires Initial(s0) && g.Go?
    requires Run(p, s0, a + [g]).log == Run(p, s0, a).log + [Entry(g.id, c)]
    ensures ApplyCommit(p, Run(p, s0, a).disk, c) == Ok(Run(p, s0, a + [g]).disk)
  {
    hide DiskOk, ThreadOk, OneOwner, ConsumedOnce, Replay, Run, Advance, WellFormed, Grows, ThreadsOk, ApplyCommit;
    InitialInv(p, s0);
    RunOk(p, s0.disk, s0, a);
    RunConcat(p, s0, a, [g]);
    var s, mid := Run(p, s0, a), Run(p, s0, a + [g]);
    RunSingle(p, s, g);
    assert |mid.log| != |s.log|;
    assert mid.log[|s.log|] == Entry(g.id, c);
    AdvanceHere(p, s, g.id, g.env);
  }

  /**
   * From the commit of a consumption on, in every continuation, a scan for the same code bytes is
   * refused as consumed, whoever asks and however the code is typed.
   */
  lemma UsedCodeIsRefusedForGood(p: Primitives, s0: State, a: seq<Action>, g: Action, b: seq<Action>,
                                 q: ConsumeRequest, at: Time, again: ConsumeRequest)
    requires Initial(s0) && g.Go?
    requires Run(p, s0, a + [g]).log == Run(p, s0, a).log + [Entry(g.id, ConsumedCode(q, at))]
    requires CheckConsumeRequest(again).None?
    requires DecodeNoPadding(p.upper, again.code) == DecodeNoPadding(p.upper, q.code)
    ensures Scan(p, Run(p, s0, a + [g] + b).disk.codes, again, 0) == Err(CodeConsumed)
  {
    hide DiskOk, ThreadOk, OneOwner, ConsumedOnce, Replay, Run, PeersGrow, CheckConsumeRequest, Scan, DecodeNoPadding,
      ThreadsOk;
    InitialInv(p, s0);
    RunOk(p, s0.disk, s0, a);
    RunOk(p, s0.disk, s0, a + [g]);
    RunConcat(p, s0, a + [g], b);
    var s, mid := Run(p, s0, a), Run(p, s0, a + [g]);
    RunOk(p, s0.disk, mid, b);
    CommitApplies(p, s0, a, g, ConsumedCode(q, at));
    CodesOfSound(s.disk);
    UsedCodeStaysRefused(p, s.disk.codes, q, at, Run(p, s0, a + [g] + b).disk.codes, again);
  }

  lemma CodesOfSound(d: Disk)
    requires DiskOk(d)
    ensures forall j :: 0 <= j < |d.codes| ==> ValidJoinRecord(d.codes[j])
  {
  }

  // ---------- locks ----------

  /** Program points between taking a lock and giving it back. */
  predicate InSection(t: Thread, name: LockName) {
    match name
    case CodesLock =>
      || t.pc.LoadCodes? || t.pc.SaveCodes? || t.pc.ReleaseCodes?
      || (t.op.Pair? && (t.pc.EnsureRead? || t.pc.LockPeers? || t.pc.LoadPeers? || t.pc.SavePeers?
                         || t.pc.ReleasePeers?))
    case PeersLock => t.pc.LoadPeers? || t.pc.SavePeers? || t.pc.ReleasePeers?
    case RevocationsLock => t.pc.LoadRevs? || t.pc.SaveRevs? || t.pc.ReleaseRevs?
  }

  lemma SectionHoldsLock(p: Primitives, d: Disk, t: Thread, name: LockName)
    requires ThreadOk(p, d, t) && InSection(t, name)
    ensures name in t.held
  {
    hide HasPeer, Chosen, RevocationOnFile, Admitted, ConsumedFor, Revoke;
  }

  /** No two attempts are ever inside the critical section of one lock. */
  lemma MutualExclusion(p: Primitives, s0: State, actions: seq<Action>, x: nat, y: nat, name: LockName)
    requires Initial(s0) && x != y
    requires x in Run(p, s0, actions).threads && y in Run(p, s0, actions).threads
    ensures var s := Run(p, s0, actions);
            !(InSection(s.threads[x], name) && InSection(s.threads[y], name))
  {
    hide DiskOk, ThreadOk, ConsumedOnce, Replay, Run, Grows, InSection;
    InitialInv(p, s0);
    RunOk(p, s0.disk, s0, actions);
    var s := Run(p, s0, actions);
    if InSection(s.threads[x], name) && InSection(s.threads[y], name) {
      SectionHoldsLock(p, s.disk, s.threads[x], name);
      SectionHoldsLock(p, s.disk, s.threads[y], name);
    }
  }

  predicate SameFile(name: LockName, a: Disk, b: Disk) {
    match name
    case CodesLock => a.codes == b.codes
    case PeersLock => a.peers == b.peers
    case RevocationsLock => a.revs == b.revs
  }

  lemma StepRespectsDeadOwner(p: Primitives, d0: Disk, s: State, a: Action, id: nat, name: LockName)
    requires Inv(p, d0, s) && id in s.threads && !s.threads[id].Live() && name in s.threads[id].held
    ensures var s' := Step(p, s, a);
            id in s'.threads && s'.threads[id] == s.threads[id] && SameFile(name, s.disk, s'.disk)
  {
    hide DiskOk, ThreadOk, Advance, WellFormed, Grows, CommitIsTheChange, ConsumesUnused, Replay, ConsumedOnce;
    if a.Go? && a.id in s.threads && s.threads[a.id].Live() {
      AdvanceHere(p, s, a.id, a.env);
      assert s.threads[a.id].held !! s.threads[id].held;
    }
  }

  /**
   * A crashed owner (or one whose release failed) blocks, it does not let others in: from then on its
   * lock directory stays, its file never changes, and no attempt is ever in that section.
   */
  lemma {:induction false} DeadOwnerBlocks(p: Primitives, s0: State, a: seq<Action>, b: seq<Action>, id: nat,
                                           name: LockName)
    requires Initial(s0) && id in Run(p, s0, a).threads
    requires !Run(p, s0, a).threads[id].Live() && name in Run(p, s0, a).threads[id].held
    ensures var s, later := Run(p, s0, a), Run(p, s0, a + b);
            && id in later.threads && later.threads[id] == s.threads[id]
            && name in later.locks
            && SameFile(name, s.disk, later.disk)
            && forall x :: x in later.threads && x != id ==> !InSection(later.threads[x], name)
    decreases |b|
  {
    hide DiskOk, ThreadOk, ConsumedOnce, Replay, Run, Grows, InSection, Step;
    InitialInv(p, s0);
    var s, later := Run(p, s0, a), Run(p, s0, a + b);
    RunOk(p, s0.disk, s0, a + b);
    if b == [] {
      assert a + b == a;
    } else {
      var front := b[..|b| - 1];
      DeadOwnerBlocks(p, s0, a, front, id, name);
      RunOk(p, s0.disk, s0, a + front);
      RunConcat(p, s0, a + front, [b[|b| - 1]]);
      assert (a + front) + [b[|b| - 1]] == a + b;
      RunSingle(p, Run(p, s0, a + front), b[|b| - 1]);
      StepRespectsDeadOwner(p, s0.disk, Run(p, s0, a + front), b[|b| - 1], id, name);
    }
    forall x | x in later.threads && x != id ensures !InSection(later.threads[x], name) {
      assert later.threads[x].held !! later.threads[id].held;
      if InSection(later.threads[x], name) {
        SectionHoldsLock(p, later.disk, later.threads[x], name);
      }
    }
  }

  // ---------- revocation ----------

  /** The only way to a successful verification is a reading of the revocation file without the node. */
  lemma VerificationReadsRevocations(p: Primitives, d: Disk, locks: set<LockName>, t: Thread, e: Env)
    requires ThreadOk(p, d, t) && WellFormed(t) && t.op.VerifyPeer? && t.Live()
    requires Advance(p, d, locks, t, e).thread.Succeeded()
    ensures t.metadata.Some? && Advance(p, d, locks, t, e).thread.metadata == t.metadata
    ensures !IsRevokedIn(d.revs, t.metadata.value.nodeId)
  {
    hide CheckCertificate, CheckStoredPeer, HasPeer, Chosen, RevocationOnFile, Revoke, IsRevokedIn, Admitted;
  }

  ghost predicate VerifiedAs(t: Thread, node: NodeId) {
    t.op.VerifyPeer? && t.Succeeded() && t.metadata.Some? && t.metadata.value.nodeId == node
  }

  lemma NoNewVerification(p: Primitives, d0: Disk, s: State, a: Action, node: NodeId)
    requires Inv(p, d0, s) && IsRevokedIn(s.disk.revs, node)
    ensures var s' := Step(p, s, a);
            forall id :: id in s'.threads && VerifiedAs(s'.threads[id], node) ==>
              id in s.threads && VerifiedAs(s.threads[id], node)
  {
    hide DiskOk, ThreadOk, Advance, WellFormed, Grows, Replay, ConsumedOnce, OneOwner, LocksTracked, WritesUnderLock,
      CommitIsTheChange, ConsumesUnused, IsRevokedIn;
    if a.Go? && a.id in s.threads && s.threads[a.id].Live() {
      AdvanceHere(p, s, a.id, a.env);
      var r := Advance(p, s.disk, s.locks, s.threads[a.id], a.env);
      if VerifiedAs(r.thread, node) {
        VerificationReadsRevocations(p, s.disk, s.locks, s.threads[a.id], a.env);
      }
    }
  }

  lemma RevokedStaysRevoked(a: Revocations, b: Revocations, node: NodeId)
    requires a <= b && IsRevokedIn(a, node)
    ensures IsRevokedIn(b, node)
    ensures b[FindRevocation(b, node).value] == a[FindRevocation(a, node).value]
  {
    assert forall j :: 0 <= j < |a| ==> b[j] == a[j];
    var i := FindRevocation(a, node).value;
    assert b[i].nodeId == node;
  }

  /**
   * Once a node's revocation is on file, no verification that has not already succeeded ever accepts
   * the node, in any continuation: whatever pairings, imports, crashes and failing writes follow.
   */
  lemma {:induction false} RevocationIsPermanent(p: Primitives, s0: State, a: seq<Action>, b: seq<Action>, node: NodeId)
    requires Initial(s0) && IsRevokedIn(Run(p, s0, a).disk.revs, node)
    ensures var s, later := Run(p, s0, a), Run(p, s0, a + b);
            && IsRevokedIn(later.disk.revs, node)
            && forall id :: id in later.threads && VerifiedAs(later.threads[id], node) ==>
                 id in s.threads && VerifiedAs(s.threads[id], node)
    decreases |b|
  {
    hide DiskOk, ThreadsOk, OneOwner, ConsumedOnce, Replay, Run, Step, CodesGrow, PeersGrow, IsRevokedIn, VerifiedAs;
    InitialInv(p, s0);
    if b == [] {
      assert a + b == a;
    } else {
      var front := b[..|b| - 1];
      var mid := Run(p, s0, a + front);
      RevocationIsPermanent(p, s0, a, front, node);
      RunOk(p, s0.disk, s0, a + front);
      assert (a + front) + [b[|b| - 1]] == a + b;
      RunConcat(p, s0, a + front, [b[|b| - 1]]);
      RunSingle(p, mid, b[|b| - 1]);
      StepOk(p, s0.disk, mid, b[|b| - 1]);
      NoNewVerification(p, s0.disk, mid, b[|b| - 1], node);
      RevokedStaysRevoked(mid.disk.revs, Run(p, s0, a + b).disk.revs, node);
    }
  }

  // ---------- an active peer may be revoked ----------

  /** What the security notes say: a node with a revocation record is not an active peer. */
  ghost predicate RevokedInactive(d: Disk) {
    forall i :: 0 <= i < |d.peers| && d.peers[i].IsActive() ==> !IsRevokedIn(d.revs, d.peers[i].nodeId)
  }

  ghost predicate HasActive(peers: Peers, id: NodeId) {
    exists i :: 0 <= i < |peers| && peers[i].nodeId == id && peers[i].IsActive()
  }

  /**
   * Exactly which operations keep it: adding a peer does unless the peer's id is already revoked, which
   * Add does not look at; recording a revocation does unless the node is an active peer, which it stays
   * until the second write; everything else does.
   */
  lemma RevokedInactiveKeptIff(p: Primitives, d: Disk, c: Commit)
    requires RevokedInactive(d) && ApplyCommit(p, d, c).Ok?
    ensures RevokedInactive(ApplyCommit(p, d, c).value)
            <==>
            match c
            case AddedPeer(r) => !(r.IsActive() && IsRevokedIn(d.revs, r.nodeId))
            case AddedRevocation(q, _) => !HasActive(d.peers, q.nodeId)
            case _ => true
  {
    hide NewJoinRecord, Consume, ValidPeerRecord, ValidRevocation;
    var d' := ApplyCommit(p, d, c).value;
    match c {
      case AddedPeer(r) =>
        assert d'.peers == d.peers + [r];
        assert d'.peers[|d.peers|] == r;
        assert forall i :: 0 <= i < |d.peers| ==> d'.peers[i] == d.peers[i];
      case AddedRevocation(q, at) =>
        RevokedAfter(d.revs, q, at);
      case _ =>
    }
  }

  lemma RevokedAfter(revs: Revocations, q: RevokeRequest, at: Time)
    requires Revoke(revs, q, at).Ok?
    ensures forall id :: IsRevokedIn(Revoke(revs, q, at).value.0, id) <==> IsRevokedIn(revs, id) || id == q.nodeId
  {
    hide ValidRevocation;
    var after := Revoke(revs, q, at).value.0;
    forall id ensures IsRevokedIn(after, id) <==> IsRevokedIn(revs, id) || id == q.nodeId {
      if FindRevocation(revs, q.nodeId).None? {
        assert forall k :: 0 <= k < |revs| ==> after[k] == revs[k];
        assert after[|revs|].nodeId == q.nodeId;
      }
    }
  }

  /** The first exception on concrete files: a node revoked before it is imported ends up active. */
  lemma ImportedAfterRevocation(p: Primitives)
    ensures var d := Disk([], [], [RevocationRecord("n", Worker, 1, "m", "")]);
            var r := PeerRecord("n", "net", Worker, KeySet(Key(Ed25519, [1]), Key(X25519, [2])), Active, 2, None);
            && DiskOk(d) && RevokedInactive(d)
            && ApplyCommit(p, d, AddedPeer(r)).Ok?
            && !RevokedInactive(ApplyCommit(p, d, AddedPeer(r)).value)
  {
    var d := Disk([], [], [RevocationRecord("n", Worker, 1, "m", "")]);
    var r := PeerRecord("n", "net", Worker, KeySet(Key(Ed25519, [1]), Key(X25519, [2])), Active, 2, None);
    BlankMeansAllSpaces("n");
    BlankMeansAllSpaces("m");
    BlankMeansAllSpaces("net");
    assert !IsSpace("n"[0]) && !IsSpace("m"[0]) && !IsSpace("net"[0]);
    assert FindRevocation(d.revs, "n") == Some(0);
    RevokedInactiveKeptIff(p, d, AddedPeer(r));
  }
}
