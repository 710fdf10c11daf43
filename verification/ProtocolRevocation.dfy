/** What a revocation on file does to pairings, and what a successful revocation has done to the peers file. */
module ProtocolRevocation {
  import opened Identity
  import opened Records
  import opened StoreOps
  import opened Messages
  import opened Protocol
  import opened ProtocolInvariant
  import opened ProtocolRuns
  import opened ProtocolTheorems

  // ---------- a revoked node does not pair ----------

  /** A pairing that has not got past the reading of the revocation file, or ended without having done anything. */
  predicate NotAdmitted(t: Thread) {
    && !t.added && t.consumed.None?
    && (t.pc.Start? || t.pc.CheckRevoked? || t.pc.Crashed? || (t.pc.Done? && t.failure.Some?))
  }

  lemma RevokedIsTurnedAway(p: Primitives, d: Disk, locks: set<LockName>, t: Thread, e: Env)
    requires WellFormed(t) && t.op.Pair? && IsRevokedIn(d.revs, t.op.request.peer.nodeId)
    requires NotAdmitted(t) && t.Live()
    ensures NotAdmitted(Advance(p, d, locks, t, e).thread)
  {
    hide IsRevokedIn, CheckAdmission, AllValidRevs;
  }

  lemma RevokedPairingStep(p: Primitives, d0: Disk, s: State, g: Action, id: nat)
    requires Inv(p, d0, s)
    requires id in s.threads ==> NotAdmitted(s.threads[id])
    requires id in Step(p, s, g).threads && Step(p, s, g).threads[id].op.Pair?
    requires IsRevokedIn(s.disk.revs, Step(p, s, g).threads[id].op.request.peer.nodeId)
    ensures NotAdmitted(Step(p, s, g).threads[id])
  {
    hide DiskOk, ThreadOk, Advance, WellFormed, Replay, OneOwner, ConsumedOnce, IsRevokedIn, Grows, LocksTracked,
      WritesUnderLock, CommitIsTheChange, ConsumesUnused;
    if g.Go? && g.id == id && id in s.threads && s.threads[id].Live() {
      AdvanceHere(p, s, id, g.env);
      RevokedIsTurnedAway(p, s.disk, s.locks, s.threads[id], g.env);
    }
  }

  /**
   * From a state with the node's revocation on file, a pairing for the node that starts later, or had not
   * yet read the revocations, adds no peer, consumes no record and does not succeed, in any continuation.
   */
  lemma {:induction false} RevokedNeverPairs(p: Primitives, s0: State, a: seq<Action>, b: seq<Action>, id: nat)
    requires Initial(s0) && id in Run(p, s0, a + b).threads && Run(p, s0, a + b).threads[id].op.Pair?
    requires IsRevokedIn(Run(p, s0, a).disk.revs, Run(p, s0, a + b).threads[id].op.request.peer.nodeId)
    requires id in Run(p, s0, a).threads ==>
               Run(p, s0, a).threads[id].pc.Start? || Run(p, s0, a).threads[id].pc.CheckRevoked?
    ensures var t := Run(p, s0, a + b).threads[id]; !t.added && t.consumed.None? && !t.Succeeded()
    ensures NotAdmitted(Run(p, s0, a + b).threads[id])
    decreases |b|
  {
    hide Step, Inv, IsRevokedIn, Grows, Run;
    InitialInv(p, s0);
    if b == [] {
      assert a + b == a;
      RunOk(p, s0.disk, s0, a);
      NotStartedIsFresh(p, s0.disk, Run(p, s0, a), id);
    } else {
      var front, last := b[..|b| - 1], b[|b| - 1];
      assert a + b == (a + front) + [last];
      RunSnoc(p, s0, a + front, last);
      var mid := Run(p, s0, a + front);
      RunOk(p, s0.disk, s0, a + front);
      RunOk(p, s0.disk, s0, a);
      RunConcat(p, s0, a, front);
      RunOk(p, s0.disk, Run(p, s0, a), front);
      RevokedAtLater(Run(p, s0, a).disk, mid.disk, Run(p, s0, a + b).threads[id].op.request.peer.nodeId);
      if id in mid.threads {
        OpStays(p, s0.disk, mid, last, id);
        RevokedNeverPairs(p, s0, a, front, id);
      }
      RevokedPairingStep(p, s0.disk, mid, last, id);
    }
  }

  lemma RevokedAtLater(d: Disk, d': Disk, node: NodeId)
    requires Grows(d, d') && IsRevokedIn(d.revs, node)
    ensures IsRevokedIn(d'.revs, node)
  {
    hide IsRevokedIn, CodesGrow, PeersGrow;
    RevokedStaysRevoked(d.revs, d'.revs, node);
  }

  lemma NotStartedIsFresh(p: Primitives, d0: Disk, s: State, id: nat)
    requires Inv(p, d0, s) && id in s.threads && (s.threads[id].pc.Start? || s.threads[id].pc.CheckRevoked?)
    ensures NotAdmitted(s.threads[id])
  {
    hide DiskOk, Replay, OneOwner, ConsumedOnce, CheckAdmission;
  }

  // ---------- a successful revocation has marked the peer ----------

  /** A revocation that has left the writing of the peers file behind without an error. */
  predicate Marked(t: Thread) {
    t.op.RevokeNode? && t.failure.None? && (t.pc.ReleasePeers? || t.pc.Done?)
  }

  lemma NobodyActiveAfterMark(d: Disk, r: RevocationRecord)
    requires DistinctPeers(d.peers) && MarkRevoked(d.peers, r).Ok?
    ensures !HasActive(MarkRevoked(d.peers, r).value, r.nodeId)
  {
    hide ValidRevocation;
    var i := FindPeer(d.peers, r.nodeId).value;
    var peers := MarkRevoked(d.peers, r).value;
    forall j | 0 <= j < |peers| && peers[j].nodeId == r.nodeId ensures !peers[j].IsActive() {
      assert d.peers[j].nodeId == r.nodeId;
      assert j == i;
    }
  }

  lemma MarkingTurn(p: Primitives, d: Disk, locks: set<LockName>, t: Thread, e: Env)
    requires DiskOk(d) && ThreadOk(p, d, t) && WellFormed(t) && t.Live() && t.op.RevokeNode?
    requires t.pc.LoadPeers? || t.pc.SavePeers?
    requires Marked(Advance(p, d, locks, t, e).thread)
    ensures !HasActive(Advance(p, d, locks, t, e).disk.peers, t.op.revoke.nodeId)
  {
    hide StatusesAgree, DistinctRevs, AllValidCodes, AllValidPeers, AllValidRevs, HasPeer, Chosen, ValidRevocation;
    if t.pc.SavePeers? {
      NobodyActiveAfterMark(d, t.revocation.value);
    }
  }

  lemma OtherTurnsMarkNothing(p: Primitives, d: Disk, locks: set<LockName>, t: Thread, e: Env)
    requires ThreadOk(p, d, t) && WellFormed(t) && t.Live() && t.op.RevokeNode?
    requires !t.pc.LoadPeers? && !t.pc.SavePeers?
    requires Marked(Advance(p, d, locks, t, e).thread)
    ensures Marked(t)
  {
    hide HasPeer, Chosen, RevocationOnFile, Revoke, AllValidRevs;
  }

  lemma MarkingStep(p: Primitives, d0: Disk, s: State, g: Action, id: nat)
    requires Inv(p, d0, s) && id in Step(p, s, g).threads && Marked(Step(p, s, g).threads[id])
    ensures var t' := Step(p, s, g).threads[id];
            || (id in s.threads && s.threads[id].op == t'.op && Marked(s.threads[id]))
            || (g.Go? && g.id == id && !HasActive(Step(p, s, g).disk.peers, t'.op.revoke.nodeId))
  {
    hide DiskOk, ThreadOk, Advance, WellFormed, Replay, OneOwner, ConsumedOnce, HasActive, Grows, LocksTracked,
      WritesUnderLock, CommitIsTheChange, ConsumesUnused;
    if g.Go? && g.id == id && id in s.threads && s.threads[id].Live() {
      var t := s.threads[id];
      AdvanceHere(p, s, id, g.env);
      if t.pc.LoadPeers? || t.pc.SavePeers? {
        MarkingTurn(p, s.disk, s.locks, t, g.env);
      } else {
        OtherTurnsMarkNothing(p, s.disk, s.locks, t, g.env);
      }
    }
  }

  lemma {:induction false} MarkedOnce(p: Primitives, s0: State, actions: seq<Action>, id: nat) returns (k: nat)
    requires Initial(s0) && id in Run(p, s0, actions).threads && Marked(Run(p, s0, actions).threads[id])
    ensures 0 < k <= |actions| && actions[k - 1].Go? && actions[k - 1].id == id
    ensures !HasActive(Run(p, s0, actions[..k]).disk.peers, Run(p, s0, actions).threads[id].op.revoke.nodeId)
    decreases |actions|
  {
    hide Step, Inv, HasActive;
    InitialInv(p, s0);
    assert actions != [];
    var front, last := actions[..|actions| - 1], actions[|actions| - 1];
    assert actions == front + [last];
    var s, s' := Run(p, s0, front), Run(p, s0, actions);
    RunSnoc(p, s0, front, last);
    RunOk(p, s0.disk, s0, front);
    MarkingStep(p, s0.disk, s, last, id);
    if id in s.threads && s.threads[id].op == s'.threads[id].op && Marked(s.threads[id]) {
      k := MarkedOnce(p, s0, front, id);
      assert actions[..k] == front[..k];
    } else {
      k := |actions|;
      assert actions[..k] == actions;
    }
  }

  lemma ActiveIsNewer(a: Peers, b: Peers, node: NodeId)
    requires PeersGrow(a, b) && !HasActive(a, node)
    ensures forall i :: 0 <= i < |b| && b[i].nodeId == node && b[i].IsActive() ==> |a| <= i
  {
    forall i | 0 <= i < |a| && b[i].nodeId == node ensures !b[i].IsActive() {
      assert PeerGrows(a[i], b[i]);
    }
  }

  /**
   * A revocation that answered with success is on file for good, and one of its own turns, the `k`-th
   * action, left no active peer for the node: an active one in any later state was added after that.
   */
  lemma SuccessfulRevocationMarks(p: Primitives, s0: State, a: seq<Action>, b: seq<Action>, id: nat) returns (k: nat)
    requires Initial(s0) && id in Run(p, s0, a).threads
    requires Run(p, s0, a).threads[id].op.RevokeNode? && Run(p, s0, a).threads[id].Succeeded()
    ensures 0 < k <= |a| && a[k - 1].Go? && a[k - 1].id == id
    ensures var node := Run(p, s0, a).threads[id].op.revoke.nodeId;
            var marked, later := Run(p, s0, a[..k]).disk.peers, Run(p, s0, a + b).disk;
            && !HasActive(marked, node)
            && IsRevokedIn(later.revs, node)
            && forall i :: 0 <= i < |later.peers| && later.peers[i].nodeId == node && later.peers[i].IsActive() ==>
                 |marked| <= i
  {
    hide Run, Inv, HasActive, PeersGrow, CodesGrow, IsRevokedIn;
    InitialInv(p, s0);
    k := MarkedOnce(p, s0, a, id);
    RunOk(p, s0.disk, s0, a);
    RunOk(p, s0.disk, s0, a[..k]);
    var rest := a[k..] + b;
    assert a + b == a[..k] + rest;
    RunConcat(p, s0, a[..k], rest);
    RunOk(p, s0.disk, Run(p, s0, a[..k]), rest);
    var node := Run(p, s0, a).threads[id].op.revoke.nodeId;
    ActiveIsNewer(Run(p, s0, a[..k]).disk.peers, Run(p, s0, a + b).disk.peers, node);
    AnsweredIsOnFile(p, s0.disk, Run(p, s0, a), id);
    RunConcat(p, s0, a, b);
    RunOk(p, s0.disk, Run(p, s0, a), b);
    RevokedAtLater(Run(p, s0, a).disk, Run(p, s0, a + b).disk, node);
  }

  lemma AnsweredIsOnFile(p: Primitives, d0: Disk, s: State, id: nat)
    requires Inv(p, d0, s) && id in s.threads && s.threads[id].op.RevokeNode? && s.threads[id].Succeeded()
    ensures IsRevokedIn(s.disk.revs, s.threads[id].op.revoke.nodeId)
  {
    hide DiskOk, Replay, OneOwner, ConsumedOnce, HasPeer;
    var r := s.threads[id].revocation.value;
    var i :| 0 <= i < |s.disk.revs| && s.disk.revs[i] == r;
  }
}
