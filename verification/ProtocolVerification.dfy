/** What a successful verification has read, and when one that nobody interrupts succeeds. */
module ProtocolVerification {
  import opened Wrappers
  import opened Text
  import opened Identity
  import opened StoreOps
  import opened TlsIdentity
  import opened Protocol
  import opened ProtocolInvariant
  import opened ProtocolRuns
  import opened ProtocolAlone

  // ---------- the three turns of a verification ----------

  /** An attempt that has got past its `n`-th check, counting certificate, peer and revocation. */
  predicate Passed(t: Thread, n: nat) {
    && t.op.VerifyPeer? && t.failure.None? && t.metadata.Some?
    && ((n == 1 && t.pc.VerifyRead?) || (n == 2 && t.pc.VerifyRevoked?) || (n == 3 && t.pc.Done?))
  }

  /** What the `n`-th check has found out, from the files and the clock of its turn. */
  predicate Found(p: Primitives, d: Disk, now: Time, t: Thread, n: nat)
    requires t.op.VerifyPeer? && t.metadata.Some?
  {
    var m := t.metadata.value;
    && (n == 1 ==> Presents(p, t.op.options, t.op.certificate, now, m))
    && (n == 2 ==> KnownAs(d.peers, m))
    && (n == 3 ==> NotRevoked(d.revs, m.nodeId))
  }

  lemma PassingTurn(p: Primitives, d: Disk, locks: set<LockName>, t: Thread, e: Env, n: nat)
    requires ThreadOk(p, d, t) && WellFormed(t) && t.Live() && t.op.VerifyPeer?
    requires t.metadata.Some? && !t.pc.Start? ==> FitsOptions(t)
    requires Passed(Advance(p, d, locks, t, e).thread, n) && !Passed(t, n)
    ensures Found(p, d, e.now, Advance(p, d, locks, t, e).thread, n)
    ensures n == 1 ==> t.pc.Start?
    ensures n > 1 ==> Passed(t, n - 1) && Advance(p, d, locks, t, e).thread.metadata == t.metadata
    ensures FitsOptions(Advance(p, d, locks, t, e).thread)
  {
    hide CheckCertificate, CheckStoredPeer, HasPeer, Chosen, RevocationOnFile, IsRevokedIn, Presents, KnownAs,
      NotRevoked,
      AllValidPeers, AllValidRevs;
    if t.pc.Start? {
      StartPresents(p, t.op.options, t.op.certificate, e.now);
    } else {
      var m := t.metadata.value;
      StoredPeerIff(t.op.options, m, d.peers);
      NotRevokedIff(d.revs, m.nodeId);
    }
  }

  /** What the second check relies on from the first. */
  predicate FitsOptions(t: Thread) {
    t.op.VerifyPeer? && t.metadata.Some? ==>
      !Blank(t.metadata.value.nodeId) && t.metadata.value.networkId == t.op.options.networkId
  }

  lemma StartPresents(p: Primitives, o: VerifyOptions, c: Certificate, now: Time)
    ensures CheckCertificate(p, o, c, now).Ok? ==>
              var m := CheckCertificate(p, o, c, now).value;
              Presents(p, o, c, now, m) && !Blank(m.nodeId) && m.networkId == o.networkId
  {
    hide CheckCertificate, DeriveNodeId, Blank, FirstMetadata;
    if CheckCertificate(p, o, c, now).Ok? {
      CertificateIff(p, o, c, now, CheckCertificate(p, o, c, now).value);
    }
  }

  lemma OwnTurn(p: Primitives, d0: Disk, s: State, a: Action, id: nat, n: nat)
    requires Inv(p, d0, s) && id in Step(p, s, a).threads && Passed(Step(p, s, a).threads[id], n)
    requires !(id in s.threads && s.threads[id] == Step(p, s, a).threads[id])
    ensures a.Go? && a.id == id && id in s.threads && s.threads[id].Live() && s.threads[id].op.VerifyPeer?
    ensures WellFormed(s.threads[id]) && ThreadOk(p, s.disk, s.threads[id])
    ensures Step(p, s, a).threads[id] == Advance(p, s.disk, s.locks, s.threads[id], a.env).thread
    ensures !Passed(s.threads[id], n)
    ensures (n > 1 ==> Passed(s.threads[id], n - 1)) && (n == 1 ==> s.threads[id].pc.Start?)
    ensures n > 1 ==> Step(p, s, a).threads[id].metadata == s.threads[id].metadata
    ensures n > 1 ==> Step(p, s, a).threads[id].op == s.threads[id].op
  {
    hide DiskOk, ThreadOk, Advance, WellFormed, Replay, OneOwner, ConsumedOnce, Grows, LocksTracked, WritesUnderLock,
      CommitIsTheChange, ConsumesUnused;
    if a.Go? && a.id == id && id in s.threads && s.threads[id].Live() {
      AdvanceHere(p, s, id, a.env);
      ComesFrom(p, s.disk, s.locks, s.threads[id], a.env, n);
    }
  }

  lemma ComesFrom(p: Primitives, d: Disk, locks: set<LockName>, t: Thread, e: Env, n: nat)
    requires ThreadOk(p, d, t) && WellFormed(t) && t.Live() && t.op.VerifyPeer?
    requires Passed(Advance(p, d, locks, t, e).thread, n)
    ensures !Passed(t, n) && (n > 1 ==> Passed(t, n - 1)) && (n == 1 ==> t.pc.Start?)
    ensures n > 1 ==> Advance(p, d, locks, t, e).thread.metadata == t.metadata
  {
    hide CheckCertificate, CheckStoredPeer, HasPeer, Chosen, RevocationOnFile, IsRevokedIn, AllValidPeers, AllValidRevs;
  }

  lemma SettledTurn(p: Primitives, d0: Disk, s: State, a: Action, id: nat, n: nat)
    requires Inv(p, d0, s) && id in Step(p, s, a).threads && Passed(Step(p, s, a).threads[id], n) && a.Go? && a.id == id
    requires !(id in s.threads && s.threads[id] == Step(p, s, a).threads[id])
    requires id in s.threads && (n > 1 ==> FitsOptions(s.threads[id]))
    ensures FitsOptions(Step(p, s, a).threads[id])
    ensures Found(p, s.disk, a.env.now, Step(p, s, a).threads[id], n)
  {
    hide Inv, Step, Advance, WellFormed, ThreadOk, Found, FitsOptions;
    OwnTurn(p, d0, s, a, id, n);
    PassingTurn(p, s.disk, s.locks, s.threads[id], a.env, n);
  }

  /** The turn in which an attempt passed its `n`-th check: until then it had passed those before. */
  lemma {:induction false} PassedAt(p: Primitives, s0: State, actions: seq<Action>, id: nat, n: nat) returns (k: nat)
    requires Initial(s0) && id in Run(p, s0, actions).threads && Passed(Run(p, s0, actions).threads[id], n)
    ensures k < |actions| && actions[k].Go? && actions[k].id == id && id in Run(p, s0, actions[..k]).threads
    ensures id in Step(p, Run(p, s0, actions[..k]), actions[k]).threads
    ensures Step(p, Run(p, s0, actions[..k]), actions[k]).threads[id] == Run(p, s0, actions).threads[id]
    ensures Run(p, s0, actions[..k]).threads[id] != Run(p, s0, actions).threads[id]
    decreases |actions|
  {
    hide Step, Inv, Passed, Initial;
    if actions == [] {
      NoThreadsYet(p, s0, id);
    } else {
      var front, last := actions[..|actions| - 1], actions[|actions| - 1];
      assert actions == front + [last];
      var s := Run(p, s0, front);
      RunSnoc(p, s0, front, last);
      if id in s.threads && s.threads[id] == Run(p, s0, actions).threads[id] {
        k := PassedAt(p, s0, front, id, n);
        assert actions[..k] == front[..k];
      } else {
        InitialInv(p, s0);
        RunOk(p, s0.disk, s0, front);
        OwnTurn(p, s0.disk, s, last, id, n);
        k := |front|;
        assert actions[..k] == front;
      }
    }
  }

  lemma NoThreadsYet(p: Primitives, s0: State, id: nat)
    requires Initial(s0)
    ensures id !in Run(p, s0, []).threads
  {
  }

  /** One check of a run: what it found, and that the attempt had passed the one before. */
  lemma CheckedAt(p: Primitives, s0: State, actions: seq<Action>, id: nat, n: nat) returns (k: nat)
    requires Initial(s0) && id in Run(p, s0, actions).threads && Passed(Run(p, s0, actions).threads[id], n)
    ensures k < |actions| && actions[k].Go? && actions[k].id == id && id in Run(p, s0, actions[..k]).threads
    ensures var t, t' := Run(p, s0, actions[..k]).threads[id], Run(p, s0, actions).threads[id];
            && (n == 1 ==> FitsOptions(t'))
            && (n > 1 ==> Passed(t, n - 1) && t.op == t'.op && t.metadata == t'.metadata)
            && (n == 1 || FitsOptions(t) ==> Found(p, Run(p, s0, actions[..k]).disk, actions[k].env.now, t', n))
  {
    hide Step, Inv, Passed, Initial, Found, FitsOptions, Run;
    k := PassedAt(p, s0, actions, id, n);
    var s := Run(p, s0, actions[..k]);
    InitialInv(p, s0);
    RunOk(p, s0.disk, s0, actions[..k]);
    OwnTurn(p, s0.disk, s, actions[k], id, n);
    if n == 1 || FitsOptions(s.threads[id]) {
      SettledTurn(p, s0.disk, s, actions[k], id, n);
    }
  }

  /**
   * A verification that has succeeded had three turns of its own, in this order. In the first the
   * certificate was the node's, in its window, and of the network and role asked for. In the second the
   * peers file knew that node with those keys as active. In the third there was no revocation of it.
   */
  lemma SuccessfulVerificationRead(p: Primitives, s0: State, actions: seq<Action>, id: nat)
      returns (m: Metadata, k1: nat, k2: nat, k3: nat)
    requires Initial(s0) && id in Run(p, s0, actions).threads
    requires Run(p, s0, actions).threads[id].op.VerifyPeer? && Run(p, s0, actions).threads[id].Succeeded()
    ensures k1 < k2 < k3 < |actions| && actions[k1].Go? && actions[k2].Go? && actions[k3].Go?
    ensures actions[k1].id == actions[k2].id == actions[k3].id == id
    ensures var op := Run(p, s0, actions).threads[id].op;
            && Run(p, s0, actions).threads[id].metadata == Some(m)
            && Presents(p, op.options, op.certificate, actions[k1].env.now, m)
            && KnownAs(Run(p, s0, actions[..k2]).disk.peers, m)
            && NotRevoked(Run(p, s0, actions[..k3]).disk.revs, m.nodeId)
  {
    hide Run, Inv, Presents, KnownAs, NotRevoked, FitsOptions;
    MetadataIsThere(p, s0, actions, id);
    m := Run(p, s0, actions).threads[id].metadata.value;
    k3 := CheckedAt(p, s0, actions, id, 3);
    k2 := CheckedAt(p, s0, actions[..k3], id, 2);
    assert actions[..k3][..k2] == actions[..k2];
    k1 := CheckedAt(p, s0, actions[..k2], id, 1);
    assert actions[..k2][..k1] == actions[..k1];
    SameOptions(Run(p, s0, actions[..k2]).threads[id], Run(p, s0, actions[..k3]).threads[id]);
  }

  lemma SameOptions(t: Thread, t': Thread)
    requires t.op == t'.op && t.metadata == t'.metadata
    ensures FitsOptions(t) <==> FitsOptions(t')
  {
  }

  lemma MetadataIsThere(p: Primitives, s0: State, actions: seq<Action>, id: nat)
    requires Initial(s0) && id in Run(p, s0, actions).threads
    requires Run(p, s0, actions).threads[id].op.VerifyPeer? && Run(p, s0, actions).threads[id].Succeeded()
    ensures Run(p, s0, actions).threads[id].metadata.Some?
  {
    hide Run, DiskOk, Replay, OneOwner, ConsumedOnce;
    InitialInv(p, s0);
    RunOk(p, s0.disk, s0, actions);
  }

  // ---------- left alone ----------

  lemma VerifyAlone(p: Primitives, d: Disk, locks: set<LockName>, o: VerifyOptions, c: Certificate, clock: Clock)
    requires DiskOk(d)
    ensures var (d', locks', t') := Alone(p, d, locks, NewThread(VerifyPeer(o, c)), clock, 3);
            && d' == d && locks' == locks && t'.pc.Done?
            && (match VerifyCertificate(p, o, c, clock(3), d.peers, d.revs)
                case Ok(m) => t'.failure == None && t'.metadata == Some(m)
                case Err(e) => t'.failure == Some(e))
  {
    hide Alone, DiskOk, CheckCertificate, CheckStoredPeer, IsRevokedIn, AllValidPeers, AllValidRevs, AllValidCodes;
    SoundFilesLoad(d);
    var t := NewThread(VerifyPeer(o, c));
    OneTurn(p, d, locks, t, clock, 3);
    match CheckCertificate(p, o, c, clock(3)) {
      case Err(e) => EndedAlone(p, d, locks, Fail(t, e, Done), clock, 2);
      case Ok(m) =>
        var t1 := t.(metadata := Some(m), pc := VerifyRead);
        OneTurn(p, d, locks, t1, clock, 2);
        match CheckStoredPeer(o, m, d.peers) {
          case Some(e) => EndedAlone(p, d, locks, Fail(t1, e, Done), clock, 1);
          case None =>
            OneTurn(p, d, locks, t1.(pc := VerifyRevoked), clock, 1);
            var r := Advance(p, d, locks, t1.(pc := VerifyRevoked), Smooth(clock(1)));
            EndedAlone(p, d, locks, r.thread, clock, 0);
        }
    }
  }

  /** Everything that is asked of a certificate and of the files at one time. */
  lemma VerifiedIff(p: Primitives, o: VerifyOptions, c: Certificate, now: Time, peers: Peers, revs: Revocations,
                    m: Metadata)
    ensures VerifyCertificate(p, o, c, now, peers, revs) == Ok(m)
            <==> Presents(p, o, c, now, m) && KnownAs(peers, m) && NotRevoked(revs, m.nodeId)
  {
    hide CheckCertificate, CheckStoredPeer, IsRevokedIn, KnownAs, NotRevoked, DeriveNodeId, Blank, FirstMetadata;
    CertificateIff(p, o, c, now, m);
    NotRevokedIff(revs, m.nodeId);
    if Presents(p, o, c, now, m) {
      StoredPeerIff(o, m, peers);
    }
  }

  /**
   * A verification that starts in any reachable state and is left alone succeeds exactly when the
   * certificate is the node's own, fits the options and the time of its first turn, and the files know the
   * node as active and unrevoked. Otherwise it answers what `VerifyCertificate` answers on these files.
   */
  lemma UndisturbedVerificationIff(p: Primitives, s0: State, a: seq<Action>, id: nat, o: VerifyOptions, c: Certificate,
                                   clock: Clock, m: Metadata)
    requires Initial(s0) && id !in Run(p, s0, a).threads
    ensures var s := Run(p, s0, a);
            var end := Run(p, s0, a + ([Spawn(id, VerifyPeer(o, c))] + SmoothTurns(id, clock, 3)));
            && id in end.threads && end.threads[id].pc.Done? && end.disk == s.disk && end.locks == s.locks
            && (end.threads[id].Succeeded() && end.threads[id].metadata == Some(m) <==>
                  Presents(p, o, c, clock(3), m) && KnownAs(s.disk.peers, m) && NotRevoked(s.disk.revs, m.nodeId))
            && (var answer := VerifyCertificate(p, o, c, clock(3), s.disk.peers, s.disk.revs);
                answer.Err? ==> end.threads[id].failure == Some(answer.error))
  {
    hide Run, Alone, Inv, Step, VerifyCertificate, Presents, KnownAs, NotRevoked;
    var s, op := Run(p, s0, a), VerifyPeer(o, c);
    InitialInv(p, s0);
    RunOk(p, s0.disk, s0, a);
    FilesOfInv(p, s0.disk, s);
    var actions := [Spawn(id, op)] + SmoothTurns(id, clock, 3);
    RunConcat(p, s0, a, actions);
    RunSpawned(p, s, id, op, clock, 3);
    VerifyAlone(p, s.disk, s.locks, o, c, clock);
    var end := Run(p, s0, a + actions);
    assert end.threads[id] == Alone(p, s.disk, s.locks, NewThread(op), clock, 3).2;
    VerifiedIff(p, o, c, clock(3), s.disk.peers, s.disk.revs, m);
  }
}
