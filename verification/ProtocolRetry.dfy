/** When a revocation that nobody interrupts succeeds, in particular one that completes an earlier attempt. */
module ProtocolRetry {
  import opened Wrappers
  import opened Text
  import opened Identity
  import opened Records
  import opened StoreOps
  import opened Protocol
  import opened ProtocolInvariant
  import opened ProtocolRuns
  import opened ProtocolAlone
  import Stores

  /** An attempt that answers with an error and is over, or only has a lock to give back. */
  predicate GivingUp(t: Thread) {
    t.failure.Some? && (t.pc.Done? || t.pc.ReleaseRevs?)
  }

  lemma GivingUpAlone(p: Primitives, d: Disk, locks: set<LockName>, t: Thread, clock: Clock, n: nat)
    requires GivingUp(t) && t.op.RevokeNode? && n > 0
    ensures var end := Alone(p, d, locks, t, clock, n);
            end.0 == d && end.2.pc.Done? && end.2.failure == t.failure
  {
    hide Alone;
    if t.pc.Done? {
      EndedAlone(p, d, locks, t, clock, n);
    } else {
      OneTurn(p, d, locks, t, clock, n);
      var r := Advance(p, d, locks, t, Smooth(clock(n)));
      EndedAlone(p, r.disk, r.locks, r.thread, clock, n - 1);
    }
  }

  /** The revocation is on file, and its lock is all that is held. */
  predicate Recorded(d: Disk, locks: set<LockName>, t: Thread) {
    && t.op.RevokeNode? && t.failure.None? && t.revocation.Some? && ValidRevocation(t.revocation.value)
    && t.pc.ReleaseRevs? && t.held == {RevocationsLock} && RevocationsLock in locks && t.peers.None? && !t.added
  }

  /** The peers file after the second half of a revocation. */
  function MarkedPeers(peers: Peers, r: RevocationRecord): Peers {
    match MarkRevoked(peers, r)
    case Ok(marked) => marked
    case Err(_) => peers
  }

  lemma MarkAlone(p: Primitives, d: Disk, locks: set<LockName>, t: Thread, clock: Clock, n: nat)
    requires t.op.RevokeNode? && t.failure.None? && t.revocation.Some? && ValidRevocation(t.revocation.value)
    requires t.pc.LockPeers? && t.held == {} && t.peers.None? && !t.added && n >= 4
    requires AllValidPeers(d.peers) && PeersLock !in locks
    ensures var (d', locks', t') := Alone(p, d, locks, t, clock, n);
            t'.Succeeded() && locks' == locks && d' == d.(peers := MarkedPeers(d.peers, t.revocation.value))
  {
    hide Alone, AllValidPeers, ValidRevocation, MarkRevoked;
    var inside, locked := t.(held := {PeersLock}), locks + {PeersLock};
    assert t.held + {PeersLock} == {PeersLock} && {PeersLock} - {PeersLock} == {} && locked - {PeersLock} == locks;
    OneTurn(p, d, locks, t, clock, n);
    OneTurn(p, d, locked, inside.(pc := LoadPeers), clock, n - 1);
    MarkedOrAbsent(d.peers, t.revocation.value);
    if MarkRevoked(d.peers, t.revocation.value).Ok? {
      OneTurn(p, d, locked, inside.(peers := Some(d.peers), pc := SavePeers), clock, n - 2);
      var d' := d.(peers := MarkRevoked(d.peers, t.revocation.value).value);
      LeaveAlone(p, d', locks, inside.(pc := ReleasePeers), clock, n - 3);
    } else {
      LeaveAlone(p, d, locks, inside.(pc := ReleasePeers), clock, n - 2);
    }
  }

  lemma MarkedOrAbsent(peers: Peers, r: RevocationRecord)
    requires ValidRevocation(r)
    ensures MarkRevoked(peers, r).Ok? || MarkRevoked(peers, r) == Err(PeerNotFound)
  {
    hide ValidRevocation, FindPeer;
  }

  lemma LeaveAlone(p: Primitives, d: Disk, locks: set<LockName>, t: Thread, clock: Clock, n: nat)
    requires t.op.RevokeNode? && t.failure.None? && t.revocation.Some? && t.pc.ReleasePeers? && t.held == {PeersLock}
    requires n > 0 && PeersLock !in locks
    ensures var (d', locks', t') := Alone(p, d, locks + {PeersLock}, t, clock, n);
            t'.Succeeded() && locks' == locks && d' == d
  {
    hide Alone;
    assert locks + {PeersLock} - {PeersLock} == locks;
    OneTurn(p, d, locks + {PeersLock}, t, clock, n);
    var r := Advance(p, d, locks + {PeersLock}, t, Smooth(clock(n)));
    EndedAlone(p, r.disk, r.locks, r.thread, clock, n - 1);
  }

  lemma RecordedAlone(p: Primitives, d: Disk, locks: set<LockName>, t: Thread, clock: Clock, n: nat)
    requires Recorded(d, locks + {RevocationsLock}, t) && RevocationsLock !in locks && n >= 5 && AllValidPeers(d.peers)
    ensures var (d', locks', t') := Alone(p, d, locks + {RevocationsLock}, t, clock, n);
            && t'.pc.Done? && t'.failure == (if PeersLock in locks then Some(LockHeld) else None)
            && (if t'.Succeeded() then locks' == locks && d' == d.(peers := MarkedPeers(d.peers, t.revocation.value))
                else d' == d)
  {
    hide Alone, AllValidPeers, ValidRevocation, MarkRevoked;
    var next := t.(held := {}, pc := LockPeers);
    assert locks + {RevocationsLock} - {RevocationsLock} == locks && t.held - {RevocationsLock} == {};
    OneTurn(p, d, locks + {RevocationsLock}, t, clock, n);
    if PeersLock in locks {
      OneTurn(p, d, locks, next, clock, n - 1);
      GivingUpAlone(p, d, locks, Fail(next, LockHeld, Done), clock, n - 2);
    } else {
      MarkAlone(p, d, locks, next, clock, n - 1);
    }
  }

  /** How a revocation that is left alone ends, given what its load of the revocation file comes to. */
  predicate RevocationSettles(d: Disk, locks: set<LockName>, wanted: Result<(Revocations, RevocationRecord), Error>,
                              end: (Disk, set<LockName>, Thread))
  {
    && end.2.pc.Done?
    && end.2.failure == (if RevocationsLock in locks then Some(LockHeld)
                         else if wanted.Err? then Some(wanted.error)
                         else if PeersLock in locks then Some(LockHeld) else None)
    && (if end.2.Succeeded()
        then end.1 == locks
             && end.0 == d.(revs := wanted.value.0, peers := MarkedPeers(d.peers, wanted.value.1))
        else if RevocationsLock !in locks && wanted.Ok? then end.0 == d.(revs := wanted.value.0)
        else end.0 == d)
  }

  lemma LoadedAlone(p: Primitives, d: Disk, locks: set<LockName>, q: RevokeRequest, clock: Clock)
    requires DiskOk(d) && RevocationsLock !in locks
    ensures RevocationSettles(d, locks, Revoke(d.revs, q, clock(7)),
                              Alone(p, d, locks + {RevocationsLock},
                                    NewThread(RevokeNode(q)).(held := {RevocationsLock}, pc := LoadRevs), clock, 7))
  {
    hide Alone, DiskOk, AllValidRevs, AllValidPeers, AllValidCodes, FindRevocation, ValidRevocation, MarkedPeers;
    SoundFilesLoad(d);
    var t, locked := NewThread(RevokeNode(q)).(held := {RevocationsLock}, pc := LoadRevs), locks + {RevocationsLock};
    var wanted := Revoke(d.revs, q, clock(7));
    OneTurn(p, d, locked, t, clock, 7);
    match wanted {
      case Err(e) => GivingUpAlone(p, d, locked, Fail(t, e, ReleaseRevs), clock, 6);
      case Ok((revs, record)) =>
        Stores.RevocationFound(d.revs, q, clock(7));
        if revs == d.revs {
          RecordedAlone(p, d, locks, t.(revocation := Some(record), pc := ReleaseRevs), clock, 6);
        } else {
          var saving := t.(revs := Some(d.revs), revocation := Some(record), now := clock(7), pc := SaveRevs);
          NewRecordAppended(d.revs, q, clock(7));
          OneTurn(p, d, locked, saving, clock, 6);
          RecordedAlone(p, d.(revs := revs), locks, saving.(revs := None, pc := ReleaseRevs), clock, 5);
        }
    }
  }

  lemma NewRecordAppended(revs: Revocations, q: RevokeRequest, now: Time)
    requires Revoke(revs, q, now).Ok? && Revoke(revs, q, now).value.0 != revs
    ensures Revoke(revs, q, now).value.0 == revs + [Revoke(revs, q, now).value.1]
  {
    hide FindRevocation, ValidRevocation;
  }

  lemma RevocationAloneIff(p: Primitives, d: Disk, locks: set<LockName>, q: RevokeRequest, clock: Clock)
    requires DiskOk(d)
    ensures RevocationSettles(d, locks, Revoke(d.revs, q, clock(7)),
                              Alone(p, d, locks, NewThread(RevokeNode(q)), clock, 9))
  {
    hide Alone, DiskOk, Revoke, MarkedPeers;
    var t := NewThread(RevokeNode(q));
    OneTurn(p, d, locks, t, clock, 9);
    OneTurn(p, d, locks, t.(pc := LockRevs), clock, 8);
    if RevocationsLock in locks {
      GivingUpAlone(p, d, locks, Fail(t, LockHeld, Done), clock, 7);
    } else {
      assert {} + {RevocationsLock} == {RevocationsLock};
      LoadedAlone(p, d, locks, q, clock);
    }
  }

  /**
   * A revocation that starts in any reachable state and is left alone succeeds exactly when both locks are
   * free and the request makes a valid record, or the node has one; then both files are as one
   * uninterrupted attempt leaves them and no lock is left behind. With only the peers lock in the way the
   * revocation is on file and the peer is not marked; otherwise nothing is written. So an earlier attempt
   * that stopped between its two writes is completed by any other exactly when it left no lock directory.
   */
  lemma UndisturbedRevocationIff(p: Primitives, s0: State, a: seq<Action>, id: nat, q: RevokeRequest, clock: Clock)
    requires Initial(s0) && id !in Run(p, s0, a).threads
    ensures var s := Run(p, s0, a);
            var end := Run(p, s0, a + ([Spawn(id, RevokeNode(q))] + SmoothTurns(id, clock, 9)));
            var wanted := Revoke(s.disk.revs, q, clock(7));
            && id in end.threads && end.threads[id].op == RevokeNode(q)
            && end.threads[id].pc.Done?
            && end.threads[id].failure == (if RevocationsLock in s.locks then Some(LockHeld)
                                           else if wanted.Err? then Some(InvalidRecord)
                                           else if PeersLock in s.locks then Some(LockHeld) else None)
            && (match FindRevocation(s.disk.revs, q.nodeId)
                case Some(i) => wanted == Ok((s.disk.revs, s.disk.revs[i]))
                case None =>
                  var record := RevocationRecord(q.nodeId, q.role, clock(7), q.revokedBy, q.reason);
                  && (wanted.Ok? <==>
                        && !Blank(q.nodeId) && (q.role == Master || q.role == Worker) && clock(7) != 0
                        && !Blank(q.revokedBy))
                  && (wanted.Ok? ==> wanted == Ok((s.disk.revs + [record], record))))
            && (if end.threads[id].Succeeded()
                then && Stores.RevokeBoth(s.disk.peers, s.disk.revs, q, clock(7)) == Ok((end.disk.peers, end.disk.revs))
                     && end.disk.revs == wanted.value.0
                     && end.disk.codes == s.disk.codes && end.locks == s.locks
                else if RevocationsLock !in s.locks && wanted.Ok? then end.disk == s.disk.(revs := wanted.value.0)
                else end.disk == s.disk)
  {
    hide Run, Alone, Inv, Step, Revoke, MarkRevoked, FindRevocation;
    var s, op := Run(p, s0, a), RevokeNode(q);
    InitialInv(p, s0);
    RunOk(p, s0.disk, s0, a);
    FilesOfInv(p, s0.disk, s);
    var actions := [Spawn(id, op)] + SmoothTurns(id, clock, 9);
    RunConcat(p, s0, a, actions);
    RunSpawned(p, s, id, op, clock, 9);
    RevocationAloneIff(p, s.disk, s.locks, q, clock);
    SpawnedOp(p, s0, a, id, op, SmoothTurns(id, clock, 9));
    var end := Run(p, s0, a + actions);
    assert end.threads[id] == Alone(p, s.disk, s.locks, NewThread(op), clock, 9).2;
    WantedIsBoth(s.disk, q, clock(7));
    WantedIs(s.disk.revs, q, clock(7));
  }

  lemma WantedIs(revs: Revocations, q: RevokeRequest, now: Time)
    ensures var wanted := Revoke(revs, q, now);
            && (wanted.Err? ==> wanted == Err(InvalidRecord))
            && match FindRevocation(revs, q.nodeId)
               case Some(i) => wanted == Ok((revs, revs[i]))
               case None =>
                 var record := RevocationRecord(q.nodeId, q.role, now, q.revokedBy, q.reason);
                 && (wanted.Ok? <==>
                       !Blank(q.nodeId) && (q.role == Master || q.role == Worker) && now != 0 && !Blank(q.revokedBy))
                 && (wanted.Ok? ==> wanted == Ok((revs + [record], record)))
  {
    hide FindRevocation, Blank, Revoke;
    var record := RevocationRecord(q.nodeId, q.role, now, q.revokedBy, q.reason);
    match FindRevocation(revs, q.nodeId) {
      case Some(i) => RevokeIff(revs, q, now, revs, revs[i]);
      case None => RevokeIff(revs, q, now, revs + [record], record);
    }
    if Revoke(revs, q, now).Ok? {
      RevokeIff(revs, q, now, Revoke(revs, q, now).value.0, Revoke(revs, q, now).value.1);
    } else {
      RevokeIff(revs, q, now, revs, record);
    }
  }

  lemma WantedIsBoth(d: Disk, q: RevokeRequest, now: Time)
    requires DiskOk(d)
    ensures IsRevokedIn(d.revs, q.nodeId) ==> Revoke(d.revs, q, now).Ok? && Revoke(d.revs, q, now).value.0 == d.revs
    ensures Revoke(d.revs, q, now).Ok? ==>
              var (revs, record) := Revoke(d.revs, q, now).value;
              Stores.RevokeBoth(d.peers, d.revs, q, now) == Ok((MarkedPeers(d.peers, record), revs))
  {
    hide FindRevocation, ValidRevocation, MarkRevoked, StatusesAgree, DistinctPeers, DistinctRevs;
    if Revoke(d.revs, q, now).Ok? {
      Stores.RevocationFound(d.revs, q, now);
      MarkedOrAbsent(d.peers, Revoke(d.revs, q, now).value.1);
    }
  }
}
