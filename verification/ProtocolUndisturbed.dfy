/** When a pairing that nobody interrupts succeeds, and what is left of one that is killed. */
module ProtocolUndisturbed {
  import opened Wrappers
  import opened Text
  import opened Base32
  import opened Identity
  import opened Records
  import opened StoreOps
  import opened Messages
  import opened Protocol
  import opened ProtocolInvariant
  import opened ProtocolRuns
  import opened ProtocolAlone
  import opened TlsIdentity

  // ---------- a pairing left to itself ----------

  lemma AdmissionChecksConsume(p: Primitives, master: PublicPeer, request: PairRequest)
    requires CheckAdmission(p, master, request).None?
    ensures CheckConsumeRequest(ConsumeRequestOf(master, request)).None?
    ensures CheckPublicPeer(p, request.peer).None?
  {
    hide Blank, DeriveNodeId;
  }

  /** The attempt is over, or only has the join-code lock to give back, and answers with an error. */
  predicate Failing(t: Thread) {
    t.failure.Some? && (t.pc.Done? || t.pc.ReleaseCodes?)
  }

  /** Left alone for `n` turns, the attempt answers with `e` and writes nothing. */
  predicate Refused(p: Primitives, d: Disk, locks: set<LockName>, t: Thread, clock: Clock, n: nat, e: Error) {
    var end := Alone(p, d, locks, t, clock, n);
    end.0 == d && end.2.pc.Done? && end.2.failure == Some(e)
  }

  lemma FailingAlone(p: Primitives, d: Disk, locks: set<LockName>, t: Thread, clock: Clock, n: nat)
    requires Failing(t) && t.op.Pair? && n > 0
    ensures Refused(p, d, locks, t, clock, n, t.failure.value)
  {
    hide Alone;
    if t.pc.Done? {
      EndedAlone(p, d, locks, t, clock, n);
    } else {
      OneTurn(p, d, locks, t, clock, n);
      var r := Advance(p, d, locks, t, Smooth(clock(n)));
      EndedAlone(p, r.disk, r.locks, r.thread, clock, n - 1);
    }
  }

  /** The attempt inside the join-code section with an acceptable record, nothing written yet. */
  predicate HasChosen(d: Disk, locks: set<LockName>, t: Thread) {
    && t.op.Pair? && t.failure.None? && t.codes == Some(d.codes) && t.index < |d.codes| && t.held == {CodesLock}
    && CodesLock in locks
  }

  lemma SaveCodesAlone(p: Primitives, d: Disk, locks: set<LockName>, t: Thread, clock: Clock, n: nat)
    requires HasChosen(d, locks, t) && t.pc.SaveCodes? && n >= 2
    requires DiskOk(d) && CheckConsumeRequest(ConsumeOf(t.op)).None?
    ensures var (d', locks', t') := Alone(p, d, locks, t, clock, n);
            && t'.pc.Done? && t'.failure == (if clock(n) == 0 then Some(InvalidRecord) else None)
            && locks' == locks - {CodesLock}
            && (clock(n) == 0 ==> d' == d)
            && (clock(n) != 0 ==>
                  && ConsumeAt(d.codes, t.index, ConsumeOf(t.op).consumedBy, clock(n)) == Ok(d'.codes)
                  && d' == d.(codes := d'.codes))
  {
    hide Alone, Blank, StatusesAgree, DistinctPeers, DistinctRevs, AllValidPeers, AllValidRevs;
    assert ValidJoinRecord(d.codes[t.index]);
    OneTurn(p, d, locks, t, clock, n);
    var r := Advance(p, d, locks, t, Smooth(clock(n)));
    OneTurn(p, r.disk, r.locks, r.thread, clock, n - 1);
    var r' := Advance(p, r.disk, r.locks, r.thread, Smooth(clock(n - 1)));
    EndedAlone(p, r'.disk, r'.locks, r'.thread, clock, n - 2);
  }

  /** Three turns take an attempt that found no peer to the point where its peer is on file. */
  lemma PeerWrittenAlone(p: Primitives, d: Disk, locks: set<LockName>, t: Thread, clock: Clock, n: nat)
    requires HasChosen(d, locks, t) && t.pc.LockPeers? && n >= 3 && PeersLock !in locks
    requires AllValidPeers(d.peers) && t.peers.None?
    requires AddPeer(d.peers, NewPeer(t.op.request.peer, t.now)).Ok?
    ensures Alone(p, d, locks, t, clock, n)
         == Alone(p, d.(peers := AddPeer(d.peers, NewPeer(t.op.request.peer, t.now)).value), locks + {PeersLock},
                  t.(held := {CodesLock, PeersLock}, added := true, pc := ReleasePeers), clock, n - 3)
  {
    hide Alone, AddPeer, AllValidPeers;
    var locks2 := locks + {PeersLock};
    var t2 := t.(held := {CodesLock, PeersLock});
    assert t.held + {PeersLock} == t2.held;
    OneTurn(p, d, locks, t, clock, n);
    OneTurn(p, d, locks2, t2.(pc := LoadPeers), clock, n - 1);
    OneTurn(p, d, locks2, t2.(peers := Some(d.peers), pc := SavePeers), clock, n - 2);
  }

  lemma LeavePeersAlone(p: Primitives, d: Disk, locks: set<LockName>, t: Thread, clock: Clock, n: nat)
    requires t.op.Pair? && t.failure.None? && Scanned(t) && t.pc.ReleasePeers? && t.held == {CodesLock, PeersLock}
    requires n > 0 && PeersLock !in locks
    ensures Alone(p, d, locks + {PeersLock}, t, clock, n)
         == Alone(p, d, locks, t.(held := {CodesLock}, pc := SaveCodes), clock, n - 1)
  {
    hide Alone;
    assert t.held - {PeersLock} == {CodesLock};
    assert locks + {PeersLock} - {PeersLock} == locks;
    OneTurn(p, d, locks + {PeersLock}, t, clock, n);
  }

  lemma PeersPartAlone(p: Primitives, d: Disk, locks: set<LockName>, t: Thread, clock: Clock, n: nat)
    requires HasChosen(d, locks, t) && t.pc.LockPeers? && n >= 4 && PeersLock !in locks
    requires AllValidPeers(d.peers) && t.peers.None?
    requires AddPeer(d.peers, NewPeer(t.op.request.peer, t.now)).Ok?
    ensures Alone(p, d, locks, t, clock, n)
         == Alone(p, d.(peers := AddPeer(d.peers, NewPeer(t.op.request.peer, t.now)).value), locks,
                  t.(added := true, pc := SaveCodes), clock, n - 4)
  {
    hide Alone, AddPeer, AllValidPeers;
    PeerWrittenAlone(p, d, locks, t, clock, n);
    LeavePeersAlone(p, d.(peers := AddPeer(d.peers, NewPeer(t.op.request.peer, t.now)).value), locks,
                    t.(held := {CodesLock, PeersLock}, added := true, pc := ReleasePeers), clock, n - 3);
  }

  /** The attempt once the scan has chosen. */
  function Chooser(op: Op, codes: Codes, index: nat): Thread {
    NewThread(op).(held := {CodesLock}, codes := Some(codes), index := index, pc := EnsureRead)
  }

  lemma ChecksAlone(p: Primitives, d: Disk, locks: set<LockName>, master: PublicPeer, request: PairRequest,
                    clock: Clock, n: nat)
    requires n >= 3 && AllValidRevs(d.revs)
    ensures var t := NewThread(Pair(master, request));
            if CheckAdmission(p, master, request).None? && !IsRevokedIn(d.revs, request.peer.nodeId)
            then Alone(p, d, locks, t, clock, n) == Alone(p, d, locks, t.(pc := CheckPeer), clock, n - 2)
            else Refused(p, d, locks, t, clock, n, CheckAdmission(p, master, request).GetOr(RevokedPeer))
  {
    hide Alone, CheckAdmission, IsRevokedIn, AllValidRevs;
    var t := NewThread(Pair(master, request));
    OneTurn(p, d, locks, t, clock, n);
    if CheckAdmission(p, master, request).Some? {
      FailingAlone(p, d, locks, Fail(t, CheckAdmission(p, master, request).value, Done), clock, n - 1);
    } else {
      OneTurn(p, d, locks, t.(pc := CheckRevoked), clock, n - 1);
      if IsRevokedIn(d.revs, request.peer.nodeId) {
        FailingAlone(p, d, locks, Fail(t.(pc := CheckRevoked), RevokedPeer, Done), clock, n - 2);
      }
    }
  }

  /** No peer with other data is in the way. */
  predicate NoOtherPeer(peers: Peers, x: PublicPeer) {
    match FindPeer(peers, x.nodeId) case Some(i) => SamePeer(peers[i], x) case None => true
  }

  lemma LookAlone(p: Primitives, d: Disk, locks: set<LockName>, t: Thread, clock: Clock, n: nat)
    requires t.op.Pair? && t.pc.CheckPeer? && t.failure.None? && n >= 2
    requires AllValidPeers(d.peers) && CheckConsumeRequest(ConsumeOf(t.op)).None?
    ensures if NoOtherPeer(d.peers, t.op.request.peer)
            then Alone(p, d, locks, t, clock, n) == Alone(p, d, locks, t.(pc := LockCodes), clock, n - 1)
            else Refused(p, d, locks, t, clock, n, PeerExists)
  {
    hide Alone, CheckConsumeRequest, AllValidPeers, FindPeer, SamePeer;
    OneTurn(p, d, locks, t, clock, n);
    if !NoOtherPeer(d.peers, t.op.request.peer) {
      FailingAlone(p, d, locks, Fail(t, PeerExists, Done), clock, n - 1);
    }
  }

  lemma ScanAlone(p: Primitives, d: Disk, locks: set<LockName>, op: Op, clock: Clock, n: nat)
    requires op.Pair? && n >= 3 && AllValidCodes(d.codes)
    ensures var t, scan := NewThread(op).(pc := LockCodes), Scan(p, d.codes, ConsumeOf(op), 0);
            if CodesLock !in locks && scan.Ok?
            then Alone(p, d, locks, t, clock, n)
                 == Alone(p, d, locks + {CodesLock}, Chooser(op, d.codes, scan.value), clock, n - 2)
            else Refused(p, d, locks, t, clock, n, if CodesLock in locks then LockHeld else scan.error)
  {
    hide Alone, AllValidCodes, Scan;
    var t, scan := NewThread(op).(pc := LockCodes), Scan(p, d.codes, ConsumeOf(op), 0);
    OneTurn(p, d, locks, t, clock, n);
    if CodesLock in locks {
      FailingAlone(p, d, locks, Fail(t, LockHeld, Done), clock, n - 1);
    } else {
      var inside := NewThread(op).(held := {CodesLock}, pc := LoadCodes);
      assert {} + {CodesLock} == inside.held;
      OneTurn(p, d, locks + {CodesLock}, inside, clock, n - 1);
      if scan.Err? {
        FailingAlone(p, d, locks + {CodesLock}, Fail(inside, scan.error, ReleaseCodes), clock, n - 2);
      }
    }
  }

  lemma NewPeerIsValid(p: Primitives, x: PublicPeer, now: Time)
    requires CheckPublicPeer(p, x).None?
    ensures ValidPeerRecord(NewPeer(x, now)) <==> now != 0
  {
    hide Blank;
  }

  lemma EnsureAlone(p: Primitives, d: Disk, locks: set<LockName>, t: Thread, clock: Clock, n: nat)
    requires HasChosen(d, locks, t) && t.pc.EnsureRead? && n >= 3
    requires AllValidPeers(d.peers) && CheckPublicPeer(p, t.op.request.peer).None?
    requires NoOtherPeer(d.peers, t.op.request.peer)
    ensures if FindPeer(d.peers, t.op.request.peer.nodeId).Some?
            then Alone(p, d, locks, t, clock, n) == Alone(p, d, locks, t.(pc := SaveCodes), clock, n - 1)
            else if clock(n) != 0 && PeersLock !in locks
            then Alone(p, d, locks, t, clock, n)
                 == Alone(p, d, locks, t.(now := clock(n), pc := LockPeers), clock, n - 1)
            else Refused(p, d, locks, t, clock, n, if clock(n) == 0 then InvalidRecord else LockHeld)
  {
    hide Alone, AllValidPeers, FindPeer, SamePeer, CheckPublicPeer, ValidPeerRecord;
    NewPeerIsValid(p, t.op.request.peer, clock(n));
    OneTurn(p, d, locks, t, clock, n);
    if FindPeer(d.peers, t.op.request.peer.nodeId).None? {
      if clock(n) == 0 {
        FailingAlone(p, d, locks, AfterEnsure(t, Some(InvalidRecord)), clock, n - 1);
      } else if PeersLock in locks {
        var next := t.(now := clock(n), pc := LockPeers);
        OneTurn(p, d, locks, next, clock, n - 1);
        FailingAlone(p, d, locks, Fail(next, LockHeld, ReleaseCodes).(codes := None), clock, n - 2);
      }
    }
  }

  lemma AddsNew(p: Primitives, d: Disk, x: PublicPeer, now: Time)
    requires DiskOk(d) && CheckPublicPeer(p, x).None? && FindPeer(d.peers, x.nodeId).None? && now != 0
    ensures AddPeer(d.peers, NewPeer(x, now)).Ok?
    ensures EnsurePeer(p, d.peers, x, now) == AddPeer(d.peers, NewPeer(x, now))
    ensures DiskOk(d.(peers := AddPeer(d.peers, NewPeer(x, now)).value))
  {
    hide CheckPublicPeer, FindPeer, ValidPeerRecord, DiskOk;
    NewPeerIsValid(p, x, now);
    AppendedPeer(d, x, now);
  }

  /** What is asked of a master's files and locks for a request to be granted. */
  predicate Grantable(p: Primitives, d: Disk, locks: set<LockName>, master: PublicPeer, request: PairRequest) {
    && WellMadeRequest(p, master, request)
    && (forall k :: 0 <= k < |d.revs| ==> d.revs[k].nodeId != request.peer.nodeId)
    && NoOtherPeer(d.peers, request.peer)
    && CodesLock !in locks && (PeersLock in locks ==> FindPeer(d.peers, request.peer.nodeId).Some?)
    && Scan(p, d.codes, ConsumeRequestOf(master, request), 0).Ok?
  }

  /** What is answered when it is not: the first of these that applies. */
  function Refusal(p: Primitives, d: Disk, locks: set<LockName>, master: PublicPeer, request: PairRequest,
                   addedAt: Time, consumedAt: Time): Option<Error>
  {
    var known := FindPeer(d.peers, request.peer.nodeId).Some?;
    if CheckAdmission(p, master, request).Some? then CheckAdmission(p, master, request)
    else if IsRevokedIn(d.revs, request.peer.nodeId) then Some(RevokedPeer)
    else if !NoOtherPeer(d.peers, request.peer) then Some(PeerExists)
    else if CodesLock in locks then Some(LockHeld)
    else if Scan(p, d.codes, ConsumeRequestOf(master, request), 0).Err?
    then Some(Scan(p, d.codes, ConsumeRequestOf(master, request), 0).error)
    else if !known && addedAt == 0 then Some(InvalidRecord)
    else if !known && PeersLock in locks then Some(LockHeld)
    else if consumedAt == 0 then Some(InvalidRecord)
    else None
  }

  lemma GrantableIff(p: Primitives, d: Disk, locks: set<LockName>, master: PublicPeer, request: PairRequest,
                     addedAt: Time, consumedAt: Time)
    ensures Refusal(p, d, locks, master, request, addedAt, consumedAt) == None
            <==>
            && Grantable(p, d, locks, master, request)
            && (FindPeer(d.peers, request.peer.nodeId).Some? || addedAt != 0) && consumedAt != 0
  {
    hide CheckAdmission, WellMadeRequest, NoOtherPeer, Scan, FindPeer, IsRevokedIn;
    AdmissionIff(p, master, request);
    NotRevokedIff(d.revs, request.peer.nodeId);
  }

  /** The files after a request has been granted: when the peer was made and when the code was consumed. */
  predicate Granted(p: Primitives, d: Disk, d': Disk, master: PublicPeer, request: PairRequest,
                    addedAt: Time, consumedAt: Time)
  {
    && Consume(p, d.codes, ConsumeRequestOf(master, request), consumedAt) == Ok(d'.codes)
    && EnsurePeer(p, d.peers, request.peer, addedAt) == Ok(d'.peers)
    && d'.revs == d.revs
  }

  /**
   * How an undisturbed attempt ends. Granted: both writes are done and every lock is returned. Otherwise
   * nothing is written, unless a new peer was and there was no time for the consumption.
   */
  predicate Settles(p: Primitives, d: Disk, locks: set<LockName>, master: PublicPeer, request: PairRequest,
                    end: (Disk, set<LockName>, Thread), refusal: Option<Error>, peerWritten: bool,
                    addedAt: Time, consumedAt: Time)
  {
    && end.2.pc.Done? && end.2.failure == refusal
    && (if refusal == None then Granted(p, d, end.0, master, request, addedAt, consumedAt) && end.1 == locks
        else if peerWritten
        then EnsurePeer(p, d.peers, request.peer, addedAt) == Ok(end.0.peers) && end.0 == d.(peers := end.0.peers)
        else end.0 == d)
  }

  /** The refusal by the last write. */
  function Untimely(consumedAt: Time): Option<Error> {
    if consumedAt == 0 then Some(InvalidRecord) else None
  }

  lemma SaveSettles(p: Primitives, d0: Disk, d: Disk, locks: set<LockName>, master: PublicPeer, request: PairRequest,
                    t: Thread, addedAt: Time, clock: Clock, n: nat)
    requires t.op == Pair(master, request)
    requires HasChosen(d, locks + {CodesLock}, t) && t.pc.SaveCodes? && n >= 2 && CodesLock !in locks
    requires DiskOk(d) && CheckConsumeRequest(ConsumeOf(t.op)).None?
    requires Scan(p, d.codes, ConsumeRequestOf(master, request), 0) == Ok(t.index)
    requires d == d0.(peers := d.peers) && EnsurePeer(p, d0.peers, request.peer, addedAt) == Ok(d.peers)
    requires FindPeer(d0.peers, request.peer.nodeId).Some? ==> d == d0
    ensures Settles(p, d0, locks, master, request, Alone(p, d, locks + {CodesLock}, t, clock, n),
                    Untimely(clock(n)), FindPeer(d0.peers, request.peer.nodeId).None?, addedAt, clock(n))
  {
    hide Alone, DiskOk, CheckConsumeRequest, Scan, EnsurePeer, ConsumeAt, FindPeer;
    assert locks + {CodesLock} - {CodesLock} == locks;
    SaveCodesAlone(p, d, locks + {CodesLock}, t, clock, n);
  }

  lemma KnownIsEnsured(p: Primitives, peers: Peers, x: PublicPeer, now: Time)
    requires CheckPublicPeer(p, x).None? && FindPeer(peers, x.nodeId).Some? && NoOtherPeer(peers, x)
    ensures EnsurePeer(p, peers, x, now) == Ok(peers)
  {
    hide CheckPublicPeer, FindPeer, SamePeer;
  }

  lemma KnownSettles(p: Primitives, d: Disk, locks: set<LockName>, master: PublicPeer, request: PairRequest,
                     t: Thread, addedAt: Time, clock: Clock, n: nat)
    requires t.op == Pair(master, request) && HasChosen(d, locks + {CodesLock}, t) && t.pc.EnsureRead?
    requires DiskOk(d) && n >= 7 && CodesLock !in locks
    requires CheckAdmission(p, master, request).None? && NoOtherPeer(d.peers, request.peer)
    requires FindPeer(d.peers, request.peer.nodeId).Some?
    requires Scan(p, d.codes, ConsumeRequestOf(master, request), 0) == Ok(t.index)
    ensures Settles(p, d, locks, master, request, Alone(p, d, locks + {CodesLock}, t, clock, n),
                    Untimely(clock(n - 1)), false, addedAt, clock(n - 1))
  {
    hide Alone, DiskOk, CheckConsumeRequest, Scan, NoOtherPeer, CheckPublicPeer, CheckAdmission, FindPeer, Settles,
      EnsurePeer, AllValidCodes, AllValidPeers, AllValidRevs;
    AdmissionChecksConsume(p, master, request);
    SoundFilesLoad(d);
    KnownIsEnsured(p, d.peers, request.peer, addedAt);
    EnsureAlone(p, d, locks + {CodesLock}, t, clock, n);
    SaveSettles(p, d, d, locks, master, request, t.(pc := SaveCodes), addedAt, clock, n - 1);
  }

  lemma NewPeerSettles(p: Primitives, d: Disk, locks: set<LockName>, master: PublicPeer, request: PairRequest,
                       t: Thread, clock: Clock, n: nat)
    requires t.op == Pair(master, request) && HasChosen(d, locks + {CodesLock}, t) && t.pc.LockPeers?
    requires t.peers.None? && DiskOk(d) && n >= 6 && CodesLock !in locks && PeersLock !in locks && t.now != 0
    requires CheckAdmission(p, master, request).None? && FindPeer(d.peers, request.peer.nodeId).None?
    requires Scan(p, d.codes, ConsumeRequestOf(master, request), 0) == Ok(t.index)
    ensures Settles(p, d, locks, master, request, Alone(p, d, locks + {CodesLock}, t, clock, n),
                    Untimely(clock(n - 4)), true, t.now, clock(n - 4))
  {
    hide Alone, DiskOk, CheckConsumeRequest, Scan, CheckPublicPeer, CheckAdmission, FindPeer, AddPeer, EnsurePeer,
      AllValidCodes, AllValidPeers, AllValidRevs, Settles;
    AdmissionChecksConsume(p, master, request);
    SoundFilesLoad(d);
    AddsNew(p, d, request.peer, t.now);
    PeersPartAlone(p, d, locks + {CodesLock}, t, clock, n);
    var d1 := d.(peers := AddPeer(d.peers, NewPeer(request.peer, t.now)).value);
    SaveSettles(p, d, d1, locks, master, request, t.(added := true, pc := SaveCodes), t.now, clock, n - 4);
  }

  lemma NewSettles(p: Primitives, d: Disk, locks: set<LockName>, master: PublicPeer, request: PairRequest,
                   t: Thread, clock: Clock, n: nat)
    requires t.op == Pair(master, request) && HasChosen(d, locks + {CodesLock}, t) && t.pc.EnsureRead?
    requires t.peers.None? && DiskOk(d) && n >= 7 && CodesLock !in locks
    requires CheckAdmission(p, master, request).None? && FindPeer(d.peers, request.peer.nodeId).None?
    requires Scan(p, d.codes, ConsumeRequestOf(master, request), 0) == Ok(t.index)
    ensures Settles(p, d, locks, master, request, Alone(p, d, locks + {CodesLock}, t, clock, n),
                    if clock(n) == 0 then Some(InvalidRecord)
                    else if PeersLock in locks then Some(LockHeld) else Untimely(clock(n - 5)),
                    clock(n) != 0 && PeersLock !in locks, clock(n), clock(n - 5))
  {
    hide Alone, DiskOk, CheckConsumeRequest, Scan, CheckPublicPeer, CheckAdmission, FindPeer, AddPeer, EnsurePeer,
      AllValidCodes, AllValidPeers, AllValidRevs, Granted;
    AdmissionChecksConsume(p, master, request);
    SoundFilesLoad(d);
    EnsureAlone(p, d, locks + {CodesLock}, t, clock, n);
    if clock(n) != 0 && PeersLock !in locks {
      NewPeerSettles(p, d, locks, master, request, t.(now := clock(n), pc := LockPeers), clock, n - 1);
    }
  }

  /** When the consumption is saved: a node on file takes four turns less. */
  function ConsumptionTime(d: Disk, request: PairRequest, clock: Clock): Time {
    if FindPeer(d.peers, request.peer.nodeId).Some? then clock(6) else clock(2)
  }

  lemma RefusedSettles(p: Primitives, d: Disk, locks: set<LockName>, t: Thread, clock: Clock, n: nat, e: Error,
                       master: PublicPeer, request: PairRequest, addedAt: Time, consumedAt: Time)
    requires Refused(p, d, locks, t, clock, n, e)
    ensures Settles(p, d, locks, master, request, Alone(p, d, locks, t, clock, n), Some(e), false, addedAt, consumedAt)
  {
    hide Alone;
  }

  /** The peer alone is written when only the time of the consumption is missing. */
  predicate WritesPeer(p: Primitives, d: Disk, locks: set<LockName>, master: PublicPeer, request: PairRequest,
                       addedAt: Time)
  {
    && Refusal(p, d, locks, master, request, addedAt, 1) == None
    && FindPeer(d.peers, request.peer.nodeId).None?
  }

  /** The end that is claimed, with the times at which a run of twelve turns reads the clock. */
  predicate AsSpecified(p: Primitives, d: Disk, locks: set<LockName>, master: PublicPeer, request: PairRequest,
                        clock: Clock, end: (Disk, set<LockName>, Thread))
  {
    var consumedAt := ConsumptionTime(d, request, clock);
    Settles(p, d, locks, master, request, end,
            Refusal(p, d, locks, master, request, clock(7), consumedAt),
            WritesPeer(p, d, locks, master, request, clock(7)), clock(7), consumedAt)
  }

  lemma SectionSettles(p: Primitives, d: Disk, locks: set<LockName>, master: PublicPeer, request: PairRequest,
                       clock: Clock)
    requires DiskOk(d) && CheckAdmission(p, master, request).None? && NoOtherPeer(d.peers, request.peer)
    requires !IsRevokedIn(d.revs, request.peer.nodeId)
    ensures var t := NewThread(Pair(master, request)).(pc := LockCodes);
            AsSpecified(p, d, locks, master, request, clock, Alone(p, d, locks, t, clock, 9))
  {
    hide Alone, FindPeer, CheckAdmission, CheckConsumeRequest, Scan, DiskOk, SamePeer, Settles, Refused, AllValidCodes,
      AllValidPeers, AllValidRevs, NoOtherPeer, IsRevokedIn;
    SoundFilesLoad(d);
    var op := Pair(master, request);
    ScanAlone(p, d, locks, op, clock, 9);
    var scan := Scan(p, d.codes, ConsumeRequestOf(master, request), 0);
    if CodesLock in locks || scan.Err? {
      RefusedSettles(p, d, locks, NewThread(op).(pc := LockCodes), clock, 9,
                     if CodesLock in locks then LockHeld else scan.error,
                     master, request, clock(7), ConsumptionTime(d, request, clock));
    } else if FindPeer(d.peers, request.peer.nodeId).Some? {
      KnownSettles(p, d, locks, master, request, Chooser(op, d.codes, scan.value), clock(7), clock, 7);
    } else {
      NewSettles(p, d, locks, master, request, Chooser(op, d.codes, scan.value), clock, 7);
    }
  }

  lemma LookSettles(p: Primitives, d: Disk, locks: set<LockName>, master: PublicPeer, request: PairRequest,
                    clock: Clock)
    requires DiskOk(d) && CheckAdmission(p, master, request).None? && !IsRevokedIn(d.revs, request.peer.nodeId)
    ensures var t := NewThread(Pair(master, request)).(pc := CheckPeer);
            AsSpecified(p, d, locks, master, request, clock, Alone(p, d, locks, t, clock, 10))
  {
    hide Alone, FindPeer, CheckAdmission, CheckConsumeRequest, Scan, IsRevokedIn, DiskOk, SamePeer, Settles, Refused,
      AllValidCodes, AllValidPeers, AllValidRevs, NoOtherPeer, ConsumptionTime;
    SoundFilesLoad(d);
    AdmissionChecksConsume(p, master, request);
    var t := NewThread(Pair(master, request)).(pc := CheckPeer);
    LookAlone(p, d, locks, t, clock, 10);
    if NoOtherPeer(d.peers, request.peer) {
      hide AsSpecified;
      SectionSettles(p, d, locks, master, request, clock);
    } else {
      RefusedSettles(p, d, locks, t, clock, 10, PeerExists, master, request,
                     clock(7), ConsumptionTime(d, request, clock));
    }
  }

  /** Twelve turns without interruption or failing calls. */
  lemma PairingAlone(p: Primitives, d: Disk, locks: set<LockName>, master: PublicPeer, request: PairRequest,
                     clock: Clock)
    requires DiskOk(d)
    ensures AsSpecified(p, d, locks, master, request, clock,
                        Alone(p, d, locks, NewThread(Pair(master, request)), clock, 12))
  {
    hide Alone, FindPeer, CheckAdmission, Scan, IsRevokedIn, DiskOk, Settles, Refused, AllValidRevs, NoOtherPeer,
      NewThread, ConsumptionTime;
    SoundFilesLoad(d);
    ChecksAlone(p, d, locks, master, request, clock, 12);
    if CheckAdmission(p, master, request).None? && !IsRevokedIn(d.revs, request.peer.nodeId) {
      hide AsSpecified;
      LookSettles(p, d, locks, master, request, clock);
    } else {
      RefusedSettles(p, d, locks, NewThread(Pair(master, request)), clock, 12,
                     CheckAdmission(p, master, request).GetOr(RevokedPeer), master, request,
                     clock(7), ConsumptionTime(d, request, clock));
    }
  }

  /**
   * A pairing that starts in any reachable state and is left alone succeeds exactly when the request is
   * well made, the node is not revoked, no other peer has its id, the locks it needs are free, the scan
   * accepts the code, and the clock is not at zero in the turn that makes a new peer (the sixth) and in the
   * one that saves the consumption (the seventh, or the eleventh after a new peer). Then both writes are
   * done and no lock is left behind. Otherwise the answer is the first refusal that applies and nothing is
   * written, except the peer when only the last of these conditions fails.
   */
  lemma UndisturbedPairingIff(p: Primitives, s0: State, a: seq<Action>, id: nat, master: PublicPeer,
                              request: PairRequest, clock: Clock)
    requires Initial(s0) && id !in Run(p, s0, a).threads
    ensures var s := Run(p, s0, a);
            var end := Run(p, s0, a + ([Spawn(id, Pair(master, request))] + SmoothTurns(id, clock, 12)));
            var known, consumedAt := FindPeer(s.disk.peers, request.peer.nodeId).Some?,
                                     ConsumptionTime(s.disk, request, clock);
            && id in end.threads && end.threads[id].op == Pair(master, request) && end.threads[id].pc.Done?
            && end.threads[id].failure == Refusal(p, s.disk, s.locks, master, request, clock(7), consumedAt)
            && (end.threads[id].Succeeded() <==>
                  Grantable(p, s.disk, s.locks, master, request) && (known || clock(7) != 0) && consumedAt != 0)
            && (if end.threads[id].Succeeded()
                then Granted(p, s.disk, end.disk, master, request, clock(7), consumedAt) && end.locks == s.locks
                else if Grantable(p, s.disk, s.locks, master, request) && !known && clock(7) != 0
                then && EnsurePeer(p, s.disk.peers, request.peer, clock(7)) == Ok(end.disk.peers)
                     && end.disk == s.disk.(peers := end.disk.peers)
                else end.disk == s.disk)
  {
    hide Run, Alone, Inv, Step, Grantable, Refusal, Granted, ConsumptionTime;
    var s, op := Run(p, s0, a), Pair(master, request);
    InitialInv(p, s0);
    RunOk(p, s0.disk, s0, a);
    FilesOfInv(p, s0.disk, s);
    var actions := [Spawn(id, op)] + SmoothTurns(id, clock, 12);
    RunConcat(p, s0, a, actions);
    RunSpawned(p, s, id, op, clock, 12);
    PairingAlone(p, s.disk, s.locks, master, request, clock);
    var end := Run(p, s0, a + actions);
    assert end.threads[id] == Alone(p, s.disk, s.locks, NewThread(op), clock, 12).2;
    SpawnedOp(p, s0, a, id, op, SmoothTurns(id, clock, 12));
    GrantableIff(p, s.disk, s.locks, master, request, clock(7), ConsumptionTime(s.disk, request, clock));
    GrantableIff(p, s.disk, s.locks, master, request, clock(7), 1);
  }

  // ---------- a peer without a used code, on concrete files ----------

  lemma ChosenToPeerWrite(p: Primitives, d: Disk, locks: set<LockName>, t: Thread, clock: Clock)
    requires HasChosen(d, locks, t) && t.pc.EnsureRead? && t.peers.None? && t.consumed.None?
    requires DiskOk(d) && CheckPublicPeer(p, t.op.request.peer).None? && clock(4) != 0 && PeersLock !in locks
    requires FindPeer(d.peers, t.op.request.peer.nodeId).None?
    ensures AddPeer(d.peers, NewPeer(t.op.request.peer, clock(4))).Ok?
    ensures var (d', locks', t') := Alone(p, d, locks, t, clock, 4);
            && d' == d.(peers := AddPeer(d.peers, NewPeer(t.op.request.peer, clock(4))).value)
            && t'.pc.ReleasePeers? && t'.added && t'.consumed.None?
  {
    hide Alone, FindPeer, DiskOk, SamePeer, AddPeer, AllValidCodes, AllValidPeers, AllValidRevs, CheckPublicPeer;
    SoundFilesLoad(d);
    AddsNew(p, d, t.op.request.peer, clock(4));
    EnsureAlone(p, d, locks, t, clock, 4);
    var next := t.(now := clock(4), pc := LockPeers);
    PeerWrittenAlone(p, d, locks, next, clock, 3);
    NoTurns(p, d.(peers := AddPeer(d.peers, NewPeer(t.op.request.peer, clock(4))).value), locks + {PeersLock},
            next.(held := {CodesLock, PeersLock}, added := true, pc := ReleasePeers), clock);
  }

  lemma GrantableParts(p: Primitives, d: Disk, locks: set<LockName>, master: PublicPeer, request: PairRequest)
    requires Grantable(p, d, locks, master, request)
    ensures CheckAdmission(p, master, request).None? && !IsRevokedIn(d.revs, request.peer.nodeId)
    ensures NoOtherPeer(d.peers, request.peer) && CodesLock !in locks
    ensures PeersLock in locks ==> FindPeer(d.peers, request.peer.nodeId).Some?
    ensures Scan(p, d.codes, ConsumeRequestOf(master, request), 0).Ok?
  {
    hide CheckAdmission, WellMadeRequest, NoOtherPeer, Scan, FindPeer, IsRevokedIn;
    AdmissionIff(p, master, request);
    NotRevokedIff(d.revs, request.peer.nodeId);
  }

  lemma AloneToPeerWrite(p: Primitives, d: Disk, locks: set<LockName>, master: PublicPeer, request: PairRequest,
                         clock: Clock)
    requires DiskOk(d) && Grantable(p, d, locks, master, request) && clock(4) != 0
    requires FindPeer(d.peers, request.peer.nodeId).None?
    ensures AddPeer(d.peers, NewPeer(request.peer, clock(4))).Ok?
    ensures var (d', locks', t') := Alone(p, d, locks, NewThread(Pair(master, request)), clock, 9);
            && d' == d.(peers := AddPeer(d.peers, NewPeer(request.peer, clock(4))).value)
            && t'.pc.ReleasePeers? && t'.added && t'.consumed.None?
  {
    hide Alone, FindPeer, CheckAdmission, CheckConsumeRequest, Scan, IsRevokedIn, DiskOk, NoOtherPeer, Refused, AddPeer,
      AllValidCodes, AllValidPeers, AllValidRevs, CheckPublicPeer, Grantable;
    SoundFilesLoad(d);
    GrantableParts(p, d, locks, master, request);
    AdmissionChecksConsume(p, master, request);
    var op := Pair(master, request);
    ChecksAlone(p, d, locks, master, request, clock, 9);
    LookAlone(p, d, locks, NewThread(op).(pc := CheckPeer), clock, 7);
    ScanAlone(p, d, locks, op, clock, 6);
    var t := Chooser(op, d.codes, Scan(p, d.codes, ConsumeRequestOf(master, request), 0).value);
    ChosenToPeerWrite(p, d, locks + {CodesLock}, t, clock);
  }

  /** Killed after its ninth turn, a pairing that was about to succeed leaves an active peer and an unused code. */
  lemma KilledBetweenWrites(p: Primitives, s0: State, a: seq<Action>, id: nat, master: PublicPeer, request: PairRequest,
                            clock: Clock)
    requires Initial(s0) && id !in Run(p, s0, a).threads && clock(4) != 0
    requires Grantable(p, Run(p, s0, a).disk, Run(p, s0, a).locks, master, request)
    requires FindPeer(Run(p, s0, a).disk.peers, request.peer.nodeId).None?
    ensures var s := Run(p, s0, a);
            var end := Run(p, s0, a + ([Spawn(id, Pair(master, request))] + SmoothTurns(id, clock, 9)) + [Crash(id)]);
            && id in end.threads && !end.threads[id].Live() && end.threads[id].consumed.None?
            && end.disk == s.disk.(peers := s.disk.peers + [NewPeer(request.peer, clock(4))])
  {
    hide Run, Alone, Inv, Grantable, Advance, FindPeer, ValidPeerRecord;
    var s, op := Run(p, s0, a), Pair(master, request);
    InitialInv(p, s0);
    RunOk(p, s0.disk, s0, a);
    FilesOfInv(p, s0.disk, s);
    var actions := [Spawn(id, op)] + SmoothTurns(id, clock, 9);
    RunConcat(p, s0, a, actions);
    RunSpawned(p, s, id, op, clock, 9);
    AloneToPeerWrite(p, s.disk, s.locks, master, request, clock);
    RunSnoc(p, s0, a + actions, Crash(id));
  }

  const EXAMPLE_PRIMITIVES := Primitives(_ => [], (_, _) => [1], c => c)
  const EXAMPLE_CLOCK: Clock := _ => 2
  const EXAMPLE_KEYS := KeySet(Key(Ed25519, [1]), Key(X25519, [2]))
  const EXAMPLE_PEER := PublicPeer("node_", "net", Worker, EXAMPLE_KEYS)
  const EXAMPLE_MASTER := PublicPeer("m", "net", Master, EXAMPLE_KEYS)
  const EXAMPLE_REQUEST := PairRequest(MESSAGE_VERSION, PAIR_REQUEST, "AA", Worker, EXAMPLE_PEER, 1)
  const EXAMPLE_CODE :=
    JoinRecord("j", "net", Worker, "m", 1, VERIFIER_ALGORITHM, [1], [1], Unused, None, "")

  lemma NotBlank(s: string)
    requires s != [] && !IsSpace(s[0])
    ensures !Blank(s)
  {
    BlankMeansAllSpaces(s);
  }

  lemma ExampleCodeAccepted()
    ensures Scan(EXAMPLE_PRIMITIVES, [EXAMPLE_CODE], ConsumeRequestOf(EXAMPLE_MASTER, EXAMPLE_REQUEST), 0) == Ok(0)
  {
    var p, q := EXAMPLE_PRIMITIVES, ConsumeRequestOf(EXAMPLE_MASTER, EXAMPLE_REQUEST);
    assert VerifierForCode(p, "AA", [1]) == Ok([1]) by {
      hide DecodeStrict, Normalize;
      NotBlank("AA");
      CanonicalSpelling("AA");
      NormalizeSpelling(p.upper, "AA", "AA");
      assert DecodeStrict("AA").Ok? by {
        DecodingIsNotInjective();
      }
    }
    hide VerifierForCode;
    assert Judge(p, [EXAMPLE_CODE][0], q).Accept?;
    ScanAccepts(p, [EXAMPLE_CODE], q, 0, 0);
  }

  lemma ExampleNodeId()
    ensures DeriveNodeId(EXAMPLE_PRIMITIVES, EXAMPLE_KEYS) == Ok("node_")
  {
    hide Material, EncodeQuints;
    assert EncodeQuints([]) == [] by {
      EncodingIsTheBitString(0, []);
    }
    assert EncodeNoPadding([]) == "";
    assert ToLowerAscii("") == "";
    assert EXAMPLE_PRIMITIVES.sha256(Material(EXAMPLE_KEYS)) == [];
    assert NodeIdOfDigest([]) == "node_" + ToLowerAscii("") == "node_" + "" == "node_";
    assert ValidKeys(EXAMPLE_KEYS);
  }

  lemma ExampleGrantable()
    ensures DiskOk(Disk([EXAMPLE_CODE], [], []))
    ensures Grantable(EXAMPLE_PRIMITIVES, Disk([EXAMPLE_CODE], [], []), {}, EXAMPLE_MASTER, EXAMPLE_REQUEST)
  {
    hide Blank, Scan;
    NotBlank("AA");
    NotBlank("net");
    NotBlank("m");
    NotBlank("node_");
    ExampleNodeId();
    ExampleCodeAccepted();
    hide DeriveNodeId;
  }

  /** The same on concrete files: one unused code, no peers. */
  lemma OrphanedPeerExample()
    ensures var start := State(Disk([EXAMPLE_CODE], [], []), {}, map[], []);
            var actions :=
              [Spawn(0, Pair(EXAMPLE_MASTER, EXAMPLE_REQUEST))] + SmoothTurns(0, EXAMPLE_CLOCK, 9) + [Crash(0)];
            var end := Run(EXAMPLE_PRIMITIVES, start, actions);
            && end.disk == Disk([EXAMPLE_CODE], [NewPeer(EXAMPLE_PEER, 2)], [])
            && end.disk.peers[0].IsActive() && end.disk.codes[0].status.Unused?
  {
    hide Alone, Inv, Step, Grantable, Run;
    var start := State(Disk([EXAMPLE_CODE], [], []), {}, map[], []);
    var op := Pair(EXAMPLE_MASTER, EXAMPLE_REQUEST);
    ExampleGrantable();
    RunNothing(EXAMPLE_PRIMITIVES, start);
    KilledBetweenWrites(EXAMPLE_PRIMITIVES, start, [], 0, EXAMPLE_MASTER, EXAMPLE_REQUEST, EXAMPLE_CLOCK);
    var actions := [Spawn(0, op)] + SmoothTurns(0, EXAMPLE_CLOCK, 9);
    assert [] + actions == actions;
  }
}
