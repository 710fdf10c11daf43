/**
 * The stores as the programs call them: one root directory whose files the methods load, scan, change
 * and save under that file's lock. Each method is proved to perform the atomic operation the
 * concurrent protocol commits, or to fail in one of the ways a failing write allows.
 */
module Stores {
  import opened Wrappers
  import opened Text
  import opened Identity
  import opened Base32
  import opened Records
  import opened StoreOps
  import opened Messages
  import opened Protocol
  import opened ProtocolUndisturbed

  /** Errors of the environment, which say nothing about the contents of the files. */
  predicate Environmental(e: Error) {
    e == IoError || e == LockHeld
  }

  /** The lock directories after an operation that uses only `name`. */
  predicate LocksAfter(before: set<LockName>, after: set<LockName>, name: LockName) {
    after == before || after == before + {name}
  }

  /**
   * How an operation on one file may end: done, refused for the operation's own reason with the file
   * unchanged, or failed in the environment with the file either way.
   */
  predicate Settled<F(==), A>(before: F, after: F, wanted: Result<F, Error>, answer: Result<A, Error>) {
    match answer
    case Ok(_) => wanted == Ok(after)
    case Err(e) =>
      || (Environmental(e) && (after == before || wanted == Ok(after)))
      || (wanted == Err(e) && after == before)
  }

  /** Why the accepted record of a scan is not consumed when no call fails; the callback comes first. */
  function AdmitRefusal(p: Primitives, codes: Codes, peers: Peers, locks: set<LockName>, i: nat, consumer: NodeId,
                        admit: Option<PublicPeer>, admittedAt: Time, at: Time): Option<Error>
    requires i < |codes|
  {
    var consumed := match ConsumeAt(codes, i, consumer, at) case Ok(_) => None case Err(e) => Some(e);
    match admit
    case None => consumed
    case Some(x) =>
      match EnsurePeer(p, peers, x, admittedAt)
      case Err(e) => Some(e)
      case Ok(_) => if FindPeer(peers, x.nodeId).None? && PeersLock in locks then Some(LockHeld) else consumed
  }

  /** Why a consumption is refused when no call fails. */
  function ConsumeRefusal(p: Primitives, codes: Codes, peers: Peers, locks: set<LockName>, q: ConsumeRequest,
                          admit: Option<PublicPeer>, admittedAt: Time, at: Time): Option<Error>
  {
    if CheckConsumeRequest(q).Some? then CheckConsumeRequest(q)
    else if CodesLock in locks then Some(LockHeld)
    else match Scan(p, codes, q, 0)
      case Err(e) => Some(e)
      case Ok(i) => AdmitRefusal(p, codes, peers, locks + {CodesLock}, i, q.consumedBy, admit, admittedAt, at)
  }

  /** The refusals of the handler are its own checks, and then those of the consumption. */
  lemma RefusalSplits(p: Primitives, d: Disk, locks: set<LockName>, master: PublicPeer, request: PairRequest,
                      admittedAt: Time, at: Time)
    requires AllValidCodes(d.codes) && AllValidPeers(d.peers)
    requires CheckAdmission(p, master, request).None? && !IsRevokedIn(d.revs, request.peer.nodeId)
    ensures var refusal := Refusal(p, d, locks, master, request, admittedAt, at);
            match StoreOps.GetPeer(d.peers, request.peer.nodeId)
            case Ok(known) => SamePeer(known, request.peer) || refusal == Some(PeerExists)
            case Err(e) => e == PeerNotFound
    ensures NoOtherPeer(d.peers, request.peer) ==>
              Refusal(p, d, locks, master, request, admittedAt, at)
              == ConsumeRefusal(p, d.codes, d.peers, locks, ConsumeRequestOf(master, request), Some(request.peer),
                                admittedAt, at)
    ensures NoOtherPeer(d.peers, request.peer) <==>
              match StoreOps.GetPeer(d.peers, request.peer.nodeId)
              case Ok(known) => SamePeer(known, request.peer)
              case Err(e) => true
  {
    hide CheckAdmission, CheckConsumeRequest, CheckPublicPeer, Scan, SamePeer, IsRevokedIn, FindPeer, Judge,
      ValidPeerRecord, Blank, AllValidPeers;
    var q, x := ConsumeRequestOf(master, request), request.peer;
    AdmissionChecksConsume(p, master, request);
    NewPeerIsValid(p, x, admittedAt);
    NamedPeer(p, x);
    if Scan(p, d.codes, q, 0).Ok? {
      ConsumedIsValid(p, d.codes, q, at);
    }
  }

  lemma RefusedFirst(p: Primitives, d: Disk, locks: set<LockName>, master: PublicPeer, request: PairRequest,
                     admittedAt: Time, at: Time)
    ensures var refusal := Refusal(p, d, locks, master, request, admittedAt, at);
            if CheckAdmission(p, master, request).Some? then refusal == CheckAdmission(p, master, request)
            else !Blank(request.peer.nodeId)
                 && (IsRevokedIn(d.revs, request.peer.nodeId) ==> refusal == Some(RevokedPeer))
  {
    hide CheckAdmission, Scan, NoOtherPeer, FindPeer;
    if CheckAdmission(p, master, request).None? {
      AdmissionChecksConsume(p, master, request);
      NamedPeer(p, request.peer);
    }
  }

  lemma NamedPeer(p: Primitives, x: PublicPeer)
    requires CheckPublicPeer(p, x).None?
    ensures !Blank(x.nodeId)
  {
  }

  /** The accepted record can be saved as consumed exactly when there is a time to write on it. */
  lemma ConsumedIsValid(p: Primitives, codes: Codes, q: ConsumeRequest, at: Time)
    requires AllValidCodes(codes) && CheckConsumeRequest(q).None? && Scan(p, codes, q, 0).Ok?
    ensures ConsumeAt(codes, Scan(p, codes, q, 0).value, q.consumedBy, at).Ok? <==> at != 0
    ensures at == 0 ==> ConsumeAt(codes, Scan(p, codes, q, 0).value, q.consumedBy, at) == Err(InvalidRecord)
  {
    hide Judge, Blank;
    ScanIsFirstDecision(p, codes, q, 0);
  }

  /** What an operation answers when no call fails and its lock is free or not needed: exactly what it should. */
  predicate Exact<F(==), A(==)>(before: F, after: F, wanted: Result<F, Error>, answer: Result<A, Error>) {
    match wanted
    case Ok(contents) => answer.Ok? && after == contents
    case Err(e) => answer == Err(e) && after == before
  }

  /** One root directory; `faults` counts the calls that the environment has failed. */
  class Root {
    var codes: Codes
    var peers: Peers
    var revs: Revocations
    var locks: set<LockName>
    ghost var faults: nat

    constructor ()
      ensures codes == [] && peers == [] && revs == [] && locks == {}
    {
      codes, peers, revs, locks := [], [], [], {};
      faults := 0;
    }

    /** A call the environment may fail. */
    method Works() returns (ok: bool)
      modifies this`faults
      ensures faults == old(faults) + if ok then 0 else 1
    {
      ok := *;
      faults := faults + if ok then 0 else 1;
    }

    method Lock(name: LockName) returns (r: Result<(), Error>)
      modifies this`locks, this`faults
      ensures faults >= old(faults)
      ensures faults == old(faults) ==> if name in old(locks) then r == Err(LockHeld) else r.Ok?
      ensures r.Ok? ==> name !in old(locks) && locks == old(locks) + {name}
      ensures r.Err? ==> Environmental(r.error) && locks == old(locks)
    {
      var ok := Works();
      if !ok {
        return Err(IoError);
      }
      if name in locks {
        return Err(LockHeld);
      }
      locks := locks + {name};
      r := Ok(());
    }

    /** The deferred release, whose error nobody looks at. */
    method Unlock(name: LockName)
      modifies this`locks, this`faults
      ensures faults >= old(faults)
      ensures faults == old(faults) ==> locks == old(locks) - {name}
      ensures locks == old(locks) || locks == old(locks) - {name}
    {
      var ok := Works();
      if ok {
        locks := locks - {name};
      }
    }

    /** Saving: on success the new contents are there, on failure they may be. */
    method SaveCodes(state: Codes) returns (r: Result<(), Error>)
      modifies this`codes, this`faults
      ensures faults >= old(faults)
      ensures r.Ok? <==> faults == old(faults)
      ensures r.Ok? ==> codes == state
      ensures r.Err? ==> r.error == IoError && (codes == old(codes) || codes == state)
    {
      var committed := Works();
      if committed {
        codes := state;
      }
      var ok := Works();
      r := if committed && ok then Ok(()) else Err(IoError);
    }

    method SavePeers(state: Peers) returns (r: Result<(), Error>)
      modifies this`peers, this`faults
      ensures faults >= old(faults)
      ensures r.Ok? <==> faults == old(faults)
      ensures r.Ok? ==> peers == state
      ensures r.Err? ==> r.error == IoError && (peers == old(peers) || peers == state)
    {
      var committed := Works();
      if committed {
        peers := state;
      }
      var ok := Works();
      r := if committed && ok then Ok(()) else Err(IoError);
    }

    method SaveRevs(state: Revocations) returns (r: Result<(), Error>)
      modifies this`revs, this`faults
      ensures faults >= old(faults)
      ensures r.Ok? <==> faults == old(faults)
      ensures r.Ok? ==> revs == state
      ensures r.Err? ==> r.error == IoError && (revs == old(revs) || revs == state)
    {
      var committed := Works();
      if committed {
        revs := state;
      }
      var ok := Works();
      r := if committed && ok then Ok(()) else Err(IoError);
    }

    // ---------- join codes ----------

    /** Loading validates every record. */
    method LoadCodes() returns (r: Result<Codes, Error>)
      modifies this`faults
      ensures faults >= old(faults)
      ensures faults == old(faults) && AllValidCodes(codes) ==> r.Ok?
      ensures r.Ok? ==> r.value == codes && AllValidCodes(codes)
      ensures r.Err? ==> r.error == IoError
    {
      var ok := Works();
      if !ok {
        return Err(IoError);
      }
      var i := 0;
      while i < |codes|
        invariant 0 <= i <= |codes|
        invariant faults == old(faults)
        invariant forall j :: 0 <= j < i ==> ValidJoinRecord(codes[j])
      {
        if !ValidJoinRecord(codes[i]) {
          return Err(IoError);
        }
        i := i + 1;
      }
      r := Ok(codes);
    }

    method CreateCode(p: Primitives, request: CreateRequest, secret: seq<Byte>, salt: seq<Byte>, now: Time)
      returns (r: Result<(string, JoinRecord), Error>)
      modifies this`codes, this`locks, this`faults
      ensures faults >= old(faults)
      ensures faults == old(faults) && AllValidCodes(old(codes)) ==>
                && locks == old(locks)
                && (if CodesLock in old(locks) then r == Err(LockHeld) && codes == old(codes)
                    else match NewJoinRecord(p, request, now, secret, salt)
                      case Ok(made) => r == Ok(made) && codes == old(codes) + [made.1]
                      case Err(e) => r == Err(e) && codes == old(codes))
      ensures var made := NewJoinRecord(p, request, now, secret, salt);
              Settled(old(codes), codes,
                      (match made case Ok((_, record)) => Ok(old(codes) + [record]) case Err(e) => Err(e)), r)
              && (r.Ok? ==> r == made)
      ensures LocksAfter(old(locks), locks, CodesLock)
    {
      var lock := Lock(CodesLock);
      if lock.Err? {
        return Err(lock.error);
      }
      var state := LoadCodes();
      if state.Err? {
        Unlock(CodesLock);
        return Err(state.error);
      }
      var made := NewJoinRecord(p, request, now, secret, salt);
      if made.Err? {
        Unlock(CodesLock);
        return Err(made.error);
      }
      var saved := SaveCodes(state.value + [made.value.1]);
      Unlock(CodesLock);
      if saved.Err? {
        return Err(saved.error);
      }
      r := made;
    }

    /**
     * ValidateAndConsumeWith. The callback of the pairing handler, when there is one, is
     * addPeerIfMissing for `admit` at time `admittedAt`; `at` is the time of consumption. The peers
     * file changes first: a changed join-code file implies the peer is there.
     */
    method ValidateAndConsumeWith(p: Primitives, request: ConsumeRequest, admit: Option<PublicPeer>, admittedAt: Time,
                                  at: Time)
      returns (r: Result<JoinRecord, Error>)
      modifies this`codes, this`peers, this`locks, this`faults
      ensures faults >= old(faults)
      ensures faults == old(faults) && AllValidCodes(old(codes)) && AllValidPeers(old(peers)) ==>
                && locks == old(locks)
                && (match ConsumeRefusal(p, old(codes), old(peers), old(locks), request, admit, admittedAt, at)
                    case Some(e) => r == Err(e)
                    case None => r.Ok?)
      ensures r.Ok? ==> Consume(p, old(codes), request, at) == Ok(codes)
      ensures r.Ok? ==> exists i :: Scan(p, old(codes), request, 0) == Ok(i) && r.value == codes[i]
      ensures r.Err? ==> codes == old(codes) || Consume(p, old(codes), request, at) == Ok(codes)
      ensures admit.None? ==> peers == old(peers)
      ensures admit.Some? && (r.Ok? || codes != old(codes)) ==>
                EnsurePeer(p, old(peers), admit.value, admittedAt) == Ok(peers)
      ensures admit.Some? ==> peers == old(peers) || EnsurePeer(p, old(peers), admit.value, admittedAt) == Ok(peers)
      ensures CheckConsumeRequest(request).Some? ==> r == Err(CheckConsumeRequest(request).value)
      ensures CheckConsumeRequest(request).None? && Scan(p, old(codes), request, 0).Err? ==>
                r.Err? && (Environmental(r.error) || r.error == Scan(p, old(codes), request, 0).error)
                && codes == old(codes) && peers == old(peers)
      ensures || locks - {PeersLock} == old(locks) - {PeersLock}
              || locks - {PeersLock} == old(locks) - {PeersLock} + {CodesLock}
    {
      hide CheckConsumeRequest, Judge, EnsurePeer, ValidJoinRecord, AllValidCodes;
      var invalid := CheckConsumeRequest(request);
      if invalid.Some? {
        return Err(invalid.value);
      }
      var lock := Lock(CodesLock);
      if lock.Err? {
        return Err(lock.error);
      }
      var loaded := LoadCodes();
      if loaded.Err? {
        Unlock(CodesLock);
        return Err(loaded.error);
      }
      var records := loaded.value;
      var idx := 0;
      while idx < |records|
        invariant 0 <= idx <= |records|
        invariant records == old(codes) == codes && peers == old(peers)
        invariant locks == old(locks) + {CodesLock} && CodesLock !in old(locks)
        invariant faults >= old(faults)
        invariant Scan(p, records, request, 0) == Scan(p, records, request, idx)
      {
        var verdict := Judge(p, records[idx], request);
        if verdict.Reject? {
          Unlock(CodesLock);
          return Err(verdict.error);
        }
        if verdict.Accept? {
          r := AdmitAndConsume(p, request, records, idx, admit, admittedAt, at);
          Unlock(CodesLock);
          return;
        }
        idx := idx + 1;
      }
      Unlock(CodesLock);
      r := Err(InvalidCode);
    }

    /** The accepted branch of the scan: callback, mark, validate, save. */
    method AdmitAndConsume(p: Primitives, request: ConsumeRequest, records: Codes, idx: nat, admit: Option<PublicPeer>,
                           admittedAt: Time, at: Time)
      returns (r: Result<JoinRecord, Error>)
      requires records == codes && idx < |records|
      modifies this`codes, this`peers, this`locks, this`faults
      ensures faults >= old(faults)
      ensures faults == old(faults) && AllValidPeers(old(peers)) ==>
                && locks == old(locks)
                && (match AdmitRefusal(p, old(codes), old(peers), old(locks), idx, request.consumedBy, admit,
                                       admittedAt, at)
                    case Some(e) => r == Err(e)
                    case None => r.Ok?)
      ensures r.Ok? ==> ConsumeAt(old(codes), idx, request.consumedBy, at) == Ok(codes) && r.value == codes[idx]
      ensures r.Err? ==> codes == old(codes) || ConsumeAt(old(codes), idx, request.consumedBy, at) == Ok(codes)
      ensures admit.None? ==> peers == old(peers)
      ensures admit.Some? && (r.Ok? || codes != old(codes)) ==>
                EnsurePeer(p, old(peers), admit.value, admittedAt) == Ok(peers)
      ensures admit.Some? ==> peers == old(peers) || EnsurePeer(p, old(peers), admit.value, admittedAt) == Ok(peers)
      ensures LocksAfter(old(locks), locks, PeersLock)
    {
      if admit.Some? {
        var admitted := AddPeerIfMissing(p, admit.value, admittedAt);
        if admitted.Err? {
          return Err(admitted.error);
        }
      }
      var state := records[idx := MarkConsumed(records[idx], request.consumedBy, at)];
      if !ValidJoinRecord(state[idx]) {
        return Err(InvalidRecord);
      }
      var saved := SaveCodes(state);
      if saved.Err? {
        return Err(saved.error);
      }
      r := Ok(state[idx]);
    }

    // ---------- peers ----------

    method LoadPeers() returns (r: Result<Peers, Error>)
      modifies this`faults
      ensures faults >= old(faults)
      ensures faults == old(faults) && AllValidPeers(peers) ==> r.Ok?
      ensures r.Ok? ==> r.value == peers && AllValidPeers(peers)
      ensures r.Err? ==> r.error == IoError
    {
      var ok := Works();
      if !ok {
        return Err(IoError);
      }
      var i := 0;
      while i < |peers|
        invariant 0 <= i <= |peers|
        invariant forall j :: 0 <= j < i ==> ValidPeerRecord(peers[j])
      {
        if !ValidPeerRecord(peers[i]) {
          return Err(IoError);
        }
        i := i + 1;
      }
      r := Ok(peers);
    }

    /** Add: scan for the node id, append, save. */
    method AddPeer(record: PeerRecord) returns (r: Result<(), Error>)
      modifies this`peers, this`locks, this`faults
      ensures faults >= old(faults)
      ensures faults == old(faults) && AllValidPeers(old(peers)) ==>
                && locks == old(locks)
                && (if ValidPeerRecord(record) && PeersLock in old(locks) then r == Err(LockHeld) && peers == old(peers)
                    else Exact(old(peers), peers, StoreOps.AddPeer(old(peers), record), r))
      ensures Settled(old(peers), peers, StoreOps.AddPeer(old(peers), record), r)
      ensures LocksAfter(old(locks), locks, PeersLock)
    {
      hide ValidPeerRecord, AllValidPeers;
      if !ValidPeerRecord(record) {
        return Err(InvalidRecord);
      }
      var lock := Lock(PeersLock);
      if lock.Err? {
        return Err(lock.error);
      }
      var state := LoadPeers();
      if state.Err? {
        Unlock(PeersLock);
        return Err(state.error);
      }
      var i := 0;
      while i < |state.value|
        invariant 0 <= i <= |state.value|
        invariant forall j :: 0 <= j < i ==> state.value[j].nodeId != record.nodeId
      {
        if state.value[i].nodeId == record.nodeId {
          Unlock(PeersLock);
          return Err(PeerExists);
        }
        i := i + 1;
      }
      r := SavePeers(state.value + [record]);
      Unlock(PeersLock);
    }

    /** Get takes no lock; the first record with the id is the answer. */
    method GetPeer(id: NodeId) returns (r: Result<PeerRecord, Error>)
      modifies this`faults
      ensures faults >= old(faults)
      ensures r == StoreOps.GetPeer(peers, id) || r == Err(IoError)
      ensures faults == old(faults) && AllValidPeers(peers) ==> r == StoreOps.GetPeer(peers, id)
    {
      if Blank(id) {
        return Err(InvalidNodeId);
      }
      var state := LoadPeers();
      if state.Err? {
        return Err(state.error);
      }
      var i := 0;
      while i < |peers|
        invariant 0 <= i <= |peers|
        invariant forall j :: 0 <= j < i ==> peers[j].nodeId != id
      {
        if peers[i].nodeId == id {
          return Ok(peers[i]);
        }
        i := i + 1;
      }
      r := Err(PeerNotFound);
    }

    method ListActivePeers() returns (r: Result<Peers, Error>)
      modifies this`faults
      ensures faults >= old(faults)
      ensures r == Ok(ActivePeers(peers)) || r == Err(IoError)
      ensures faults == old(faults) && AllValidPeers(peers) ==> r == Ok(ActivePeers(peers))
    {
      hide AllValidPeers;
      var state := LoadPeers();
      if state.Err? {
        return Err(state.error);
      }
      var active: Peers := [];
      var i := 0;
      while i < |peers|
        invariant 0 <= i <= |peers|
        invariant active + ActivePeers(peers[i..]) == ActivePeers(peers)
      {
        ghost var rest := ActivePeers(peers[i + 1..]);
        assert peers[i..][1..] == peers[i + 1..];
        if peers[i].IsActive() {
          assert active + ([peers[i]] + rest) == (active + [peers[i]]) + rest;
          active := active + [peers[i]];
        }
        i := i + 1;
      }
      assert peers[i..] == [] && active + [] == active;
      r := Ok(active);
    }

    /** MarkRevoked: the first record with the node's id changes status and time, in its place. */
    method MarkRevoked(revocation: RevocationRecord) returns (r: Result<(), Error>)
      modifies this`peers, this`locks, this`faults
      ensures faults >= old(faults)
      ensures faults == old(faults) && AllValidPeers(old(peers)) ==>
                && locks == old(locks)
                && (if ValidRevocation(revocation) && PeersLock in old(locks)
                    then r == Err(LockHeld) && peers == old(peers)
                    else Exact(old(peers), peers, StoreOps.MarkRevoked(old(peers), revocation), r))
      ensures Settled(old(peers), peers, StoreOps.MarkRevoked(old(peers), revocation), r)
      ensures LocksAfter(old(locks), locks, PeersLock)
    {
      hide ValidRevocation, ValidPeerRecord, AllValidPeers;
      if !ValidRevocation(revocation) {
        return Err(InvalidRecord);
      }
      var lock := Lock(PeersLock);
      if lock.Err? {
        return Err(lock.error);
      }
      var loaded := LoadPeers();
      if loaded.Err? {
        Unlock(PeersLock);
        return Err(loaded.error);
      }
      var records := loaded.value;
      var i := 0;
      while i < |records|
        invariant 0 <= i <= |records|
        invariant records == old(peers) == peers
        invariant locks == old(locks) + {PeersLock}
        invariant forall j :: 0 <= j < i ==> records[j].nodeId != revocation.nodeId
      {
        if records[i].nodeId == revocation.nodeId {
          records := records[i := records[i].(status := Revoked, revokedAt := Some(revocation.revokedAt))];
          r := SavePeers(records);
          Unlock(PeersLock);
          return;
        }
        i := i + 1;
      }
      Unlock(PeersLock);
      r := Err(PeerNotFound);
    }

    /** addPeerIfMissing: look without the lock, then add under it. */
    method AddPeerIfMissing(p: Primitives, public: PublicPeer, now: Time) returns (r: Result<(), Error>)
      modifies this`peers, this`locks, this`faults
      ensures faults >= old(faults)
      ensures faults == old(faults) && AllValidPeers(old(peers)) ==>
                && locks == old(locks)
                && (if EnsurePeer(p, old(peers), public, now).Ok? && FindPeer(old(peers), public.nodeId).None?
                       && PeersLock in old(locks)
                    then r == Err(LockHeld) && peers == old(peers)
                    else Exact(old(peers), peers, EnsurePeer(p, old(peers), public, now), r))
      ensures Settled(old(peers), peers, EnsurePeer(p, old(peers), public, now), r)
      ensures LocksAfter(old(locks), locks, PeersLock)
    {
      var invalid := CheckPublicPeer(p, public);
      if invalid.Some? {
        return Err(invalid.value);
      }
      var existing := GetPeer(public.nodeId);
      if existing.Ok? {
        if SamePeer(existing.value, public) {
          return Ok(());
        }
        return Err(PeerExists);
      }
      if existing.error != PeerNotFound {
        return Err(existing.error);
      }
      r := AddPeer(NewPeer(public, now));
    }

    // ---------- revocations ----------

    method LoadRevs() returns (r: Result<Revocations, Error>)
      modifies this`faults
      ensures faults >= old(faults)
      ensures faults == old(faults) && AllValidRevs(revs) ==> r.Ok?
      ensures r.Ok? ==> r.value == revs && AllValidRevs(revs)
      ensures r.Err? ==> r.error == IoError
    {
      var ok := Works();
      if !ok {
        return Err(IoError);
      }
      var i := 0;
      while i < |revs|
        invariant 0 <= i <= |revs|
        invariant forall j :: 0 <= j < i ==> ValidRevocation(revs[j])
      {
        if !ValidRevocation(revs[i]) {
          return Err(IoError);
        }
        i := i + 1;
      }
      r := Ok(revs);
    }

    /** Revoke: a node that already has a record keeps it, and that record is the answer. */
    method Revoke(request: RevokeRequest, now: Time) returns (r: Result<RevocationRecord, Error>)
      modifies this`revs, this`locks, this`faults
      ensures faults >= old(faults)
      ensures faults == old(faults) && AllValidRevs(old(revs)) ==>
                && locks == old(locks)
                && (if RevocationsLock in old(locks) then r == Err(LockHeld) && revs == old(revs)
                    else match StoreOps.Revoke(old(revs), request, now)
                      case Ok((contents, record)) => r == Ok(record) && revs == contents
                      case Err(e) => r == Err(e) && revs == old(revs))
      ensures var wanted := StoreOps.Revoke(old(revs), request, now);
              Settled(old(revs), revs, (match wanted case Ok((contents, _)) => Ok(contents) case Err(e) => Err(e)), r)
              && (r.Ok? ==> wanted == Ok((revs, r.value)))
      ensures r.Ok? && FindRevocation(old(revs), request.nodeId).Some? ==> revs == old(revs)
      ensures r.Ok? && FindRevocation(old(revs), request.nodeId).None? ==>
                && r.value == RevocationRecord(request.nodeId, request.role, now, request.revokedBy, request.reason)
                && revs == old(revs) + [r.value]
      ensures LocksAfter(old(locks), locks, RevocationsLock)
    {
      hide ValidRevocation, AllValidRevs;
      var lock := Lock(RevocationsLock);
      if lock.Err? {
        return Err(lock.error);
      }
      var loaded := LoadRevs();
      if loaded.Err? {
        Unlock(RevocationsLock);
        return Err(loaded.error);
      }
      var i := 0;
      while i < |revs|
        invariant 0 <= i <= |revs|
        invariant revs == old(revs) && locks == old(locks) + {RevocationsLock}
        invariant forall j :: 0 <= j < i ==> revs[j].nodeId != request.nodeId
      {
        if revs[i].nodeId == request.nodeId {
          r := Ok(revs[i]);
          Unlock(RevocationsLock);
          return;
        }
        i := i + 1;
      }
      var made := NewRevocation(request, now);
      if made.Err? {
        Unlock(RevocationsLock);
        return Err(made.error);
      }
      var saved := SaveRevs(loaded.value + [made.value]);
      Unlock(RevocationsLock);
      if saved.Err? {
        return Err(saved.error);
      }
      r := made;
    }

    method IsRevoked(id: NodeId) returns (r: Result<bool, Error>)
      modifies this`faults
      ensures faults >= old(faults)
      ensures r.Ok? ==> r.value == IsRevokedIn(revs, id)
      ensures r.Err? ==> r.error == (if Blank(id) then InvalidNodeId else IoError)
      ensures faults == old(faults) && AllValidRevs(revs) && !Blank(id) ==> r.Ok?
    {
      if Blank(id) {
        return Err(InvalidNodeId);
      }
      var state := LoadRevs();
      if state.Err? {
        return Err(state.error);
      }
      var i := 0;
      while i < |revs|
        invariant 0 <= i <= |revs|
        invariant forall j :: 0 <= j < i ==> revs[j].nodeId != id
      {
        if revs[i].nodeId == id {
          return Ok(true);
        }
        i := i + 1;
      }
      r := Ok(false);
    }

    /**
     * RevokePeer on a master: the revocation first, then the peer's mark; a node that is no peer is no
     * error. Stopped anywhere it leaves the two files untouched, with the revocation only, or with both.
     */
    method RevokePeer(request: RevokeRequest, now: Time) returns (r: Result<RevocationRecord, Error>)
      modifies this`revs, this`peers, this`locks, this`faults
      ensures faults >= old(faults)
      ensures faults == old(faults) && AllValidRevs(old(revs)) && AllValidPeers(old(peers)) ==>
                && locks == old(locks)
                && (if RevocationsLock in old(locks)
                    then r == Err(LockHeld) && revs == old(revs) && peers == old(peers)
                    else match StoreOps.Revoke(old(revs), request, now)
                      case Err(e) => r == Err(e) && revs == old(revs) && peers == old(peers)
                      case Ok((contents, record)) =>
                        && revs == contents
                        && (if PeersLock in old(locks) then r == Err(LockHeld) && peers == old(peers)
                            else && r == Ok(record)
                                 && RevokeBoth(old(peers), old(revs), request, now) == Ok((peers, revs))))
      ensures r.Ok? ==> RevokeBoth(old(peers), old(revs), request, now) == Ok((peers, revs))
      ensures r.Ok? && FindRevocation(old(revs), request.nodeId).None? ==>
                && r.value == RevocationRecord(request.nodeId, request.role, now, request.revokedBy, request.reason)
                && revs == old(revs) + [r.value]
      ensures r.Err? ==>
                || (revs == old(revs) && peers == old(peers))
                || (StoreOps.Revoke(old(revs), request, now).Ok?
                    && revs == StoreOps.Revoke(old(revs), request, now).value.0 && peers == old(peers))
                || RevokeBoth(old(peers), old(revs), request, now) == Ok((peers, revs))
    {
      var revoked := Revoke(request, now);
      if revoked.Err? {
        return Err(revoked.error);
      }
      var marked := MarkRevoked(revoked.value);
      if marked.Err? && marked.error != PeerNotFound {
        return Err(marked.error);
      }
      r := revoked;
    }

    /** accept: what the pairing handler does with one request. */
    method Accept(p: Primitives, master: PublicPeer, request: PairRequest, admittedAt: Time, at: Time)
      returns (r: Result<PairResponse, Error>)
      modifies this`codes, this`peers, this`locks, this`faults
      ensures faults >= old(faults)
      ensures faults == old(faults) && AllValidCodes(old(codes)) && AllValidPeers(old(peers)) && AllValidRevs(revs) ==>
                && locks == old(locks)
                && (match Refusal(p, Disk(old(codes), old(peers), revs), old(locks), master, request, admittedAt, at)
                    case Some(e) => r == Err(e)
                    case None => r.Ok?)
      ensures r.Ok? ==>
                && r.value == PairResponse(1, "pair_response", true, master.networkId, master, request.peer.nodeId)
                && r.value == AcceptedResponse(master, request)
                && CheckAdmission(p, master, request).None? && WellMadeRequest(p, master, request)
                && !IsRevokedIn(revs, request.peer.nodeId)
                && Consume(p, old(codes), ConsumeRequestOf(master, request), at) == Ok(codes)
                && EnsurePeer(p, old(peers), request.peer, admittedAt) == Ok(peers)
      ensures r.Err? ==>
                codes == old(codes) || Consume(p, old(codes), ConsumeRequestOf(master, request), at) == Ok(codes)
      ensures peers == old(peers) || EnsurePeer(p, old(peers), request.peer, admittedAt) == Ok(peers)
      ensures codes != old(codes) ==> EnsurePeer(p, old(peers), request.peer, admittedAt) == Ok(peers)
      ensures CheckAdmission(p, master, request).Some? || IsRevokedIn(revs, request.peer.nodeId) ==>
                r.Err? && codes == old(codes) && peers == old(peers)
    {
      hide WellMadeRequest, CheckAdmission, Refusal, ConsumeRefusal, EnsurePeer, Consume, SamePeer, IsRevokedIn,
        NoOtherPeer, AllValidCodes, AllValidPeers, AllValidRevs, StoreOps.GetPeer;
      AdmissionIff(p, master, request);
      ghost var d := Disk(codes, peers, revs);
      RefusedFirst(p, d, locks, master, request, admittedAt, at);
      var refused := CheckAdmission(p, master, request);
      if refused.Some? {
        return Err(refused.value);
      }
      var revoked := IsRevoked(request.peer.nodeId);
      if revoked.Err? {
        return Err(revoked.error);
      }
      if revoked.value {
        return Err(RevokedPeer);
      }
      if AllValidCodes(codes) && AllValidPeers(peers) {
        RefusalSplits(p, d, locks, master, request, admittedAt, at);
      }
      var existing := GetPeer(request.peer.nodeId);
      if existing.Ok? {
        if !SamePeer(existing.value, request.peer) {
          return Err(PeerExists);
        }
      } else if existing.error != PeerNotFound {
        return Err(existing.error);
      }
      var consumed := ValidateAndConsumeWith(p, ConsumeRequestOf(master, request), Some(request.peer), admittedAt, at);
      if consumed.Err? {
        return Err(consumed.error);
      }
      r := Ok(AcceptedResponse(master, request));
    }
  }

  // ---------- revoking twice ----------

  /** The two files after an uninterrupted RevokePeer. */
  function RevokeBoth(peers: Peers, revs: Revocations, q: RevokeRequest, now: Time)
    : Result<(Peers, Revocations), Error>
  {
    var (contents, record) :- StoreOps.Revoke(revs, q, now);
    match StoreOps.MarkRevoked(peers, record)
    case Ok(marked) => Ok((marked, contents))
    case Err(PeerNotFound) => Ok((peers, contents))
    case Err(e) => Err(e)
  }

  /**
   * An attempt that stopped after its first write is completed by any later one for the node that gets
   * both locks, whatever its clock, role, revoker and reason: both files end as one uninterrupted attempt
   * leaves them, and repeating again changes nothing.
   */
  lemma RevocationRetryConverges(peers: Peers, revs: Revocations, first: RevokeRequest, now: Time,
                                 again: RevokeRequest, later: Time, third: RevokeRequest, evenLater: Time)
    requires AllValidRevs(revs)
    requires StoreOps.Revoke(revs, first, now).Ok?
    requires again.nodeId == first.nodeId && third.nodeId == first.nodeId
    ensures var halfway := StoreOps.Revoke(revs, first, now).value.0;
            var whole := RevokeBoth(peers, revs, first, now);
            && whole.Ok?
            && RevokeBoth(peers, halfway, again, later) == whole
            && RevokeBoth(whole.value.0, whole.value.1, third, evenLater) == whole
  {
    var (halfway, record) := StoreOps.Revoke(revs, first, now).value;
    RevocationFound(revs, first, now);
    assert StoreOps.Revoke(halfway, again, later) == Ok((halfway, record));
    assert StoreOps.Revoke(halfway, third, evenLater) == Ok((halfway, record));
    MarkingTwice(peers, record);
  }

  lemma MarkingTwice(peers: Peers, r: RevocationRecord)
    requires ValidRevocation(r)
    ensures StoreOps.MarkRevoked(peers, r).Ok? || StoreOps.MarkRevoked(peers, r) == Err(PeerNotFound)
    ensures StoreOps.MarkRevoked(peers, r).Ok? ==>
              StoreOps.MarkRevoked(StoreOps.MarkRevoked(peers, r).value, r) == StoreOps.MarkRevoked(peers, r)
  {
    if FindPeer(peers, r.nodeId).Some? {
      var i := FindPeer(peers, r.nodeId).value;
      var marked := StoreOps.MarkRevoked(peers, r).value;
      assert forall j :: 0 <= j < |peers| ==> marked[j].nodeId == peers[j].nodeId;
      assert marked[i].nodeId == r.nodeId;
      assert FindPeer(marked, r.nodeId) == Some(i);
      assert marked[i := marked[i].(status := Revoked, revokedAt := Some(r.revokedAt))] == marked;
    }
  }

  /** What Revoke answers is what any later Revoke for the node finds first. */
  lemma RevocationFound(revs: Revocations, q: RevokeRequest, now: Time)
    requires AllValidRevs(revs) && StoreOps.Revoke(revs, q, now).Ok?
    ensures var (contents, record) := StoreOps.Revoke(revs, q, now).value;
            && ValidRevocation(record) && record.nodeId == q.nodeId
            && FindRevocation(contents, q.nodeId).Some?
            && contents[FindRevocation(contents, q.nodeId).value] == record
  {
    if FindRevocation(revs, q.nodeId).None? {
      var (contents, record) := StoreOps.Revoke(revs, q, now).value;
      assert contents[|revs|] == record;
      assert forall j :: 0 <= j < |revs| ==> contents[j] == revs[j];
      assert FindRevocation(contents, q.nodeId).Some?;
    }
  }
}
