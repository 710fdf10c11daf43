/** When the other commands succeed that nobody interrupts: making and using codes, importing and trusting peers. */
module ProtocolCommands {
  import opened Wrappers
  import opened Text
  import opened Base32
  import opened Identity
  import opened Records
  import opened StoreOps
  import opened Protocol
  import opened ProtocolInvariant
  import opened ProtocolRuns
  import opened ProtocolAlone

  // ---------- the join-code file ----------

  /** The last turn of an attempt that has only its lock on the join codes to give back. */
  lemma LeaveCodesAlone(p: Primitives, d: Disk, locks: set<LockName>, t: Thread, clock: Clock, n: nat)
    requires t.pc.ReleaseCodes? && WellFormed(t) && n > 0 && CodesLock !in locks
    ensures var (d', locks', t') := Alone(p, d, locks + {CodesLock}, t, clock, n);
            d' == d && locks' == locks && t'.pc.Done? && t'.failure == t.failure
  {
    hide Alone;
    assert locks + {CodesLock} - {CodesLock} == locks;
    OneTurn(p, d, locks + {CodesLock}, t, clock, n);
    var r := Advance(p, d, locks + {CodesLock}, t, Smooth(clock(n)));
    EndedAlone(p, r.disk, r.locks, r.thread, clock, n - 1);
  }

  /** An attempt on the join codes that has taken its lock. */
  function InsideCodes(op: Op): Thread {
    NewThread(op).(held := {CodesLock}, pc := LoadCodes)
  }

  lemma LockCodesAlone(p: Primitives, d: Disk, locks: set<LockName>, op: Op, clock: Clock, n: nat)
    requires (op.CreateCode? || op.ConsumeCode?) && n > 0
    ensures var t := NewThread(op).(pc := LockCodes);
            if CodesLock in locks
            then Alone(p, d, locks, t, clock, n) == (d, locks, Fail(t, LockHeld, Done))
            else Alone(p, d, locks, t, clock, n) == Alone(p, d, locks + {CodesLock}, InsideCodes(op), clock, n - 1)
  {
    hide Alone;
    var t := NewThread(op).(pc := LockCodes);
    assert {} + {CodesLock} == InsideCodes(op).held;
    OneTurn(p, d, locks, t, clock, n);
    if CodesLock in locks {
      EndedAlone(p, d, locks, Fail(t, LockHeld, Done), clock, n - 1);
    }
  }

  lemma CreateInsideAlone(p: Primitives, d: Disk, locks: set<LockName>, op: Op, clock: Clock)
    requires op.CreateCode? && AllValidCodes(d.codes) && CodesLock !in locks
    ensures var (d', locks', t') := Alone(p, d, locks + {CodesLock}, InsideCodes(op), clock, 3);
            && locks' == locks && t'.pc.Done?
            && (match NewJoinRecord(p, op.create, clock(2), op.secret, op.salt)
                case Ok((code, record)) => t'.failure == None && d' == d.(codes := d.codes + [record])
                case Err(e) => t'.failure == Some(e) && d' == d)
  {
    hide Alone, AllValidCodes, NewJoinRecord;
    var t, locked := InsideCodes(op), locks + {CodesLock};
    OneTurn(p, d, locked, t, clock, 3);
    var t1 := t.(codes := Some(d.codes), pc := SaveCodes);
    OneTurn(p, d, locked, t1, clock, 2);
    var r := Advance(p, d, locked, t1, Smooth(clock(2)));
    LeaveCodesAlone(p, r.disk, locks, r.thread, clock, 1);
  }

  lemma CreateAlone(p: Primitives, d: Disk, locks: set<LockName>, op: Op, clock: Clock)
    requires op.CreateCode? && DiskOk(d)
    ensures var (d', locks', t') := Alone(p, d, locks, NewThread(op), clock, 5);
            && locks' == locks && t'.pc.Done?
            && (if CodesLock in locks then t'.failure == Some(LockHeld) && d' == d
                else match NewJoinRecord(p, op.create, clock(2), op.secret, op.salt)
                  case Ok((code, record)) => t'.failure == None && d' == d.(codes := d.codes + [record])
                  case Err(e) => t'.failure == Some(e) && d' == d)
  {
    hide Alone, DiskOk, NewJoinRecord, AllValidCodes;
    SoundFilesLoad(d);
    OneTurn(p, d, locks, NewThread(op), clock, 5);
    LockCodesAlone(p, d, locks, op, clock, 4);
    if CodesLock !in locks {
      CreateInsideAlone(p, d, locks, op, clock);
    }
  }

  /**
   * Making a code, left alone from any reachable state, succeeds exactly when the lock is free and the
   * request makes a valid record; then that record is the only change. Otherwise nothing is written, and
   * the answer is that the lock is held or what is wrong with the request.
   */
  lemma UndisturbedCreateIff(p: Primitives, s0: State, a: seq<Action>, id: nat, q: CreateRequest, secret: seq<Byte>,
                             salt: seq<Byte>, clock: Clock)
    requires Initial(s0) && id !in Run(p, s0, a).threads
    ensures var s := Run(p, s0, a);
            var end := Run(p, s0, a + ([Spawn(id, CreateCode(q, secret, salt))] + SmoothTurns(id, clock, 5)));
            var verifier := p.hmac(salt, secret);
            && id in end.threads && end.threads[id].pc.Done? && end.locks == s.locks
            && (end.threads[id].Succeeded() <==>
                  && CodesLock !in s.locks
                  && !Blank(q.networkId) && (q.expectedRole == Master || q.expectedRole == Worker) && !Blank(q.issuedBy)
                  && clock(2) != 0 && secret != [] && salt != [] && verifier != [])
            && (if end.threads[id].Succeeded()
                then end.disk == s.disk.(codes := s.disk.codes
                       + [JoinRecord(CodeIdForVerifier(p, verifier), q.networkId, q.expectedRole, q.issuedBy, clock(2),
                                     "hmac-sha256-v1", salt, verifier, Unused, None, "")])
                else end.disk == s.disk)
            && (CodesLock in s.locks ==> end.threads[id].failure == Some(LockHeld))
            && (CodesLock !in s.locks && NewJoinRecord(p, q, clock(2), secret, salt).Err? ==>
                  end.threads[id].failure == Some(NewJoinRecord(p, q, clock(2), secret, salt).error))
  {
    hide Run, Alone, Inv, Step, NewJoinRecord, Blank, CodeIdForVerifier;
    var s, op := Run(p, s0, a), CreateCode(q, secret, salt);
    InitialInv(p, s0);
    RunOk(p, s0.disk, s0, a);
    FilesOfInv(p, s0.disk, s);
    var actions := [Spawn(id, op)] + SmoothTurns(id, clock, 5);
    RunConcat(p, s0, a, actions);
    RunSpawned(p, s, id, op, clock, 5);
    CreateAlone(p, s.disk, s.locks, op, clock);
    var end := Run(p, s0, a + actions);
    assert end.threads[id] == Alone(p, s.disk, s.locks, NewThread(op), clock, 5).2;
    MakingIff(p, q, clock(2), secret, salt);
  }

  lemma MakingIff(p: Primitives, q: CreateRequest, at: Time, secret: seq<Byte>, salt: seq<Byte>)
    ensures var verifier := p.hmac(salt, secret);
            var record := JoinRecord(CodeIdForVerifier(p, verifier), q.networkId, q.expectedRole, q.issuedBy, at,
                                     "hmac-sha256-v1", salt, verifier, Unused, None, "");
            && (NewJoinRecord(p, q, at, secret, salt).Ok? <==>
                  && !Blank(q.networkId) && (q.expectedRole == Master || q.expectedRole == Worker) && !Blank(q.issuedBy)
                  && at != 0 && secret != [] && salt != [] && verifier != [])
            && (NewJoinRecord(p, q, at, secret, salt).Ok? ==> NewJoinRecord(p, q, at, secret, salt).value.1 == record)
  {
    hide NewJoinRecord, Blank, CodeIdForVerifier, EncodeNoPadding;
    var verifier := p.hmac(salt, secret);
    var record := JoinRecord(CodeIdForVerifier(p, verifier), q.networkId, q.expectedRole, q.issuedBy, at,
                             "hmac-sha256-v1", salt, verifier, Unused, None, "");
    NewJoinRecordIff(p, q, at, secret, salt, EncodeNoPadding(secret), record);
    if NewJoinRecord(p, q, at, secret, salt).Ok? {
      var (code, made) := NewJoinRecord(p, q, at, secret, salt).value;
      NewJoinRecordIff(p, q, at, secret, salt, code, made);
    }
  }

  lemma ConsumeIs(p: Primitives, codes: Codes, q: ConsumeRequest, at: Time)
    requires CheckConsumeRequest(q).None?
    ensures Consume(p, codes, q, at)
         == match Scan(p, codes, q, 0) case Err(e) => Err(e) case Ok(i) => ConsumeAt(codes, i, q.consumedBy, at)
  {
    hide Scan, ConsumeAt, CheckConsumeRequest;
  }

  lemma ConsumeInsideAlone(p: Primitives, d: Disk, locks: set<LockName>, op: Op, clock: Clock)
    requires op.ConsumeCode? && AllValidCodes(d.codes) && CodesLock !in locks && CheckConsumeRequest(op.consume).None?
    ensures var (d', locks', t') := Alone(p, d, locks + {CodesLock}, InsideCodes(op), clock, 3);
            && locks' == locks && t'.pc.Done?
            && (match Consume(p, d.codes, op.consume, clock(2))
                case Ok(codes) => t'.failure == None && d' == d.(codes := codes)
                case Err(e) => t'.failure == Some(e) && d' == d)
  {
    hide Alone, AllValidCodes, Scan, CheckConsumeRequest, Consume, ConsumeAt;
    var t, locked := InsideCodes(op), locks + {CodesLock};
    ConsumeIs(p, d.codes, op.consume, clock(2));
    OneTurn(p, d, locked, t, clock, 3);
    match Scan(p, d.codes, op.consume, 0) {
      case Err(e) => LeaveCodesAlone(p, d, locks, Fail(t, e, ReleaseCodes), clock, 2);
      case Ok(i) =>
        var t1 := t.(codes := Some(d.codes), index := i, pc := SaveCodes);
        OneTurn(p, d, locked, t1, clock, 2);
        var r := Advance(p, d, locked, t1, Smooth(clock(2)));
        LeaveCodesAlone(p, r.disk, locks, r.thread, clock, 1);
    }
  }

  lemma ConsumeAlone(p: Primitives, d: Disk, locks: set<LockName>, op: Op, clock: Clock)
    requires op.ConsumeCode? && DiskOk(d)
    ensures var (d', locks', t') := Alone(p, d, locks, NewThread(op), clock, 5);
            && locks' == locks && t'.pc.Done?
            && (if CheckConsumeRequest(op.consume).Some? then t'.failure == CheckConsumeRequest(op.consume) && d' == d
                else if CodesLock in locks then t'.failure == Some(LockHeld) && d' == d
                else match Consume(p, d.codes, op.consume, clock(2))
                  case Ok(codes) => t'.failure == None && d' == d.(codes := codes)
                  case Err(e) => t'.failure == Some(e) && d' == d)
  {
    hide Alone, DiskOk, Consume, AllValidCodes, CheckConsumeRequest;
    SoundFilesLoad(d);
    var t := NewThread(op);
    OneTurn(p, d, locks, t, clock, 5);
    match CheckConsumeRequest(op.consume) {
      case Some(e) => EndedAlone(p, d, locks, Fail(t, e, Done), clock, 4);
      case None =>
        LockCodesAlone(p, d, locks, op, clock, 4);
        if CodesLock !in locks {
          ConsumeInsideAlone(p, d, locks, op, clock);
        }
    }
  }

  /**
   * Using a code from the command line, left alone from any reachable state, succeeds exactly when the
   * request is complete, the lock is free, the scan accepts and there is a time; then that record is
   * consumed and nothing else changes.
   */
  lemma UndisturbedConsumeIff(p: Primitives, s0: State, a: seq<Action>, id: nat, q: ConsumeRequest, clock: Clock)
    requires Initial(s0) && id !in Run(p, s0, a).threads
    ensures var s := Run(p, s0, a);
            var end := Run(p, s0, a + ([Spawn(id, ConsumeCode(q))] + SmoothTurns(id, clock, 5)));
            && id in end.threads && end.threads[id].pc.Done? && end.locks == s.locks
            && (end.threads[id].Succeeded() <==>
                  && !Blank(q.code) && !Blank(q.networkId) && (q.expectedRole == Master || q.expectedRole == Worker)
                  && !Blank(q.consumedBy) && CodesLock !in s.locks && Scan(p, s.disk.codes, q, 0).Ok? && clock(2) != 0)
            && (if end.threads[id].Succeeded()
                then var i := Scan(p, s.disk.codes, q, 0).value;
                     end.disk == s.disk.(codes := s.disk.codes[i := s.disk.codes[i].(
                                   status := Consumed, consumedAt := Some(clock(2)), consumedBy := q.consumedBy)])
                else end.disk == s.disk)
            && (end.threads[id].failure == Some(LockHeld) <==> CheckConsumeRequest(q).None? && CodesLock in s.locks)
  {
    hide Run, Alone, Inv, Step, Blank, Scan, Consume, CheckConsumeRequest;
    var s, op := Run(p, s0, a), ConsumeCode(q);
    InitialInv(p, s0);
    RunOk(p, s0.disk, s0, a);
    FilesOfInv(p, s0.disk, s);
    var actions := [Spawn(id, op)] + SmoothTurns(id, clock, 5);
    RunConcat(p, s0, a, actions);
    RunSpawned(p, s, id, op, clock, 5);
    ConsumeAlone(p, s.disk, s.locks, op, clock);
    var end := Run(p, s0, a + actions);
    assert end.threads[id] == Alone(p, s.disk, s.locks, NewThread(op), clock, 5).2;
    ConsumeRequestIff(q);
    ConsumingIff(p, s.disk, q, clock(2));
    NeverLockHeld(p, s.disk.codes, q, clock(2));
  }

  lemma ConsumingIff(p: Primitives, d: Disk, q: ConsumeRequest, at: Time)
    requires DiskOk(d)
    ensures Consume(p, d.codes, q, at).Ok? <==>
              CheckConsumeRequest(q).None? && Scan(p, d.codes, q, 0).Ok? && at != 0
    ensures Consume(p, d.codes, q, at).Ok? ==>
              var i := Scan(p, d.codes, q, 0).value;
              Consume(p, d.codes, q, at).value
              == d.codes[i := d.codes[i].(status := Consumed, consumedAt := Some(at), consumedBy := q.consumedBy)]
  {
    hide Scan, Blank, AllValidPeers, AllValidRevs, DistinctPeers, DistinctRevs, StatusesAgree;
    if Scan(p, d.codes, q, 0).Ok? {
      assert ValidJoinRecord(d.codes[Scan(p, d.codes, q, 0).value]);
    }
  }

  lemma NeverLockHeld(p: Primitives, codes: Codes, q: ConsumeRequest, at: Time)
    ensures CheckConsumeRequest(q) != Some(LockHeld) && Consume(p, codes, q, at) != Err(LockHeld)
  {
    hide Blank, ValidJoinRecord, Scan;
    ScanErrors(p, codes, q, 0);
  }

  lemma {:induction false} ScanErrors(p: Primitives, codes: Codes, q: ConsumeRequest, from: nat)
    requires from <= |codes|
    ensures Scan(p, codes, q, from) != Err(LockHeld)
    decreases |codes| - from
  {
    hide DecodeNoPadding, Blank;
    if from < |codes| {
      ScanErrors(p, codes, q, from + 1);
    }
  }

  // ---------- the peers file ----------

  /** An attempt that is about to add a peer to the file. */
  predicate AboutToAdd(t: Thread) {
    && (t.op.ImportPeer? || t.op.TrustPeer?) && t.pc.LockPeers? && t.failure.None? && t.held == {} && t.peers.None?
  }

  lemma LeavePeersAlone(p: Primitives, d: Disk, locks: set<LockName>, t: Thread, clock: Clock, n: nat)
    requires (t.op.ImportPeer? || t.op.TrustPeer?) && t.pc.ReleasePeers? && n > 0 && PeersLock !in locks
    ensures var (d', locks', t') := Alone(p, d, locks + {PeersLock}, t, clock, n);
            d' == d && locks' == locks && t'.pc.Done? && t'.failure == t.failure
  {
    hide Alone;
    assert locks + {PeersLock} - {PeersLock} == locks;
    OneTurn(p, d, locks + {PeersLock}, t, clock, n);
    var r := Advance(p, d, locks + {PeersLock}, t, Smooth(clock(n)));
    EndedAlone(p, r.disk, r.locks, r.thread, clock, n - 1);
  }

  lemma AddInsideAlone(p: Primitives, d: Disk, locks: set<LockName>, t: Thread, clock: Clock, n: nat)
    requires (t.op.ImportPeer? || t.op.TrustPeer?) && t.pc.LoadPeers? && t.failure.None? && t.held == {PeersLock}
    requires t.peers.None? && n >= 3 && AllValidPeers(d.peers) && PeersLock !in locks
    ensures var (d', locks', t') := Alone(p, d, locks + {PeersLock}, t, clock, n);
            && locks' == locks && t'.pc.Done?
            && (match AddPeer(d.peers, NewPeer(TrustedPeer(t.op), t.now))
                case Ok(peers) => t'.failure == None && d' == d.(peers := peers)
                case Err(e) => t'.failure == Some(e) && d' == d)
  {
    hide Alone, AllValidPeers, AddPeer;
    var locked := locks + {PeersLock};
    AddErrors(d.peers, NewPeer(TrustedPeer(t.op), t.now));
    OneTurn(p, d, locked, t, clock, n);
    match AddPeer(d.peers, NewPeer(TrustedPeer(t.op), t.now)) {
      case Err(e) => LeavePeersAlone(p, d, locks, Fail(t, e, ReleasePeers), clock, n - 1);
      case Ok(peers) =>
        var saving := t.(peers := Some(d.peers), pc := SavePeers);
        OneTurn(p, d, locked, saving, clock, n - 1);
        var r := Advance(p, d, locked, saving, Smooth(clock(n - 1)));
        LeavePeersAlone(p, r.disk, locks, r.thread, clock, n - 2);
    }
  }

  lemma AddAlone(p: Primitives, d: Disk, locks: set<LockName>, t: Thread, clock: Clock, n: nat)
    requires AboutToAdd(t) && n >= 4 && AllValidPeers(d.peers)
    ensures var (d', locks', t') := Alone(p, d, locks, t, clock, n);
            && locks' == locks && t'.pc.Done?
            && (if PeersLock in locks then t'.failure == Some(LockHeld) && d' == d
                else match AddPeer(d.peers, NewPeer(TrustedPeer(t.op), t.now))
                  case Ok(peers) => t'.failure == None && d' == d.(peers := peers)
                  case Err(e) => t'.failure == Some(e) && d' == d)
  {
    hide Alone, AllValidPeers, AddPeer;
    OneTurn(p, d, locks, t, clock, n);
    if PeersLock in locks {
      EndedAlone(p, d, locks, Fail(t, LockHeld, Done), clock, n - 1);
    } else {
      assert {} + {PeersLock} == {PeersLock};
      AddInsideAlone(p, d, locks, t.(held := {PeersLock}, pc := LoadPeers), clock, n - 1);
    }
  }

  lemma ImportAlone(p: Primitives, d: Disk, locks: set<LockName>, op: Op, clock: Clock)
    requires op.ImportPeer? && DiskOk(d)
    ensures var (d', locks', t') := Alone(p, d, locks, NewThread(op), clock, 5);
            && locks' == locks && t'.pc.Done?
            && (if op.version != 1 || !ValidExport(op.imported) then t'.failure == Some(InvalidRecord) && d' == d
                else if op.imported.networkId != op.localNetwork then t'.failure == Some(WrongNetwork) && d' == d
                else if clock(5) == 0 then t'.failure == Some(InvalidRecord) && d' == d
                else if PeersLock in locks then t'.failure == Some(LockHeld) && d' == d
                else if FindPeer(d.peers, op.imported.nodeId).Some? then t'.failure == Some(PeerExists) && d' == d
                else t'.failure == None && d' == d.(peers := d.peers + [NewPeer(op.imported, clock(5))]))
  {
    hide Alone, DiskOk, AllValidPeers, Blank, ValidKeys, FindPeer;
    SoundFilesLoad(d);
    var t := NewThread(op);
    OneTurn(p, d, locks, t, clock, 5);
    var r := Advance(p, d, locks, t, Smooth(clock(5)));
    if r.thread.pc.Done? {
      EndedAlone(p, d, locks, r.thread, clock, 4);
    } else {
      AddAlone(p, d, locks, r.thread, clock, 4);
    }
  }

  /**
   * Importing a peer, left alone from any reachable state, succeeds exactly when the export is of the known
   * version and complete, for the local network, under a node id that is not on file, the lock is free and
   * there is a time; then an active record of it is the only change. Revocations are not looked at, and the
   * node id is not compared with the keys.
   */
  lemma UndisturbedImportIff(p: Primitives, s0: State, a: seq<Action>, id: nat, version: int, x: PublicPeer,
                             network: NetworkId, clock: Clock)
    requires Initial(s0) && id !in Run(p, s0, a).threads
    ensures var s := Run(p, s0, a);
            var end := Run(p, s0, a + ([Spawn(id, ImportPeer(version, x, network))] + SmoothTurns(id, clock, 5)));
            && id in end.threads && end.threads[id].pc.Done? && end.locks == s.locks
            && (end.threads[id].Succeeded() <==>
                  && version == 1 && !Blank(x.nodeId) && !Blank(x.networkId) && (x.role == Master || x.role == Worker)
                  && ValidKeys(x.publicKeys) && x.networkId == network && clock(5) != 0 && PeersLock !in s.locks
                  && forall j :: 0 <= j < |s.disk.peers| ==> s.disk.peers[j].nodeId != x.nodeId)
            && end.disk == (if !end.threads[id].Succeeded() then s.disk
                            else s.disk.(peers := s.disk.peers
                                   + [PeerRecord(x.nodeId, x.networkId, x.role, x.publicKeys, Active, clock(5), None)]))
            && (version == 1 && ValidExport(x) && x.networkId != network ==>
                  end.threads[id].failure == Some(WrongNetwork))
            && (version != 1 || !ValidExport(x) ==> end.threads[id].failure == Some(InvalidRecord))
  {
    hide Run, Alone, Inv, Step, Blank, ValidKeys;
    var s, op := Run(p, s0, a), ImportPeer(version, x, network);
    InitialInv(p, s0);
    RunOk(p, s0.disk, s0, a);
    FilesOfInv(p, s0.disk, s);
    var actions := [Spawn(id, op)] + SmoothTurns(id, clock, 5);
    RunConcat(p, s0, a, actions);
    RunSpawned(p, s, id, op, clock, 5);
    ImportAlone(p, s.disk, s.locks, op, clock);
    var end := Run(p, s0, a + actions);
    assert end.threads[id] == Alone(p, s.disk, s.locks, NewThread(op), clock, 5).2;
  }

  lemma TrustAlone(p: Primitives, d: Disk, locks: set<LockName>, op: Op, clock: Clock)
    requires op.TrustPeer? && DiskOk(d)
    ensures var (d', locks', t') := Alone(p, d, locks, NewThread(op), clock, 6);
            && locks' == locks && t'.pc.Done?
            && (match EnsurePeer(p, d.peers, op.trusted, clock(5))
                case Err(e) => t'.failure == Some(e) && d' == d
                case Ok(peers) =>
                  if PeersLock in locks && FindPeer(d.peers, op.trusted.nodeId).None?
                  then t'.failure == Some(LockHeld) && d' == d
                  else t'.failure == None && d' == d.(peers := peers))
  {
    hide Alone, DiskOk, AllValidPeers, FindPeer, SamePeer, CheckPublicPeer, ValidPeerRecord;
    SoundFilesLoad(d);
    var t := NewThread(op);
    OneTurn(p, d, locks, t, clock, 6);
    var t1 := t.(pc := EnsureRead);
    OneTurn(p, d, locks, t1, clock, 5);
    var r := Advance(p, d, locks, t1, Smooth(clock(5)));
    if r.thread.pc.Done? {
      EndedAlone(p, d, locks, r.thread, clock, 4);
    } else {
      AddAlone(p, d, locks, r.thread, clock, 4);
    }
  }

  /**
   * Making sure of a peer, left alone from any reachable state, does what it does in one piece: a peer that
   * agrees is enough, another one is in the way, and one that is missing is added as active if the lock is
   * free.
   */
  lemma UndisturbedTrustIff(p: Primitives, s0: State, a: seq<Action>, id: nat, x: PublicPeer, clock: Clock)
    requires Initial(s0) && id !in Run(p, s0, a).threads
    ensures var s := Run(p, s0, a);
            var end := Run(p, s0, a + ([Spawn(id, TrustPeer(x))] + SmoothTurns(id, clock, 6)));
            && id in end.threads && end.threads[id].pc.Done? && end.locks == s.locks
            && (match EnsurePeer(p, s.disk.peers, x, clock(5))
                case Err(e) => end.threads[id].failure == Some(e) && end.disk == s.disk
                case Ok(peers) =>
                  if PeersLock in s.locks && FindPeer(s.disk.peers, x.nodeId).None?
                  then end.threads[id].failure == Some(LockHeld) && end.disk == s.disk
                  else end.threads[id].Succeeded() && end.disk == s.disk.(peers := peers))
  {
    hide Run, Alone, Inv, Step, EnsurePeer, FindPeer;
    var s, op := Run(p, s0, a), TrustPeer(x);
    InitialInv(p, s0);
    RunOk(p, s0.disk, s0, a);
    FilesOfInv(p, s0.disk, s);
    var actions := [Spawn(id, op)] + SmoothTurns(id, clock, 6);
    RunConcat(p, s0, a, actions);
    RunSpawned(p, s, id, op, clock, 6);
    TrustAlone(p, s.disk, s.locks, op, clock);
    var end := Run(p, s0, a + actions);
    assert end.threads[id] == Alone(p, s.disk, s.locks, NewThread(op), clock, 6).2;
  }
}
