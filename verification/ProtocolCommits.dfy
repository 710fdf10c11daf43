/** What every attempt of a run has written: its own operation, in order and at most once, and nothing else. */
module ProtocolCommits {
  import opened Wrappers
  import opened Text
  import opened Base32
  import opened Identity
  import opened Records
  import opened StoreOps
  import opened TlsIdentity
  import opened Messages
  import opened Protocol
  import opened ProtocolInvariant
  import opened ProtocolRuns
  import opened ProtocolTheorems

  // ---------- what a commit does to the files ----------

  /** The join-code file gains one record, with these fields. */
  predicate GainsCode(p: Primitives, d: Disk, d': Disk, q: CreateRequest, secret: seq<Byte>, salt: seq<Byte>,
                      at: Time) {
    && !Blank(q.networkId) && (q.expectedRole == Master || q.expectedRole == Worker) && !Blank(q.issuedBy) && at != 0
    && d' == d.(codes := d.codes + [JoinRecord(CodeIdForVerifier(p, p.hmac(salt, secret)), q.networkId, q.expectedRole,
                                               q.issuedBy, at, "hmac-sha256-v1", salt, p.hmac(salt, secret),
                                               Unused, None, "")])
  }

  /** One unused record that fits becomes a consumed one, and nothing else changes. */
  predicate UsesCode(p: Primitives, d: Disk, d': Disk, q: ConsumeRequest, at: Time) {
    && at != 0
    && exists i :: 0 <= i < |d.codes| && d.codes[i].status != Consumed
         && d.codes[i].algorithm == "hmac-sha256-v1"
         && VerifierForCode(p, q.code, d.codes[i].salt) == Ok(d.codes[i].verifier)
         && d.codes[i].networkId == q.networkId && d.codes[i].expectedRole == q.expectedRole
         && d' == d.(codes := d.codes[i := d.codes[i].(status := Consumed, consumedAt := Some(at),
                                                       consumedBy := q.consumedBy)])
  }

  /** The peers file gains a record under a new node id. */
  predicate GainsPeer(d: Disk, d': Disk, r: PeerRecord) {
    && d' == d.(peers := d.peers + [r]) && ValidPeerRecord(r)
    && forall j :: 0 <= j < |d.peers| ==> d.peers[j].nodeId != r.nodeId
  }

  /** One peer becomes revoked at the revocation's time, and nothing else changes. */
  predicate MarksPeer(d: Disk, d': Disk, r: RevocationRecord) {
    exists i :: 0 <= i < |d.peers| && d.peers[i].nodeId == r.nodeId
      && d' == d.(peers := d.peers[i := d.peers[i].(status := Revoked, revokedAt := Some(r.revokedAt))])
  }

  /** The revocation file gains a record of who was revoked, when, by whom and why, unless there was one. */
  predicate GainsRevocation(d: Disk, d': Disk, q: RevokeRequest, at: Time) {
    if NotRevoked(d.revs, q.nodeId)
    then && !Blank(q.nodeId) && (q.role == Master || q.role == Worker) && at != 0 && !Blank(q.revokedBy)
         && d' == d.(revs := d.revs + [RevocationRecord(q.nodeId, q.role, at, q.revokedBy, q.reason)])
    else d' == d
  }

  lemma CreatedMeans(p: Primitives, d: Disk, d': Disk, q: CreateRequest, secret: seq<Byte>, salt: seq<Byte>, at: Time)
    requires ApplyCommit(p, d, CreatedCode(q, secret, salt, at)) == Ok(d')
    ensures GainsCode(p, d, d', q, secret, salt, at)
  {
    hide NewJoinRecord, Blank, CodeIdForVerifier;
    var (code, record) := NewJoinRecord(p, q, at, secret, salt).value;
    NewJoinRecordIff(p, q, at, secret, salt, code, record);
  }

  lemma ConsumedMeans(p: Primitives, d: Disk, d': Disk, q: ConsumeRequest, at: Time)
    requires ApplyCommit(p, d, ConsumedCode(q, at)) == Ok(d')
    ensures UsesCode(p, d, d', q, at)
  {
    hide CheckConsumeRequest, VerifierForCode;
    var i := Scan(p, d.codes, q, 0).value;
    assert d'.codes == d.codes[i := MarkConsumed(d.codes[i], q.consumedBy, at)];
  }

  lemma MarkedMeans(p: Primitives, d: Disk, d': Disk, r: RevocationRecord)
    requires ApplyCommit(p, d, MarkedRevoked(r)) == Ok(d')
    ensures MarksPeer(d, d', r)
  {
    hide ValidRevocation;
    var i := FindPeer(d.peers, r.nodeId).value;
    assert d.peers[i].nodeId == r.nodeId;
  }

  lemma RevokedMeans(p: Primitives, d: Disk, d': Disk, q: RevokeRequest, at: Time)
    requires ApplyCommit(p, d, AddedRevocation(q, at)) == Ok(d')
    ensures GainsRevocation(d, d', q, at)
  {
    hide Revoke, Blank;
    var (after, answer) := Revoke(d.revs, q, at).value;
    RevokeIff(d.revs, q, at, after, answer);
  }

  /** Each commit of a log, as the change of the files it made. */
  predicate Means(p: Primitives, d: Disk, d': Disk, c: Commit) {
    match c
    case CreatedCode(q, secret, salt, at) => GainsCode(p, d, d', q, secret, salt, at)
    case ConsumedCode(q, at) => UsesCode(p, d, d', q, at)
    case AddedPeer(r) => GainsPeer(d, d', r)
    case MarkedRevoked(r) => MarksPeer(d, d', r)
    case AddedRevocation(q, at) => GainsRevocation(d, d', q, at)
  }

  lemma CommitMeans(p: Primitives, d: Disk, d': Disk, c: Commit)
    requires ApplyCommit(p, d, c) == Ok(d')
    ensures Means(p, d, d', c)
  {
    hide ApplyCommit, GainsCode, UsesCode, MarksPeer, GainsRevocation;
    match c {
      case CreatedCode(q, secret, salt, at) => CreatedMeans(p, d, d', q, secret, salt, at);
      case ConsumedCode(q, at) => ConsumedMeans(p, d, d', q, at);
      case AddedPeer(r) => AddedMeans(p, d, d', r);
      case MarkedRevoked(r) => MarkedMeans(p, d, d', r);
      case AddedRevocation(q, at) => RevokedMeans(p, d, d', q, at);
    }
  }

  lemma AddedMeans(p: Primitives, d: Disk, d': Disk, r: PeerRecord)
    requires ApplyCommit(p, d, AddedPeer(r)) == Ok(d')
    ensures GainsPeer(d, d', r)
  {
    hide ValidPeerRecord;
  }

  // ---------- the commits of one attempt ----------

  function Own(log: seq<Entry>, id: nat): seq<Commit> {
    if log == [] then []
    else
      var last := log[|log| - 1];
      Own(log[..|log| - 1], id) + (if last.thread == id then [last.commit] else [])
  }

  function Taken(r: Effect): seq<Commit> {
    match r.commit case None => [] case Some(c) => [c]
  }

  lemma OwnAfter(log: seq<Entry>, id: nat, e: Entry)
    ensures Own(log + [e], id) == Own(log, id) + if e.thread == id then [e.commit] else []
  {
    assert (log + [e])[..|log|] == log;
  }

  /** The peer an attempt has added, if it has. */
  function PeerPart(t: Thread): seq<Commit> {
    if t.added && (t.op.Pair? || t.op.TrustPeer? || t.op.ImportPeer?)
    then [AddedPeer(PeerRecord(TrustedPeer(t.op).nodeId, TrustedPeer(t.op).networkId, TrustedPeer(t.op).role,
                               TrustedPeer(t.op).publicKeys, Active, t.now, None))]
    else []
  }

  /** A consumption for the attempt's own request, if it has consumed. */
  ghost predicate ConsumePart(t: Thread, own: seq<Commit>) {
    if t.consumed.Some? && Consumes(t.op) then exists at :: own == [ConsumedCode(ConsumeOf(t.op), at)] else own == []
  }

  predicate BeforeAnyWrite(pc: Pc) {
    || pc.Start? || pc.CheckRevoked? || pc.CheckPeer? || pc.LockCodes? || pc.LoadCodes? || pc.EnsureRead?
    || pc.LockRevs? || pc.LoadRevs? || pc.SaveRevs? || pc.VerifyRead? || pc.VerifyRevoked?
  }

  /** Past its first turn and not refused. */
  predicate InProgress(t: Thread) {
    !t.pc.Start? && !t.pc.Crashed? && t.failure.None?
  }

  /** Which commits an attempt can have made by its program point, and has made when it answers with success. */
  ghost predicate Did(p: Primitives, t: Thread, own: seq<Commit>) {
    match t.op
    case CreateCode(q, secret, salt) =>
      && !t.added
      && (BeforeAnyWrite(t.pc) || t.pc.SaveCodes? ==> own == [])
      && (own == [] || exists at :: own == [CreatedCode(q, secret, salt, at)])
      && ((t.pc.ReleaseCodes? || t.pc.Done?) && t.failure.None? ==> own != [])
    case ConsumeCode(_) => !t.added && ConsumePart(t, own) && (BeforeAnyWrite(t.pc) ==> t.consumed.None?)
    case Pair(_, _) =>
      && PeerPart(t) <= own && ConsumePart(t, own[|PeerPart(t)|..])
      && (BeforeAnyWrite(t.pc) || t.pc.LockPeers? || t.pc.LoadPeers? || t.pc.SavePeers? ==>
            !t.added && t.consumed.None?)
      && (t.pc.ReleasePeers? || t.pc.SaveCodes? ==> t.consumed.None?)
    case ImportPeer(version, x, network) =>
      && own == PeerPart(t)
      && (t.added || InProgress(t) ==> version == 1 && x.networkId == network)
      && ((t.pc.ReleasePeers? || t.pc.Done?) && t.failure.None? ==> t.added)
      && (BeforeAnyWrite(t.pc) || t.pc.LockPeers? || t.pc.LoadPeers? || t.pc.SavePeers? ==> !t.added)
    case TrustPeer(x) =>
      && own == PeerPart(t)
      && (t.added || (InProgress(t) && !t.pc.EnsureRead?) ==> CheckPublicPeer(p, x).None?)
      && (BeforeAnyWrite(t.pc) || t.pc.LockPeers? || t.pc.LoadPeers? || t.pc.SavePeers? ==> !t.added)
    case RevokeNode(q) =>
      && (BeforeAnyWrite(t.pc) ==> own == [])
      && (own == [] || own == [AddedRevocation(q, t.now)]
          || (t.revocation.Some? && t.revocation.value.nodeId == q.nodeId
              && (own == [MarkedRevoked(t.revocation.value)]
                  || own == [AddedRevocation(q, t.now), MarkedRevoked(t.revocation.value)])))
      && (!(t.pc.ReleasePeers? || t.pc.Done? || t.pc.Crashed?) ==> own == [] || own == [AddedRevocation(q, t.now)])
    case VerifyPeer(_, _) => own == []
  }

  lemma NewDid(p: Primitives, op: Op)
    ensures Did(p, NewThread(op), [])
  {
  }

  lemma CrashDid(p: Primitives, t: Thread, own: seq<Commit>)
    requires Did(p, t, own)
    ensures Did(p, t.(pc := Crashed), own)
  {
  }

  lemma CreateDid(p: Primitives, d: Disk, locks: set<LockName>, t: Thread, e: Env, own: seq<Commit>)
    requires t.op.CreateCode? && ThreadOk(p, d, t) && WellFormed(t) && t.Live() && Did(p, t, own)
    ensures Did(p, Advance(p, d, locks, t, e).thread, own + Taken(Advance(p, d, locks, t, e)))
  {
    hide HasPeer, Chosen, RevocationOnFile, NewJoinRecord, AllValidCodes;
  }

  lemma ConsumeDid(p: Primitives, d: Disk, locks: set<LockName>, t: Thread, e: Env, own: seq<Commit>)
    requires t.op.ConsumeCode? && ThreadOk(p, d, t) && WellFormed(t) && t.Live() && Did(p, t, own)
    ensures Did(p, Advance(p, d, locks, t, e).thread, own + Taken(Advance(p, d, locks, t, e)))
  {
    hide HasPeer, Chosen, RevocationOnFile, ConsumeAt, AllValidCodes, Scan, CheckConsumeRequest;
  }

  lemma NothingFailedYet(p: Primitives, d: Disk, t: Thread)
    requires ThreadOk(p, d, t)
    ensures t.pc.Start? || t.pc.EnsureRead? || t.pc.LockPeers? || t.pc.LoadPeers? || t.pc.SavePeers? ==> t.failure.None?
    ensures (t.op.TrustPeer? || t.op.ImportPeer?) && t.Live() ==>
              t.pc.Start? || t.pc.EnsureRead? || t.pc.LockPeers? || t.pc.LoadPeers? || t.pc.SavePeers?
              || t.pc.ReleasePeers?
    ensures t.op.ImportPeer? ==> !t.pc.EnsureRead?
  {
    hide HasPeer, Chosen, RevocationOnFile;
  }

  lemma TrustDid(p: Primitives, d: Disk, locks: set<LockName>, t: Thread, e: Env, own: seq<Commit>)
    requires t.op.TrustPeer? && ThreadOk(p, d, t) && WellFormed(t) && t.Live() && Did(p, t, own)
    ensures Did(p, Advance(p, d, locks, t, e).thread, own + Taken(Advance(p, d, locks, t, e)))
  {
    hide HasPeer, Chosen, RevocationOnFile, AddPeer, AllValidPeers, CheckPublicPeer, SamePeer, ValidPeerRecord,
      ThreadOk;
    AddErrors(d.peers, NewPeer(TrustedPeer(t.op), t.now));
    NothingFailedYet(p, d, t);
  }

  lemma ImportDid(p: Primitives, d: Disk, locks: set<LockName>, t: Thread, e: Env, own: seq<Commit>)
    requires t.op.ImportPeer? && ThreadOk(p, d, t) && WellFormed(t) && t.Live() && Did(p, t, own)
    ensures Did(p, Advance(p, d, locks, t, e).thread, own + Taken(Advance(p, d, locks, t, e)))
  {
    hide HasPeer, Chosen, RevocationOnFile, AddPeer, AllValidPeers, ValidPeerRecord, ThreadOk, ValidExport;
    AddErrors(d.peers, NewPeer(TrustedPeer(t.op), t.now));
    NothingFailedYet(p, d, t);
  }

  lemma VerifyDid(p: Primitives, d: Disk, locks: set<LockName>, t: Thread, e: Env, own: seq<Commit>)
    requires t.op.VerifyPeer? && ThreadOk(p, d, t) && WellFormed(t) && t.Live() && Did(p, t, own)
    ensures Did(p, Advance(p, d, locks, t, e).thread, own + Taken(Advance(p, d, locks, t, e)))
  {
    hide HasPeer, Chosen, RevocationOnFile, CheckStoredPeer, CheckCertificate, AllValidPeers, AllValidRevs, IsRevokedIn;
  }

  lemma RevokeDid(p: Primitives, d: Disk, locks: set<LockName>, t: Thread, e: Env, own: seq<Commit>)
    requires t.op.RevokeNode? && ThreadOk(p, d, t) && WellFormed(t) && t.Live() && Did(p, t, own)
    ensures Did(p, Advance(p, d, locks, t, e).thread, own + Taken(Advance(p, d, locks, t, e)))
  {
    hide HasPeer, Chosen, Revoke, MarkRevoked, AllValidPeers, AllValidRevs;
  }

  lemma PairOnPeersDid(p: Primitives, d: Disk, locks: set<LockName>, t: Thread, e: Env, own: seq<Commit>)
    requires t.op.Pair? && ThreadOk(p, d, t) && WellFormed(t) && t.Live() && Did(p, t, own)
    requires t.pc.LockPeers? || t.pc.LoadPeers? || t.pc.SavePeers? || t.pc.ReleasePeers? || t.pc.EnsureRead?
    ensures Did(p, Advance(p, d, locks, t, e).thread, own + Taken(Advance(p, d, locks, t, e)))
  {
    hide HasPeer, Chosen, RevocationOnFile, AddPeer, AllValidPeers, CheckPublicPeer, SamePeer, ValidPeerRecord,
      ThreadOk;
    NotYet(p, d, t);
  }

  lemma NotYet(p: Primitives, d: Disk, t: Thread)
    requires ThreadOk(p, d, t) && t.op.Pair? && t.Live() && !t.pc.ReleaseCodes?
    ensures t.consumed.None?
  {
    hide HasPeer, Chosen, RevocationOnFile;
  }

  lemma PairOnCodesDid(p: Primitives, d: Disk, locks: set<LockName>, t: Thread, e: Env, own: seq<Commit>)
    requires t.op.Pair? && ThreadOk(p, d, t) && WellFormed(t) && t.Live() && Did(p, t, own)
    requires t.pc.SaveCodes? || t.pc.ReleaseCodes?
    ensures Did(p, Advance(p, d, locks, t, e).thread, own + Taken(Advance(p, d, locks, t, e)))
  {
    hide HasPeer, Chosen, RevocationOnFile, ConsumeAt, ThreadOk;
  }

  lemma PairStartsDid(p: Primitives, d: Disk, locks: set<LockName>, t: Thread, e: Env, own: seq<Commit>)
    requires t.op.Pair? && ThreadOk(p, d, t) && WellFormed(t) && t.Live() && Did(p, t, own)
    requires t.pc.Start? || t.pc.CheckRevoked? || t.pc.CheckPeer? || t.pc.LockCodes? || t.pc.LoadCodes?
    ensures Did(p, Advance(p, d, locks, t, e).thread, own + Taken(Advance(p, d, locks, t, e)))
  {
    hide AllValidCodes, AllValidPeers, AllValidRevs, Scan, CheckAdmission, CheckConsumeRequest, SamePeer, IsRevokedIn,
      FindPeer, ThreadOk;
  }

  lemma PairIsSomewhere(p: Primitives, d: Disk, t: Thread)
    requires t.op.Pair? && ThreadOk(p, d, t) && t.Live()
    ensures t.pc.Start? || t.pc.CheckRevoked? || t.pc.CheckPeer? || t.pc.LockCodes? || t.pc.LoadCodes?
            || t.pc.SaveCodes? || t.pc.ReleaseCodes? || t.pc.LockPeers? || t.pc.LoadPeers? || t.pc.SavePeers?
            || t.pc.ReleasePeers? || t.pc.EnsureRead?
  {
    hide HasPeer, Chosen, RevocationOnFile;
  }

  lemma AdvanceDid(p: Primitives, d: Disk, locks: set<LockName>, t: Thread, e: Env, own: seq<Commit>)
    requires ThreadOk(p, d, t) && WellFormed(t) && t.Live() && Did(p, t, own)
    ensures Did(p, Advance(p, d, locks, t, e).thread, own + Taken(Advance(p, d, locks, t, e)))
  {
    hide Did, ThreadOk, WellFormed, Advance, Taken;
    match t.op {
      case CreateCode(_, _, _) => CreateDid(p, d, locks, t, e, own);
      case ConsumeCode(_) => ConsumeDid(p, d, locks, t, e, own);
      case Pair(_, _) =>
        PairIsSomewhere(p, d, t);
        if t.pc.LockPeers? || t.pc.LoadPeers? || t.pc.SavePeers? || t.pc.ReleasePeers? || t.pc.EnsureRead? {
          PairOnPeersDid(p, d, locks, t, e, own);
        } else if t.pc.SaveCodes? || t.pc.ReleaseCodes? {
          PairOnCodesDid(p, d, locks, t, e, own);
        } else {
          PairStartsDid(p, d, locks, t, e, own);
        }
      case ImportPeer(_, _, _) => ImportDid(p, d, locks, t, e, own);
      case TrustPeer(_) => TrustDid(p, d, locks, t, e, own);
      case RevokeNode(_) => RevokeDid(p, d, locks, t, e, own);
      case VerifyPeer(_, _) => VerifyDid(p, d, locks, t, e, own);
    }
  }

  // ---------- over a run ----------

  ghost predicate AllDid(p: Primitives, s: State) {
    && (forall k :: 0 <= k < |s.log| ==> s.log[k].thread in s.threads)
    && forall id :: id in s.threads ==> Did(p, s.threads[id], Own(s.log, id))
  }

  lemma {:induction false} NothingOfOthers(log: seq<Entry>, id: nat)
    requires forall k :: 0 <= k < |log| ==> log[k].thread != id
    ensures Own(log, id) == []
  {
    if log != [] {
      NothingOfOthers(log[..|log| - 1], id);
    }
  }

  lemma StepDid(p: Primitives, d0: Disk, s: State, a: Action)
    requires Inv(p, d0, s) && AllDid(p, s)
    ensures AllDid(p, Step(p, s, a))
  {
    hide DiskOk, ThreadOk, Advance, WellFormed, GoodEffect, Replay, OneOwner, ConsumedOnce, Did;
    match a {
      case Spawn(id, op) =>
        if id !in s.threads {
          NothingOfOthers(s.log, id);
          NewDid(p, op);
        }
      case Crash(id) =>
        if id in s.threads && s.threads[id].Live() {
          CrashDid(p, s.threads[id], Own(s.log, id));
        }
      case Go(id, env) =>
        if id in s.threads && s.threads[id].Live() {
          AdvanceHere(p, s, id, env);
          GoDid(p, s, id, env);
        }
    }
  }

  lemma GoDid(p: Primitives, s: State, id: nat, e: Env)
    requires ThreadsOk(p, s) && AllDid(p, s) && id in s.threads && s.threads[id].Live() && WellFormed(s.threads[id])
    ensures AllDid(p, Step(p, s, Go(id, e)))
  {
    hide DiskOk, ThreadOk, Advance, WellFormed, Did;
    var r := Advance(p, s.disk, s.locks, s.threads[id], e);
    AdvanceDid(p, s.disk, s.locks, s.threads[id], e, Own(s.log, id));
    match r.commit {
      case None => assert Own(s.log, id) + Taken(r) == Own(s.log, id);
      case Some(c) =>
        forall x | x in s.threads
          ensures Own(s.log + [Entry(id, c)], x) == Own(s.log, x) + if x == id then [c] else []
        {
          OwnAfter(s.log, x, Entry(id, c));
        }
        assert forall x :: x in s.threads && x != id ==> Own(s.log, x) + [] == Own(s.log, x);
    }
  }

  /** In every state of every run, what each attempt has written is its own operation so far. */
  lemma {:induction false} EveryAttemptWritesItsOwn(p: Primitives, s0: State, actions: seq<Action>)
    requires Initial(s0)
    ensures AllDid(p, Run(p, s0, actions))
    decreases |actions|
  {
    hide Inv, Step, Did;
    if actions != [] {
      var front := actions[..|actions| - 1];
      EveryAttemptWritesItsOwn(p, s0, front);
      InitialInv(p, s0);
      RunOk(p, s0.disk, s0, front);
      StepDid(p, s0.disk, Run(p, s0, front), actions[|actions| - 1]);
    }
  }

  /**
   * What a success answer stands for in the log: exactly the commits listed here are the attempt's own, and
   * `CommitMeans` says what each of them did to the files.
   */
  ghost predicate SuccessWrote(p: Primitives, d: Disk, t: Thread, own: seq<Commit>) {
    match t.op
    case CreateCode(q, secret, salt) => exists at :: own == [CreatedCode(q, secret, salt, at)]
    case ConsumeCode(q) => exists at :: own == [ConsumedCode(q, at)]
    case Pair(master, request) =>
      && WellMadeRequest(p, master, request) && HasPeer(d.peers, request.peer)
      && exists at ::
           var q := ConsumeRequest(request.code, master.networkId, request.role, request.peer.nodeId);
           var used := ConsumedCode(q, at);
           own == [used] || own == [AddedPeer(NewPeer(request.peer, t.now)), used]
    case ImportPeer(version, x, network) =>
      version == 1 && x.networkId == network
      && own == [AddedPeer(PeerRecord(x.nodeId, x.networkId, x.role, x.publicKeys, Active, t.now, None))]
    case TrustPeer(x) =>
      && CheckPublicPeer(p, x).None? && HasPeer(d.peers, x)
      && (own == [] || own == [AddedPeer(NewPeer(x, t.now))])
    case RevokeNode(q) =>
      && t.revocation.Some? && t.revocation.value in d.revs && t.revocation.value.nodeId == q.nodeId
      && (own == [] || own == [AddedRevocation(q, t.now)] || own == [MarkedRevoked(t.revocation.value)]
          || own == [AddedRevocation(q, t.now), MarkedRevoked(t.revocation.value)])
    case VerifyPeer(_, _) => own == []
  }

  lemma SuccessMeans(p: Primitives, s0: State, actions: seq<Action>, id: nat)
    requires Initial(s0) && id in Run(p, s0, actions).threads && Run(p, s0, actions).threads[id].Succeeded()
    ensures var s := Run(p, s0, actions); SuccessWrote(p, s.disk, s.threads[id], Own(s.log, id))
  {
    hide DiskOk, ThreadOk, OneOwner, ConsumedOnce, Replay, Run, Did, SuccessWrote;
    InitialInv(p, s0);
    RunOk(p, s0.disk, s0, actions);
    EveryAttemptWritesItsOwn(p, s0, actions);
    var s := Run(p, s0, actions);
    DoneMeans(p, s.disk, s.threads[id], Own(s.log, id));
  }

  lemma DoneMeans(p: Primitives, d: Disk, t: Thread, own: seq<Commit>)
    requires ThreadOk(p, d, t) && Did(p, t, own) && t.Succeeded()
    ensures SuccessWrote(p, d, t, own)
  {
    if t.op.Pair? {
      hide SuccessWrote, Did, ThreadOk;
      PairDoneMeans(p, d, t, own);
    } else {
      hide HasPeer, Chosen, Scan, WellMadeRequest, CheckPublicPeer, CheckAdmission, ConsumedFor;
    }
  }

  lemma PairDoneMeans(p: Primitives, d: Disk, t: Thread, own: seq<Commit>)
    requires ThreadOk(p, d, t) && Did(p, t, own) && t.Succeeded() && t.op.Pair?
    ensures SuccessWrote(p, d, t, own)
  {
    hide HasPeer, ThreadOk, WellMadeRequest, CheckAdmission, ConsumedFor;
    SuccessConsumes(p, d, t);
    AdmissionIff(p, t.op.master, t.op.request);
    var n := |PeerPart(t)|;
    assert own == own[..n] + own[n..];
  }

  // ---------- a code that was given out ----------

  lemma {:induction false} OwnPrefix(a: seq<Entry>, b: seq<Entry>, id: nat)
    requires a <= b
    ensures Own(a, id) <= Own(b, id)
    decreases |b|
  {
    if |a| < |b| {
      OwnPrefix(a, b[..|b| - 1], id);
    } else {
      assert a == b;
    }
  }

  lemma GrowsOn(a: JoinRecord, b: JoinRecord, c: JoinRecord)
    requires RecordGrows(a, b) && RecordGrows(b, c)
    ensures RecordGrows(a, c)
  {
  }

  /** The record whose making is on the log is in the file, at one place, as it was made or consumed since. */
  lemma {:induction false} CreatedIsOnFile(p: Primitives, s0: State, actions: seq<Action>, id: nat,
                                           q: CreateRequest, secret: seq<Byte>, salt: seq<Byte>, at: Time)
      returns (i: nat)
    requires Initial(s0) && CreatedCode(q, secret, salt, at) in Own(Run(p, s0, actions).log, id)
    ensures NewJoinRecord(p, q, at, secret, salt).Ok?
    ensures i < |Run(p, s0, actions).disk.codes|
    ensures RecordGrows(NewJoinRecord(p, q, at, secret, salt).value.1, Run(p, s0, actions).disk.codes[i])
    decreases |actions|
  {
    hide Step, Inv, NewJoinRecord, RecordGrows;
    InitialInv(p, s0);
    if actions == [] {
      assert false;
    } else {
      var front, last := actions[..|actions| - 1], actions[|actions| - 1];
      assert actions == front + [last];
      var s, s' := Run(p, s0, front), Run(p, s0, actions);
      RunSnoc(p, s0, front, last);
      RunOk(p, s0.disk, s0, front);
      StepOk(p, s0.disk, s, last);
      LogGrowsByOne(p, s, last);
      var c := CreatedCode(q, secret, salt, at);
      if c in Own(s.log, id) {
        i := CreatedIsOnFile(p, s0, front, id, q, secret, salt, at);
        assert RecordGrows(s.disk.codes[i], s'.disk.codes[i]);
        GrowsOn(NewJoinRecord(p, q, at, secret, salt).value.1, s.disk.codes[i], s'.disk.codes[i]);
      } else {
        OwnAfter(s.log, id, s'.log[|s'.log| - 1]);
        assert s'.log == s.log + [Entry(id, c)];
        CommitApplies(p, s0, front, last, c);
        i := |s.disk.codes|;
        GrowsFromItself(NewJoinRecord(p, q, at, secret, salt).value.1);
      }
    }
  }

  lemma GrowsFromItself(a: JoinRecord)
    ensures RecordGrows(a, a)
  {
  }

  lemma LogGrowsByOne(p: Primitives, s: State, a: Action)
    ensures var s' := Step(p, s, a);
            || s'.log == s.log
            || (a.Go? && exists c :: s'.log == s.log + [Entry(a.id, c)])
    ensures var s' := Step(p, s, a); s'.log != s.log ==>
              |s'.log| > 0 && s'.log == s.log + [s'.log[|s'.log| - 1]] && s'.log[|s'.log| - 1].thread == a.id
  {
    hide Advance, WellFormed;
  }

  /**
   * A code that was answered with success is on file for good. Its making is the attempt's only commit,
   * and from then on the file holds at place `i` the record that was made, or that record consumed.
   */
  lemma SuccessfulCreateIsKept(p: Primitives, s0: State, a: seq<Action>, b: seq<Action>, id: nat)
      returns (at: Time, i: nat)
    requires Initial(s0) && id in Run(p, s0, a).threads
    requires Run(p, s0, a).threads[id].op.CreateCode? && Run(p, s0, a).threads[id].Succeeded()
    ensures var op, s, later := Run(p, s0, a).threads[id].op, Run(p, s0, a), Run(p, s0, a + b);
            && Own(s.log, id) == Own(later.log, id) == [CreatedCode(op.create, op.secret, op.salt, at)]
            && NewJoinRecord(p, op.create, at, op.secret, op.salt).Ok?
            && i < |s.disk.codes| && i < |later.disk.codes|
            && RecordGrows(NewJoinRecord(p, op.create, at, op.secret, op.salt).value.1, s.disk.codes[i])
            && RecordGrows(NewJoinRecord(p, op.create, at, op.secret, op.salt).value.1, later.disk.codes[i])
  {
    hide Run, Step, Inv, NewJoinRecord, RecordGrows, PeersGrow;
    var s, later := Run(p, s0, a), Run(p, s0, a + b);
    var op := s.threads[id].op;
    SuccessMeans(p, s0, a, id);
    at :| Own(s.log, id) == [CreatedCode(op.create, op.secret, op.salt, at)];
    assert CreatedCode(op.create, op.secret, op.salt, at) in Own(s.log, id);
    i := CreatedIsOnFile(p, s0, a, id, op.create, op.secret, op.salt, at);
    InitialInv(p, s0);
    RunOk(p, s0.disk, s0, a);
    RunConcat(p, s0, a, b);
    RunOk(p, s0.disk, s, b);
    assert RecordGrows(s.disk.codes[i], later.disk.codes[i]);
    GrowsOn(NewJoinRecord(p, op.create, at, op.secret, op.salt).value.1, s.disk.codes[i], later.disk.codes[i]);
    RunExtendsLog(p, s, b);
    OwnPrefix(s.log, later.log, id);
    EndedStays(p, s, b, id);
    SuccessMeans(p, s0, a + b, id);
  }
}
