/**
 * One node's root directory under concurrent use: pairing handlers and command-line processes work on
 * the join-code, peer and revocation files, each behind a lock directory that is tried once.
 *
 * A state holds the files' committed contents, the lock directories, every attempt ever started, and
 * the commits so far. An action lets one attempt take its next step, kills it, or starts a new one;
 * the action carries everything the environment decides (clock, failing calls, the fate of a write).
 * A run is any sequence of actions.
 */
module Protocol {
  import opened Wrappers
  import opened Text
  import opened Identity
  import opened Base32
  import opened Records
  import opened StoreOps
  import opened TlsIdentity
  import opened Messages

  datatype Disk = Disk(codes: Codes, peers: Peers, revs: Revocations)

  datatype LockName = CodesLock | PeersLock | RevocationsLock

  /** AtomicWriteFile can fail after the rename, so an error does not say whether the file changed. */
  datatype SaveOutcome = Saved | FailedBefore | FailedAfter

  /** The environment's part in one step. `io` is false when a call other than the final write fails. */
  datatype Env = Env(now: Time, io: bool, save: SaveOutcome, removed: bool)

  datatype Op =
    | CreateCode(create: CreateRequest, secret: seq<Byte>, salt: seq<Byte>)
    | ConsumeCode(consume: ConsumeRequest)
    | Pair(master: PublicPeer, request: PairRequest)
    | ImportPeer(version: int, imported: PublicPeer, localNetwork: NetworkId)
    | TrustPeer(trusted: PublicPeer)
    | RevokeNode(revoke: RevokeRequest)
    | VerifyPeer(options: VerifyOptions, certificate: Certificate)

  datatype Pc =
    | Start
    | CheckRevoked | CheckPeer
    | LockCodes | LoadCodes | SaveCodes | ReleaseCodes
    | EnsureRead
    | LockPeers | LoadPeers | SavePeers | ReleasePeers
    | LockRevs | LoadRevs | SaveRevs | ReleaseRevs
    | VerifyRead | VerifyRevoked
    | Done | Crashed

  /**
   * An attempt. `held` is the set of its lock handles whose directory it created and has not removed;
   * `codes`, `peers` and `revs` are its copies of a file between loading and saving. `failure` is the
   * error it will answer with. `added` and `consumed` record which of its writes committed.
   */
  datatype Thread = Thread(
    op: Op, pc: Pc, held: set<LockName>, failure: Option<Error>, now: Time,
    codes: Option<Codes>, index: nat,
    peers: Option<Peers>,
    revs: Option<Revocations>, revocation: Option<RevocationRecord>,
    metadata: Option<Metadata>,
    added: bool, consumed: Option<nat>)
  {
    predicate Live() {
      !pc.Done? && !pc.Crashed?
    }

    predicate Succeeded() {
      pc.Done? && failure.None?
    }
  }

  function NewThread(op: Op): Thread {
    Thread(op, Start, {}, None, 0, None, 0, None, None, None, None, false, None)
  }

  // ---------- commits ----------

  datatype Commit =
    | CreatedCode(create: CreateRequest, secret: seq<Byte>, salt: seq<Byte>, at: Time)
    | ConsumedCode(consume: ConsumeRequest, at: Time)
    | AddedPeer(peer: PeerRecord)
    | MarkedRevoked(marked: RevocationRecord)
    | AddedRevocation(revoke: RevokeRequest, at: Time)

  /** Which attempt made a commit. */
  datatype Entry = Entry(thread: nat, commit: Commit)

  /** The atomic operation a commit stands for, on the whole disk; it fails where the operation would. */
  function ApplyCommit(p: Primitives, d: Disk, c: Commit): Result<Disk, Error> {
    match c
    case CreatedCode(q, secret, salt, at) =>
      var (_, record) :- NewJoinRecord(p, q, at, secret, salt);
      Ok(d.(codes := d.codes + [record]))
    case ConsumedCode(q, at) =>
      var codes :- Consume(p, d.codes, q, at);
      Ok(d.(codes := codes))
    case AddedPeer(r) =>
      var peers :- AddPeer(d.peers, r);
      Ok(d.(peers := peers))
    case MarkedRevoked(r) =>
      var peers :- MarkRevoked(d.peers, r);
      Ok(d.(peers := peers))
    case AddedRevocation(q, at) =>
      var (revs, _) :- Revoke(d.revs, q, at);
      Ok(d.(revs := revs))
  }

  /** The operations of a log, one at a time. */
  function Replay(p: Primitives, d: Disk, log: seq<Entry>): Result<Disk, Error>
    decreases |log|
  {
    if log == [] then Ok(d)
    else match Replay(p, d, log[..|log| - 1])
      case Err(e) => Err(e)
      case Ok(before) => ApplyCommit(p, before, log[|log| - 1].commit)
  }

  // ---------- steps ----------

  datatype State = State(disk: Disk, locks: set<LockName>, threads: map<nat, Thread>, log: seq<Entry>)

  /** What one step of one attempt does. */
  datatype Effect = Effect(disk: Disk, locks: set<LockName>, thread: Thread, commit: Option<Commit>)

  predicate AllValidCodes(codes: Codes) {
    forall i :: 0 <= i < |codes| ==> ValidJoinRecord(codes[i])
  }

  predicate AllValidPeers(peers: Peers) {
    forall i :: 0 <= i < |peers| ==> ValidPeerRecord(peers[i])
  }

  predicate AllValidRevs(revs: Revocations) {
    forall i :: 0 <= i < |revs| ==> ValidRevocation(revs[i])
  }

  /** A step that changes nothing outside the attempt. */
  function Local(d: Disk, locks: set<LockName>, t: Thread): Effect {
    Effect(d, locks, t, None)
  }

  function Fail(t: Thread, e: Error, next: Pc): Thread {
    t.(failure := Some(e), pc := next)
  }

  /** AcquireLock: an existing directory means the lock is held, and there is no waiting. */
  function TryLock(d: Disk, locks: set<LockName>, t: Thread, e: Env, name: LockName, next: Pc, giveUp: Pc): Effect {
    if !e.io then Local(d, locks, Fail(t, IoError, giveUp))
    else if name in locks then Local(d, locks, Fail(t, LockHeld, giveUp))
    else Effect(d, locks + {name}, t.(held := t.held + {name}, pc := next), None)
  }

  /** The deferred Release: its error is ignored, and then the directory stays. */
  function Unlock(d: Disk, locks: set<LockName>, t: Thread, e: Env, name: LockName, next: Pc): Effect {
    if e.removed then Effect(d, locks - {name}, t.(held := t.held - {name}, pc := next), None)
    else Local(d, locks, t.(pc := next))
  }

  function FailureOf(o: SaveOutcome): Option<Error> {
    if o.Saved? then None else Some(IoError)
  }

  const PEER_EXPORT_VERSION := 1

  /** PeerExport.Validate; the node id is not compared with the keys. */
  predicate ValidExport(x: PublicPeer) {
    !Blank(x.nodeId) && !Blank(x.networkId) && ValidRole(x.role) && ValidKeys(x.publicKeys)
  }

  function StartStep(p: Primitives, d: Disk, locks: set<LockName>, t: Thread, e: Env): Effect {
    Local(d, locks,
          match t.op
          case CreateCode(_, _, _) => t.(pc := LockCodes)
          case ConsumeCode(q) =>
            (match CheckConsumeRequest(q)
             case Some(err) => Fail(t, err, Done)
             case None => t.(pc := LockCodes))
          case Pair(master, request) =>
            (match CheckAdmission(p, master, request)
             case Some(err) => Fail(t, err, Done)
             case None => t.(pc := CheckRevoked))
          case ImportPeer(version, x, network) =>
            if version != PEER_EXPORT_VERSION || !ValidExport(x) then Fail(t, InvalidRecord, Done)
            else if x.networkId != network then Fail(t, WrongNetwork, Done)
            else if !ValidPeerRecord(NewPeer(x, e.now)) then Fail(t, InvalidRecord, Done)
            else t.(now := e.now, pc := LockPeers)
          case TrustPeer(_) => t.(pc := EnsureRead)
          case RevokeNode(_) => t.(pc := LockRevs)
          case VerifyPeer(o, c) =>
            (match CheckCertificate(p, o, c, e.now)
             case Err(err) => Fail(t, err, Done)
             case Ok(m) => t.(metadata := Some(m), pc := VerifyRead)))
  }

  /** accept's unlocked reading of the revocation file. */
  function CheckRevokedStep(d: Disk, locks: set<LockName>, t: Thread, e: Env): Effect
    requires t.op.Pair?
  {
    if !e.io || !AllValidRevs(d.revs) then Local(d, locks, Fail(t, IoError, Done))
    else if IsRevokedIn(d.revs, t.op.request.peer.nodeId) then Local(d, locks, Fail(t, RevokedPeer, Done))
    else Local(d, locks, t.(pc := CheckPeer))
  }

  /** accept's unlocked look for an existing peer, followed by the checks of the consume request. */
  function CheckPeerStep(d: Disk, locks: set<LockName>, t: Thread, e: Env): Effect
    requires t.op.Pair?
  {
    var x := t.op.request.peer;
    if !e.io || !AllValidPeers(d.peers) then Local(d, locks, Fail(t, IoError, Done))
    else match FindPeer(d.peers, x.nodeId)
      case Some(i) =>
        if SamePeer(d.peers[i], x) then Local(d, locks, BeginConsume(t)) else Local(d, locks, Fail(t, PeerExists, Done))
      case None => Local(d, locks, BeginConsume(t))
  }

  function BeginConsume(t: Thread): Thread
    requires t.op.Pair?
  {
    match CheckConsumeRequest(ConsumeRequestOf(t.op.master, t.op.request))
    case Some(err) => Fail(t, err, Done)
    case None => t.(pc := LockCodes)
  }

  function ConsumeOf(op: Op): ConsumeRequest
    requires op.ConsumeCode? || op.Pair?
  {
    if op.ConsumeCode? then op.consume else ConsumeRequestOf(op.master, op.request)
  }

  function LoadCodesStep(p: Primitives, d: Disk, locks: set<LockName>, t: Thread, e: Env): Effect
    requires t.op.CreateCode? || t.op.ConsumeCode? || t.op.Pair?
  {
    if !e.io || !AllValidCodes(d.codes) then Local(d, locks, Fail(t, IoError, ReleaseCodes))
    else if t.op.CreateCode? then Local(d, locks, t.(codes := Some(d.codes), pc := SaveCodes))
    else match Scan(p, d.codes, ConsumeOf(t.op), 0)
      case Err(err) => Local(d, locks, Fail(t, err, ReleaseCodes))
      case Ok(i) =>
        Local(d, locks, t.(codes := Some(d.codes), index := i, pc := if t.op.Pair? then EnsureRead else SaveCodes))
  }

  /** The new contents of the join-code file and the commit that writing them would be. */
  function CodesToSave(p: Primitives, t: Thread, now: Time): Result<(Codes, Commit), Error>
    requires t.codes.Some? && (t.op.CreateCode? || t.op.ConsumeCode? || t.op.Pair?)
    requires !t.op.CreateCode? ==> t.index < |t.codes.value|
  {
    if t.op.CreateCode? then
      var (_, record) :- NewJoinRecord(p, t.op.create, now, t.op.secret, t.op.salt);
      Ok((t.codes.value + [record], CreatedCode(t.op.create, t.op.secret, t.op.salt, now)))
    else
      var codes :- ConsumeAt(t.codes.value, t.index, ConsumeOf(t.op).consumedBy, now);
      Ok((codes, ConsumedCode(ConsumeOf(t.op), now)))
  }

  function SaveCodesStep(p: Primitives, d: Disk, locks: set<LockName>, t: Thread, e: Env): Effect
    requires t.codes.Some? && (t.op.CreateCode? || t.op.ConsumeCode? || t.op.Pair?)
    requires !t.op.CreateCode? ==> t.index < |t.codes.value|
  {
    var after := t.(codes := None, pc := ReleaseCodes);
    match CodesToSave(p, t, e.now)
    case Err(err) => Local(d, locks, after.(failure := Some(err)))
    case Ok((codes, commit)) =>
      if e.save.FailedBefore? then Local(d, locks, after.(failure := Some(IoError)))
      else Effect(d.(codes := codes), locks,
                  after.(failure := FailureOf(e.save), consumed := if t.op.CreateCode? then None else Some(t.index)),
                  Some(commit))
  }

  function TrustedPeer(op: Op): PublicPeer
    requires op.Pair? || op.TrustPeer? || op.ImportPeer?
  {
    match op
    case Pair(_, request) => request.peer
    case TrustPeer(x) => x
    case ImportPeer(_, x, _) => x
  }

  /** Where addPeerIfMissing returns to: the consuming scan when pairing, the caller otherwise. */
  function AfterEnsure(t: Thread, failure: Option<Error>): Thread {
    var u := t.(failure := failure);
    if !t.op.Pair? then u.(pc := Done)
    else if failure.None? then u.(pc := SaveCodes)
    else u.(codes := None, pc := ReleaseCodes)
  }

  /** addPeerIfMissing up to the store's Add: validation, the unlocked look, the new record's validation. */
  function EnsureReadStep(p: Primitives, d: Disk, locks: set<LockName>, t: Thread, e: Env): Effect
    requires t.op.Pair? || t.op.TrustPeer?
  {
    var x := TrustedPeer(t.op);
    Local(d, locks,
          match CheckPublicPeer(p, x)
          case Some(err) => AfterEnsure(t, Some(err))
          case None =>
            if !e.io || !AllValidPeers(d.peers) then AfterEnsure(t, Some(IoError))
            else match FindPeer(d.peers, x.nodeId)
              case Some(i) => AfterEnsure(t, if SamePeer(d.peers[i], x) then None else Some(PeerExists))
              case None =>
                if ValidPeerRecord(NewPeer(x, e.now)) then t.(now := e.now, pc := LockPeers)
                else AfterEnsure(t, Some(InvalidRecord)))
  }

  /** Giving up on the peers lock ends the attempt, except that a pairing still has to leave the join-code section. */
  function LockPeersStep(d: Disk, locks: set<LockName>, t: Thread, e: Env): Effect {
    var r := TryLock(d, locks, t, e, PeersLock, LoadPeers, if t.op.Pair? then ReleaseCodes else Done);
    if r.thread.pc.ReleaseCodes? then r.(thread := r.thread.(codes := None)) else r
  }

  function PeersToSave(t: Thread): Result<(Peers, Commit), Error>
    requires t.peers.Some?
    requires t.op.Pair? || t.op.TrustPeer? || t.op.ImportPeer? || (t.op.RevokeNode? && t.revocation.Some?)
  {
    if t.op.RevokeNode? then
      var peers :- MarkRevoked(t.peers.value, t.revocation.value);
      Ok((peers, MarkedRevoked(t.revocation.value)))
    else
      var r := NewPeer(TrustedPeer(t.op), t.now);
      var peers :- AddPeer(t.peers.value, r);
      Ok((peers, AddedPeer(r)))
  }

  /** Load and scan. A revoked node that is not a peer is no error for the command. */
  function LoadPeersStep(d: Disk, locks: set<LockName>, t: Thread, e: Env): Effect
    requires t.op.Pair? || t.op.TrustPeer? || t.op.ImportPeer? || (t.op.RevokeNode? && t.revocation.Some?)
  {
    if !e.io || !AllValidPeers(d.peers) then Local(d, locks, Fail(t, IoError, ReleasePeers))
    else match PeersToSave(t.(peers := Some(d.peers)))
      case Err(PeerNotFound) => Local(d, locks, t.(pc := ReleasePeers))
      case Err(err) => Local(d, locks, Fail(t, err, ReleasePeers))
      case Ok(_) => Local(d, locks, t.(peers := Some(d.peers), pc := SavePeers))
  }

  function SavePeersStep(d: Disk, locks: set<LockName>, t: Thread, e: Env): Effect
    requires t.peers.Some?
    requires t.op.Pair? || t.op.TrustPeer? || t.op.ImportPeer? || (t.op.RevokeNode? && t.revocation.Some?)
  {
    var after := t.(peers := None, pc := ReleasePeers);
    match PeersToSave(t)
    case Err(err) => Local(d, locks, after.(failure := Some(err)))
    case Ok((peers, commit)) =>
      if e.save.FailedBefore? then Local(d, locks, after.(failure := Some(IoError)))
      else Effect(d.(peers := peers), locks,
                  after.(failure := FailureOf(e.save), added := !t.op.RevokeNode?), Some(commit))
  }

  function ReleasePeersStep(d: Disk, locks: set<LockName>, t: Thread, e: Env): Effect {
    var r := Unlock(d, locks, t, e, PeersLock, Done);
    r.(thread := AfterEnsure(r.thread, t.failure))
  }

  /** Load and scan: a node already revoked is answered with its first record and nothing is written. */
  function LoadRevsStep(d: Disk, locks: set<LockName>, t: Thread, e: Env): Effect
    requires t.op.RevokeNode?
  {
    if !e.io || !AllValidRevs(d.revs) then Local(d, locks, Fail(t, IoError, ReleaseRevs))
    else match Revoke(d.revs, t.op.revoke, e.now)
      case Err(err) => Local(d, locks, Fail(t, err, ReleaseRevs))
      case Ok((revs, record)) =>
        if revs == d.revs then Local(d, locks, t.(revocation := Some(record), pc := ReleaseRevs))
        else Local(d, locks, t.(revs := Some(d.revs), revocation := Some(record), now := e.now, pc := SaveRevs))
  }

  function SaveRevsStep(d: Disk, locks: set<LockName>, t: Thread, e: Env): Effect
    requires t.op.RevokeNode? && t.revs.Some? && t.revocation.Some?
  {
    var after := t.(revs := None, pc := ReleaseRevs);
    if e.save.FailedBefore? then Local(d, locks, after.(failure := Some(IoError)))
    else Effect(d.(revs := t.revs.value + [t.revocation.value]), locks,
                after.(failure := FailureOf(e.save)), Some(AddedRevocation(t.op.revoke, t.now)))
  }

  /** After the revocation is on file and its lock is gone comes the peer's mark, under the other lock. */
  function ReleaseRevsStep(d: Disk, locks: set<LockName>, t: Thread, e: Env): Effect {
    Unlock(d, locks, t, e, RevocationsLock, if t.failure.None? then LockPeers else Done)
  }

  function VerifyReadStep(d: Disk, locks: set<LockName>, t: Thread, e: Env): Effect
    requires t.op.VerifyPeer? && t.metadata.Some?
  {
    if !e.io || !AllValidPeers(d.peers) then Local(d, locks, Fail(t, IoError, Done))
    else match CheckStoredPeer(t.op.options, t.metadata.value, d.peers)
      case Some(err) => Local(d, locks, Fail(t, err, Done))
      case None => Local(d, locks, t.(pc := VerifyRevoked))
  }

  function VerifyRevokedStep(d: Disk, locks: set<LockName>, t: Thread, e: Env): Effect
    requires t.metadata.Some?
  {
    if !e.io || !AllValidRevs(d.revs) then Local(d, locks, Fail(t, IoError, Done))
    else if IsRevokedIn(d.revs, t.metadata.value.nodeId) then Local(d, locks, Fail(t, RevokedPeer, Done))
    else Local(d, locks, t.(pc := Done))
  }

  /** The program counter fits the operation and the copies it needs are there. */
  predicate WellFormed(t: Thread) {
    match t.pc
    case Start => true
    case CheckRevoked => t.op.Pair?
    case CheckPeer => t.op.Pair?
    case LockCodes => t.op.CreateCode? || t.op.ConsumeCode? || t.op.Pair?
    case LoadCodes => t.op.CreateCode? || t.op.ConsumeCode? || t.op.Pair?
    case SaveCodes =>
      && (t.op.CreateCode? || t.op.ConsumeCode? || t.op.Pair?)
      && t.codes.Some? && (t.op.CreateCode? || t.index < |t.codes.value|)
    case ReleaseCodes => t.op.CreateCode? || t.op.ConsumeCode? || t.op.Pair?
    case EnsureRead => t.op.TrustPeer? || (t.op.Pair? && Scanned(t))
    case LockPeers => InPeersPart(t)
    case LoadPeers => InPeersPart(t)
    case SavePeers => InPeersPart(t) && t.peers.Some?
    case ReleasePeers => InPeersPart(t)
    case LockRevs => t.op.RevokeNode?
    case LoadRevs => t.op.RevokeNode?
    case SaveRevs => t.op.RevokeNode? && t.revs.Some? && t.revocation.Some?
    case ReleaseRevs => t.op.RevokeNode? && (t.failure.None? ==> t.revocation.Some?)
    case VerifyRead => t.op.VerifyPeer? && t.metadata.Some?
    case VerifyRevoked => t.op.VerifyPeer? && t.metadata.Some?
    case Done => true
    case Crashed => true
  }

  predicate Scanned(t: Thread) {
    t.codes.Some? && t.index < |t.codes.value|
  }

  predicate InPeersPart(t: Thread) {
    || t.op.TrustPeer? || t.op.ImportPeer?
    || (t.op.Pair? && Scanned(t))
    || (t.op.RevokeNode? && t.revocation.Some?)
  }

  function Advance(p: Primitives, d: Disk, locks: set<LockName>, t: Thread, e: Env): Effect
    requires WellFormed(t)
  {
    match t.pc
    case Start => StartStep(p, d, locks, t, e)
    case CheckRevoked => CheckRevokedStep(d, locks, t, e)
    case CheckPeer => CheckPeerStep(d, locks, t, e)
    case LockCodes => TryLock(d, locks, t, e, CodesLock, LoadCodes, Done)
    case LoadCodes => LoadCodesStep(p, d, locks, t, e)
    case SaveCodes => SaveCodesStep(p, d, locks, t, e)
    case ReleaseCodes => Unlock(d, locks, t, e, CodesLock, Done)
    case EnsureRead => EnsureReadStep(p, d, locks, t, e)
    case LockPeers => LockPeersStep(d, locks, t, e)
    case LoadPeers => LoadPeersStep(d, locks, t, e)
    case SavePeers => SavePeersStep(d, locks, t, e)
    case ReleasePeers => ReleasePeersStep(d, locks, t, e)
    case LockRevs => TryLock(d, locks, t, e, RevocationsLock, LoadRevs, Done)
    case LoadRevs => LoadRevsStep(d, locks, t, e)
    case SaveRevs => SaveRevsStep(d, locks, t, e)
    case ReleaseRevs => ReleaseRevsStep(d, locks, t, e)
    case VerifyRead => VerifyReadStep(d, locks, t, e)
    case VerifyRevoked => VerifyRevokedStep(d, locks, t, e)
    case Done => Local(d, locks, t)
    case Crashed => Local(d, locks, t)
  }

  datatype Action =
    | Spawn(id: nat, op: Op)
    | Go(id: nat, env: Env)
    | Crash(id: nat)

  function Step(p: Primitives, s: State, a: Action): State
  {
    match a
    case Spawn(id, op) =>
      if id in s.threads then s else s.(threads := s.threads[id := NewThread(op)])
    case Crash(id) =>
      if id in s.threads && s.threads[id].Live()
      then s.(threads := s.threads[id := s.threads[id].(pc := Crashed)])
      else s
    case Go(id, env) =>
      if id in s.threads && s.threads[id].Live() && WellFormed(s.threads[id]) then
        var r := Advance(p, s.disk, s.locks, s.threads[id], env);
        State(r.disk, r.locks, s.threads[id := r.thread],
              match r.commit case None => s.log case Some(c) => s.log + [Entry(id, c)])
      else s
  }

  function Run(p: Primitives, s: State, actions: seq<Action>): State
    decreases |actions|
  {
    if actions == [] then s
    else Step(p, Run(p, s, actions[..|actions| - 1]), actions[|actions| - 1])
  }
}
