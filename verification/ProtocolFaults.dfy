/** Calls that fail: what an attempt makes of them, and which locks it leaves behind. */
module ProtocolFaults {
  import opened Wrappers
  import opened Identity
  import opened Records
  import opened StoreOps
  import opened Messages
  import opened TlsIdentity
  import opened Protocol
  import opened ProtocolInvariant
  import opened ProtocolRuns

  predicate SavesAt(pc: Pc) {
    pc.SaveCodes? || pc.SavePeers? || pc.SaveRevs?
  }

  /** The calls of one turn worked. The release of a lock is not among them: nobody looks at its error. */
  predicate CallsWorked(pc: Pc, e: Env) {
    match pc
    case SaveCodes | SavePeers | SaveRevs => e.save.Saved?
    case Start | ReleaseCodes | ReleasePeers | ReleaseRevs | Done | Crashed => true
    case _ => e.io
  }

  // ---------- an attempt with a failed call does not succeed ----------

  /**
   * One turn with a failed call: the attempt has failed and takes and returns no lock. A failed read or lock, and
   * a save that failed before the rename, change no file; one that failed after it has the effect of a good one.
   */
  predicate FailsCleanly(p: Primitives, d: Disk, locks: set<LockName>, t: Thread, e: Env)
    requires WellFormed(t)
  {
    var r, good := Advance(p, d, locks, t, e), Advance(p, d, locks, t, e.(io := true, save := Saved));
    && r.thread.failure.Some? && r.locks == locks && r.thread.held == t.held
    && (if SavesAt(t.pc) && e.save.FailedAfter? then r.disk == good.disk && r.commit == good.commit
        else r.disk == d && r.commit == None)
    && ((!SavesAt(t.pc) && !t.pc.EnsureRead?) || good.thread.failure.None? ==> r.thread.failure == Some(IoError))
  }

  lemma FailedSave(p: Primitives, d: Disk, locks: set<LockName>, t: Thread, e: Env)
    requires WellFormed(t) && SavesAt(t.pc) && !CallsWorked(t.pc, e)
    ensures FailsCleanly(p, d, locks, t, e)
  {
    hide CodesToSave, PeersToSave;
  }

  lemma FailedRead(p: Primitives, d: Disk, locks: set<LockName>, t: Thread, e: Env)
    requires WellFormed(t) && !SavesAt(t.pc) && !CallsWorked(t.pc, e)
    ensures FailsCleanly(p, d, locks, t, e)
  {
    hide AllValidCodes, AllValidPeers, AllValidRevs, CheckPublicPeer, FindPeer, SamePeer, ValidPeerRecord,
      PeersToSave, CheckStoredPeer, IsRevokedIn, Scan, Revoke;
  }

  lemma FailedCall(p: Primitives, d: Disk, locks: set<LockName>, t: Thread, e: Env)
    requires WellFormed(t) && !CallsWorked(t.pc, e)
    ensures FailsCleanly(p, d, locks, t, e)
  {
    hide WellFormed, CallsWorked, FailsCleanly;
    if SavesAt(t.pc) {
      FailedSave(p, d, locks, t, e);
    } else {
      FailedRead(p, d, locks, t, e);
    }
  }

  /** A failure is never forgotten. */
  lemma FailureStays(p: Primitives, d: Disk, locks: set<LockName>, t: Thread, e: Env)
    requires ThreadOk(p, d, t) && WellFormed(t) && t.failure.Some?
    ensures Advance(p, d, locks, t, e).thread.failure == t.failure
  {
    hide Chosen, HasPeer, RevocationOnFile, ConsumptionHolds;
  }

  lemma FailingStep(p: Primitives, d0: Disk, s: State, a: Action, id: nat)
    requires Inv(p, d0, s) && id in s.threads && s.threads[id].failure.Some?
    ensures id in Step(p, s, a).threads && Step(p, s, a).threads[id].failure == s.threads[id].failure
  {
    hide DiskOk, ThreadOk, Advance, WellFormed, Replay, OneOwner, ConsumedOnce, Grows, GoodEffect;
    if a.Go? && a.id == id && s.threads[id].Live() {
      AdvanceHere(p, s, id, a.env);
      FailureStays(p, s.disk, s.locks, s.threads[id], a.env);
    }
  }

  lemma {:induction false} FailedForGood(p: Primitives, d0: Disk, s: State, actions: seq<Action>, id: nat)
    requires Inv(p, d0, s) && id in s.threads && s.threads[id].failure.Some?
    ensures id in Run(p, s, actions).threads && Run(p, s, actions).threads[id].failure == s.threads[id].failure
    decreases |actions|
  {
    hide Inv, Step;
    if actions != [] {
      var front := actions[..|actions| - 1];
      FailedForGood(p, d0, s, front, id);
      RunOk(p, d0, s, front);
      FailingStep(p, d0, Run(p, s, front), actions[|actions| - 1], id);
    }
  }

  /** The attempt's own turn at place `k` of a run, before it takes it. */
  predicate TurnOf(p: Primitives, s: State, actions: seq<Action>, k: nat, id: nat) {
    && k < |actions| && actions[k].Go? && actions[k].id == id
    && id in Run(p, s, actions[..k]).threads && Run(p, s, actions[..k]).threads[id].Live()
  }

  /** Whatever the others do, an attempt that succeeded had no turn of its own in which a call failed. */
  lemma SuccessHadNoFailedCall(p: Primitives, d0: Disk, s: State, actions: seq<Action>, id: nat, k: nat)
    requires Inv(p, d0, s) && TurnOf(p, s, actions, k, id)
    requires id in Run(p, s, actions).threads && Run(p, s, actions).threads[id].Succeeded()
    ensures CallsWorked(Run(p, s, actions[..k]).threads[id].pc, actions[k].env)
  {
    hide Inv, Run, CallsWorked, Advance, WellFormed, ThreadOk;
    var before := Run(p, s, actions[..k]);
    RunOk(p, d0, s, actions[..k]);
    if !CallsWorked(before.threads[id].pc, actions[k].env) {
      var after := Step(p, before, actions[k]);
      StepOk(p, d0, before, actions[k]);
      FailedTurn(p, d0, before, id, actions[k].env);
      assert actions == actions[..k] + actions[k..] && actions[k..][1..] == actions[k + 1..];
      RunConcat(p, s, actions[..k], actions[k..]);
      RunFirst(p, before, actions[k..]);
      FailedForGood(p, d0, after, actions[k + 1..], id);
      assert false;
    }
  }

  lemma FailedTurn(p: Primitives, d0: Disk, s: State, id: nat, e: Env)
    requires Inv(p, d0, s) && id in s.threads && s.threads[id].Live() && !CallsWorked(s.threads[id].pc, e)
    ensures id in Step(p, s, Go(id, e)).threads && Step(p, s, Go(id, e)).threads[id].failure.Some?
  {
    hide DiskOk, ThreadOk, Advance, WellFormed, Replay, OneOwner, ConsumedOnce, Grows, GoodEffect, CallsWorked;
    AdvanceHere(p, s, id, e);
    FailedCall(p, s.disk, s.locks, s.threads[id], e);
  }

  // ---------- the locks an attempt leaves behind ----------

  /** The locks of the sections that a program point lies in. */
  function Inside(t: Thread): set<LockName> {
    match t.pc
    case LoadCodes | SaveCodes | ReleaseCodes => {CodesLock}
    case EnsureRead | LockPeers => if t.op.Pair? then {CodesLock} else {}
    case LoadPeers | SavePeers | ReleasePeers => if t.op.Pair? then {CodesLock, PeersLock} else {PeersLock}
    case LoadRevs | SaveRevs | ReleaseRevs => {RevocationsLock}
    case _ => {}
  }

  predicate Releases(pc: Pc, name: LockName) {
    match name
    case CodesLock => pc.ReleaseCodes?
    case PeersLock => pc.ReleasePeers?
    case RevocationsLock => pc.ReleaseRevs?
  }

  /** A turn keeps a lock that it should not exactly if it is the turn to release it and the release fails. */
  predicate Keeps(t: Thread, t': Thread, e: Env, name: LockName) {
    var left := (name in t.held && name !in Inside(t)) || (Releases(t.pc, name) && !e.removed);
    && (left ==> name !in Inside(t'))
    && (name in t'.held <==> name in Inside(t') || left)
  }

  lemma CodesTurnKeeps(p: Primitives, d: Disk, locks: set<LockName>, t: Thread, e: Env, name: LockName)
    requires WellFormed(t) && Inside(t) <= t.held <= locks
    requires t.pc.LockCodes? || t.pc.LoadCodes? || t.pc.SaveCodes? || t.pc.ReleaseCodes?
    ensures Keeps(t, Advance(p, d, locks, t, e).thread, e, name)
  {
    hide AllValidCodes, CodesToSave, Scan, StartStep, VerifyReadStep, VerifyRevokedStep, CheckRevokedStep,
      CheckPeerStep, EnsureReadStep, LockPeersStep, LoadPeersStep, SavePeersStep, ReleasePeersStep, LoadRevsStep,
      SaveRevsStep, ReleaseRevsStep;
  }

  lemma EnteringTurnKeeps(p: Primitives, d: Disk, locks: set<LockName>, t: Thread, e: Env, name: LockName)
    requires WellFormed(t) && Inside(t) <= t.held <= locks
    requires t.pc.EnsureRead? || t.pc.LockPeers?
    ensures Keeps(t, Advance(p, d, locks, t, e).thread, e, name)
  {
    hide LoadPeersStep, SavePeersStep, ReleasePeersStep, Unlock,
      AllValidPeers, CheckPublicPeer, FindPeer, SamePeer, ValidPeerRecord, PeersToSave, StartStep, VerifyReadStep,
      VerifyRevokedStep, CheckRevokedStep, CheckPeerStep, LoadCodesStep, SaveCodesStep, LoadRevsStep, SaveRevsStep,
      ReleaseRevsStep;
  }

  lemma PeersTurnKeeps(p: Primitives, d: Disk, locks: set<LockName>, t: Thread, e: Env, name: LockName)
    requires WellFormed(t) && Inside(t) <= t.held <= locks
    requires t.pc.LoadPeers? || t.pc.SavePeers? || t.pc.ReleasePeers?
    ensures Keeps(t, Advance(p, d, locks, t, e).thread, e, name)
  {
    hide EnsureReadStep, LockPeersStep, TryLock,
      AllValidPeers, CheckPublicPeer, FindPeer, SamePeer, ValidPeerRecord, PeersToSave, StartStep, VerifyReadStep,
      VerifyRevokedStep, CheckRevokedStep, CheckPeerStep, LoadCodesStep, SaveCodesStep, LoadRevsStep, SaveRevsStep,
      ReleaseRevsStep;
  }

  lemma RevsTurnKeeps(p: Primitives, d: Disk, locks: set<LockName>, t: Thread, e: Env, name: LockName)
    requires WellFormed(t) && Inside(t) <= t.held <= locks
    requires t.pc.LockRevs? || t.pc.LoadRevs? || t.pc.SaveRevs? || t.pc.ReleaseRevs?
    ensures Keeps(t, Advance(p, d, locks, t, e).thread, e, name)
  {
    hide AllValidRevs, Revoke, StartStep, VerifyReadStep, VerifyRevokedStep, CheckRevokedStep, CheckPeerStep,
      LoadCodesStep, SaveCodesStep, EnsureReadStep, LockPeersStep, LoadPeersStep, SavePeersStep, ReleasePeersStep;
  }

  lemma ReadingTurnKeeps(p: Primitives, d: Disk, locks: set<LockName>, t: Thread, e: Env, name: LockName)
    requires WellFormed(t) && Inside(t) <= t.held <= locks
    requires t.pc.CheckRevoked? || t.pc.CheckPeer? || t.pc.VerifyRead? || t.pc.VerifyRevoked?
    ensures Keeps(t, Advance(p, d, locks, t, e).thread, e, name)
  {
    hide AllValidPeers, AllValidRevs, CheckStoredPeer, IsRevokedIn, FindPeer, SamePeer, CheckConsumeRequest, StartStep,
      LoadCodesStep, SaveCodesStep, Unlock, TryLock, EnsureReadStep, LockPeersStep, LoadPeersStep, SavePeersStep,
      ReleasePeersStep, LoadRevsStep, SaveRevsStep, ReleaseRevsStep;
  }

  lemma FirstTurnKeeps(p: Primitives, d: Disk, locks: set<LockName>, t: Thread, e: Env, name: LockName)
    requires WellFormed(t) && Inside(t) <= t.held <= locks
    requires t.pc.Start?
    ensures Keeps(t, Advance(p, d, locks, t, e).thread, e, name)
  {
    hide CheckCertificate, CheckAdmission, CheckConsumeRequest, ValidPeerRecord, ValidExport, VerifyReadStep,
      VerifyRevokedStep, CheckRevokedStep, CheckPeerStep, LoadCodesStep, SaveCodesStep, Unlock, TryLock,
      EnsureReadStep, LockPeersStep, LoadPeersStep, SavePeersStep, ReleasePeersStep, LoadRevsStep, SaveRevsStep,
      ReleaseRevsStep;
  }

  lemma TurnKeeps(p: Primitives, d: Disk, locks: set<LockName>, t: Thread, e: Env, name: LockName)
    requires WellFormed(t) && t.Live() && Inside(t) <= t.held <= locks
    ensures Keeps(t, Advance(p, d, locks, t, e).thread, e, name)
  {
    hide Advance, Keeps, WellFormed, Inside;
    if t.pc.LockCodes? || t.pc.LoadCodes? || t.pc.SaveCodes? || t.pc.ReleaseCodes? {
      CodesTurnKeeps(p, d, locks, t, e, name);
    } else if t.pc.EnsureRead? || t.pc.LockPeers? {
      EnteringTurnKeeps(p, d, locks, t, e, name);
    } else if t.pc.LoadPeers? || t.pc.SavePeers? || t.pc.ReleasePeers? {
      PeersTurnKeeps(p, d, locks, t, e, name);
    } else if t.pc.LockRevs? || t.pc.LoadRevs? || t.pc.SaveRevs? || t.pc.ReleaseRevs? {
      RevsTurnKeeps(p, d, locks, t, e, name);
    } else if t.pc.Start? {
      FirstTurnKeeps(p, d, locks, t, e, name);
    } else {
      ReadingTurnKeeps(p, d, locks, t, e, name);
    }
  }

  /** The attempt's turn to release `name`, in which the release failed. */
  predicate FailedRelease(p: Primitives, s: State, actions: seq<Action>, k: nat, id: nat, name: LockName) {
    TurnOf(p, s, actions, k, id)
    && Releases(Run(p, s, actions[..k]).threads[id].pc, name) && !actions[k].env.removed
  }

  /** So far, some turn of the attempt was a failed release of `name`. */
  ghost predicate WasLeft(p: Primitives, s: State, actions: seq<Action>, id: nat, name: LockName) {
    exists k: nat :: k < |actions| && FailedRelease(p, s, actions, k, id, name)
  }

  /** What a run so far says about the locks of an attempt that has not crashed. */
  ghost predicate HoldsWhatItShould(p: Primitives, s: State, actions: seq<Action>, id: nat, name: LockName) {
    id in Run(p, s, actions).threads
    && var t := Run(p, s, actions).threads[id];
       || t.pc.Crashed?
       || (&& (name in t.held <==> name in Inside(t) || WasLeft(p, s, actions, id, name))
           && (WasLeft(p, s, actions, id, name) ==> name !in Inside(t)))
  }

  lemma {:induction false} HeldSoFar(p: Primitives, d0: Disk, s: State, actions: seq<Action>, id: nat, name: LockName)
    requires Inv(p, d0, s) && id in s.threads && s.threads[id] == NewThread(s.threads[id].op)
    ensures HoldsWhatItShould(p, s, actions, id, name)
    decreases |actions|
  {
    hide Inv, Step, FailedRelease, Inside;
    if actions == [] {
      NothingHeld(p, s, id, name);
    } else {
      var front, last := actions[..|actions| - 1], actions[|actions| - 1];
      assert actions == front + [last];
      HeldSoFar(p, d0, s, front, id, name);
      RunOk(p, d0, s, front);
      RunSnoc(p, s, front, last);
      forall k: nat | k < |front|
        ensures FailedRelease(p, s, actions, k, id, name) <==> FailedRelease(p, s, front, k, id, name)
      {
        SamePlace(p, s, front, last, k, id, name);
      }
      LastTurn(p, d0, s, front, last, id, name);
    }
  }

  lemma NothingHeld(p: Primitives, s: State, id: nat, name: LockName)
    requires id in s.threads && s.threads[id] == NewThread(s.threads[id].op)
    ensures HoldsWhatItShould(p, s, [], id, name)
  {
  }

  lemma SamePlace(p: Primitives, s: State, front: seq<Action>, last: Action, k: nat, id: nat, name: LockName)
    requires k < |front|
    ensures FailedRelease(p, s, front + [last], k, id, name) <==> FailedRelease(p, s, front, k, id, name)
  {
    hide Run;
    assert (front + [last])[..k] == front[..k];
  }

  /** What the last action of a run does to the attempt's hold on `name`, if it is not its crash. */
  predicate KeepsNow(p: Primitives, s: State, front: seq<Action>, last: Action, t: Thread, t': Thread, id: nat,
                     name: LockName)
  {
    var left := (name in t.held && name !in Inside(t)) || FailedRelease(p, s, front + [last], |front|, id, name);
    && (left ==> name !in Inside(t'))
    && (name in t'.held <==> name in Inside(t') || left)
  }

  lemma LastTurn(p: Primitives, d0: Disk, s: State, front: seq<Action>, last: Action, id: nat, name: LockName)
    requires Inv(p, d0, Run(p, s, front)) && id in Run(p, s, front).threads
    ensures var before, after := Run(p, s, front), Step(p, Run(p, s, front), last);
            && id in after.threads
            && (before.threads[id].pc.Crashed? ==> after.threads[id].pc.Crashed?)
            && (after.threads[id].pc.Crashed?
                || KeepsNow(p, s, front, last, before.threads[id], after.threads[id], id, name))
  {
    hide DiskOk, ThreadOk, Advance, WellFormed, Replay, OneOwner, ConsumedOnce, Grows, GoodEffect, Run, Inside;
    var before := Run(p, s, front);
    assert (front + [last])[..|front|] == front;
    if last.Go? && last.id == id && before.threads[id].Live() {
      AdvanceHere(p, before, id, last.env);
      InsideIsHeld(p, before.disk, before.threads[id]);
      TurnKeeps(p, before.disk, before.locks, before.threads[id], last.env, name);
    } else {
      assert !FailedRelease(p, s, front + [last], |front|, id, name);
      InsideIsHeld(p, before.disk, before.threads[id]);
    }
  }

  lemma InsideIsHeld(p: Primitives, d: Disk, t: Thread)
    requires ThreadOk(p, d, t)
    ensures Inside(t) <= t.held
  {
    hide HasPeer, RevocationOnFile, ConsumptionHolds, Chosen;
  }

  /**
   * An attempt that has come to its end still has a lock exactly if it had a turn to release it and the release
   * failed: no path through the sections, with whatever failures, forgets a lock.
   */
  lemma LockKeptIff(p: Primitives, d0: Disk, s: State, actions: seq<Action>, id: nat, name: LockName)
    requires Inv(p, d0, s) && id in s.threads && s.threads[id] == NewThread(s.threads[id].op)
    requires id in Run(p, s, actions).threads && Run(p, s, actions).threads[id].pc.Done?
    ensures name in Run(p, s, actions).threads[id].held
            <==> exists k: nat :: k < |actions| && FailedRelease(p, s, actions, k, id, name)
  {
    hide Inv, Run, FailedRelease;
    HeldSoFar(p, d0, s, actions, id, name);
  }
}
