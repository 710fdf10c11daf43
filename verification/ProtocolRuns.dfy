/** From one attempt's step to every state of every run. */
module ProtocolRuns {
  import opened Wrappers
  import opened Identity
  import opened StoreOps
  import opened Protocol
  import opened ProtocolInvariant

  lemma AdvanceOk(p: Primitives, d: Disk, locks: set<LockName>, t: Thread, e: Env)
    requires DiskOk(d) && t.held <= locks && ThreadOk(p, d, t) && t.Live()
    ensures WellFormed(t)
    ensures GoodEffect(p, d, locks, t, Advance(p, d, locks, t, e))
  {
    hide DiskOk, GoodEffect, ThreadOk, Advance, WellFormed;
    ThreadOkIsWellFormed(p, d, t);
    match t.pc {
      case Start => StartOk(p, d, locks, t, e);
      case CheckRevoked => CheckRevokedOk(p, d, locks, t, e);
      case CheckPeer => CheckPeerOk(p, d, locks, t, e);
      case LockCodes => LockCodesOk(p, d, locks, t, e);
      case LoadCodes => LoadCodesOk(p, d, locks, t, e);
      case SaveCodes =>
        SaveCodesFor(p, d, t);
        if t.op.CreateCode? { SaveNewCodeOk(p, d, locks, t, e); } else { SaveConsumedOk(p, d, locks, t, e); }
      case ReleaseCodes => ReleaseCodesOk(p, d, locks, t, e);
      case EnsureRead => EnsureReadOk(p, d, locks, t, e);
      case LockPeers => LockPeersOk(p, d, locks, t, e);
      case LoadPeers => LoadPeersOk(p, d, locks, t, e);
      case SavePeers =>
        SavePeersFor(p, d, t);
        if t.op.RevokeNode? { SaveMarkOk(p, d, locks, t, e); } else { SavePeerOk(p, d, locks, t, e); }
      case ReleasePeers => ReleasePeersOk(p, d, locks, t, e);
      case LockRevs => LockRevsOk(p, d, locks, t, e);
      case LoadRevs => LoadRevsOk(p, d, locks, t, e);
      case SaveRevs => SaveRevsOk(p, d, locks, t, e);
      case ReleaseRevs => ReleaseRevsOk(p, d, locks, t, e);
      case VerifyRead => VerifyOk(p, d, locks, t, e);
      case VerifyRevoked => VerifyOk(p, d, locks, t, e);
      case Done =>
      case Crashed =>
    }
  }

  lemma SaveCodesFor(p: Primitives, d: Disk, t: Thread)
    requires ThreadOk(p, d, t) && t.pc.SaveCodes?
    ensures t.op.CreateCode? || Consumes(t.op)
  {
    hide Chosen, HasPeer;
  }

  lemma SavePeersFor(p: Primitives, d: Disk, t: Thread)
    requires ThreadOk(p, d, t) && t.pc.SavePeers?
    ensures t.op.RevokeNode? || EnsuresPeer(t.op)
  {
    hide Chosen, RevocationOnFile;
  }

  /** Growth of the files leaves every other attempt's assertion true, if the files it has locked did not move. */
  lemma Undisturbed(p: Primitives, d: Disk, d': Disk, t: Thread)
    requires ThreadOk(p, d, t) && Grows(d, d')
    requires CodesLock in t.held ==> d'.codes == d.codes
    requires PeersLock in t.held ==> d'.peers == d.peers
    requires RevocationsLock in t.held ==> d'.revs == d.revs
    ensures ThreadOk(p, d', t)
  {
    hide HasPeer, PeersGrow, Chosen, Revoke, Admitted, ConsumeChecked;
    if EnsuresPeer(t.op) && HasPeer(d.peers, TrustedPeer(t.op)) {
      HasPeerGrows(d.peers, d'.peers, TrustedPeer(t.op));
    }
    if t.revocation.Some? && t.revocation.value in d.revs {
      var k :| 0 <= k < |d.revs| && d.revs[k] == t.revocation.value;
      assert d'.revs[k] == d.revs[k];
    }
    if t.consumed.Some? && t.consumed.value < |d.codes| {
      assert RecordGrows(d.codes[t.consumed.value], d'.codes[t.consumed.value]);
    }
  }

  // ---------- states ----------

  ghost predicate ThreadsOk(p: Primitives, s: State) {
    forall i :: i in s.threads ==> ThreadOk(p, s.disk, s.threads[i]) && s.threads[i].held <= s.locks
  }

  /** No lock directory belongs to two attempts, crashed ones included. */
  ghost predicate OneOwner(s: State) {
    forall i, j :: i in s.threads && j in s.threads && i != j ==> s.threads[i].held !! s.threads[j].held
  }

  ghost predicate ConsumedOnce(s: State) {
    forall i, j :: i in s.threads && j in s.threads && i != j && s.threads[i].consumed.Some? ==>
      s.threads[i].consumed != s.threads[j].consumed
  }

  ghost predicate Inv(p: Primitives, d0: Disk, s: State) {
    && DiskOk(s.disk)
    && ThreadsOk(p, s) && OneOwner(s) && ConsumedOnce(s)
    && Replay(p, d0, s.log) == Ok(s.disk)
  }

  /** A node's root before any of the attempts considered here: sound files, any stale lock directories. */
  ghost predicate Initial(s: State) {
    DiskOk(s.disk) && s.threads == map[] && s.log == []
  }

  lemma InitialInv(p: Primitives, s: State)
    requires Initial(s)
    ensures Inv(p, s.disk, s)
  {
  }

  lemma NewThreadOk(p: Primitives, d: Disk, op: Op)
    ensures ThreadOk(p, d, NewThread(op))
  {
  }

  lemma SpawnOrCrash(p: Primitives, d0: Disk, s: State, a: Action)
    requires Inv(p, d0, s) && !a.Go?
    ensures Inv(p, d0, Step(p, s, a))
  {
    hide DiskOk, Replay, ThreadOk;
    var s' := Step(p, s, a);
    match a {
      case Spawn(id, op) =>
        NewThreadOk(p, s.disk, op);
      case Crash(id) =>
        if id in s.threads && s.threads[id].Live() {
          CrashOk(p, s.disk, s.threads[id]);
        }
    }
  }

  lemma CrashOk(p: Primitives, d: Disk, t: Thread)
    requires ThreadOk(p, d, t)
    ensures ThreadOk(p, d, t.(pc := Crashed))
  {
    hide HasPeer, Chosen, RevocationOnFile, Admitted, ConsumedFor;
  }

  lemma GoKeepsThreads(p: Primitives, s: State, id: nat, r: Effect)
    requires DiskOk(s.disk) && ThreadsOk(p, s) && OneOwner(s) && id in s.threads
    requires GoodEffect(p, s.disk, s.locks, s.threads[id], r)
    ensures var s' := State(r.disk, r.locks, s.threads[id := r.thread], s.log); ThreadsOk(p, s') && OneOwner(s')
  {
    hide DiskOk, ThreadOk, Grows, CommitIsTheChange, ConsumesUnused;
    var t := s.threads[id];
    forall i | i in s.threads && i != id
      ensures ThreadOk(p, r.disk, s.threads[i]) && s.threads[i].held <= r.locks && s.threads[i].held !! r.thread.held
    {
      assert s.threads[i].held !! t.held;
      Undisturbed(p, s.disk, r.disk, s.threads[i]);
    }
  }

  lemma GoKeepsConsumedOnce(p: Primitives, s: State, id: nat, r: Effect)
    requires ThreadsOk(p, s) && ConsumedOnce(s) && id in s.threads
    requires ConsumesUnused(s.disk, s.threads[id], r)
    ensures ConsumedOnce(State(r.disk, r.locks, s.threads[id := r.thread], s.log))
  {
    forall i | i in s.threads && s.threads[i].consumed.Some?
      ensures s.threads[i].consumed.value < |s.disk.codes| && s.disk.codes[s.threads[i].consumed.value].status.Consumed?
    {
      ConsumedOnDisk(p, s.disk, s.threads[i]);
    }
  }

  lemma ConsumedOnDisk(p: Primitives, d: Disk, t: Thread)
    requires ThreadOk(p, d, t) && t.consumed.Some?
    ensures Consumes(t.op) && Admitted(p, t.op)
    ensures ConsumedFor(d.codes, t.consumed.value, ConsumeOf(t.op))
    ensures t.op.Pair? ==> HasPeer(d.peers, t.op.request.peer)
  {
    hide HasPeer, Chosen, RevocationOnFile, Admitted;
  }

  lemma StepOk(p: Primitives, d0: Disk, s: State, a: Action)
    requires Inv(p, d0, s)
    ensures Inv(p, d0, Step(p, s, a))
    ensures Grows(s.disk, Step(p, s, a).disk)
  {
    hide DiskOk, Grows, ThreadOk, WellFormed, Advance, ThreadsOk, OneOwner, ConsumedOnce;
    GrowsReflexive(s.disk);
    if !a.Go? {
      SpawnOrCrash(p, d0, s, a);
    } else if a.id in s.threads && s.threads[a.id].Live() {
      var t := s.threads[a.id];
      AdvanceHere(p, s, a.id, a.env);
      var r := Advance(p, s.disk, s.locks, t, a.env);
      GoKeepsThreads(p, s, a.id, r);
      GoKeepsConsumedOnce(p, s, a.id, r);
      ThreadsIgnoreLog(p, State(r.disk, r.locks, s.threads[a.id := r.thread], s.log), Step(p, s, a));
      assert r.commit.Some? ==> Step(p, s, a).log[..|s.log|] == s.log;
    }
  }

  lemma AdvanceHere(p: Primitives, s: State, id: nat, e: Env)
    requires DiskOk(s.disk) && ThreadsOk(p, s) && id in s.threads && s.threads[id].Live()
    ensures WellFormed(s.threads[id])
    ensures GoodEffect(p, s.disk, s.locks, s.threads[id], Advance(p, s.disk, s.locks, s.threads[id], e))
  {
    hide DiskOk, ThreadOk, WellFormed, Advance, GoodEffect;
    AdvanceOk(p, s.disk, s.locks, s.threads[id], e);
  }

  lemma ThreadsIgnoreLog(p: Primitives, a: State, b: State)
    requires a == b.(log := a.log)
    requires ThreadsOk(p, a) && OneOwner(a) && ConsumedOnce(a)
    ensures ThreadsOk(p, b) && OneOwner(b) && ConsumedOnce(b)
  {
    hide ThreadOk;
  }

  /** Every state of every run. */
  lemma {:induction false} RunOk(p: Primitives, d0: Disk, s: State, actions: seq<Action>)
    requires Inv(p, d0, s)
    ensures Inv(p, d0, Run(p, s, actions))
    ensures Grows(s.disk, Run(p, s, actions).disk)
    decreases |actions|
  {
    hide Inv, Grows, Step;
    if actions == [] {
      GrowsReflexive(s.disk);
    } else {
      var before := actions[..|actions| - 1];
      RunOk(p, d0, s, before);
      StepOk(p, d0, Run(p, s, before), actions[|actions| - 1]);
      GrowsTransitive(s.disk, Run(p, s, before).disk, Run(p, s, actions).disk);
    }
  }

  lemma {:induction false} RunConcat(p: Primitives, s: State, a: seq<Action>, b: seq<Action>)
    ensures Run(p, s, a + b) == Run(p, Run(p, s, a), b)
    decreases |b|
  {
    hide Step;
    if b == [] {
      assert a + b == a;
    } else {
      assert (a + b)[..|a + b| - 1] == a + b[..|b| - 1];
      RunConcat(p, s, a, b[..|b| - 1]);
    }
  }

  // ---------- taking runs apart ----------

  lemma RunNothing(p: Primitives, s: State)
    ensures Run(p, s, []) == s
  {
  }

  lemma RunSingle(p: Primitives, s: State, a: Action)
    ensures Run(p, s, [a]) == Step(p, s, a)
  {
    hide Step;
    assert [a][..0] == [];
  }

  lemma RunSnoc(p: Primitives, s0: State, a: seq<Action>, g: Action)
    ensures Run(p, s0, a + [g]) == Step(p, Run(p, s0, a), g)
  {
    hide Step;
    assert (a + [g])[..|a + [g]| - 1] == a;
  }

  lemma RunFirst(p: Primitives, s: State, actions: seq<Action>)
    requires actions != []
    ensures Run(p, s, actions) == Run(p, Step(p, s, actions[0]), actions[1..])
  {
    hide Run, Step;
    assert actions == [actions[0]] + actions[1..];
    RunConcat(p, s, [actions[0]], actions[1..]);
    RunSingle(p, s, actions[0]);
  }

  lemma Bystander(p: Primitives, s: State, g: Action, id: nat)
    requires id in s.threads && (g.Spawn? || g.id != id)
    ensures id in Step(p, s, g).threads && Step(p, s, g).threads[id] == s.threads[id]
  {
    hide Advance, WellFormed;
  }

  lemma OpStays(p: Primitives, d0: Disk, s: State, g: Action, id: nat)
    requires Inv(p, d0, s) && id in s.threads
    ensures id in Step(p, s, g).threads && Step(p, s, g).threads[id].op == s.threads[id].op
  {
    hide DiskOk, ThreadOk, Advance, WellFormed, Replay, OneOwner, ConsumedOnce, Grows, LocksTracked,
      WritesUnderLock, CommitIsTheChange, ConsumesUnused;
    if g.Go? && g.id in s.threads && s.threads[g.id].Live() {
      AdvanceHere(p, s, g.id, g.env);
    }
  }

  lemma {:induction false} OpOfRun(p: Primitives, d0: Disk, s: State, actions: seq<Action>, id: nat)
    requires Inv(p, d0, s) && id in s.threads
    ensures id in Run(p, s, actions).threads && Run(p, s, actions).threads[id].op == s.threads[id].op
    decreases |actions|
  {
    hide Inv, Step;
    if actions != [] {
      var front := actions[..|actions| - 1];
      OpOfRun(p, d0, s, front, id);
      RunOk(p, d0, s, front);
      OpStays(p, d0, Run(p, s, front), actions[|actions| - 1], id);
    }
  }

  lemma {:induction false} EndedStays(p: Primitives, s: State, actions: seq<Action>, id: nat)
    requires id in s.threads && !s.threads[id].Live()
    ensures id in Run(p, s, actions).threads && Run(p, s, actions).threads[id] == s.threads[id]
    decreases |actions|
  {
    hide Advance, WellFormed;
    if actions != [] {
      EndedStays(p, s, actions[..|actions| - 1], id);
    }
  }
}
