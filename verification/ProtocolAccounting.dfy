/** Counting admissions, and why every attempt comes to an end. */
module ProtocolAccounting {
  import opened Identity
  import opened Records
  import opened StoreOps
  import opened TlsIdentity
  import opened Messages
  import opened Protocol
  import opened ProtocolInvariant
  import opened ProtocolRuns

  type Threads = map<nat, Thread>

  // ---------- counting in the log ----------

  predicate MadeByPairing(threads: Threads, e: Entry) {
    e.thread in threads && threads[e.thread].op.Pair?
  }

  /** Peers that pairing has written to the peers file. */
  function PairAdds(threads: Threads, log: seq<Entry>): nat {
    if log == [] then 0
    else
      var last := log[|log| - 1];
      PairAdds(threads, log[..|log| - 1])
      + (if MadeByPairing(threads, last) && last.commit.AddedPeer? then 1 else 0)
  }

  /** Consumptions that pairing has written to the join-code file. */
  function PairConsumes(threads: Threads, log: seq<Entry>): nat {
    if log == [] then 0
    else
      var last := log[|log| - 1];
      PairConsumes(threads, log[..|log| - 1])
      + (if MadeByPairing(threads, last) && last.commit.ConsumedCode? then 1 else 0)
  }

  function Adders(threads: Threads): set<nat> {
    set id | id in threads && threads[id].op.Pair? && threads[id].added
  }

  function Consumers(threads: Threads): set<nat> {
    set id | id in threads && threads[id].op.Pair? && threads[id].consumed.Some?
  }

  /** Pairings that ended with the peer written and no record consumed. */
  function Orphans(threads: Threads): set<nat> {
    set id | id in Adders(threads) && threads[id].consumed.None? && !threads[id].Live()
  }

  function InFlight(threads: Threads): set<nat> {
    set id | id in Adders(threads) && threads[id].consumed.None? && threads[id].Live()
  }

  /** A commit is noted in the attempt that made it, once. */
  predicate Noted(t: Thread, r: Effect) {
    && r.thread.op == t.op
    && (r.commit.Some? && r.commit.value.AddedPeer? ==> !t.added)
    && (r.thread.added <==> t.added || (r.commit.Some? && r.commit.value.AddedPeer?))
    && (r.commit.Some? && r.commit.value.ConsumedCode? ==> t.consumed.None? && r.thread.consumed.Some?)
    && (r.commit.Some? && r.commit.value.ConsumedCode? ==>
          Consumes(t.op) && r.commit.value.consume == ConsumeOf(t.op))
    && (!(r.commit.Some? && r.commit.value.ConsumedCode?) ==> r.thread.consumed == t.consumed)
  }

  lemma SavesAreNoted(p: Primitives, d: Disk, locks: set<LockName>, t: Thread, e: Env)
    requires ThreadOk(p, d, t) && WellFormed(t) && (t.pc.SaveCodes? || t.pc.SavePeers? || t.pc.SaveRevs?)
    ensures Noted(t, Advance(p, d, locks, t, e))
  {
    hide HasPeer, Chosen, RevocationOnFile, AddPeer, MarkRevoked, NewJoinRecord, ValidJoinRecord, Revoke, Scan;
  }

  predicate OnPeers(pc: Pc) {
    pc.EnsureRead? || pc.LockPeers? || pc.LoadPeers? || pc.SavePeers? || pc.ReleasePeers?
  }

  predicate OnRevs(pc: Pc) {
    pc.LockRevs? || pc.LoadRevs? || pc.SaveRevs? || pc.ReleaseRevs? || pc.VerifyRead? || pc.VerifyRevoked?
  }

  lemma PeersStepsNoteNothing(p: Primitives, d: Disk, locks: set<LockName>, t: Thread, e: Env)
    requires WellFormed(t) && OnPeers(t.pc) && !t.pc.SavePeers?
    ensures Noted(t, Advance(p, d, locks, t, e))
  {
    hide CheckAdmission, CheckConsumeRequest, CheckCertificate, CheckPublicPeer, CheckStoredPeer, Scan, Revoke,
      AddPeer, MarkRevoked, ValidPeerRecord, AllValidCodes, AllValidPeers, AllValidRevs, IsRevokedIn, SamePeer;
  }

  lemma RevsStepsNoteNothing(p: Primitives, d: Disk, locks: set<LockName>, t: Thread, e: Env)
    requires WellFormed(t) && OnRevs(t.pc) && !t.pc.SaveRevs?
    ensures Noted(t, Advance(p, d, locks, t, e))
  {
    hide CheckAdmission, CheckConsumeRequest, CheckCertificate, CheckPublicPeer, CheckStoredPeer, Scan, Revoke,
      AddPeer, MarkRevoked, ValidPeerRecord, AllValidCodes, AllValidPeers, AllValidRevs, IsRevokedIn, SamePeer;
  }

  lemma OtherStepsNoteNothing(p: Primitives, d: Disk, locks: set<LockName>, t: Thread, e: Env)
    requires WellFormed(t) && !t.pc.SaveCodes? && !OnPeers(t.pc) && !OnRevs(t.pc)
    ensures Noted(t, Advance(p, d, locks, t, e))
  {
    hide CheckAdmission, CheckConsumeRequest, CheckCertificate, CheckPublicPeer, CheckStoredPeer, Scan, Revoke,
      AddPeer, MarkRevoked, ValidPeerRecord, AllValidCodes, AllValidPeers, AllValidRevs, IsRevokedIn, SamePeer;
  }

  lemma StepIsNoted(p: Primitives, d: Disk, locks: set<LockName>, t: Thread, e: Env)
    requires ThreadOk(p, d, t) && WellFormed(t)
    ensures Noted(t, Advance(p, d, locks, t, e))
  {
    hide ThreadOk, WellFormed, Advance, Noted;
    if t.pc.SaveCodes? || t.pc.SavePeers? || t.pc.SaveRevs? {
      SavesAreNoted(p, d, locks, t, e);
    } else if OnPeers(t.pc) {
      PeersStepsNoteNothing(p, d, locks, t, e);
    } else if OnRevs(t.pc) {
      RevsStepsNoteNothing(p, d, locks, t, e);
    } else {
      OtherStepsNoteNothing(p, d, locks, t, e);
    }
  }

  ghost predicate Counted(s: State) {
    && (forall k :: 0 <= k < |s.log| ==> s.log[k].thread in s.threads)
    && PairAdds(s.threads, s.log) == |Adders(s.threads)|
    && PairConsumes(s.threads, s.log) == |Consumers(s.threads)|
  }

  /** Counting in the log looks only at which attempts are pairings. */
  lemma {:induction false} CountsIgnoreProgress(a: Threads, b: Threads, log: seq<Entry>)
    requires forall k :: 0 <= k < |log| ==>
               log[k].thread in a && log[k].thread in b && a[log[k].thread].op == b[log[k].thread].op
    ensures PairAdds(a, log) == PairAdds(b, log) && PairConsumes(a, log) == PairConsumes(b, log)
    decreases |log|
  {
    if log != [] {
      CountsIgnoreProgress(a, b, log[..|log| - 1]);
    }
  }

  lemma AddersAfter(threads: Threads, id: nat, r: Effect)
    requires id in threads && Noted(threads[id], r)
    ensures var now := threads[id := r.thread];
            |Adders(now)| == |Adders(threads)|
              + (if threads[id].op.Pair? && r.commit.Some? && r.commit.value.AddedPeer? then 1 else 0)
  {
    var now := threads[id := r.thread];
    if threads[id].op.Pair? && r.commit.Some? && r.commit.value.AddedPeer? {
      assert Adders(now) == Adders(threads) + {id};
    } else {
      assert Adders(now) == Adders(threads);
    }
  }

  lemma ConsumersAfter(threads: Threads, id: nat, r: Effect)
    requires id in threads && Noted(threads[id], r)
    ensures var now := threads[id := r.thread];
            |Consumers(now)| == |Consumers(threads)|
              + (if threads[id].op.Pair? && r.commit.Some? && r.commit.value.ConsumedCode? then 1 else 0)
  {
    var now := threads[id := r.thread];
    if threads[id].op.Pair? && r.commit.Some? && r.commit.value.ConsumedCode? {
      assert Consumers(now) == Consumers(threads) + {id};
    } else {
      assert Consumers(now) == Consumers(threads);
    }
  }

  lemma GoCounts(s: State, id: nat, r: Effect)
    requires Counted(s) && id in s.threads && Noted(s.threads[id], r)
    ensures var log := match r.commit case None => s.log case Some(c) => s.log + [Entry(id, c)];
            Counted(State(r.disk, r.locks, s.threads[id := r.thread], log))
  {
    hide Adders, Consumers;
    CountsIgnoreProgress(s.threads, s.threads[id := r.thread], s.log);
    AddersAfter(s.threads, id, r);
    ConsumersAfter(s.threads, id, r);
    if r.commit.Some? {
      var log := s.log + [Entry(id, r.commit.value)];
      assert log[..|log| - 1] == s.log;
    }
  }

  lemma StepCounts(p: Primitives, d0: Disk, s: State, a: Action)
    requires Inv(p, d0, s) && Counted(s)
    ensures Counted(Step(p, s, a))
  {
    hide DiskOk, ThreadOk, Advance, WellFormed, GoodEffect, Replay, OneOwner, ConsumedOnce;
    var s' := Step(p, s, a);
    match a {
      case Go(id, env) =>
        if id in s.threads && s.threads[id].Live() {
          AdvanceHere(p, s, id, env);
          StepIsNoted(p, s.disk, s.locks, s.threads[id], env);
          GoCounts(s, id, Advance(p, s.disk, s.locks, s.threads[id], env));
        }
      case Spawn(id, op) =>
        CountsIgnoreProgress(s.threads, s'.threads, s.log);
        assert Adders(s'.threads) == Adders(s.threads) && Consumers(s'.threads) == Consumers(s.threads);
      case Crash(id) =>
        CountsIgnoreProgress(s.threads, s'.threads, s.log);
        assert Adders(s'.threads) == Adders(s.threads) && Consumers(s'.threads) == Consumers(s.threads);
    }
  }

  lemma {:induction false} RunCounts(p: Primitives, d0: Disk, s: State, actions: seq<Action>)
    requires Inv(p, d0, s) && Counted(s)
    ensures Counted(Run(p, s, actions))
    decreases |actions|
  {
    hide Inv, Step, Counted;
    if actions != [] {
      var front := actions[..|actions| - 1];
      RunCounts(p, d0, s, front);
      RunOk(p, d0, s, front);
      StepCounts(p, d0, Run(p, s, front), actions[|actions| - 1]);
    }
  }

  /** A pairing that has added its peer and is still running is inside the join-code section. */
  lemma AdderHoldsCodes(p: Primitives, d: Disk, t: Thread)
    requires ThreadOk(p, d, t) && t.op.Pair? && t.added && t.Live()
    ensures CodesLock in t.held
  {
    hide HasPeer, Chosen, RevocationOnFile, Admitted, ConsumedFor, Revoke;
  }

  lemma AtMostOneInFlight(p: Primitives, d0: Disk, s: State)
    requires Inv(p, d0, s)
    ensures |InFlight(s.threads)| <= 1
  {
    hide DiskOk, ThreadOk, Replay, ConsumedOnce;
    var f := InFlight(s.threads);
    if f != {} {
      var x :| x in f;
      AdderHoldsCodes(p, s.disk, s.threads[x]);
      forall y | y in f ensures y == x {
        AdderHoldsCodes(p, s.disk, s.threads[y]);
      }
      assert f == {x};
    }
  }

  /** The join records that pairing has consumed, by their place in the file. */
  function PairedRecords(threads: Threads): set<nat> {
    set id | id in Consumers(threads) :: threads[id].consumed.value
  }

  lemma {:induction false} DistinctRecords(threads: Threads, ids: set<nat>)
    requires ids <= Consumers(threads)
    requires forall i, j :: i in ids && j in ids && i != j ==> threads[i].consumed != threads[j].consumed
    ensures |set id | id in ids :: threads[id].consumed.value| == |ids|
    decreases ids
  {
    var records := set id | id in ids :: threads[id].consumed.value;
    if ids != {} {
      var x :| x in ids;
      var rest := ids - {x};
      DistinctRecords(threads, rest);
      var others := set id | id in rest :: threads[id].consumed.value;
      assert records == others + {threads[x].consumed.value};
      assert threads[x].consumed.value !in others;
    } else {
      assert records == {};
    }
  }

  /**
   * Over every run: the peers pairing has added are at most the join records pairing has consumed, plus
   * the pairings that ended between their two writes, plus one that may still be between them.
   */
  lemma AdmissionAccounting(p: Primitives, s0: State, actions: seq<Action>)
    requires Initial(s0)
    ensures var s := Run(p, s0, actions);
            && PairConsumes(s.threads, s.log) == |PairedRecords(s.threads)|
            && PairAdds(s.threads, s.log) <= |PairedRecords(s.threads)| + |Orphans(s.threads)| + |InFlight(s.threads)|
            && |InFlight(s.threads)| <= 1
  {
    hide DiskOk, ThreadsOk, OneOwner, Grows, Replay, Step;
    InitialInv(p, s0);
    RunOk(p, s0.disk, s0, actions);
    assert Adders(s0.threads) == {} && Consumers(s0.threads) == {};
    RunCounts(p, s0.disk, s0, actions);
    var s := Run(p, s0, actions);
    AtMostOneInFlight(p, s0.disk, s);
    DistinctRecords(s.threads, Consumers(s.threads));
    Partition(s.threads);
  }

  lemma Partition(threads: Threads)
    ensures |Adders(threads)| <= |Consumers(threads)| + |Orphans(threads)| + |InFlight(threads)|
  {
    var whole := Consumers(threads) + Orphans(threads) + InFlight(threads);
    assert Adders(threads) <= whole;
    SubsetSize(Adders(threads), whole);
    UnionSize(Consumers(threads), Orphans(threads));
    UnionSize(Consumers(threads) + Orphans(threads), InFlight(threads));
  }

  lemma SubsetSize(a: set<nat>, b: set<nat>)
    requires a <= b
    ensures |a| <= |b|
  {
    assert b == a + (b - a);
  }

  lemma UnionSize(a: set<nat>, b: set<nat>)
    ensures |a + b| <= |a| + |b|
  {
    assert a + b == a + (b - a);
    SubsetSize(b - a, b);
  }

  // ---------- every attempt ends ----------

  /** A bound on the steps an attempt still has before it, whatever the environment does. */
  function StepsLeft(pc: Pc): nat {
    match pc
    case Start => 17
    case CheckRevoked => 16
    case CheckPeer => 15
    case LockCodes => 14
    case LoadCodes => 13
    case LockRevs => 12
    case LoadRevs => 11
    case SaveRevs => 10
    case ReleaseRevs => 9
    case EnsureRead => 8
    case LockPeers => 7
    case LoadPeers => 6
    case SavePeers => 5
    case ReleasePeers => 4
    case SaveCodes => 3
    case ReleaseCodes => 2
    case VerifyRead => 2
    case VerifyRevoked => 1
    case Done => 0
    case Crashed => 0
  }

  lemma PeersStepsAdvance(p: Primitives, d: Disk, locks: set<LockName>, t: Thread, e: Env)
    requires WellFormed(t) && t.Live() && OnPeers(t.pc)
    ensures StepsLeft(Advance(p, d, locks, t, e).thread.pc) < StepsLeft(t.pc)
  {
    hide CheckAdmission, CheckConsumeRequest, CheckCertificate, CheckPublicPeer, CheckStoredPeer, Scan, Revoke,
      AddPeer, MarkRevoked, ValidPeerRecord, AllValidCodes, AllValidPeers, AllValidRevs, IsRevokedIn, SamePeer,
      ValidJoinRecord, NewJoinRecord;
  }

  lemma RevsStepsAdvance(p: Primitives, d: Disk, locks: set<LockName>, t: Thread, e: Env)
    requires WellFormed(t) && t.Live() && OnRevs(t.pc)
    ensures StepsLeft(Advance(p, d, locks, t, e).thread.pc) < StepsLeft(t.pc)
  {
    hide CheckAdmission, CheckConsumeRequest, CheckCertificate, CheckPublicPeer, CheckStoredPeer, Scan, Revoke,
      AddPeer, MarkRevoked, ValidPeerRecord, AllValidCodes, AllValidPeers, AllValidRevs, IsRevokedIn, SamePeer,
      ValidJoinRecord, NewJoinRecord;
  }

  lemma OtherStepsAdvance(p: Primitives, d: Disk, locks: set<LockName>, t: Thread, e: Env)
    requires WellFormed(t) && t.Live() && !OnPeers(t.pc) && !OnRevs(t.pc)
    ensures StepsLeft(Advance(p, d, locks, t, e).thread.pc) < StepsLeft(t.pc)
  {
    hide CheckAdmission, CheckConsumeRequest, CheckCertificate, CheckPublicPeer, CheckStoredPeer, Scan, Revoke,
      AddPeer, MarkRevoked, ValidPeerRecord, AllValidCodes, AllValidPeers, AllValidRevs, IsRevokedIn, SamePeer,
      ValidJoinRecord, NewJoinRecord;
  }

  lemma EveryStepAdvances(p: Primitives, d: Disk, locks: set<LockName>, t: Thread, e: Env)
    requires WellFormed(t) && t.Live()
    ensures StepsLeft(Advance(p, d, locks, t, e).thread.pc) < StepsLeft(t.pc)
  {
    hide Advance, WellFormed;
    if OnPeers(t.pc) {
      PeersStepsAdvance(p, d, locks, t, e);
    } else if OnRevs(t.pc) {
      RevsStepsAdvance(p, d, locks, t, e);
    } else {
      OtherStepsAdvance(p, d, locks, t, e);
    }
  }

  /** How often an attempt is scheduled in a run. */
  function Turns(actions: seq<Action>, id: nat): nat {
    if actions == [] then 0
    else
      var last := actions[|actions| - 1];
      Turns(actions[..|actions| - 1], id) + (if last.Go? && last.id == id then 1 else 0)
  }

  lemma StepTurns(p: Primitives, d0: Disk, s: State, a: Action, id: nat)
    requires Inv(p, d0, s) && id in s.threads
    ensures var s' := Step(p, s, a);
            && id in s'.threads
            && StepsLeft(s'.threads[id].pc) + (if a.Go? && a.id == id then 1 else 0)
               <= StepsLeft(s.threads[id].pc) + (if s.threads[id].Live() then 0 else 1)
            && (!s.threads[id].Live() ==> !s'.threads[id].Live())
  {
    hide DiskOk, ThreadOk, Advance, WellFormed, GoodEffect, Replay, OneOwner, ConsumedOnce;
    if a.Go? && a.id in s.threads && s.threads[a.id].Live() {
      AdvanceHere(p, s, a.id, a.env);
      EveryStepAdvances(p, s.disk, s.locks, s.threads[a.id], a.env);
    }
  }

  /**
   * No attempt waits or gets stuck: locks are tried once, so any attempt scheduled seventeen times
   * since some point has ended, successfully or with an error, whatever the others did.
   */
  lemma {:induction false} EveryAttemptEnds(p: Primitives, d0: Disk, s: State, actions: seq<Action>, id: nat)
    requires Inv(p, d0, s) && id in s.threads
    ensures id in Run(p, s, actions).threads
    ensures var t := Run(p, s, actions).threads[id];
            t.Live() ==> StepsLeft(t.pc) + Turns(actions, id) <= 17
    decreases |actions|
  {
    hide Inv, Step;
    if actions == [] {
    } else {
      var front := actions[..|actions| - 1];
      EveryAttemptEnds(p, d0, s, front, id);
      RunOk(p, d0, s, front);
      StepTurns(p, d0, Run(p, s, front), actions[|actions| - 1], id);
    }
  }
}
