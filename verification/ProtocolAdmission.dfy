/**
 * What a code can be used for, and what becomes of a pairing that has written its peer.
 */
module ProtocolAdmission {
  import opened Wrappers
  import opened Text
  import opened Base32
  import opened Identity
  import opened Records
  import opened StoreOps
  import opened Messages
  import opened Protocol
  import opened ProtocolInvariant
  import opened ProtocolRuns
  import opened ProtocolTheorems
  import opened ProtocolAccounting

  // ---------- a code admits once ----------

  /** Two requests whose codes are spellings of the same bytes (or are both unreadable). */
  predicate SameCode(p: Primitives, a: ConsumeRequest, b: ConsumeRequest) {
    DecodeNoPadding(p.upper, a.code) == DecodeNoPadding(p.upper, b.code)
  }

  /** Only the step that commits a consumption makes an attempt a consumer, and it commits its own request. */
  lemma StepConsumes(p: Primitives, d0: Disk, s: State, g: Action, id: nat)
    requires Inv(p, d0, s)
    requires id in Step(p, s, g).threads && Step(p, s, g).threads[id].consumed.Some?
    ensures var t' := Step(p, s, g).threads[id];
            || (id in s.threads && s.threads[id].op == t'.op && s.threads[id].consumed == t'.consumed)
            || (&& g.Go? && g.id == id && Consumes(t'.op)
                && exists at :: Step(p, s, g).log == s.log + [Entry(id, ConsumedCode(ConsumeOf(t'.op), at))])
  {
    hide DiskOk, ThreadOk, Advance, WellFormed, GoodEffect, Replay, OneOwner, ConsumedOnce;
    if g.Go? && g.id in s.threads && s.threads[g.id].Live() {
      AdvanceHere(p, s, g.id, g.env);
      StepIsNoted(p, s.disk, s.locks, s.threads[g.id], g.env);
      var r := Advance(p, s.disk, s.locks, s.threads[g.id], g.env);
      if id == g.id && r.commit.Some? && r.commit.value.ConsumedCode? {
        assert r.commit.value == ConsumedCode(ConsumeOf(r.thread.op), r.commit.value.at);
      }
    }
  }

  /** Whoever has consumed a record did so in a step of its own, whose commit is on the log. */
  lemma {:induction false} ConsumptionHasCommit(p: Primitives, s0: State, actions: seq<Action>, id: nat)
      returns (a: seq<Action>, g: Action, b: seq<Action>, at: Time)
    requires Initial(s0) && id in Run(p, s0, actions).threads && Run(p, s0, actions).threads[id].consumed.Some?
    ensures actions == a + [g] + b && g.Go? && g.id == id && Consumes(Run(p, s0, actions).threads[id].op)
    ensures Run(p, s0, a + [g]).log
         == Run(p, s0, a).log + [Entry(id, ConsumedCode(ConsumeOf(Run(p, s0, actions).threads[id].op), at))]
    decreases |actions|
  {
    hide Step, Inv;
    InitialInv(p, s0);
    assert actions != [];
    var front, last := actions[..|actions| - 1], actions[|actions| - 1];
    assert actions == front + [last];
    var s, s' := Run(p, s0, front), Run(p, s0, actions);
    RunSnoc(p, s0, front, last);
    RunOk(p, s0.disk, s0, front);
    StepConsumes(p, s0.disk, s, last, id);
    if id in s.threads && s.threads[id].op == s'.threads[id].op && s.threads[id].consumed == s'.threads[id].consumed {
      a, g, b, at := ConsumptionHasCommit(p, s0, front, id);
      b := b + [last];
      assert actions == a + [g] + b;
    } else {
      a, g, b := front, last, [];
      at :| s'.log == s.log + [Entry(id, ConsumedCode(ConsumeOf(s'.threads[id].op), at))];
      assert actions == a + [g] + b;
    }
  }

  /**
   * A code admits once, whatever the number of records it fits, of attempts and of ways to type it: two
   * attempts that have both consumed a record were given codes with different bytes.
   */
  lemma OneCodeOneUse(p: Primitives, s0: State, actions: seq<Action>, x: nat, y: nat)
    requires Initial(s0) && x != y
    requires x in Run(p, s0, actions).threads && y in Run(p, s0, actions).threads
    requires var s := Run(p, s0, actions); s.threads[x].consumed.Some? && s.threads[y].consumed.Some?
    ensures Consumes(Run(p, s0, actions).threads[x].op) && Consumes(Run(p, s0, actions).threads[y].op)
    ensures var s := Run(p, s0, actions); !SameCode(p, ConsumeOf(s.threads[x].op), ConsumeOf(s.threads[y].op))
  {
    hide Run, SameCode;
    var a, g, b, at := ConsumptionHasCommit(p, s0, actions, x);
    var a', g', b', at' := ConsumptionHasCommit(p, s0, actions, y);
    assert actions[|a|] == g && actions[|a'|] == g';
    var q, q' := ConsumeOf(Run(p, s0, actions).threads[x].op), ConsumeOf(Run(p, s0, actions).threads[y].op);
    if |a| < |a'| {
      SecondUseFails(p, s0, actions, a, g, b, q, at, a', g', b', q', at');
    } else {
      SecondUseFails(p, s0, actions, a', g', b', q', at', a, g, b, q, at);
    }
  }

  lemma StepKeepsConsumed(p: Primitives, d0: Disk, s: State, g: Action, id: nat)
    requires Inv(p, d0, s) && id in s.threads && s.threads[id].consumed.Some?
    ensures id in Step(p, s, g).threads
    ensures Step(p, s, g).threads[id].op == s.threads[id].op
    ensures Step(p, s, g).threads[id].consumed == s.threads[id].consumed
  {
    hide DiskOk, ThreadOk, Advance, WellFormed, Replay, OneOwner, ConsumedOnce, Grows, LocksTracked, WritesUnderLock,
      CommitIsTheChange;
    if g.Go? && g.id in s.threads && s.threads[g.id].Live() {
      AdvanceHere(p, s, g.id, g.env);
    }
  }

  /** A consumption is never taken back: not by an error, not by a crash. */
  lemma {:induction false} ConsumedStays(p: Primitives, d0: Disk, s: State, actions: seq<Action>, id: nat)
    requires Inv(p, d0, s) && id in s.threads && s.threads[id].consumed.Some?
    ensures id in Run(p, s, actions).threads
    ensures Run(p, s, actions).threads[id].op == s.threads[id].op
    ensures Run(p, s, actions).threads[id].consumed == s.threads[id].consumed
    decreases |actions|
  {
    hide Inv, Step;
    if actions != [] {
      var front := actions[..|actions| - 1];
      ConsumedStays(p, d0, s, front, id);
      RunOk(p, d0, s, front);
      StepKeepsConsumed(p, d0, Run(p, s, front), actions[|actions| - 1], id);
    }
  }

  lemma SecondUseFails(p: Primitives, s0: State, actions: seq<Action>,
                       a: seq<Action>, g: Action, b: seq<Action>, q: ConsumeRequest, at: Time,
                       a': seq<Action>, g': Action, b': seq<Action>, q': ConsumeRequest, at': Time)
    requires Initial(s0) && actions == a + [g] + b == a' + [g'] + b' && |a| < |a'| && g.Go? && g'.Go?
    requires Run(p, s0, a + [g]).log == Run(p, s0, a).log + [Entry(g.id, ConsumedCode(q, at))]
    requires Run(p, s0, a' + [g']).log == Run(p, s0, a').log + [Entry(g'.id, ConsumedCode(q', at'))]
    ensures !SameCode(p, q, q') && !SameCode(p, q', q)
  {
    hide Run, ApplyCommit, DecodeNoPadding;
    CommitApplies(p, s0, a', g', ConsumedCode(q', at'));
    ConsumedAfterScan(p, Run(p, s0, a').disk, q', at');
    if SameCode(p, q, q') {
      var between := LaterPrefix(a, g, b, a', g', b');
      UsedCodeIsRefusedForGood(p, s0, a, g, between, q, at, q');
    }
  }

  lemma LaterPrefix(a: seq<Action>, g: Action, b: seq<Action>, a': seq<Action>, g': Action, b': seq<Action>)
      returns (between: seq<Action>)
    requires a + [g] + b == a' + [g'] + b' && |a| < |a'|
    ensures a' == a + [g] + between
  {
    var actions := a + [g] + b;
    between := actions[|a| + 1..|a'|];
    assert a' == actions[..|a'|];
    assert a + [g] == actions[..|a| + 1];
  }

  lemma ConsumedAfterScan(p: Primitives, d: Disk, q: ConsumeRequest, at: Time)
    requires ApplyCommit(p, d, ConsumedCode(q, at)).Ok?
    ensures CheckConsumeRequest(q).None? && Scan(p, d.codes, q, 0).Ok?
  {
    hide CheckConsumeRequest, Scan, ConsumeAt;
  }

  // ---------- admitted without a code being used up ----------

  /** The turns an attempt gets, in order, up to and including the action that kills it. */
  function TurnsOf(actions: seq<Action>, id: nat): seq<Action> {
    if actions == [] then []
    else if !actions[0].Spawn? && actions[0].id == id then [actions[0]] + TurnsOf(actions[1..], id)
    else TurnsOf(actions[1..], id)
  }

  /** Saving the consumption of a chosen record fails only by the file system or for want of a time. */
  lemma SaveCodesConsumesIff(p: Primitives, d: Disk, locks: set<LockName>, t: Thread, e: Env)
    requires DiskOk(d) && ThreadOk(p, d, t) && WellFormed(t) && t.op.Pair? && t.pc.SaveCodes?
    ensures t.consumed.None?
    ensures var t' := Advance(p, d, locks, t, e).thread;
            && t'.op == t.op && t'.pc.ReleaseCodes? && t'.added == t.added
            && (t'.consumed.None? <==> e.save.FailedBefore? || e.now == 0)
  {
    hide Scan, HasPeer, StatusesAgree, DistinctPeers, DistinctRevs, AllValidPeers, AllValidRevs, CheckAdmission, Blank;
    assert ValidJoinRecord(d.codes[t.index]);
  }

  lemma {:induction false} ConsumptionSettled(p: Primitives, d0: Disk, s: State, actions: seq<Action>, id: nat)
    requires Inv(p, d0, s) && id in s.threads
    requires s.threads[id].pc.ReleaseCodes? || !s.threads[id].Live()
    ensures id in Run(p, s, actions).threads
    ensures var t := Run(p, s, actions).threads[id];
            && t.added == s.threads[id].added && t.consumed == s.threads[id].consumed
            && (t.pc.ReleaseCodes? || !t.Live())
    decreases |actions|
  {
    hide Inv, Advance, WellFormed;
    if actions != [] {
      var front := actions[..|actions| - 1];
      ConsumptionSettled(p, d0, s, front, id);
      RunOk(p, d0, s, front);
      var mid := Run(p, s, front);
      if mid.threads[id].pc.ReleaseCodes? {
        ReleaseCodesEnds(p, mid.disk, mid.locks, mid.threads[id]);
      }
    }
  }

  lemma ReleaseCodesEnds(p: Primitives, d: Disk, locks: set<LockName>, t: Thread)
    requires t.pc.ReleaseCodes?
    ensures forall e :: WellFormed(t) ==>
              var t' := Advance(p, d, locks, t, e).thread;
              t'.pc.Done? && t'.added == t.added && t'.consumed == t.consumed
  {
  }

  /** The turn in which an attempt would save its consumption does not do so. */
  predicate SaveLost(g: Action) {
    g.Crash? || (g.Go? && (g.env.save.FailedBefore? || g.env.now == 0))
  }

  lemma {:induction false} EndFromSaveCodes(p: Primitives, d0: Disk, s: State, actions: seq<Action>, id: nat)
    requires Inv(p, d0, s) && id in s.threads && s.threads[id].op.Pair? && s.threads[id].pc.SaveCodes?
    requires id in Run(p, s, actions).threads && !Run(p, s, actions).threads[id].Live()
    ensures Run(p, s, actions).threads[id].added == s.threads[id].added
    ensures var turns := TurnsOf(actions, id);
            && turns != []
            && (Run(p, s, actions).threads[id].consumed.None? <==> SaveLost(turns[0]))
    decreases |actions|
  {
    hide Inv, Step, Run, SaveLost;
    if actions == [] {
      RunNothing(p, s);
    } else {
      var first, rest := actions[0], actions[1..];
      RunFirst(p, s, actions);
      StepOk(p, d0, s, first);
      if first.Spawn? || first.id != id {
        Bystander(p, s, first, id);
        EndFromSaveCodes(p, d0, Step(p, s, first), rest, id);
      } else {
        SaveCodesTurn(p, d0, s, first);
        ConsumptionSettled(p, d0, Step(p, s, first), rest, id);
      }
    }
  }

  lemma SaveCodesTurn(p: Primitives, d0: Disk, s: State, g: Action)
    requires Inv(p, d0, s) && !g.Spawn?
    requires g.id in s.threads && s.threads[g.id].op.Pair? && s.threads[g.id].pc.SaveCodes?
    ensures g.id in Step(p, s, g).threads
    ensures var t' := Step(p, s, g).threads[g.id];
            && (t'.pc.ReleaseCodes? || !t'.Live())
            && t'.added == s.threads[g.id].added
            && (t'.consumed.None? <==> SaveLost(g))
  {
    hide DiskOk, ThreadOk, Advance, WellFormed, Replay, OneOwner, ConsumedOnce, GoodEffect;
    var t := s.threads[g.id];
    if g.Go? {
      AdvanceHere(p, s, g.id, g.env);
      SaveCodesConsumesIff(p, s.disk, s.locks, t, g.env);
    } else {
      UnconsumedAt(p, s.disk, t);
    }
  }

  lemma UnconsumedAt(p: Primitives, d: Disk, t: Thread)
    requires ThreadOk(p, d, t) && t.op.Pair? && (t.pc.SaveCodes? || t.pc.ReleasePeers? || t.pc.SavePeers?)
    ensures t.consumed.None?
  {
    hide HasPeer, Chosen;
  }

  /** Between its two writes an attempt has two turns to survive: leaving the peers section, and the save. */
  predicate LostBetweenWrites(turns: seq<Action>) {
    turns != [] && (turns[0].Crash? || (|turns| > 1 && SaveLost(turns[1])))
  }

  lemma ReleasePeersTurn(p: Primitives, d0: Disk, s: State, g: Action)
    requires Inv(p, d0, s) && !g.Spawn?
    requires g.id in s.threads && s.threads[g.id].op.Pair? && s.threads[g.id].pc.ReleasePeers?
    ensures g.id in Step(p, s, g).threads
    ensures var t, t' := s.threads[g.id], Step(p, s, g).threads[g.id];
            && t'.op == t.op && t'.added == t.added && t'.consumed == t.consumed == None
            && (if g.Crash? then t'.pc.Crashed?
                else if t.failure.None? then t'.pc.SaveCodes? else t'.pc.ReleaseCodes?)
  {
    hide DiskOk, ThreadOk, WellFormed, Replay, OneOwner, ConsumedOnce, GoodEffect;
    UnconsumedAt(p, s.disk, s.threads[g.id]);
    if g.Go? {
      AdvanceHere(p, s, g.id, g.env);
    }
  }

  lemma {:induction false} EndFromReleasePeers(p: Primitives, d0: Disk, s: State, actions: seq<Action>, id: nat)
    requires Inv(p, d0, s) && id in s.threads && s.threads[id].op.Pair? && s.threads[id].pc.ReleasePeers?
    requires id in Run(p, s, actions).threads && !Run(p, s, actions).threads[id].Live()
    ensures Run(p, s, actions).threads[id].added == s.threads[id].added
    ensures Run(p, s, actions).threads[id].consumed.None?
            <==> s.threads[id].failure.Some? || LostBetweenWrites(TurnsOf(actions, id))
    decreases |actions|
  {
    hide Inv, Step, Run, SaveLost;
    if actions == [] {
      RunNothing(p, s);
    } else {
      var first, rest := actions[0], actions[1..];
      RunFirst(p, s, actions);
      StepOk(p, d0, s, first);
      var s1 := Step(p, s, first);
      if first.Spawn? || first.id != id {
        Bystander(p, s, first, id);
        EndFromReleasePeers(p, d0, s1, rest, id);
      } else {
        ReleasePeersTurn(p, d0, s, first);
        if s1.threads[id].pc.SaveCodes? {
          EndFromSaveCodes(p, d0, s1, rest, id);
        } else {
          ConsumptionSettled(p, d0, s1, rest, id);
        }
      }
    }
  }

  lemma SavePeersTurn(p: Primitives, d0: Disk, s: State, g: Action)
    requires Inv(p, d0, s) && g.Go?
    requires g.id in s.threads && s.threads[g.id].op.Pair? && s.threads[g.id].pc.SavePeers?
    ensures g.id in Step(p, s, g).threads
    ensures var t, t' := s.threads[g.id], Step(p, s, g).threads[g.id];
            && t'.op == t.op && t'.pc.ReleasePeers?
            && (t'.added ==> !g.env.save.FailedBefore? && (t'.failure.Some? <==> g.env.save.FailedAfter?))
            && (!t'.added ==> t'.failure.Some?) && (!g.env.save.Saved? ==> t'.failure.Some?)
  {
    hide DiskOk, ThreadOk, WellFormed, Replay, OneOwner, ConsumedOnce, GoodEffect, AddPeer;
    AdvanceHere(p, s, g.id, g.env);
    NotYetAdded(p, s.disk, s.threads[g.id]);
  }

  lemma NotYetAdded(p: Primitives, d: Disk, t: Thread)
    requires ThreadOk(p, d, t) && t.pc.SavePeers?
    ensures !t.added && t.failure.None?
  {
    hide HasPeer, Chosen;
  }

  /**
   * Exactly when a pairing that has put its peer on file ends without having used up a code: the save
   * that wrote the peer reported an error although it had committed, or the attempt was killed before
   * the turn that saves the consumption, or that save failed before committing, or the clock then read
   * the zero time. In every other case it has consumed its record, however it ends.
   */
  lemma AdmittedWithoutConsumptionIff(p: Primitives, s0: State, a: seq<Action>, id: nat, e: Env, b: seq<Action>)
    requires Initial(s0)
    requires id in Run(p, s0, a).threads
    requires Run(p, s0, a).threads[id].op.Pair? && Run(p, s0, a).threads[id].pc.SavePeers?
    requires id in Run(p, s0, a + [Go(id, e)]).threads && Run(p, s0, a + [Go(id, e)]).threads[id].added
    requires id in Run(p, s0, a + [Go(id, e)] + b).threads && !Run(p, s0, a + [Go(id, e)] + b).threads[id].Live()
    ensures var end := Run(p, s0, a + [Go(id, e)] + b);
            && HasPeer(end.disk.peers, Run(p, s0, a).threads[id].op.request.peer)
            && (end.threads[id].consumed.None? <==> e.save.FailedAfter? || LostBetweenWrites(TurnsOf(b, id)))
  {
    hide Inv, Step, Run, LostBetweenWrites, Grows, HasPeer, DiskOk;
    var g := Go(id, e);
    var s, mid := Run(p, s0, a), Run(p, s0, a + [g]);
    InitialInv(p, s0);
    RunOk(p, s0.disk, s0, a);
    RunOk(p, s0.disk, s0, a + [g]);
    RunSnoc(p, s0, a, g);
    RunConcat(p, s0, a + [g], b);
    SavePeersTurn(p, s0.disk, s, g);
    EndFromReleasePeers(p, s0.disk, mid, b, id);
    PeerWritten(p, s0.disk, s, g);
    RunOk(p, s0.disk, mid, b);
    PeerStays(mid.disk, Run(p, mid, b).disk, s.threads[id].op.request.peer);
  }

  /** A pairing whose peer could not be saved without an error uses up no code, however it ends. */
  lemma FailedPeerSaveKeepsCode(p: Primitives, s0: State, a: seq<Action>, id: nat, e: Env, b: seq<Action>)
    requires Initial(s0) && id in Run(p, s0, a).threads && !e.save.Saved?
    requires Run(p, s0, a).threads[id].op.Pair? && Run(p, s0, a).threads[id].pc.SavePeers?
    requires id in Run(p, s0, a + [Go(id, e)] + b).threads && !Run(p, s0, a + [Go(id, e)] + b).threads[id].Live()
    ensures Run(p, s0, a + [Go(id, e)] + b).threads[id].consumed.None?
  {
    hide Inv, Step, Run, LostBetweenWrites;
    InitialInv(p, s0);
    RunOk(p, s0.disk, s0, a);
    RunOk(p, s0.disk, s0, a + [Go(id, e)]);
    RunSnoc(p, s0, a, Go(id, e));
    RunConcat(p, s0, a + [Go(id, e)], b);
    SavePeersTurn(p, s0.disk, Run(p, s0, a), Go(id, e));
    EndFromReleasePeers(p, s0.disk, Run(p, s0, a + [Go(id, e)]), b, id);
  }

  lemma PeerStays(d: Disk, d': Disk, x: PublicPeer)
    requires Grows(d, d') && HasPeer(d.peers, x)
    ensures HasPeer(d'.peers, x)
  {
    hide CodesGrow, PeersGrow, HasPeer;
    HasPeerGrows(d.peers, d'.peers, x);
  }

  lemma PeerWritten(p: Primitives, d0: Disk, s: State, g: Action)
    requires Inv(p, d0, s) && g.Go?
    requires g.id in s.threads && s.threads[g.id].op.Pair? && s.threads[g.id].pc.SavePeers?
    requires Step(p, s, g).threads[g.id].added
    ensures HasPeer(Step(p, s, g).disk.peers, s.threads[g.id].op.request.peer)
  {
    hide DiskOk, ThreadOk, WellFormed, Replay, OneOwner, ConsumedOnce, GoodEffect, ValidPeerRecord, FindPeer;
    AdvanceHere(p, s, g.id, g.env);
    NotYetAdded(p, s.disk, s.threads[g.id]);
    var peers := Step(p, s, g).disk.peers;
    assert SamePeer(peers[|peers| - 1], s.threads[g.id].op.request.peer);
  }
}
