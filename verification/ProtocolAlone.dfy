/** An attempt that nobody interrupts and for which no call fails. */
module ProtocolAlone {
  import opened Identity
  import opened Protocol
  import opened ProtocolInvariant
  import opened ProtocolRuns

  /** A turn in which nothing fails. */
  function Smooth(now: Time): Env {
    Env(now, true, Saved, true)
  }

  /** What the clock shows at each turn, by the number of turns there still are at it. */
  type Clock = nat -> Time

  /** Files, locks and the attempt after `n` undisturbed turns. */
  function Alone(p: Primitives, d: Disk, locks: set<LockName>, t: Thread, clock: Clock, n: nat)
    : (Disk, set<LockName>, Thread)
    decreases n
  {
    if n == 0 || !t.Live() || !WellFormed(t) then (d, locks, t)
    else
      var r := Advance(p, d, locks, t, Smooth(clock(n)));
      Alone(p, r.disk, r.locks, r.thread, clock, n - 1)
  }

  lemma OneTurn(p: Primitives, d: Disk, locks: set<LockName>, t: Thread, clock: Clock, n: nat)
    requires n > 0 && t.Live() && WellFormed(t)
    ensures var r := Advance(p, d, locks, t, Smooth(clock(n)));
            Alone(p, d, locks, t, clock, n) == Alone(p, r.disk, r.locks, r.thread, clock, n - 1)
  {
    hide Advance, WellFormed;
  }

  lemma EndedAlone(p: Primitives, d: Disk, locks: set<LockName>, t: Thread, clock: Clock, n: nat)
    requires !t.Live()
    ensures Alone(p, d, locks, t, clock, n) == (d, locks, t)
  {
    hide Advance, WellFormed;
  }

  lemma NoTurns(p: Primitives, d: Disk, locks: set<LockName>, t: Thread, clock: Clock)
    ensures Alone(p, d, locks, t, clock, 0) == (d, locks, t)
  {
  }

  // ---------- the same as a run ----------

  function SmoothTurns(id: nat, clock: Clock, n: nat): seq<Action> {
    seq(n, k requires 0 <= k < n => Go(id, Smooth(clock(n - k))))
  }

  lemma {:induction false} RunAlone(p: Primitives, s: State, id: nat, clock: Clock, n: nat)
    requires id in s.threads
    ensures var s' := Run(p, s, SmoothTurns(id, clock, n));
            var (d, locks, t) := Alone(p, s.disk, s.locks, s.threads[id], clock, n);
            s'.disk == d && s'.locks == locks && s'.threads == s.threads[id := t]
    decreases n
  {
    hide Advance, WellFormed, Run;
    if n == 0 {
      RunNothing(p, s);
      assert s.threads == s.threads[id := s.threads[id]];
    } else {
      var turns := SmoothTurns(id, clock, n);
      assert turns[1..] == SmoothTurns(id, clock, n - 1);
      RunFirst(p, s, turns);
      RunAlone(p, Step(p, s, turns[0]), id, clock, n - 1);
      if !(s.threads[id].Live() && WellFormed(s.threads[id])) {
        assert Step(p, s, turns[0]) == s;
        StoppedAlone(p, s.disk, s.locks, s.threads[id], clock, n - 1);
      }
    }
  }

  lemma StoppedAlone(p: Primitives, d: Disk, locks: set<LockName>, t: Thread, clock: Clock, n: nat)
    requires !t.Live() || !WellFormed(t)
    ensures Alone(p, d, locks, t, clock, n) == (d, locks, t)
  {
    hide Advance, WellFormed;
  }

  lemma RunSpawned(p: Primitives, s: State, id: nat, op: Op, clock: Clock, n: nat)
    requires id !in s.threads
    ensures var s' := Run(p, s, [Spawn(id, op)] + SmoothTurns(id, clock, n));
            var (d, locks, t) := Alone(p, s.disk, s.locks, NewThread(op), clock, n);
            s'.disk == d && s'.locks == locks && s'.threads == s.threads[id := t]
  {
    hide Run, Alone;
    var actions := [Spawn(id, op)] + SmoothTurns(id, clock, n);
    RunFirst(p, s, actions);
    assert actions[1..] == SmoothTurns(id, clock, n);
    RunAlone(p, Step(p, s, actions[0]), id, clock, n);
  }

  lemma SpawnedOp(p: Primitives, s0: State, a: seq<Action>, id: nat, op: Op, b: seq<Action>)
    requires Initial(s0) && id !in Run(p, s0, a).threads
    ensures var end := Run(p, s0, a + ([Spawn(id, op)] + b)); id in end.threads && end.threads[id].op == op
  {
    hide Inv, Run;
    InitialInv(p, s0);
    RunOk(p, s0.disk, s0, a + [Spawn(id, op)]);
    RunSnoc(p, s0, a, Spawn(id, op));
    assert a + ([Spawn(id, op)] + b) == (a + [Spawn(id, op)]) + b;
    RunConcat(p, s0, a + [Spawn(id, op)], b);
    OpOfRun(p, s0.disk, Run(p, s0, a + [Spawn(id, op)]), b, id);
  }

  lemma FilesOfInv(p: Primitives, d0: Disk, s: State)
    requires Inv(p, d0, s)
    ensures DiskOk(s.disk)
  {
    hide DiskOk, ThreadsOk;
  }

  lemma SoundFilesLoad(d: Disk)
    requires DiskOk(d)
    ensures AllValidCodes(d.codes) && AllValidPeers(d.peers) && AllValidRevs(d.revs)
  {
  }
}
