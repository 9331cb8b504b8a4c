/**
 From start-up into the barrier test program: the program finds its slots, and barrier 0, as start-up leaves
 them, and start-up has already used barrier 0 once.
 */
module StartedTest {
  import opened Common
  import opened BarrierTest
  import B = Barrier
  import P = Participants
  import S = Startup
  import Slots

  /** The program before its first step, in the memory that start-up leaves; only its own variables are new. */
  function HandedOn(c: Config, s: S.State): (t: State)
    ensures Shaped(c, t)
  {
    State(Init(c).cells[0 := s.cell],
          seq(c.n, i requires 0 <= i => if i != 0 && Slots.SendPtr(0, i) in s.full then Some(0) else None),
          Init(c).procs)
  }

  function From(c: Config, s: State, schedule: seq<nat>): (t: State)
    requires Shaped(c, s)
    ensures Shaped(c, t)
  {
    if |schedule| == 0 then s
    else Turn(c, From(c, s, schedule[..|schedule| - 1]), schedule[|schedule| - 1])
  }

  /** The same but for how often the barriers have been opened and closed. */
  ghost predicate Alike(c: Config, s: State, t: State)
    requires Shaped(c, s) && Shaped(c, t)
  {
    && s.slots == t.slots && s.procs == t.procs
    && forall b :: 0 <= b < P.NUM_BARRIERS ==> B.InMemory(s.cells[b]) == B.InMemory(t.cells[b])
  }

  /** A process that waits reads and writes only what is in memory. */
  lemma AdvanceAlike(num: nat, x: B.Cell, y: B.Cell, pc: B.Pc)
    requires B.InMemory(x) == B.InMemory(y) && pc != B.Out
    ensures B.Spins(x, pc) == B.Spins(y, pc)
    ensures B.InMemory(B.Advance(num, x, pc).0) == B.InMemory(B.Advance(num, y, pc).0)
    ensures B.Advance(num, x, pc).1 == B.Advance(num, y, pc).1
  {
  }

  lemma TurnAlike(c: Config, s: State, t: State, i: nat)
    requires Shaped(c, s) && Shaped(c, t) && Alike(c, s, t)
    ensures i < c.n ==> Blocked(c, s, i) == Blocked(c, t, i)
    ensures Alike(c, Turn(c, s, i), Turn(c, t, i))
  {
    if i < c.n && s.procs[i].stage.Wait? && s.procs[i].barr < P.NUM_BARRIERS && s.procs[i].stage.pc != B.Out {
      var p := s.procs[i];
      AdvanceAlike(Count(Part(c, p.barr)), s.cells[p.barr], t.cells[p.barr], p.stage.pc);
    }
  }

  lemma {:induction false} RunsAlike(c: Config, s: State, schedule: seq<nat>)
    requires Shaped(c, s) && Alike(c, s, Init(c))
    ensures Alike(c, From(c, s, schedule), Exec(c, schedule))
  {
    if |schedule| > 0 {
      var before := schedule[..|schedule| - 1];
      RunsAlike(c, s, before);
      TurnAlike(c, From(c, s, before), Exec(c, before), schedule[|schedule| - 1]);
    }
  }

  /** Start-up of the program's processes, in which somebody is through and nobody has sent anything yet. */
  ghost predicate Started(c: Config, stale: S.Stale, acts: seq<S.Act>) {
    && Sound(c) && 2 <= c.n <= 64 && S.Possible(c.n, stale)
    && S.SomeoneRuns(c.n, S.Exec(c.n, stale, acts))
    && S.Exec(c.n, stale, acts).posted == {}
  }

  /** What start-up hands on is what the program expects, up to the one round of barrier 0 that is over. */
  lemma HandedOnIsInit(c: Config, stale: S.Stale, acts: seq<S.Act>)
    requires Started(c, stale, acts)
    ensures Alike(c, HandedOn(c, S.Exec(c.n, stale, acts)), Init(c))
  {
    S.NothingErasedNothingStale(c.n, stale, acts);
    S.BarrierHandedOn(c.n, stale, acts);
    assert HandedOn(c, S.Exec(c.n, stale, acts)).slots == Init(c).slots;
  }

  /**
   After any start-up, whatever its slots and chunk flags said before: in every run of the program every process
   waits on a prefix of process 0's sequence of barriers.
   */
  lemma EverybodyFollowsOnceStarted(c: Config, stale: S.Stale, acts: seq<S.Act>, schedule: seq<nat>, i: nat)
    requires Started(c, stale, acts) && i < c.n
    ensures var p := From(c, HandedOn(c, S.Exec(c.n, stale, acts)), schedule).procs[i];
            Waited(c, p) <= Tour(c) && (Finished(c, p) ==> p.crossed == Tour(c))
  {
    HandedOnIsInit(c, stale, acts);
    RunsAlike(c, HandedOn(c, S.Exec(c.n, stale, acts)), schedule);
    EverybodyFollowsProcessZero(c, schedule, i);
  }

  /** After any start-up the program is never stuck before all its processes have finished. */
  lemma NeverStuckOnceStarted(c: Config, stale: S.Stale, acts: seq<S.Act>, schedule: seq<nat>) returns (j: nat)
    requires Started(c, stale, acts)
    requires !AllFinished(c, From(c, HandedOn(c, S.Exec(c.n, stale, acts)), schedule))
    ensures j < c.n && !Blocked(c, From(c, HandedOn(c, S.Exec(c.n, stale, acts)), schedule), j)
  {
    var start := HandedOn(c, S.Exec(c.n, stale, acts));
    HandedOnIsInit(c, stale, acts);
    RunsAlike(c, start, schedule);
    j := NeverStuck(c, schedule);
    TurnAlike(c, From(c, start, schedule), Exec(c, schedule), j);
  }

  /** After any start-up every run of the program can be continued until all its processes have finished. */
  lemma EveryRunFinishesOnceStarted(c: Config, stale: S.Stale, acts: seq<S.Act>, schedule: seq<nat>)
      returns (rest: seq<nat>)
    requires Started(c, stale, acts)
    ensures AllFinished(c, From(c, HandedOn(c, S.Exec(c.n, stale, acts)), schedule + rest))
  {
    HandedOnIsInit(c, stale, acts);
    rest := EveryRunCanFinish(c, schedule);
    RunsAlike(c, HandedOn(c, S.Exec(c.n, stale, acts)), schedule + rest);
  }
}
