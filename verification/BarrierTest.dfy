/**
 The barrier test program: process 0 draws a barrier number, broadcasts it through the one-place
 slots and waits on that barrier; everybody else receives the number and waits on the same barrier.
 All processes first cross barrier 0 and finally barrier 10.

 Barrier waits are at the grain of single accesses; a slot transfer is one step, as the Channel
 module justifies. Process 0's draws are fixed in `plan`, and every theorem is for every plan.
 */
module BarrierTest {
  import opened Common
  import Arith
  import P = Participants
  import B = Barrier

  /** `n` processes and the barrier numbers process 0 draws. */
  datatype Config = Config(n: nat, plan: seq<nat>)

  ghost predicate Sound(c: Config) {
    && 0 < c.n < B.TICKETS
    && forall k :: 0 <= k < |c.plan| ==> c.plan[k] < P.NUM_BARRIERS
  }

  /** The barriers in the order process 0 goes through them. */
  function Tour(c: Config): seq<nat> {
    [0] + c.plan + [10]
  }

  function Setting(b: nat): P.Setting {
    if b == 1 then P.APP else P.PLAIN
  }

  function Part(c: Config, b: nat): (part: seq<bool>)
    ensures |part| == c.n
  {
    P.Part(c.n, Setting(b))
  }

  /** Barrier 1 is for the ids that are no multiples of 3, process 0 not among them; the others are for ids below 64. */
  lemma WhoTakesPart(c: Config, b: nat, i: nat)
    requires i < c.n
    ensures Part(c, b)[i] <==> if b == 1 then i % 3 != 0 else i < 64
  {
    P.PlainIsBelowSixtyFour(i);
  }

  /** What every caller of wait works out for barrier `b` is the size of that set, which Turn uses. */
  lemma CallersAgree(c: Config, b: nat)
    requires Sound(c)
    ensures P.Total(c.n, Setting(b)) % B.TICKETS == Count(Part(c, b))
    ensures forall i :: 0 <= i < c.n ==> Part(c, b)[i] == P.TakesPart(Setting(b), i)
  {
    P.TotalCountsParticipants(c.n, Setting(b));
  }

  datatype Stage =
    | Talk(core: nat)   // broadcasting, next to `core`
    | Listen            // receiving from process 0
    | Wait(pc: B.Pc)    // in (or, at Out, about to call) the wait on `barr`

  /** A process: the waits it has come back from, the barrier number it holds, and where it is. */
  datatype Proc = Proc(crossed: seq<nat>, barr: nat, stage: Stage)

  datatype State = State(cells: seq<B.Cell>, slots: seq<Option<nat>>, procs: seq<Proc>)

  predicate Shaped(c: Config, s: State) {
    |s.cells| == P.NUM_BARRIERS && |s.slots| == |s.procs| == c.n
  }

  /** What process `i` does next after the waits in `crossed`. */
  function Enter(c: Config, i: nat, crossed: seq<nat>, barr: nat): Proc {
    var k := |crossed|;
    if k == 0 then Proc(crossed, 0, Wait(B.Out))
    else if k > |c.plan| then Proc(crossed, 10, Wait(B.Out))
    else if i == 0 then Proc(crossed, c.plan[k - 1], Talk(0))
    else Proc(crossed, barr, Listen)
  }

  predicate Finished(c: Config, p: Proc) {
    |p.crossed| >= |c.plan| + 2
  }

  function Init(c: Config): (s: State)
    ensures Shaped(c, s)
  {
    State(seq(P.NUM_BARRIERS, b => B.FRESH), seq(c.n, i => None), seq(c.n, i requires 0 <= i => Enter(c, i, [], 0)))
  }

  /** Process `i` can only re-read a full slot, an empty slot or a closed gate, or has nothing left to do. */
  predicate Blocked(c: Config, s: State, i: nat)
    requires Shaped(c, s) && i < c.n
  {
    var p := s.procs[i];
    || Finished(c, p)
    || match p.stage
       case Talk(core) => core < c.n && core != i && s.slots[core].Some?
       case Listen => s.slots[i].None?
       case Wait(pc) => p.barr < P.NUM_BARRIERS && B.Spins(s.cells[p.barr], pc)
  }

  /** One step of process `i`; a blocked process leaves the state as it is. */
  function Turn(c: Config, s: State, i: nat): (t: State)
    requires Shaped(c, s)
    ensures Shaped(c, t)
  {
    if i >= c.n || Blocked(c, s, i) then s
    else
      var p := s.procs[i];
      match p.stage
      case Talk(core) =>
        if core >= c.n then
          s.(procs := s.procs[i := p.(stage := Wait(B.Out))])
        else if core == i then
          s.(procs := s.procs[i := p.(stage := Talk(core + 1))])
        else
          s.(slots := s.slots[core := Some(p.barr)], procs := s.procs[i := p.(stage := Talk(core + 1))])
      case Listen =>
        s.(slots := s.slots[i := None], procs := s.procs[i := p.(barr := s.slots[i].value, stage := Wait(B.Out))])
      case Wait(pc) =>
        if p.barr >= P.NUM_BARRIERS || (pc == B.Out && !Part(c, p.barr)[i]) then
          s.(procs := s.procs[i := Enter(c, i, p.crossed + [p.barr], p.barr)])
        else if pc == B.Out then
          s.(procs := s.procs[i := p.(stage := Wait(B.Gate))])
        else
          var (cell, next) := B.Advance(Count(Part(c, p.barr)), s.cells[p.barr], pc);
          var q := if next == B.Out then Enter(c, i, p.crossed + [p.barr], p.barr) else p.(stage := Wait(next));
          s.(cells := s.cells[p.barr := cell], procs := s.procs[i := q])
  }

  function Exec(c: Config, schedule: seq<nat>): (s: State)
    ensures Shaped(c, s)
  {
    if |schedule| == 0 then Init(c)
    else Turn(c, Exec(c, schedule[..|schedule| - 1]), schedule[|schedule| - 1])
  }

  /**
   Arriving at barrier 1: a process whose id is a multiple of 3 goes on at once and leaves the barrier alone,
   any other is held at its gate.
   */
  lemma ArrivalAtBarrierOne(c: Config, s: State, i: nat)
    requires Shaped(c, s) && i < c.n && !Finished(c, s.procs[i])
    requires s.procs[i].barr == 1 && s.procs[i].stage == Wait(B.Out)
    ensures var p, t := s.procs[i], Turn(c, s, i);
            && t.cells == s.cells && t.slots == s.slots
            && t.procs == s.procs[i := t.procs[i]]
            && (if i % 3 == 0 then t.procs[i].crossed == p.crossed + [1] && t.procs[i].stage != Wait(B.Gate)
                else t.procs[i] == p.(stage := Wait(B.Gate)))
  {
    WhoTakesPart(c, 1, i);
  }

  // ---------------------------------------------------------------- the view of one barrier

  /** Process `i` as a user of barrier `b`. */
  ghost function Viewed(c: Config, b: nat, i: nat, p: Proc): B.Waiter
    requires i < c.n
  {
    if !Part(c, b)[i] then
      B.Waiter(B.Out, 0, 0)
    else
      var rounds := multiset(p.crossed)[b];
      if p.stage.Wait? && p.barr == b then
        B.Waiter(p.stage.pc, rounds + (if p.stage.pc in {B.Out, B.Gate, B.Inc} then 0 else 1), rounds)
      else
        B.Waiter(B.Out, rounds, rounds)
  }

  ghost function View(c: Config, b: nat, s: State): (v: B.State)
    requires Shaped(c, s) && b < P.NUM_BARRIERS
    ensures |v.ws| == c.n
  {
    B.State(s.cells[b], seq(c.n, i requires 0 <= i < c.n => Viewed(c, b, i, s.procs[i])))
  }

  // ---------------------------------------------------------------- the invariant

  /** Numbers process 0 has put into the slot of process `i` so far. */
  ghost function Sent(c: Config, zero: Proc, i: nat): int {
    if |zero.crossed| == 0 then 0
    else if zero.stage.Talk? then |zero.crossed| - 1 + (if i < zero.stage.core then 1 else 0)
    else if |zero.crossed| <= |c.plan| then |zero.crossed|
    else |c.plan|
  }

  ghost function Received(c: Config, p: Proc): int {
    if |p.crossed| == 0 then 0
    else if p.stage.Listen? then |p.crossed| - 1
    else if |p.crossed| <= |c.plan| then |p.crossed|
    else |c.plan|
  }

  /** Process `i` follows the tour. */
  ghost predicate OnTour(c: Config, i: nat, p: Proc)
    requires i < c.n
  {
    var k := |p.crossed|;
    && k <= |Tour(c)|
    && p.crossed == Tour(c)[..k]
    && (p.stage.Talk? ==> i == 0 && 1 <= k <= |c.plan| && p.stage.core <= c.n)
    && (p.stage.Listen? ==> i != 0 && 1 <= k <= |c.plan|)
    && (!p.stage.Listen? && k < |Tour(c)| ==> p.barr == Tour(c)[k])
    && (k == |Tour(c)| ==> p.stage == Wait(B.Out) && p.barr < P.NUM_BARRIERS)
    && (p.stage.Wait? && p.stage.pc != B.Out ==> p.barr < P.NUM_BARRIERS && Part(c, p.barr)[i])
  }

  ghost predicate SlotOk(c: Config, i: nat, slot: Option<nat>, zero: Proc, p: Proc) {
    && (slot.None? ==> Received(c, p) == Sent(c, zero, i))
    && (slot.Some? ==> Received(c, p) + 1 == Sent(c, zero, i) <= |c.plan| && slot.value == c.plan[Received(c, p)])
  }

  ghost predicate Local(c: Config, s: State)
    requires Shaped(c, s) && 0 < c.n
  {
    && (forall i :: 0 <= i < c.n ==> OnTour(c, i, s.procs[i]))
    && (forall i :: 0 < i < c.n ==> SlotOk(c, i, s.slots[i], s.procs[0], s.procs[i]))
  }

  ghost predicate Inv(c: Config, s: State)
    requires Shaped(c, s) && 0 < c.n
  {
    && Local(c, s)
    && forall b :: 0 <= b < P.NUM_BARRIERS ==> B.Inv(Part(c, b), View(c, b, s))
  }

  lemma InitHolds(c: Config)
    requires Sound(c)
    ensures Inv(c, Init(c))
  {
    forall b | 0 <= b < P.NUM_BARRIERS
      ensures B.Inv(Part(c, b), View(c, b, Init(c)))
    {
      assert View(c, b, Init(c)) == B.Init(c.n);
      B.InitHolds(Part(c, b));
    }
    assert Tour(c)[..0] == [];
  }

  /** Going on after a wait keeps a process on tour. */
  lemma EnterOnTour(c: Config, i: nat, p: Proc)
    requires Sound(c) && i < c.n && OnTour(c, i, p) && p.stage.Wait? && |p.crossed| < |Tour(c)|
    ensures OnTour(c, i, Enter(c, i, p.crossed + [p.barr], p.barr))
    ensures !Enter(c, i, p.crossed + [p.barr], p.barr).stage.Wait?
         || Enter(c, i, p.crossed + [p.barr], p.barr).stage.pc == B.Out
  {
  }

  lemma TalkKeepsLocal(c: Config, s: State, i: nat)
    requires Sound(c) && Shaped(c, s) && Local(c, s) && i < c.n && !Blocked(c, s, i) && s.procs[i].stage.Talk?
    ensures Local(c, Turn(c, s, i))
  {
  }

  lemma ListenKeepsLocal(c: Config, s: State, i: nat)
    requires Sound(c) && Shaped(c, s) && Local(c, s) && i < c.n && !Blocked(c, s, i) && s.procs[i].stage.Listen?
    ensures Local(c, Turn(c, s, i))
  {
  }

  /** The process left behind by a step in a wait. */
  ghost predicate AfterWait(c: Config, i: nat, p: Proc, q: Proc) {
    || q == Enter(c, i, p.crossed + [p.barr], p.barr)
    || (q.crossed == p.crossed && q.barr == p.barr < P.NUM_BARRIERS && q.stage.Wait? && q.stage.pc != B.Out)
  }

  lemma WaitStepShape(c: Config, s: State, i: nat)
    requires Sound(c) && Shaped(c, s) && i < c.n && !Blocked(c, s, i) && s.procs[i].stage.Wait?
    ensures var t := Turn(c, s, i);
            && t.slots == s.slots && t.procs == s.procs[i := t.procs[i]]
            && AfterWait(c, i, s.procs[i], t.procs[i])
            && (t.procs[i].crossed == s.procs[i].crossed && s.procs[i].stage.pc == B.Out
                ==> Part(c, s.procs[i].barr)[i])
            && (t.cells == s.cells || (s.procs[i].barr < P.NUM_BARRIERS && s.procs[i].stage.pc != B.Out
                                       && t.cells == s.cells[s.procs[i].barr := t.cells[s.procs[i].barr]]))
  {
  }

  /** A step in a wait neither sends nor receives. */
  lemma WaitIsSilent(c: Config, i: nat, p: Proc, q: Proc)
    requires Sound(c) && i < c.n && OnTour(c, i, p) && p.stage.Wait? && !Finished(c, p) && AfterWait(c, i, p, q)
    ensures i != 0 ==> Received(c, q) == Received(c, p)
    ensures i == 0 ==> forall j :: 0 <= j < c.n ==> Sent(c, q, j) == Sent(c, p, j)
  {
  }

  lemma WaitKeepsLocal(c: Config, s: State, i: nat)
    requires Sound(c) && Shaped(c, s) && Local(c, s) && i < c.n && !Blocked(c, s, i) && s.procs[i].stage.Wait?
    ensures Local(c, Turn(c, s, i))
  {
    var p, q := s.procs[i], Turn(c, s, i).procs[i];
    assert OnTour(c, i, p);
    WaitStepShape(c, s, i);
    EnterOnTour(c, i, p);
    assert OnTour(c, i, q);
    WaitIsSilent(c, i, p, q);
    forall j | 0 < j < c.n
      ensures SlotOk(c, j, s.slots[j], if i == 0 then q else s.procs[0], if i == j then q else s.procs[j])
    {
      assert SlotOk(c, j, s.slots[j], s.procs[0], s.procs[j]);
    }
  }

  lemma TurnKeepsLocal(c: Config, s: State, i: nat)
    requires Sound(c) && Shaped(c, s) && Local(c, s)
    ensures Local(c, Turn(c, s, i))
  {
    if i < c.n && !Blocked(c, s, i) {
      match s.procs[i].stage
      case Talk(_) => TalkKeepsLocal(c, s, i);
      case Listen => ListenKeepsLocal(c, s, i);
      case Wait(_) => WaitKeepsLocal(c, s, i);
    }
  }

  lemma ViewedUnseen(c: Config, i: nat, p: Proc, q: Proc, b: nat)
    requires Sound(c) && i < c.n && p.stage.Wait? && AfterWait(c, i, p, q) && b < P.NUM_BARRIERS
    requires |p.crossed| < |Tour(c)| && OnTour(c, i, p)
    requires p.barr != b || !Part(c, b)[i]
    ensures Viewed(c, b, i, q) == Viewed(c, b, i, p)
  {
  }

  /** A wait step on another barrier, or by a process that does not take part, is invisible to barrier `b`. */
  lemma WaitUnseen(c: Config, s: State, i: nat, b: nat)
    requires Sound(c) && Shaped(c, s) && i < c.n && !Blocked(c, s, i) && s.procs[i].stage.Wait? && b < P.NUM_BARRIERS
    requires OnTour(c, i, s.procs[i])
    requires s.procs[i].barr != b || !Part(c, b)[i]
    ensures View(c, b, Turn(c, s, i)) == View(c, b, s)
  {
    WaitStepShape(c, s, i);
    ViewedUnseen(c, i, s.procs[i], Turn(c, s, i).procs[i], b);
    assert View(c, b, Turn(c, s, i)).ws == View(c, b, s).ws;
  }

  /** Coming back from a wait, seen by the barrier. */
  lemma ViewedReturn(c: Config, i: nat, p: Proc)
    requires i < c.n && p.barr < P.NUM_BARRIERS && Part(c, p.barr)[i]
    ensures var rounds := multiset(p.crossed)[p.barr] + 1;
            Viewed(c, p.barr, i, Enter(c, i, p.crossed + [p.barr], p.barr)) == B.Waiter(B.Out, rounds, rounds)
  {
    assert multiset(p.crossed + [p.barr])[p.barr] == multiset(p.crossed)[p.barr] + 1;
  }

  /** What a participant's wait step makes of its part in the barrier. */
  lemma ViewedSeen(c: Config, i: nat, p: Proc, pc: B.Pc, next: B.Pc, q: Proc)
    requires i < c.n && p.stage == Wait(pc) && p.barr < P.NUM_BARRIERS && Part(c, p.barr)[i]
    requires pc == B.Out ==> next == B.Gate
    requires next != B.Out ==> q == p.(stage := Wait(next))
    requires next == B.Out ==> q == Enter(c, i, p.crossed + [p.barr], p.barr) && pc in {B.Dec, B.Reset}
    requires next in {B.Gate, B.Inc} ==> pc in {B.Out, B.Gate}
    requires next == B.Exit ==> pc != B.Out && pc != B.Gate
    requires next == B.Open ==> pc == B.Inc
    requires next in {B.Dec, B.Reset} ==> pc in {B.Exit, B.Dec}
    ensures var w := Viewed(c, p.barr, i, p);
            Viewed(c, p.barr, i, q) ==
            B.Waiter(next, w.arrived + (if pc == B.Inc then 1 else 0), w.returned + (if next == B.Out then 1 else 0))
  {
    if next == B.Out {
      ViewedReturn(c, i, p);
    }
  }

  /** Where a participant's wait step leads, as the barrier has it. */
  function NextPc(c: Config, s: State, i: nat): B.Pc
    requires Shaped(c, s) && i < c.n && s.procs[i].stage.Wait? && s.procs[i].barr < P.NUM_BARRIERS
  {
    var p := s.procs[i];
    if p.stage.pc == B.Out then B.Gate else B.Advance(Count(Part(c, p.barr)), s.cells[p.barr], p.stage.pc).1
  }

  lemma WaitSeenProc(c: Config, s: State, i: nat)
    requires Sound(c) && Shaped(c, s) && i < c.n && !Blocked(c, s, i) && s.procs[i].stage.Wait?
    requires s.procs[i].barr < P.NUM_BARRIERS && Part(c, s.procs[i].barr)[i]
    ensures var p, t, next := s.procs[i], Turn(c, s, i), NextPc(c, s, i);
            && t.procs == s.procs[i := if next == B.Out then Enter(c, i, p.crossed + [p.barr], p.barr)
                                    else p.(stage := Wait(next))]
            && t.cells[p.barr] == if p.stage.pc == B.Out then s.cells[p.barr]
                                  else B.Advance(Count(Part(c, p.barr)), s.cells[p.barr], p.stage.pc).0
  {
  }

  lemma WaitSeenBarrier(part: seq<bool>, v: B.State, i: nat, next: B.Pc, cell: B.Cell)
    requires |v.ws| == |part| && i < |part| && part[i]
    requires (cell, next) == if v.ws[i].pc == B.Out then (v.cell, B.Gate)
                             else B.Advance(Count(part), v.cell, v.ws[i].pc)
    ensures B.Turn(part, v, i) ==
            B.State(cell, v.ws[i := B.Waiter(next, v.ws[i].arrived + (if v.ws[i].pc == B.Inc then 1 else 0),
                                             v.ws[i].returned + (if next == B.Out then 1 else 0))])
  {
  }

  /** A participant's wait step on barrier `b` is that barrier's step. */
  lemma WaitSeen(c: Config, s: State, i: nat)
    requires Sound(c) && Shaped(c, s) && i < c.n && !Blocked(c, s, i) && s.procs[i].stage.Wait?
    requires OnTour(c, i, s.procs[i]) && s.procs[i].barr < P.NUM_BARRIERS
    requires Part(c, s.procs[i].barr)[i]
    ensures var b := s.procs[i].barr; View(c, b, Turn(c, s, i)) == B.Turn(Part(c, b), View(c, b, s), i)
  {
    var p, b := s.procs[i], s.procs[i].barr;
    var t, next := Turn(c, s, i), NextPc(c, s, i);
    WaitSeenProc(c, s, i);
    ViewedSeen(c, i, p, p.stage.pc, next, t.procs[i]);
    WaitSeenBarrier(Part(c, b), View(c, b, s), i, next, t.cells[b]);
    assert View(c, b, t).ws == View(c, b, s).ws[i := Viewed(c, b, i, t.procs[i])];
  }

  /** To barrier `b`, a step of process `i` is a barrier step of thread `i` or no step at all. */
  lemma TurnProjects(c: Config, s: State, i: nat, b: nat)
    requires Sound(c) && Shaped(c, s) && Local(c, s) && b < P.NUM_BARRIERS
    ensures View(c, b, Turn(c, s, i)) == View(c, b, s)
         || View(c, b, Turn(c, s, i)) == B.Turn(Part(c, b), View(c, b, s), i)
  {
    if i < c.n && !Blocked(c, s, i) {
      var p, t := s.procs[i], Turn(c, s, i);
      assert OnTour(c, i, p);
      if !p.stage.Wait? {
        assert Viewed(c, b, i, t.procs[i]) == Viewed(c, b, i, p);
        assert View(c, b, t).ws == View(c, b, s).ws;
      } else if p.barr == b && Part(c, b)[i] {
        WaitSeen(c, s, i);
      } else {
        WaitUnseen(c, s, i, b);
      }
    }
  }

  lemma TurnKeepsInv(c: Config, s: State, i: nat)
    requires Sound(c) && Shaped(c, s) && Inv(c, s)
    ensures Inv(c, Turn(c, s, i))
  {
    TurnKeepsLocal(c, s, i);
    forall b | 0 <= b < P.NUM_BARRIERS
      ensures B.Inv(Part(c, b), View(c, b, Turn(c, s, i)))
    {
      TurnProjects(c, s, i, b);
      B.TurnKeepsInv(Part(c, b), View(c, b, s), i);
    }
  }

  lemma {:induction false} ReachableInv(c: Config, schedule: seq<nat>)
    requires Sound(c)
    ensures Inv(c, Exec(c, schedule))
  {
    if |schedule| == 0 {
      InitHolds(c);
    } else {
      ReachableInv(c, schedule[..|schedule| - 1]);
      TurnKeepsInv(c, Exec(c, schedule[..|schedule| - 1]), schedule[|schedule| - 1]);
    }
  }

  // ---------------------------------------------------------------- what the program promises

  /** The barriers process `i` has waited on, the one it is waiting on included. */
  ghost function Waited(c: Config, p: Proc): seq<nat> {
    if p.stage.Wait? && !Finished(c, p) then p.crossed + [p.barr] else p.crossed
  }

  lemma WaitedIsPrefix(c: Config, i: nat, p: Proc)
    requires i < c.n && OnTour(c, i, p)
    ensures Waited(c, p) <= Tour(c)
    ensures Finished(c, p) ==> p.crossed == Tour(c)
  {
  }

  /**
   In every run, whatever process 0 draws, every process waits on a prefix of process 0's sequence
   of barriers.
   */
  lemma EverybodyFollowsProcessZero(c: Config, schedule: seq<nat>, i: nat)
    requires Sound(c) && i < c.n
    ensures Waited(c, Exec(c, schedule).procs[i]) <= [0] + c.plan + [10]
    ensures Finished(c, Exec(c, schedule).procs[i]) ==> Exec(c, schedule).procs[i].crossed == [0] + c.plan + [10]
  {
    ReachableInv(c, schedule);
    WaitedIsPrefix(c, i, Exec(c, schedule).procs[i]);
  }

  /** In every run, two participants of a barrier are never more than one of its rounds apart. */
  lemma BarriersSynchronise(c: Config, schedule: seq<nat>, b: nat, i: nat, j: nat)
    requires Sound(c) && i < c.n && j < c.n && b < P.NUM_BARRIERS && Part(c, b)[i] && Part(c, b)[j]
    ensures var s := Exec(c, schedule);
            multiset(s.procs[i].crossed)[b] <= multiset(s.procs[j].crossed)[b] + 1
  {
    ReachableInv(c, schedule);
    var s := Exec(c, schedule);
    assert B.Inv(Part(c, b), View(c, b, s));
    B.InvIsSafe(Part(c, b), View(c, b, s), i, j);
    assert View(c, b, s).ws[i] == Viewed(c, b, i, s.procs[i]) && View(c, b, s).ws[j] == Viewed(c, b, j, s.procs[j]);
  }

  // ---------------------------------------------------------------- no reachable state is stuck

  /** Process `i` is one of those that have come back from the fewest waits. */
  ghost predicate Last(c: Config, s: State, i: nat)
    requires Shaped(c, s)
  {
    i < c.n && forall j :: 0 <= j < c.n ==> |s.procs[i].crossed| <= |s.procs[j].crossed|
  }

  lemma {:induction false} SomebodyIsLast(c: Config, s: State, m: nat) returns (i: nat)
    requires Shaped(c, s) && 0 < m <= c.n
    ensures i < m && forall j :: 0 <= j < m ==> |s.procs[i].crossed| <= |s.procs[j].crossed|
  {
    if m == 1 {
      i := 0;
    } else {
      i := SomebodyIsLast(c, s, m - 1);
      if |s.procs[m - 1].crossed| < |s.procs[i].crossed| {
        i := m - 1;
      }
    }
  }

  /** A last process is never blocked on its slot. */
  lemma LastCanCommunicate(c: Config, s: State, i: nat)
    requires Sound(c) && Shaped(c, s) && Inv(c, s) && Last(c, s, i)
    requires !s.procs[i].stage.Wait? && !Finished(c, s.procs[i])
    ensures !Blocked(c, s, i) || !Blocked(c, s, 0)
  {
  }

  /** Rounds of barrier `b` on the first `k` stops of the tour. */
  lemma MoreStopsMoreRounds(tour: seq<nat>, k: nat, l: nat, b: nat)
    requires k < l <= |tour| && tour[k] == b
    ensures multiset(tour[..l])[b] > multiset(tour[..k])[b]
  {
    assert tour[..l] == tour[..k] + [b] + tour[k + 1..l];
  }

  /** A participant outside barrier `b` that has not passed a last process is at the same stop, about to call. */
  lemma OutsiderIsLast(c: Config, s: State, i: nat, h: nat)
    requires Sound(c) && Shaped(c, s) && Inv(c, s) && Last(c, s, i) && h < c.n
    requires |s.procs[i].crossed| < |Tour(c)| && s.procs[i].stage.Wait?
    requires multiset(s.procs[h].crossed)[s.procs[i].barr] <= multiset(s.procs[i].crossed)[s.procs[i].barr]
    ensures Last(c, s, h) && |s.procs[h].crossed| == |s.procs[i].crossed|
  {
    var k, l := |s.procs[i].crossed|, |s.procs[h].crossed|;
    assert OnTour(c, i, s.procs[i]) && OnTour(c, h, s.procs[h]);
    if l > k {
      MoreStopsMoreRounds(Tour(c), k, l, s.procs[i].barr);
    }
  }

  /** That outsider, or process 0 before it, can move. */
  lemma OutsiderMoves(c: Config, s: State, i: nat, h: nat) returns (j: nat)
    requires Sound(c) && Shaped(c, s) && Inv(c, s) && Last(c, s, i) && h < c.n && !Finished(c, s.procs[i])
    requires s.procs[i].stage.Wait? && s.procs[i].barr < P.NUM_BARRIERS && Part(c, s.procs[i].barr)[h]
    requires s.procs[i].barr == Tour(c)[|s.procs[i].crossed|]
    requires Viewed(c, s.procs[i].barr, h, s.procs[h]).pc == B.Out
    requires multiset(s.procs[h].crossed)[s.procs[i].barr] <= multiset(s.procs[i].crossed)[s.procs[i].barr]
    ensures j < c.n && !Blocked(c, s, j)
  {
    OutsiderIsLast(c, s, i, h);
    if s.procs[h].stage.Wait? {
      assert OnTour(c, h, s.procs[h]);
      j := h;
    } else {
      LastCanCommunicate(c, s, h);
      j := if Blocked(c, s, h) then 0 else h;
    }
  }

  /** A last process in a wait is kept there only by somebody who can move. */
  lemma LastWaitMoves(c: Config, s: State, i: nat) returns (j: nat)
    requires Sound(c) && Shaped(c, s) && Inv(c, s) && Last(c, s, i) && !Finished(c, s.procs[i])
    requires s.procs[i].stage.Wait? && s.procs[i].stage.pc != B.Out
    ensures j < c.n && !Blocked(c, s, j)
  {
    var p := s.procs[i];
    assert OnTour(c, i, p);
    var b := p.barr;
    assert View(c, b, s).ws[i] == Viewed(c, b, i, p);
    if h: nat :| Due(c, s, b, i, h) {
      j := DueMoves(c, s, i, h);
    } else {
      forall h | 0 <= h < c.n && Part(c, b)[h] && View(c, b, s).ws[h].pc == B.Out
        ensures View(c, b, s).ws[h].returned > View(c, b, s).ws[i].returned
      {
        assert !Due(c, s, b, i, h);
      }
      j := MoverIsFree(c, s, b, i);
    }
  }

  /** Participant `h` of barrier `b` is outside and still due in the round that `i` is in. */
  ghost predicate Due(c: Config, s: State, b: nat, i: nat, h: nat)
    requires Shaped(c, s) && b < P.NUM_BARRIERS && i < c.n
  {
    h < c.n && Part(c, b)[h] && View(c, b, s).ws[h].pc == B.Out
    && View(c, b, s).ws[h].returned <= View(c, b, s).ws[i].returned
  }

  lemma DueMoves(c: Config, s: State, i: nat, h: nat) returns (j: nat)
    requires Sound(c) && Shaped(c, s) && Inv(c, s) && Last(c, s, i) && !Finished(c, s.procs[i])
    requires s.procs[i].stage.Wait? && s.procs[i].stage.pc != B.Out
    requires s.procs[i].barr < P.NUM_BARRIERS && Part(c, s.procs[i].barr)[i] && Due(c, s, s.procs[i].barr, i, h)
    ensures j < c.n && !Blocked(c, s, j)
  {
    var b := s.procs[i].barr;
    assert OnTour(c, i, s.procs[i]);
    assert View(c, b, s).ws[i] == Viewed(c, b, i, s.procs[i]) && View(c, b, s).ws[h] == Viewed(c, b, h, s.procs[h]);
    j := OutsiderMoves(c, s, i, h);
  }

  /** If the barrier's own progress argument applies to the view, it finds a process that is not blocked. */
  lemma MoverIsFree(c: Config, s: State, b: nat, i: nat) returns (m: nat)
    requires Sound(c) && Shaped(c, s) && Inv(c, s) && b < P.NUM_BARRIERS && i < c.n && Part(c, b)[i]
    requires View(c, b, s).ws[i].pc != B.Out
    requires forall h :: 0 <= h < c.n && Part(c, b)[h] && View(c, b, s).ws[h].pc == B.Out ==>
               View(c, b, s).ws[h].returned > View(c, b, s).ws[i].returned
    ensures m < c.n && !Blocked(c, s, m)
  {
    assert B.Inv(Part(c, b), View(c, b, s));
    B.SomebodyMoves(Part(c, b), View(c, b, s), i);
    m :| B.Moves(Part(c, b), View(c, b, s), m);
    assert View(c, b, s).ws[m] == Viewed(c, b, m, s.procs[m]);
    assert OnTour(c, m, s.procs[m]);
  }

  /** In every reachable state either all processes have finished or some process can take a real step. */
  lemma NeverStuck(c: Config, schedule: seq<nat>) returns (j: nat)
    requires Sound(c)
    requires exists i :: 0 <= i < c.n && !Finished(c, Exec(c, schedule).procs[i])
    ensures j < c.n && !Blocked(c, Exec(c, schedule), j)
  {
    ReachableInv(c, schedule);
    var s := Exec(c, schedule);
    j := InvNotStuck(c, s);
  }

  lemma InvNotStuck(c: Config, s: State) returns (j: nat)
    requires Sound(c) && Shaped(c, s) && Inv(c, s)
    requires exists i :: 0 <= i < c.n && !Finished(c, s.procs[i])
    ensures j < c.n && !Blocked(c, s, j)
  {
    var i := SomebodyIsLast(c, s, c.n);
    var u :| 0 <= u < c.n && !Finished(c, s.procs[u]);
    assert |s.procs[i].crossed| <= |s.procs[u].crossed|;
    var p := s.procs[i];
    assert OnTour(c, i, p);
    if !p.stage.Wait? {
      LastCanCommunicate(c, s, i);
      j := if Blocked(c, s, i) then 0 else i;
    } else if p.stage.pc == B.Out {
      j := i;
    } else {
      j := LastWaitMoves(c, s, i);
    }
  }

  // ---------------------------------------------------------------- termination

  /** Steps before the next return from a wait. */
  function StageWork(n: nat, stage: Stage): int {
    match stage
    case Talk(core) => 8 + n - core
    case Listen => 8
    case Wait(pc) => if pc == B.Out then 7 else B.Rank(pc)
  }

  /** An upper bound on the real steps process `p` has left. */
  function Work(c: Config, p: Proc): int {
    (|c.plan| + 2 - |p.crossed|) * (c.n + 12) + StageWork(c.n, p.stage)
  }

  function Works(c: Config, s: State): (xs: seq<int>)
    requires Shaped(c, s)
    ensures |xs| == c.n
  {
    seq(c.n, i requires 0 <= i < c.n => Work(c, s.procs[i]))
  }

  lemma WorkShrinks(c: Config, p: Proc, q: Proc)
    requires |p.crossed| < |c.plan| + 2 && |q.crossed| == |p.crossed| + 1
    requires 0 <= StageWork(c.n, p.stage) && StageWork(c.n, q.stage) <= c.n + 8
    ensures Work(c, q) < Work(c, p)
  {
    Arith.OutweighedBy(|c.plan| + 2 - |p.crossed|, |c.plan| + 2 - |q.crossed|, c.n + 12,
                       StageWork(c.n, p.stage), StageWork(c.n, q.stage));
  }

  lemma SameStopLessWork(c: Config, p: Proc, q: Proc)
    requires |q.crossed| == |p.crossed| && StageWork(c.n, q.stage) < StageWork(c.n, p.stage)
    ensures Work(c, q) < Work(c, p)
  {
  }

  lemma OnTourBounds(c: Config, i: nat, p: Proc)
    requires Sound(c) && i < c.n && OnTour(c, i, p)
    ensures |p.crossed| <= |c.plan| + 2 && 0 <= StageWork(c.n, p.stage) && Work(c, p) >= 0
  {
    Arith.Multiple(|c.plan| + 2 - |p.crossed|, c.n + 12);
  }

  /** Stage by stage: the process either stays at its stop with less to do, or goes on to the next stop. */
  lemma TurnDescends(c: Config, s: State, i: nat)
    requires Shaped(c, s) && i < c.n && !Blocked(c, s, i)
    requires s.procs[i].stage.Talk? ==> s.procs[i].stage.core <= c.n
    ensures var p, q := s.procs[i], Turn(c, s, i).procs[i];
            || (|q.crossed| == |p.crossed| && StageWork(c.n, q.stage) < StageWork(c.n, p.stage))
            || (|q.crossed| == |p.crossed| + 1 && StageWork(c.n, q.stage) <= c.n + 8)
  {
  }

  lemma TurnShrinksWork(c: Config, s: State, i: nat)
    requires Sound(c) && Shaped(c, s) && Inv(c, s) && i < c.n && !Blocked(c, s, i)
    ensures Work(c, Turn(c, s, i).procs[i]) < Work(c, s.procs[i])
  {
    var p, q := s.procs[i], Turn(c, s, i).procs[i];
    OnTourBounds(c, i, p);
    TurnDescends(c, s, i);
    if |q.crossed| == |p.crossed| {
      SameStopLessWork(c, p, q);
    } else {
      WorkShrinks(c, p, q);
    }
  }

  lemma TurnShrinksTotal(c: Config, s: State, i: nat)
    requires Sound(c) && Shaped(c, s) && Inv(c, s) && i < c.n && !Blocked(c, s, i)
    ensures 0 <= Sum(Works(c, Turn(c, s, i))) < Sum(Works(c, s))
  {
    var t := Turn(c, s, i);
    assert t.procs == s.procs[i := t.procs[i]];
    assert Works(c, t) == Works(c, s)[i := Work(c, t.procs[i])];
    SumUpdate(Works(c, s), i, Work(c, t.procs[i]));
    TurnShrinksWork(c, s, i);
    TurnKeepsInv(c, s, i);
    WorkNonNegative(c, t);
  }

  lemma WorkNonNegative(c: Config, s: State)
    requires Sound(c) && Shaped(c, s) && Inv(c, s)
    ensures Sum(Works(c, s)) >= 0
  {
    forall i | 0 <= i < c.n
      ensures Works(c, s)[i] >= 0
    {
      OnTourBounds(c, i, s.procs[i]);
    }
    SumNonNegative(Works(c, s));
  }

  /** Steps of a schedule that are not spins. */
  function RealSteps(c: Config, schedule: seq<nat>): nat {
    if |schedule| == 0 then 0
    else
      var before, i := schedule[..|schedule| - 1], schedule[|schedule| - 1];
      RealSteps(c, before) + if i < c.n && !Blocked(c, Exec(c, before), i) then 1 else 0
  }

  /** No run, however long, contains more real steps than the work there is at the start. */
  lemma {:induction false} RealStepsAreBounded(c: Config, schedule: seq<nat>)
    requires Sound(c)
    ensures RealSteps(c, schedule) + Sum(Works(c, Exec(c, schedule))) <= Sum(Works(c, Init(c)))
    ensures RealSteps(c, schedule) <= Sum(Works(c, Init(c)))
  {
    ReachableInv(c, schedule);
    WorkNonNegative(c, Exec(c, schedule));
    if |schedule| > 0 {
      var before, i := schedule[..|schedule| - 1], schedule[|schedule| - 1];
      RealStepsAreBounded(c, before);
      ReachableInv(c, before);
      if i < c.n && !Blocked(c, Exec(c, before), i) {
        TurnShrinksTotal(c, Exec(c, before), i);
      }
    }
  }

  ghost predicate AllFinished(c: Config, s: State)
    requires Shaped(c, s)
  {
    forall i :: 0 <= i < c.n ==> Finished(c, s.procs[i])
  }

  lemma OneMoreStep(c: Config, schedule: seq<nat>, j: nat)
    requires Sound(c) && j < c.n && !Blocked(c, Exec(c, schedule), j)
    ensures RealSteps(c, schedule) < RealSteps(c, schedule + [j]) <= Sum(Works(c, Init(c)))
  {
    assert (schedule + [j])[..|schedule|] == schedule;
    RealStepsAreBounded(c, schedule + [j]);
  }

  /** Every run can be continued until all processes have gone through the whole tour. */
  lemma {:induction false} EveryRunCanFinish(c: Config, schedule: seq<nat>) returns (rest: seq<nat>)
    requires Sound(c)
    ensures AllFinished(c, Exec(c, schedule + rest))
    decreases Sum(Works(c, Init(c))) - RealSteps(c, schedule)
  {
    if AllFinished(c, Exec(c, schedule)) {
      rest := [];
      assert schedule + [] == schedule;
    } else {
      var j := NeverStuck(c, schedule);
      OneMoreStep(c, schedule, j);
      var more := EveryRunCanFinish(c, schedule + [j]);
      Regroup(schedule, j, more);
      rest := [j] + more;
    }
  }

  // ---------------------------------------------------------------- the program in memory

  /** The slots from `start` up to `core` filled with a value, except the sender's own. */
  function Filled(slots: seq<Option<nat>>, self: nat, start: nat, core: nat, value: nat): (after: seq<Option<nat>>)
    ensures |after| == |slots|
    ensures forall i :: 0 <= i < |slots| ==>
              after[i] == if start <= i < core && i != self then Some(value) else slots[i]
  {
    seq(|slots|, i requires 0 <= i < |slots| => if start <= i < core && i != self then Some(value) else slots[i])
  }

  lemma FilledOneMore(slots: seq<Option<nat>>, self: nat, start: nat, core: nat, value: nat)
    requires start <= core < |slots|
    ensures var before := Filled(slots, self, start, core, value);
            Filled(slots, self, start, core + 1, value) == if core == self then before else before[core := Some(value)]
  {
  }

  /** State `s` after process 0 has broadcast from `start` up to `core`. */
  function Broadcasting(c: Config, s: State, start: nat, core: nat): (t: State)
    requires Shaped(c, s) && 0 < c.n
    ensures Shaped(c, t)
  {
    var p := s.procs[0];
    State(s.cells, Filled(s.slots, 0, start, core, p.barr), s.procs[0 := p.(stage := Talk(core))])
  }

  /** The loop starts in the machine's state, and every iteration of it is the machine's step of process 0. */
  lemma BroadcastStarts(c: Config, s: State, start: nat)
    requires Shaped(c, s) && 0 < c.n && s.procs[0].stage == Talk(start)
    ensures Broadcasting(c, s, start, start) == s
  {
    var t := Broadcasting(c, s, start, start);
    assert t.slots == s.slots && t.procs == s.procs;
  }

  lemma BroadcastTurn(c: Config, s: State, start: nat, core: nat)
    requires Shaped(c, s) && start <= core < c.n && !Finished(c, s.procs[0])
    requires core != 0 ==> s.slots[core].None?
    ensures Turn(c, Broadcasting(c, s, start, core), 0) == Broadcasting(c, s, start, core + 1)
  {
    FilledOneMore(s.slots, 0, start, core, s.procs[0].barr);
  }

  /**
   The broadcast loop from `core` on, as far as it gets without waiting: it fills empty slots in id order,
   leaves out the sender, and stops in front of the first full one.
   */
  method Broadcast(slots: array<Option<nat>>, self: nat, start: nat, value: nat) returns (core: nat)
    requires start <= slots.Length
    modifies slots
    ensures start <= core <= slots.Length
    ensures forall i :: start <= i < core && i != self ==> old(slots[i]).None?
    ensures slots[..] == Filled(old(slots[..]), self, start, core, value)
    ensures core < slots.Length ==> core != self && slots[core].Some?
  {
    core := start;
    while core < slots.Length
      invariant start <= core <= slots.Length
      invariant forall i :: start <= i < core && i != self ==> old(slots[i]).None? && slots[i] == Some(value)
      invariant forall i :: 0 <= i < slots.Length && !(start <= i < core && i != self) ==> slots[i] == old(slots[i])
    {
      if core != self {
        if slots[core].Some? {
          return;
        }
        slots[core] := Some(value);
      }
      core := core + 1;
    }
  }

  /** All processes with the memory they share. */
  class Program {
    const config: Config
    const cells: array<B.Cell>
    const slots: array<Option<nat>>
    const procs: array<Proc>

    ghost function Value(): State
      reads cells, slots, procs
    {
      State(cells[..], slots[..], procs[..])
    }

    ghost predicate Valid()
      reads cells, slots, procs
    {
      Shaped(config, Value())
    }

    constructor (config: Config)
      ensures Valid() && fresh(cells) && fresh(slots) && fresh(procs) && this.config == config
      ensures Value() == Init(config)
    {
      this.config := config;
      cells := new B.Cell[P.NUM_BARRIERS](_ => B.FRESH);
      slots := new Option<nat>[config.n](_ => None);
      procs := new Proc[config.n](i requires i >= 0 => Enter(config, i, [], 0));
      new;
      assert Value() == Init(config);
    }

    /** One access to `ticket` or `cleared` of barrier `b`, `num` being the count the caller worked out. */
    method WaitAccess(b: nat, num: nat, pc: B.Pc) returns (next: B.Pc)
      requires b < cells.Length && pc != B.Out
      modifies cells
      ensures cells[..] == old(cells[..])[b := B.Advance(num, old(cells[b]), pc).0]
      ensures next == B.Advance(num, old(cells[b]), pc).1
    {
      var cell := cells[b];
      next := pc;
      match pc
      case Gate =>
        if !cell.cleared { next := B.Inc; }
      case Inc =>
        var mine := (cell.ticket + 1) % B.TICKETS;
        cells[b] := cell.(ticket := mine);
        next := if mine == num then B.Open else B.Exit;
      case Open =>
        cells[b] := cell.(cleared := true, openings := cell.openings + 1);
        next := B.Exit;
      case Exit =>
        if cell.cleared { next := B.Dec; }
      case Dec =>
        var mine := (cell.ticket + B.TICKETS - 1) % B.TICKETS;
        cells[b] := cell.(ticket := mine);
        next := if mine == 0 then B.Reset else B.Out;
      case Reset =>
        cells[b] := cell.(cleared := false, closings := cell.closings + 1);
        next := B.Out;
    }

    /** The next access of process `i`, in place. */
    method Access(i: nat)
      requires Valid() && i < config.n
      modifies cells, slots, procs
      ensures Valid() && Value() == Turn(config, old(Value()), i)
    {
      if Blocked(config, State(cells[..], slots[..], procs[..]), i) {
        return;
      }
      var p := procs[i];
      match p.stage
      case Talk(core) =>
        if core >= config.n {
          procs[i] := p.(stage := Wait(B.Out));
        } else {
          if core != i {
            slots[core] := Some(p.barr);
          }
          procs[i] := p.(stage := Talk(core + 1));
        }
      case Listen =>
        procs[i] := p.(barr := slots[i].value, stage := Wait(B.Out));
        slots[i] := None;
      case Wait(pc) =>
        if p.barr >= P.NUM_BARRIERS || (pc == B.Out && !Part(config, p.barr)[i]) {
          procs[i] := Enter(config, i, p.crossed + [p.barr], p.barr);
        } else if pc == B.Out {
          procs[i] := p.(stage := Wait(B.Gate));
        } else {
          var next := WaitAccess(p.barr, Count(Part(config, p.barr)), pc);
          procs[i] := if next == B.Out then Enter(config, i, p.crossed + [p.barr], p.barr) else p.(stage := Wait(next));
        }
    }

    /** Let the processes run in the order of `schedule` from the start. */
    method Run(schedule: seq<nat>)
      requires Valid() && Value() == Init(config)
      modifies cells, slots, procs
      ensures Valid() && Value() == Exec(config, schedule)
    {
      var k := 0;
      while k < |schedule|
        invariant 0 <= k <= |schedule|
        invariant Valid() && Value() == Exec(config, schedule[..k])
      {
        assert schedule[..k + 1][..k] == schedule[..k];
        if schedule[k] < config.n {
          Access(schedule[k]);
        }
        k := k + 1;
      }
      assert schedule[..k] == schedule;
    }
  }
}
