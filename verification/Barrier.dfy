/**
 The reusable two-gate barrier, at the grain of single shared-memory accesses.

 A run is given by the order in which the scheduler lets threads take their next access, so a
 theorem about every schedule is a theorem about every interleaving of every length.
 */
module Barrier {
  import opened Common

  /** `ticket` is a 32-bit counter. */
  const TICKETS: nat := UINT32

  /** Where a thread stands inside one call of wait; the local branch after an atomic access belongs to it. */
  datatype Pc =
    | Out    // not in wait
    | Gate   // spinning until `cleared` is 0
    | Inc    // about to increment `ticket`
    | Open   // got the last ticket, about to store cleared = 1
    | Exit   // spinning until `cleared` is 1
    | Dec    // about to decrement `ticket`
    | Reset  // brought `ticket` back to 0, about to store cleared = 0

  /** The shared words, with a count of the stores that open and close the exit gate. */
  datatype Cell = Cell(ticket: nat, cleared: bool, openings: nat, closings: nat)

  /** A thread with the number of its increments and of its completed waits. */
  datatype Waiter = Waiter(pc: Pc, arrived: nat, returned: nat)

  datatype State = State(cell: Cell, ws: seq<Waiter>)

  const FRESH := Cell(0, false, 0, 0)

  function Init(n: nat): State {
    State(FRESH, seq(n, i => Waiter(Out, 0, 0)))
  }

  /** The next access of a thread inside wait would only re-read a closed gate. */
  predicate Spins(cell: Cell, pc: Pc) {
    (pc == Gate && cell.cleared) || (pc == Exit && !cell.cleared)
  }

  /** One shared access of a thread inside wait, `num` being the participant count it computed. */
  function Advance(num: nat, cell: Cell, pc: Pc): (Cell, Pc)
    requires pc != Out
  {
    match pc
    case Gate => (cell, if cell.cleared then Gate else Inc)
    case Inc =>
      var mine := (cell.ticket + 1) % TICKETS;
      (cell.(ticket := mine), if mine == num then Open else Exit)
    case Open => (cell.(cleared := true, openings := cell.openings + 1), Exit)
    case Exit => (cell, if cell.cleared then Dec else Exit)
    case Dec =>
      var mine := (cell.ticket + TICKETS - 1) % TICKETS;
      (cell.(ticket := mine), if mine == 0 then Reset else Out)
    case Reset => (cell.(cleared := false, closings := cell.closings + 1), Out)
  }

  /** What is in memory of a barrier, without the counts of its stores. */
  function InMemory(cell: Cell): Cell {
    cell.(openings := 0, closings := 0)
  }

  /** Thread `i` takes its next step: it calls wait if it is outside (and a participant), else accesses memory. */
  function Turn(part: seq<bool>, s: State, i: nat): (t: State)
    requires |s.ws| == |part|
    ensures |t.ws| == |part|
  {
    if i >= |part| || !part[i] then
      s
    else
      var w := s.ws[i];
      if w.pc == Out then
        s.(ws := s.ws[i := w.(pc := Gate)])
      else
        var (cell, pc) := Advance(Count(part), s.cell, w.pc);
        State(cell, s.ws[i := Waiter(pc,
                                     w.arrived + if w.pc == Inc then 1 else 0,
                                     w.returned + if pc == Out then 1 else 0)])
  }

  function Exec(part: seq<bool>, s: State, schedule: seq<nat>): (t: State)
    requires |s.ws| == |part|
    ensures |t.ws| == |part|
  {
    if |schedule| == 0 then s
    else Turn(part, Exec(part, s, schedule[..|schedule| - 1]), schedule[|schedule| - 1])
  }

  // ---------------------------------------------------------------- the invariant

  /** Between its increment and its decrement of `ticket`. */
  predicate Inside(pc: Pc) {
    pc == Open || pc == Exit || pc == Dec
  }

  function Marks(ws: seq<Waiter>): (bs: seq<bool>)
    ensures |bs| == |ws|
    ensures forall i :: 0 <= i < |ws| ==> bs[i] == Inside(ws[i].pc)
  {
    seq(|ws|, i requires 0 <= i < |ws| => Inside(ws[i].pc))
  }

  /** Round `r` is filling: nobody has passed the exit gate in it. */
  ghost predicate Filling(num: nat, cell: Cell, w: Waiter, r: nat) {
    && w.returned == r
    && w.arrived == r + (if Inside(w.pc) then 1 else 0)
    && w.pc != Dec && w.pc != Reset
    && (w.pc == Open ==> cell.ticket == num)
  }

  /** Round `r` is draining: everybody has arrived, some have left. */
  ghost predicate Draining(cell: Cell, w: Waiter, r: nat) {
    && w.arrived == r + 1
    && w.returned == r + (if w.pc == Out || w.pc == Gate then 1 else 0)
    && w.pc != Inc && w.pc != Open
    && (w.pc == Reset ==> cell.ticket == 0)
  }

  /** The thread that has to perform the one store this phase is waiting for. */
  ghost predicate Storing(pc: Pc) {
    pc == Open || pc == Reset
  }

  /** No two threads are about to store at once. */
  ghost predicate AtMostOneStores(ws: seq<Waiter>) {
    forall i, j :: 0 <= i < |ws| && 0 <= j < |ws| && Storing(ws[i].pc) && Storing(ws[j].pc) ==> i == j
  }

  ghost predicate AtRound(part: seq<bool>, s: State, r: nat)
  {
    && |s.ws| == |part| < TICKETS
    && (forall i :: 0 <= i < |part| && !part[i] ==> s.ws[i].pc == Out)
    && s.cell.ticket == Count(Marks(s.ws))
    && s.cell.closings == r
    && s.cell.openings == r + (if s.cell.cleared then 1 else 0)
    && AtMostOneStores(s.ws)
    && if s.cell.cleared then
         && (forall i :: 0 <= i < |part| && part[i] ==> Draining(s.cell, s.ws[i], r))
         && (s.cell.ticket == 0 ==> exists i :: 0 <= i < |part| && s.ws[i].pc == Reset)
       else
         && (forall i :: 0 <= i < |part| && part[i] ==> Filling(Count(part), s.cell, s.ws[i], r))
         && (0 < Count(part) == s.cell.ticket ==> exists i :: 0 <= i < |part| && s.ws[i].pc == Open)
  }

  /** The round in progress is the number of rounds closed so far. */
  ghost predicate Inv(part: seq<bool>, s: State) {
    AtRound(part, s, s.cell.closings)
  }

  lemma InitHolds(part: seq<bool>)
    requires |part| < TICKETS
    ensures Inv(part, Init(|part|))
  {
    CountZero(Marks(Init(|part|).ws));
  }

  /** Only participants are inside, so a full ticket count means every participant is inside. */
  lemma MarksWithinParticipants(part: seq<bool>, s: State)
    requires Inv(part, s)
    ensures forall i :: 0 <= i < |part| && Inside(s.ws[i].pc) ==> part[i]
    ensures s.cell.ticket <= Count(part)
    ensures s.cell.ticket == Count(part) ==> forall i :: 0 <= i < |part| && part[i] ==> Inside(s.ws[i].pc)
    ensures s.cell.ticket == 0 ==> forall i :: 0 <= i < |part| ==> !Inside(s.ws[i].pc)
  {
    CountMonotone(Marks(s.ws), part);
    CountZero(Marks(s.ws));
  }

  lemma TicketUpdate(ws: seq<Waiter>, i: nat, w: Waiter)
    requires i < |ws|
    ensures Count(Marks(ws[i := w])) ==
            Count(Marks(ws)) - (if Inside(ws[i].pc) then 1 else 0) + (if Inside(w.pc) then 1 else 0)
  {
    assert Marks(ws[i := w]) == Marks(ws)[i := Inside(w.pc)];
    CountUpdate(Marks(ws), i, Inside(w.pc));
  }

  /** A step with no store, by which the thread neither enters nor leaves the ticket count. */
  ghost predicate Quiet(before: Pc, after: Pc) {
    Inside(before) == Inside(after) && !Storing(before) && !Storing(after)
  }

  lemma QuietFilling(part: seq<bool>, s: State, i: nat, w: Waiter)
    requires Inv(part, s) && i < |part| && part[i] && Quiet(s.ws[i].pc, w.pc)
    requires !s.cell.cleared && Filling(Count(part), s.cell, w, s.cell.closings)
    ensures Inv(part, s.(ws := s.ws[i := w]))
  {
    TicketUpdate(s.ws, i, w);
    QuietKeepsStores(s.ws, i, w);
    var ws := s.ws[i := w];
    forall j | 0 <= j < |part| && part[j]
      ensures Filling(Count(part), s.cell, ws[j], s.cell.closings)
    {
      assert Filling(Count(part), s.cell, s.ws[j], s.cell.closings);
    }
    if 0 < Count(part) == s.cell.ticket {
      var k :| 0 <= k < |part| && s.ws[k].pc == Open;
      assert ws[k].pc == Open;
    }
  }

  lemma QuietKeepsStores(ws: seq<Waiter>, i: nat, w: Waiter)
    requires i < |ws| && Quiet(ws[i].pc, w.pc)
    requires AtMostOneStores(ws)
    ensures AtMostOneStores(ws[i := w])
    ensures forall k :: 0 <= k < |ws| && Storing(ws[k].pc) ==> ws[i := w][k] == ws[k]
  {
    assert forall k :: 0 <= k < |ws| ==> Storing(ws[i := w][k].pc) == Storing(ws[k].pc);
  }

  lemma QuietDraining(part: seq<bool>, s: State, i: nat, w: Waiter)
    requires Inv(part, s) && i < |part| && part[i] && Quiet(s.ws[i].pc, w.pc)
    requires s.cell.cleared && Draining(s.cell, w, s.cell.closings)
    ensures Inv(part, s.(ws := s.ws[i := w]))
  {
    TicketUpdate(s.ws, i, w);
    QuietKeepsStores(s.ws, i, w);
    var ws := s.ws[i := w];
    forall j | 0 <= j < |part| && part[j]
      ensures Draining(s.cell, ws[j], s.cell.closings)
    {
      assert Draining(s.cell, s.ws[j], s.cell.closings);
    }
    if s.cell.ticket == 0 {
      var k :| 0 <= k < |part| && s.ws[k].pc == Reset;
      assert ws[k].pc == Reset;
    }
  }

  lemma QuietStep(part: seq<bool>, s: State, i: nat, w: Waiter)
    requires Inv(part, s) && i < |part| && part[i] && Quiet(s.ws[i].pc, w.pc)
    requires if s.cell.cleared then Draining(s.cell, w, s.cell.closings)
             else Filling(Count(part), s.cell, w, s.cell.closings)
    ensures Inv(part, s.(ws := s.ws[i := w]))
  {
    if s.cell.cleared {
      QuietDraining(part, s, i, w);
    } else {
      QuietFilling(part, s, i, w);
    }
  }

  lemma CallStep(part: seq<bool>, s: State, i: nat)
    requires Inv(part, s) && i < |part| && part[i] && s.ws[i].pc == Out
    ensures Inv(part, Turn(part, s, i))
  {
    QuietStep(part, s, i, Turn(part, s, i).ws[i]);
  }

  lemma GateStep(part: seq<bool>, s: State, i: nat)
    requires Inv(part, s) && i < |part| && part[i] && s.ws[i].pc == Gate
    ensures Inv(part, Turn(part, s, i))
  {
    QuietStep(part, s, i, Turn(part, s, i).ws[i]);
  }

  lemma ExitStep(part: seq<bool>, s: State, i: nat)
    requires Inv(part, s) && i < |part| && part[i] && s.ws[i].pc == Exit
    ensures Inv(part, Turn(part, s, i))
  {
    QuietStep(part, s, i, Turn(part, s, i).ws[i]);
  }

  /** While somebody has yet to increment, the ticket count is short and no store is pending. */
  lemma IncMeansFilling(part: seq<bool>, s: State, i: nat)
    requires Inv(part, s) && i < |part| && part[i] && s.ws[i].pc == Inc
    ensures !s.cell.cleared && s.cell.ticket < Count(part) < TICKETS
    ensures forall k :: 0 <= k < |part| ==> !Storing(s.ws[k].pc)
  {
    MarksWithinParticipants(part, s);
    assert !s.cell.cleared && s.cell.ticket < Count(part);
    forall k | 0 <= k < |part|
      ensures !Storing(s.ws[k].pc)
    {
      if part[k] {
        assert Filling(Count(part), s.cell, s.ws[k], s.cell.closings);
      }
    }
  }

  lemma IncFacts(part: seq<bool>, s: State, i: nat)
    requires |s.ws| == |part| && i < |part| && part[i] && s.ws[i].pc == Inc
    requires s.cell.ticket == Count(Marks(s.ws)) < TICKETS - 1
    ensures var t := Turn(part, s, i);
            && t.cell == s.cell.(ticket := s.cell.ticket + 1)
            && t.ws == s.ws[i := t.ws[i]] && t.cell.ticket == Count(Marks(t.ws))
            && (t.ws[i].pc == Open <==> t.cell.ticket == Count(part)) && Inside(t.ws[i].pc) && t.ws[i].pc != Dec
  {
    TicketUpdate(s.ws, i, Turn(part, s, i).ws[i]);
  }

  lemma IncStep(part: seq<bool>, s: State, i: nat)
    requires Inv(part, s) && i < |part| && part[i] && s.ws[i].pc == Inc
    ensures Inv(part, Turn(part, s, i))
  {
    var t := Turn(part, s, i);
    IncMeansFilling(part, s, i);
    IncFacts(part, s, i);
    forall j | 0 <= j < |part| && part[j]
      ensures Filling(Count(part), t.cell, t.ws[j], s.cell.closings)
    {
      assert Filling(Count(part), s.cell, s.ws[j], s.cell.closings);
    }
  }

  lemma OpenStep(part: seq<bool>, s: State, i: nat)
    requires Inv(part, s) && i < |part| && part[i] && s.ws[i].pc == Open
    ensures Inv(part, Turn(part, s, i))
  {
    var t := Turn(part, s, i);
    MarksWithinParticipants(part, s);
    TicketUpdate(s.ws, i, t.ws[i]);
    assert Filling(Count(part), s.cell, s.ws[i], s.cell.closings);
    assert Marks(s.ws)[i];
    forall j | 0 <= j < |part| && part[j]
      ensures Draining(t.cell, t.ws[j], s.cell.closings)
    {
      assert Filling(Count(part), s.cell, s.ws[j], s.cell.closings);
    }
    CountZero(Marks(s.ws));
  }

  /** While somebody has yet to decrement, the ticket count is positive and no store is pending. */
  lemma DecMeansDraining(part: seq<bool>, s: State, i: nat)
    requires Inv(part, s) && i < |part| && part[i] && s.ws[i].pc == Dec
    ensures s.cell.cleared && 0 < s.cell.ticket < TICKETS
    ensures forall k :: 0 <= k < |part| ==> !Storing(s.ws[k].pc)
  {
    MarksWithinParticipants(part, s);
    assert s.cell.cleared && s.cell.ticket > 0;
    forall k | 0 <= k < |part|
      ensures !Storing(s.ws[k].pc)
    {
      if part[k] {
        assert Draining(s.cell, s.ws[k], s.cell.closings);
      }
    }
  }

  lemma DecFacts(part: seq<bool>, s: State, i: nat)
    requires |s.ws| == |part| && i < |part| && part[i] && s.ws[i].pc == Dec
    requires 0 < s.cell.ticket == Count(Marks(s.ws)) < TICKETS
    ensures var t := Turn(part, s, i);
            && t.cell == s.cell.(ticket := s.cell.ticket - 1)
            && t.ws == s.ws[i := t.ws[i]] && t.cell.ticket == Count(Marks(t.ws))
            && t.ws[i] == (if t.cell.ticket == 0 then s.ws[i].(pc := Reset)
                           else s.ws[i].(pc := Out, returned := s.ws[i].returned + 1))
  {
    TicketUpdate(s.ws, i, Turn(part, s, i).ws[i]);
  }

  lemma DecStep(part: seq<bool>, s: State, i: nat)
    requires Inv(part, s) && i < |part| && part[i] && s.ws[i].pc == Dec
    ensures Inv(part, Turn(part, s, i))
  {
    var t := Turn(part, s, i);
    DecMeansDraining(part, s, i);
    DecFacts(part, s, i);
    forall j | 0 <= j < |part| && part[j]
      ensures Draining(t.cell, t.ws[j], s.cell.closings)
    {
      assert Draining(s.cell, s.ws[j], s.cell.closings);
    }
    assert t.cell.ticket == 0 ==> t.ws[i].pc == Reset;
  }

  lemma ResetStep(part: seq<bool>, s: State, i: nat)
    requires Inv(part, s) && i < |part| && part[i] && s.ws[i].pc == Reset
    ensures Inv(part, Turn(part, s, i))
  {
    var t := Turn(part, s, i);
    MarksWithinParticipants(part, s);
    TicketUpdate(s.ws, i, t.ws[i]);
    assert s.cell.cleared && s.cell.ticket == 0;
    forall j | 0 <= j < |part| && part[j]
      ensures Filling(Count(part), t.cell, t.ws[j], s.cell.closings + 1)
    {
      assert Draining(s.cell, s.ws[j], s.cell.closings);
      assert !Inside(s.ws[j].pc);
    }
  }

  lemma TurnKeepsInv(part: seq<bool>, s: State, i: nat)
    requires Inv(part, s)
    ensures Inv(part, Turn(part, s, i))
  {
    if i < |part| && part[i] {
      match s.ws[i].pc
      case Out => CallStep(part, s, i);
      case Gate => GateStep(part, s, i);
      case Inc => IncStep(part, s, i);
      case Open => OpenStep(part, s, i);
      case Exit => ExitStep(part, s, i);
      case Dec => DecStep(part, s, i);
      case Reset => ResetStep(part, s, i);
    }
  }

  lemma {:induction false} ReachableInv(part: seq<bool>, schedule: seq<nat>)
    requires |part| < TICKETS
    ensures Inv(part, Exec(part, Init(|part|), schedule))
  {
    if |schedule| == 0 {
      InitHolds(part);
    } else {
      ReachableInv(part, schedule[..|schedule| - 1]);
      TurnKeepsInv(part, Exec(part, Init(|part|), schedule[..|schedule| - 1]), schedule[|schedule| - 1]);
    }
  }

  // ---------------------------------------------------------------- what the barrier promises

  /** Nobody has completed more waits than anybody has begun to count for. */
  lemma InvIsSafe(part: seq<bool>, s: State, i: nat, j: nat)
    requires Inv(part, s) && i < |part| && j < |part| && part[i] && part[j]
    ensures s.ws[i].returned <= s.ws[j].arrived
    ensures s.ws[i].returned <= s.ws[j].returned + 1
    ensures s.ws[j].arrived <= s.ws[i].returned + 1
  {
  }

  /**
   Safety over all runs and reuses: in every reachable state a participant that has returned from r
   waits sees every participant's r-th increment done, and completed rounds differ by at most one.
   */
  lemma Safety(part: seq<bool>, schedule: seq<nat>, i: nat, j: nat)
    requires |part| < TICKETS && i < |part| && j < |part| && part[i] && part[j]
    ensures var s := Exec(part, Init(|part|), schedule);
            && s.ws[i].returned <= s.ws[j].arrived
            && -1 <= s.ws[i].returned - s.ws[j].returned <= 1
  {
    ReachableInv(part, schedule);
    InvIsSafe(part, Exec(part, Init(|part|), schedule), i, j);
    InvIsSafe(part, Exec(part, Init(|part|), schedule), j, i);
  }

  /**
   Counter discipline over all runs: the 32-bit ticket never wraps and is exactly the number of threads
   between increment and decrement; at most one thread is about to store `cleared`, and the gate
   has been opened and closed once per completed round.
   */
  lemma CounterDiscipline(part: seq<bool>, schedule: seq<nat>)
    requires |part| < TICKETS
    ensures var s := Exec(part, Init(|part|), schedule);
            && s.cell.ticket == Count(Marks(s.ws)) <= Count(part)
            && s.cell.openings == s.cell.closings + (if s.cell.cleared then 1 else 0)
            && (forall i :: 0 <= i < |part| && part[i] ==>
                  s.cell.closings <= s.ws[i].returned <= s.cell.openings <= s.cell.closings + 1)
            && AtMostOneStores(s.ws)
  {
    ReachableInv(part, schedule);
    var s := Exec(part, Init(|part|), schedule);
    MarksWithinParticipants(part, s);
    forall i | 0 <= i < |part| && part[i]
      ensures s.cell.closings <= s.ws[i].returned <= s.cell.openings
    {
      if s.cell.cleared {
        assert Draining(s.cell, s.ws[i], s.cell.closings);
      } else {
        assert Filling(Count(part), s.cell, s.ws[i], s.cell.closings);
      }
    }
  }

  // ---------------------------------------------------------------- progress

  ghost predicate Moves(part: seq<bool>, s: State, i: nat)
    requires |s.ws| == |part|
  {
    i < |part| && part[i] && s.ws[i].pc != Out && !Spins(s.cell, s.ws[i].pc)
  }

  /**
   A thread `k` stuck in wait never waits in vain: somebody can take a step that is not a spin,
   unless some participant that has not yet called wait is still due in k's round.
   */
  lemma SomebodyMoves(part: seq<bool>, s: State, k: nat)
    requires Inv(part, s) && k < |part| && part[k] && s.ws[k].pc != Out
    requires forall i :: 0 <= i < |part| && part[i] && s.ws[i].pc == Out ==> s.ws[i].returned > s.ws[k].returned
    ensures exists i: nat :: Moves(part, s, i)
  {
    MarksWithinParticipants(part, s);
    if s.cell.cleared {
      assert Draining(s.cell, s.ws[k], s.cell.closings);
      if s.cell.ticket == 0 {
        var i :| 0 <= i < |part| && s.ws[i].pc == Reset;
        assert Moves(part, s, i);
      } else {
        CountZero(Marks(s.ws));
        var i :| 0 <= i < |part| && Marks(s.ws)[i];
        assert Draining(s.cell, s.ws[i], s.cell.closings);
        assert Moves(part, s, i);
      }
    } else {
      assert Filling(Count(part), s.cell, s.ws[k], s.cell.closings);
      if s.cell.ticket == Count(part) {
        CountZero(part);
        var i :| 0 <= i < |part| && s.ws[i].pc == Open;
        assert Moves(part, s, i);
      } else {
        if forall i :: 0 <= i < |part| && part[i] ==> Inside(s.ws[i].pc) {
          CountMonotone(part, Marks(s.ws));
          assert false;
        }
        var i :| 0 <= i < |part| && part[i] && !Inside(s.ws[i].pc);
        assert Filling(Count(part), s.cell, s.ws[i], s.cell.closings);
        assert Moves(part, s, i);
      }
    }
  }

  /** Steps a thread still has to take to get out of the current call. */
  function Rank(pc: Pc): nat {
    match pc
    case Gate => 6
    case Inc => 5
    case Open => 4
    case Exit => 3
    case Dec => 2
    case Reset => 1
    case Out => 0
  }

  lemma AdvanceDescends(num: nat, cell: Cell, pc: Pc)
    requires pc != Out
    ensures var (_, next) := Advance(num, cell, pc);
            if Spins(cell, pc) then next == pc else Rank(next) < Rank(pc)
  {
  }

  function Work(ws: seq<Waiter>): (xs: seq<int>)
    ensures |xs| == |ws|
    ensures forall i :: 0 <= i < |ws| ==> xs[i] == Rank(ws[i].pc)
  {
    seq(|ws|, i requires 0 <= i < |ws| => Rank(ws[i].pc))
  }

  /** Every step that is not a spin and not a new call consumes work; there are at most 6 such steps per call. */
  lemma WorkDescends(part: seq<bool>, s: State, i: nat)
    requires |s.ws| == |part| && Moves(part, s, i)
    ensures 0 <= Sum(Work(Turn(part, s, i).ws)) < Sum(Work(s.ws))
  {
    var t := Turn(part, s, i);
    assert Work(t.ws) == Work(s.ws)[i := Rank(t.ws[i].pc)];
    SumUpdate(Work(s.ws), i, Rank(t.ws[i].pc));
    AdvanceDescends(Count(part), s.cell, s.ws[i].pc);
    SumNonNegative(Work(t.ws));
  }

  /** Everybody is in round `r`: inside wait for the r-th time, or back from it. */
  ghost predicate InRound(part: seq<bool>, s: State, r: nat)
    requires |s.ws| == |part|
  {
    forall i :: 0 <= i < |part| && part[i] ==> s.ws[i].returned == if s.ws[i].pc == Out then r + 1 else r
  }

  ghost predicate AllBack(part: seq<bool>, s: State, r: nat)
    requires |s.ws| == |part|
  {
    forall i :: 0 <= i < |part| && part[i] ==> s.ws[i].pc == Out && s.ws[i].returned == r + 1
  }

  lemma MoveKeepsRound(part: seq<bool>, s: State, r: nat, i: nat)
    requires |s.ws| == |part| && InRound(part, s, r) && Moves(part, s, i)
    ensures InRound(part, Turn(part, s, i), r)
  {
  }

  /**
   Once every participant has called wait, the round completes: some schedule brings all of them back,
   taking no more steps than the work that remains, and by WorkDescends no schedule can take more.
   */
  lemma {:induction false} RoundCompletes(part: seq<bool>, s: State, r: nat) returns (schedule: seq<nat>)
    requires Inv(part, s) && InRound(part, s, r)
    ensures |schedule| <= Sum(Work(s.ws))
    ensures AllBack(part, Exec(part, s, schedule), r)
    decreases Sum(Work(s.ws))
  {
    SumNonNegative(Work(s.ws));
    if AllBack(part, s, r) {
      schedule := [];
    } else {
      var k :| 0 <= k < |part| && part[k] && !(s.ws[k].pc == Out && s.ws[k].returned == r + 1);
      SomebodyMoves(part, s, k);
      var i: nat :| Moves(part, s, i);
      WorkDescends(part, s, i);
      TurnKeepsInv(part, s, i);
      MoveKeepsRound(part, s, r, i);
      var rest := RoundCompletes(part, Turn(part, s, i), r);
      schedule := [i] + rest;
      ExecPrepend(part, s, i, rest);
    }
  }

  lemma {:induction false} ExecPrepend(part: seq<bool>, s: State, i: nat, rest: seq<nat>)
    requires |s.ws| == |part|
    ensures Exec(part, s, [i] + rest) == Exec(part, Turn(part, s, i), rest)
  {
    if |rest| == 0 {
      assert [i] + rest == [i] && [i][..0] == [];
      assert Exec(part, s, []) == s;
    } else {
      assert ([i] + rest)[..|rest|] == [i] + rest[..|rest| - 1];
      ExecPrepend(part, s, i, rest[..|rest| - 1]);
    }
  }

  // ---------------------------------------------------------------- the shared object

  /** The barrier in memory with the threads using it; methods perform the accesses in place. */
  class SharedBarrier {
    const part: seq<bool>
    const num: nat
    const ws: array<Waiter>
    var ticket: nat
    var cleared: bool
    ghost var openings: nat
    ghost var closings: nat

    ghost function Value(): State
      reads this, ws
    {
      State(Cell(ticket, cleared, openings, closings), ws[..])
    }

    ghost predicate Valid()
      reads this, ws
    {
      ws.Length == |part| && num == Count(part) && Inv(part, Value())
    }

    constructor (part: seq<bool>)
      requires |part| < TICKETS
      ensures Valid() && fresh(ws) && this.part == part
      ensures Value() == Init(|part|)
    {
      this.part := part;
      num := Count(part);
      ws := new Waiter[|part|](_ => Waiter(Out, 0, 0));
      ticket, cleared, openings, closings := 0, false, 0, 0;
      new;
      assert Value() == Init(|part|);
      InitHolds(part);
    }

    /** One step of participant `i`: it calls wait, or makes its next access with the code's own case distinction. */
    method Access(i: nat)
      requires ws.Length == |part| && num == Count(part) && i < |part| && part[i]
      modifies this, ws
      ensures Value() == Turn(part, old(Value()), i)
    {
      ghost var before := Value();
      var w := ws[i];
      match w.pc
      case Out =>
        ws[i] := w.(pc := Gate);
      case Gate =>
        if !cleared { ws[i] := w.(pc := Inc); }
      case Inc =>
        ticket := (ticket + 1) % TICKETS;
        ws[i] := w.(pc := if ticket == num then Open else Exit, arrived := w.arrived + 1);
      case Open =>
        cleared, openings := true, openings + 1;
        ws[i] := w.(pc := Exit);
      case Exit =>
        if cleared { ws[i] := w.(pc := Dec); }
      case Dec =>
        ticket := (ticket + TICKETS - 1) % TICKETS;
        ws[i] := if ticket == 0 then w.(pc := Reset) else w.(pc := Out, returned := w.returned + 1);
      case Reset =>
        cleared, closings := false, closings + 1;
        ws[i] := w.(pc := Out, returned := w.returned + 1);
      assert Value().ws == Turn(part, before, i).ws;
    }

    /** The same step, keeping the invariant. */
    method Step(i: nat)
      requires Valid() && i < |part| && part[i]
      modifies this, ws
      ensures Valid() && Value() == Turn(part, old(Value()), i)
    {
      TurnKeepsInv(part, Value(), i);
      Access(i);
    }

    /** Let threads run in the order of `schedule`. */
    method Run(schedule: seq<nat>)
      requires Valid()
      modifies this, ws
      ensures Valid() && Value() == Exec(part, old(Value()), schedule)
    {
      ghost var start := Value();
      var k := 0;
      assert schedule[..0] == [];
      while k < |schedule|
        invariant 0 <= k <= |schedule|
        invariant Valid() && Value() == Exec(part, start, schedule[..k])
      {
        var i := schedule[k];
        assert schedule[..k + 1][..k] == schedule[..k];
        if i < |part| && part[i] {
          Step(i);
        }
        k := k + 1;
      }
      assert schedule[..k] == schedule;
    }
  }
}
