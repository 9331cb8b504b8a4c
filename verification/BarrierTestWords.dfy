/**
 The barrier test program once more, with its slots word by word: a send and a receive are as many accesses
 as the Channel module has for them, each side acquiring the slot by polling or by compare-and-swap as
 the schedule has it, and all of that interleaves with the single accesses of the barriers.

 Every run of this machine is, seen through the slots, a run of the BarrierTest machine; its theorems hold
 here as well.
 */
module BarrierTestWords {
  import opened Common
  import opened BarrierTest
  import opened Words
  import Arith
  import B = Barrier
  import P = Participants
  import C = Channel

  /** A slot has `width` words besides the one with the flag; the barrier number is in the first of them. */
  ghost predicate Wide(c: Config, width: nat) {
    Sound(c) && width >= 1
  }

  /** `chans[i]` is the slot through which process 0 sends to process `i`. */
  datatype Fine = Fine(cells: seq<B.Cell>, chans: seq<C.Chan>, procs: seq<Proc>)

  datatype Act = Act(i: nat, cas: bool)

  /** The number that the one-place channel behind a slot holds. */
  function Held(ch: C.Chan): Option<nat> {
    if Shown(ch).Some? then Some(Decode(Shown(ch).value)) else None
  }

  function Abs(c: Config, s: Fine): (a: State)
    requires |s.chans| == c.n
    ensures |a.slots| == c.n
  {
    State(s.cells, seq(c.n, i requires 0 <= i < c.n => Held(s.chans[i])), s.procs)
  }

  predicate FineShaped(c: Config, s: Fine) {
    |s.chans| == |s.procs| == c.n && |s.cells| == P.NUM_BARRIERS
  }

  function FineInit(c: Config, width: nat): (s: Fine)
    ensures FineShaped(c, s)
  {
    Fine(Init(c).cells, seq(c.n, i => C.Init(Encode(width, 0))), Init(c).procs)
  }

  /** Process `i` is at a send through a slot. */
  predicate AtSend(c: Config, p: Proc, i: nat) {
    !Finished(c, p) && p.stage.Talk? && p.stage.core < c.n && p.stage.core != i
  }

  predicate AtReceive(c: Config, p: Proc) {
    !Finished(c, p) && p.stage.Listen?
  }

  /** One access of one process. */
  function FineStep(c: Config, width: nat, s: Fine, act: Act): (t: Fine)
    requires FineShaped(c, s)
    ensures FineShaped(c, t)
  {
    if act.i >= c.n then s
    else
      var i, p := act.i, s.procs[act.i];
      if AtSend(c, p, i) then
        var core := p.stage.core;
        var ch := Sending(Encode(width, p.barr), s.chans[core], act.cas);
        s.(chans := s.chans[core := ch],
           procs := if |ch.sent| > |s.chans[core].sent| then s.procs[i := p.(stage := Talk(core + 1))] else s.procs)
      else if AtReceive(c, p) then
        var ch := Receiving(s.chans[i], act.cas);
        s.(chans := s.chans[i := ch],
           procs := if |ch.got| > |s.chans[i].got|
                    then s.procs[i := p.(barr := Decode(ch.got[|s.chans[i].got|]), stage := Wait(B.Out))]
                    else s.procs)
      else
        var t := Turn(c, Abs(c, s), i);
        s.(cells := t.cells, procs := t.procs)
  }

  function FineExec(c: Config, width: nat, acts: seq<Act>): (s: Fine)
    ensures FineShaped(c, s)
  {
    if |acts| == 0 then FineInit(c, width)
    else FineStep(c, width, FineExec(c, width, acts[..|acts| - 1]), acts[|acts| - 1])
  }

  // ---------------------------------------------------------------- the refinement

  /** Slot `i` and the two processes that use it are at the same point. */
  ghost predicate Linked(c: Config, width: nat, ch: C.Chan, i: nat, zero: Proc, p: Proc) {
    && C.Inv(ch) && |ch.words| == width
    && (ch.snd.Copying? ==> i != 0 && AtSend(c, zero, 0) && zero.stage.core == i
                             && ch.snd.msg == Encode(width, zero.barr))
    && (ch.rcv.Fetching? ==> i != 0 && AtReceive(c, p))
  }

  ghost predicate FineInv(c: Config, width: nat, s: Fine)
    requires FineShaped(c, s) && 0 < c.n
  {
    && Inv(c, Abs(c, s))
    && forall i :: 0 <= i < c.n ==> Linked(c, width, s.chans[i], i, s.procs[0], s.procs[i])
  }

  lemma InitLinked(c: Config, width: nat)
    requires Wide(c, width)
    ensures FineInv(c, width, FineInit(c, width)) && Abs(c, FineInit(c, width)) == Init(c)
  {
    assert Abs(c, FineInit(c, width)).slots == Init(c).slots;
    InitHolds(c);
  }

  lemma BarrierNumberFits(width: nat, barr: nat)
    requires width >= 1 && barr < P.NUM_BARRIERS
    ensures Decode(Encode(width, barr)) == barr
  {
    EncodeDecode(width, barr);
  }

  /** Process 0 talks of a barrier, and only process 0 talks. */
  lemma TalkerIsZero(c: Config, width: nat, s: Fine, i: nat)
    requires Wide(c, width) && FineShaped(c, s) && FineInv(c, width, s) && i < c.n && AtSend(c, s.procs[i], i)
    ensures i == 0 && s.procs[i].barr < P.NUM_BARRIERS
  {
    assert OnTour(c, i, Abs(c, s).procs[i]);
  }

  lemma SendRefines(c: Config, width: nat, s: Fine, act: Act)
    requires Wide(c, width) && FineShaped(c, s) && FineInv(c, width, s) && act.i < c.n
    requires AtSend(c, s.procs[act.i], act.i)
    ensures var t := FineStep(c, width, s, act);
            var core := s.procs[act.i].stage.core;
            Abs(c, t) == if |t.chans[core].sent| > |s.chans[core].sent| then Turn(c, Abs(c, s), act.i) else Abs(c, s)
  {
    var t := FineStep(c, width, s, act);
    var core := s.procs[act.i].stage.core;
    TalkerIsZero(c, width, s, act.i);
    assert Linked(c, width, s.chans[core], core, s.procs[0], s.procs[core]);
    SendAccess(Encode(width, s.procs[act.i].barr), s.chans[core], act.cas);
    BarrierNumberFits(width, s.procs[act.i].barr);
    if |t.chans[core].sent| > |s.chans[core].sent| {
      assert Abs(c, t).slots == Abs(c, s).slots[core := Some(s.procs[act.i].barr)];
    } else {
      assert Abs(c, t).slots == Abs(c, s).slots;
    }
  }

  lemma SendKeepsLinks(c: Config, width: nat, s: Fine, act: Act)
    requires Wide(c, width) && FineShaped(c, s) && FineInv(c, width, s) && act.i < c.n
    requires AtSend(c, s.procs[act.i], act.i)
    ensures var t := FineStep(c, width, s, act);
            forall i :: 0 <= i < c.n ==> Linked(c, width, t.chans[i], i, t.procs[0], t.procs[i])
  {
    var t := FineStep(c, width, s, act);
    var core := s.procs[act.i].stage.core;
    TalkerIsZero(c, width, s, act.i);
    assert Linked(c, width, s.chans[core], core, s.procs[0], s.procs[core]);
    SendAccess(Encode(width, s.procs[act.i].barr), s.chans[core], act.cas);
    BarrierNumberFits(width, s.procs[act.i].barr);
    forall i | 0 <= i < c.n
      ensures Linked(c, width, t.chans[i], i, t.procs[0], t.procs[i])
    {
      assert Linked(c, width, s.chans[i], i, s.procs[0], s.procs[i]);
    }
  }

  lemma ListenerIsNotZero(c: Config, width: nat, s: Fine, i: nat)
    requires Wide(c, width) && FineShaped(c, s) && FineInv(c, width, s) && i < c.n && AtReceive(c, s.procs[i])
    ensures i != 0
  {
    assert OnTour(c, i, Abs(c, s).procs[i]);
  }

  lemma ReceiveRefines(c: Config, width: nat, s: Fine, act: Act)
    requires Wide(c, width) && FineShaped(c, s) && FineInv(c, width, s) && act.i < c.n && AtReceive(c, s.procs[act.i])
    ensures var t := FineStep(c, width, s, act);
            Abs(c, t) == if |t.chans[act.i].got| > |s.chans[act.i].got| then Turn(c, Abs(c, s), act.i) else Abs(c, s)
  {
    var i, t := act.i, FineStep(c, width, s, act);
    assert Linked(c, width, s.chans[i], i, s.procs[0], s.procs[i]);
    ReceiveAccess(s.chans[i], act.cas);
    if |t.chans[i].got| > |s.chans[i].got| {
      assert Abs(c, t).slots == Abs(c, s).slots[i := None];
    } else {
      assert Abs(c, t).slots == Abs(c, s).slots;
    }
  }

  lemma ReceiveKeepsLinks(c: Config, width: nat, s: Fine, act: Act)
    requires Wide(c, width) && FineShaped(c, s) && FineInv(c, width, s) && act.i < c.n && AtReceive(c, s.procs[act.i])
    ensures var t := FineStep(c, width, s, act);
            forall i :: 0 <= i < c.n ==> Linked(c, width, t.chans[i], i, t.procs[0], t.procs[i])
  {
    var j, t := act.i, FineStep(c, width, s, act);
    ListenerIsNotZero(c, width, s, j);
    assert Linked(c, width, s.chans[j], j, s.procs[0], s.procs[j]);
    ReceiveAccess(s.chans[j], act.cas);
    forall i | 0 <= i < c.n
      ensures Linked(c, width, t.chans[i], i, t.procs[0], t.procs[i])
    {
      assert Linked(c, width, s.chans[i], i, s.procs[0], s.procs[i]);
    }
  }

  /** Away from the slots both machines do the same. */
  lemma OtherRefines(c: Config, width: nat, s: Fine, act: Act)
    requires Wide(c, width) && FineShaped(c, s) && FineInv(c, width, s) && act.i < c.n
    requires !AtSend(c, s.procs[act.i], act.i) && !AtReceive(c, s.procs[act.i])
    ensures var t := FineStep(c, width, s, act);
            t.chans == s.chans && Abs(c, t) == Turn(c, Abs(c, s), act.i)
    ensures var t := FineStep(c, width, s, act);
            forall i :: 0 <= i < c.n ==> Linked(c, width, t.chans[i], i, t.procs[0], t.procs[i])
  {
    var t := FineStep(c, width, s, act);
    assert Abs(c, t).slots == Abs(c, s).slots == Turn(c, Abs(c, s), act.i).slots;
    assert t.procs == s.procs[act.i := t.procs[act.i]];
    forall i | 0 <= i < c.n
      ensures Linked(c, width, t.chans[i], i, t.procs[0], t.procs[i])
    {
      assert Linked(c, width, s.chans[i], i, s.procs[0], s.procs[i]);
    }
  }

  /** Every access keeps the invariant, and is a step of the coarse machine by the same process or invisible to it. */
  lemma FineStepRefines(c: Config, width: nat, s: Fine, act: Act)
    requires Wide(c, width) && FineShaped(c, s) && FineInv(c, width, s)
    ensures var t := FineStep(c, width, s, act);
            FineInv(c, width, t) && (Abs(c, t) == Abs(c, s) || Abs(c, t) == Turn(c, Abs(c, s), act.i))
  {
    if act.i < c.n {
      if AtSend(c, s.procs[act.i], act.i) {
        SendRefines(c, width, s, act);
        SendKeepsLinks(c, width, s, act);
      } else if AtReceive(c, s.procs[act.i]) {
        ReceiveRefines(c, width, s, act);
        ReceiveKeepsLinks(c, width, s, act);
      } else {
        OtherRefines(c, width, s, act);
      }
      TurnKeepsInv(c, Abs(c, s), act.i);
    }
  }

  /** Seen through the slots, every run is a run of the coarse machine. */
  lemma {:induction false} RunRefines(c: Config, width: nat, acts: seq<Act>) returns (schedule: seq<nat>)
    requires Wide(c, width)
    ensures FineInv(c, width, FineExec(c, width, acts))
    ensures Abs(c, FineExec(c, width, acts)) == Exec(c, schedule)
  {
    if |acts| == 0 {
      InitLinked(c, width);
      schedule := [];
    } else {
      var s, act := FineExec(c, width, acts[..|acts| - 1]), acts[|acts| - 1];
      schedule := RunRefines(c, width, acts[..|acts| - 1]);
      FineStepRefines(c, width, s, act);
      if Abs(c, FineStep(c, width, s, act)) != Abs(c, s) {
        assert (schedule + [act.i])[..|schedule|] == schedule;
        schedule := schedule + [act.i];
      }
    }
  }

  // ---------------------------------------------------------------- the theorems, word by word

  /** In every run every process waits on a prefix of process 0's sequence of barriers. */
  lemma EverybodyFollowsWordByWord(c: Config, width: nat, acts: seq<Act>, i: nat)
    requires Wide(c, width) && i < c.n
    ensures var p := FineExec(c, width, acts).procs[i];
            Waited(c, p) <= Tour(c) && (Finished(c, p) ==> p.crossed == Tour(c))
  {
    var schedule := RunRefines(c, width, acts);
    EverybodyFollowsProcessZero(c, schedule, i);
  }

  /** In every run two participants of a barrier are never more than one of its rounds apart. */
  lemma BarriersSynchroniseWordByWord(c: Config, width: nat, acts: seq<Act>, b: nat, i: nat, j: nat)
    requires Wide(c, width) && i < c.n && j < c.n && b < P.NUM_BARRIERS && Part(c, b)[i] && Part(c, b)[j]
    ensures var s := FineExec(c, width, acts); multiset(s.procs[i].crossed)[b] <= multiset(s.procs[j].crossed)[b] + 1
  {
    var schedule := RunRefines(c, width, acts);
    BarriersSynchronise(c, schedule, b, i, j);
  }

  /** An upper bound on the accesses left that are not spins. */
  function FineWork(c: Config, width: nat, s: Fine): int
    requires FineShaped(c, s)
  {
    Sum(Works(c, Abs(c, s))) * (width + 2) + Sum(Micros(s.chans))
  }

  /** A process that can move in the coarse machine can move here, whichever way it acquires a slot. */
  lemma MoverMoves(c: Config, width: nat, s: Fine, act: Act)
    requires Wide(c, width) && FineShaped(c, s) && FineInv(c, width, s) && act.i < c.n && !Blocked(c, Abs(c, s), act.i)
    ensures FineStep(c, width, s, act) != s
  {
    var i, p := act.i, s.procs[act.i];
    if AtSend(c, p, i) {
      var core := p.stage.core;
      assert Linked(c, width, s.chans[core], core, s.procs[0], s.procs[core]);
      assert Held(s.chans[core]) == Abs(c, s).slots[core] == None;
      AccessMoves(Encode(width, p.barr), s.chans[core], act.cas);
      assert FineStep(c, width, s, act).chans[core] != s.chans[core];
    } else if AtReceive(c, p) {
      assert Linked(c, width, s.chans[i], i, s.procs[0], s.procs[i]);
      assert Held(s.chans[i]) == Abs(c, s).slots[i] != None;
      AccessMoves(s.chans[i].words, s.chans[i], act.cas);
      assert FineStep(c, width, s, act).chans[i] != s.chans[i];
    } else {
      OtherRefines(c, width, s, act);
      TurnShrinksTotal(c, Abs(c, s), i);
    }
  }

  /** In every reachable state either all processes have finished or some process can make a real access. */
  lemma NeverStuckWordByWord(c: Config, width: nat, acts: seq<Act>, cas: bool) returns (act: Act)
    requires Wide(c, width) && !AllFinished(c, Abs(c, FineExec(c, width, acts)))
    ensures act.cas == cas && act.i < c.n
         && FineStep(c, width, FineExec(c, width, acts), act) != FineExec(c, width, acts)
  {
    var schedule := RunRefines(c, width, acts);
    var j := NeverStuck(c, schedule);
    act := Act(j, cas);
    MoverMoves(c, width, FineExec(c, width, acts), act);
  }

  /** What an access does: nothing, an invisible part of a transfer, or a step of the coarse machine. */
  ghost predicate Progresses(c: Config, width: nat, s: Fine, t: Fine, i: nat)
    requires FineShaped(c, s) && FineShaped(c, t) && i < c.n
  {
    || t == s
    || (Abs(c, t) == Abs(c, s) && Sum(Micros(t.chans)) < Sum(Micros(s.chans)))
    || (!Blocked(c, Abs(c, s), i) && Abs(c, t) == Turn(c, Abs(c, s), i)
        && Sum(Micros(t.chans)) <= Sum(Micros(s.chans)) + width + 1)
  }

  lemma SendProgresses(c: Config, width: nat, s: Fine, act: Act)
    requires Wide(c, width) && FineShaped(c, s) && FineInv(c, width, s) && act.i < c.n
    requires AtSend(c, s.procs[act.i], act.i)
    ensures Progresses(c, width, s, FineStep(c, width, s, act), act.i)
  {
    var p := s.procs[act.i];
    var core := p.stage.core;
    var ch := Sending(Encode(width, p.barr), s.chans[core], act.cas);
    TalkerIsZero(c, width, s, act.i);
    assert Linked(c, width, s.chans[core], core, s.procs[0], s.procs[core]);
    SendMicro(Encode(width, p.barr), s.chans[core], act.cas);
    SendAccess(Encode(width, p.barr), s.chans[core], act.cas);
    SendRefines(c, width, s, act);
    MicrosUpdate(s.chans, core, ch);
    if |ch.sent| > |s.chans[core].sent| {
      assert Abs(c, s).slots[core] == Held(s.chans[core]) == None;
    }
  }

  lemma ReceiveProgresses(c: Config, width: nat, s: Fine, act: Act)
    requires Wide(c, width) && FineShaped(c, s) && FineInv(c, width, s) && act.i < c.n && AtReceive(c, s.procs[act.i])
    ensures Progresses(c, width, s, FineStep(c, width, s, act), act.i)
  {
    var i := act.i;
    var ch := Receiving(s.chans[i], act.cas);
    assert Linked(c, width, s.chans[i], i, s.procs[0], s.procs[i]);
    ReceiveMicro(s.chans[i], act.cas);
    ReceiveAccess(s.chans[i], act.cas);
    ReceiveRefines(c, width, s, act);
    MicrosUpdate(s.chans, i, ch);
    if |ch.got| > |s.chans[i].got| {
      assert Abs(c, s).slots[i] == Held(s.chans[i]);
    }
  }

  lemma StepProgresses(c: Config, width: nat, s: Fine, act: Act)
    requires Wide(c, width) && FineShaped(c, s) && FineInv(c, width, s) && act.i < c.n
    ensures Progresses(c, width, s, FineStep(c, width, s, act), act.i)
  {
    if AtSend(c, s.procs[act.i], act.i) {
      SendProgresses(c, width, s, act);
    } else if AtReceive(c, s.procs[act.i]) {
      ReceiveProgresses(c, width, s, act);
    } else {
      OtherRefines(c, width, s, act);
    }
  }

  lemma FewerVisibleStepsLeft(c: Config, width: nat, s: Fine, t: Fine)
    requires FineShaped(c, s) && FineShaped(c, t) && Sum(Works(c, Abs(c, t))) < Sum(Works(c, Abs(c, s)))
    requires Sum(Micros(t.chans)) <= Sum(Micros(s.chans)) + width + 1
    ensures FineWork(c, width, t) < FineWork(c, width, s)
  {
    Arith.OutweighedBy(Sum(Works(c, Abs(c, s))), Sum(Works(c, Abs(c, t))), width + 2,
                       Sum(Micros(s.chans)), Sum(Micros(t.chans)));
  }

  lemma ProgressUsesWork(c: Config, width: nat, s: Fine, t: Fine, i: nat)
    requires Wide(c, width) && FineShaped(c, s) && FineShaped(c, t) && Inv(c, Abs(c, s)) && i < c.n
    requires Progresses(c, width, s, t, i) && t != s
    ensures FineWork(c, width, t) < FineWork(c, width, s)
  {
    if !(Abs(c, t) == Abs(c, s) && Sum(Micros(t.chans)) < Sum(Micros(s.chans))) {
      TurnShrinksTotal(c, Abs(c, s), i);
      FewerVisibleStepsLeft(c, width, s, t);
    }
  }

  /** Every access that is not a spin uses up work. */
  lemma WorkFalls(c: Config, width: nat, s: Fine, act: Act)
    requires Wide(c, width) && FineShaped(c, s) && FineInv(c, width, s) && FineStep(c, width, s, act) != s
    ensures FineWork(c, width, FineStep(c, width, s, act)) < FineWork(c, width, s)
  {
    StepProgresses(c, width, s, act);
    ProgressUsesWork(c, width, s, FineStep(c, width, s, act), act.i);
  }

  lemma MicrosNonNegative(c: Config, width: nat, s: Fine)
    requires Wide(c, width) && FineShaped(c, s) && FineInv(c, width, s)
    ensures Sum(Micros(s.chans)) >= 0
  {
    forall i | 0 <= i < c.n
      ensures Micros(s.chans)[i] >= 0
    {
      assert Linked(c, width, s.chans[i], i, s.procs[0], s.procs[i]);
      MicroNonNegative(s.chans[i]);
    }
    SumNonNegative(Micros(s.chans));
  }

  lemma WeighedNonNegative(c: Config, width: nat, s: Fine)
    requires FineShaped(c, s) && Sum(Works(c, Abs(c, s))) >= 0 && Sum(Micros(s.chans)) >= 0
    ensures FineWork(c, width, s) >= 0
  {
    Arith.Multiple(Sum(Works(c, Abs(c, s))), width + 2);
  }

  lemma FineWorkNonNegative(c: Config, width: nat, s: Fine)
    requires Wide(c, width) && FineShaped(c, s) && FineInv(c, width, s)
    ensures FineWork(c, width, s) >= 0
  {
    MicrosNonNegative(c, width, s);
    WorkNonNegative(c, Abs(c, s));
    WeighedNonNegative(c, width, s);
  }

  /** Accesses of a run that are not spins. */
  function RealAccesses(c: Config, width: nat, acts: seq<Act>): nat {
    if |acts| == 0 then 0
    else
      var before := acts[..|acts| - 1];
      RealAccesses(c, width, before) + if FineExec(c, width, acts) != FineExec(c, width, before) then 1 else 0
  }

  /** No run, however long, contains more real accesses than the work there is at the start. */
  lemma {:induction false} RealAccessesAreBounded(c: Config, width: nat, acts: seq<Act>)
    requires Wide(c, width)
    ensures RealAccesses(c, width, acts) + FineWork(c, width, FineExec(c, width, acts))
            <= FineWork(c, width, FineInit(c, width))
    ensures RealAccesses(c, width, acts) <= FineWork(c, width, FineInit(c, width))
  {
    var _ := RunRefines(c, width, acts);
    FineWorkNonNegative(c, width, FineExec(c, width, acts));
    if |acts| > 0 {
      var before, act := acts[..|acts| - 1], acts[|acts| - 1];
      RealAccessesAreBounded(c, width, before);
      if FineExec(c, width, acts) != FineExec(c, width, before) {
        var _ := RunRefines(c, width, before);
        WorkFalls(c, width, FineExec(c, width, before), act);
      }
    }
  }

  lemma OneMoreAccess(c: Config, width: nat, acts: seq<Act>, act: Act)
    requires Wide(c, width) && FineStep(c, width, FineExec(c, width, acts), act) != FineExec(c, width, acts)
    ensures RealAccesses(c, width, acts) < RealAccesses(c, width, acts + [act])
            <= FineWork(c, width, FineInit(c, width))
  {
    assert (acts + [act])[..|acts|] == acts;
    RealAccessesAreBounded(c, width, acts + [act]);
  }

  /** Every run can be continued until all processes have gone through the whole tour. */
  lemma {:induction false} EveryRunFinishesWordByWord(c: Config, width: nat, acts: seq<Act>) returns (rest: seq<Act>)
    requires Wide(c, width)
    ensures AllFinished(c, Abs(c, FineExec(c, width, acts + rest)))
    decreases FineWork(c, width, FineInit(c, width)) - RealAccesses(c, width, acts)
  {
    if AllFinished(c, Abs(c, FineExec(c, width, acts))) {
      rest := [];
      assert acts + [] == acts;
    } else {
      var act := NeverStuckWordByWord(c, width, acts, false);
      OneMoreAccess(c, width, acts, act);
      var more := EveryRunFinishesWordByWord(c, width, acts + [act]);
      Regroup(acts, act, more);
      rest := [act] + more;
    }
  }
}
