/**
 Start-up on x86: every thread publishes the address of its block, clears its flags, meets the others at
 barrier 0, reads their addresses, raises its own `ues_initialized` flag and waits for everybody's.

 Steps are single shared accesses; a thread that is through may send and receive at will. The slots and the
 chunk buffers may hold anything at first: clearing them is what start-up is for.
 */
module Startup {
  import opened Common
  import opened Slots
  import P = Participants
  import B = Barrier

  datatype Stage =
    | Publish
    | ZeroChunk(core: nat)
    | ZeroSlot(core: nat)
    | Meet(pc: B.Pc)
    | Read(core: nat)
    | Mark
    | Await(ue: nat)
    | Running
    | Crashed          // read an address that was not there, and exited

  /**
   `full` are the slots, and `chunks` the chunk buffers, whose flags announce data; `posted` and
   `postedChunks` are those among them that a running thread has filled. `erased` records a clearing
   step that hit one of the latter.
   */
  datatype State = State(cell: B.Cell, published: seq<bool>, ues: seq<bool>, full: set<Ptr>, chunks: set<nat>,
                         posted: set<Ptr>, postedChunks: set<nat>, stages: seq<Stage>, erased: bool)

  datatype Act =
    | Turn(i: nat)
    | Post(i: nat, j: nat)
    | Drain(i: nat, j: nat)
    | PostChunk(i: nat)
    | DrainChunk(i: nat, of: nat)

  /** What the flags may say before anybody starts. */
  datatype Stale = Stale(full: set<Ptr>, chunks: set<nat>)

  predicate InBlocks(n: nat, p: Ptr) {
    p.block < n && 0 <= p.index < n - 1
  }

  ghost predicate Possible(n: nat, stale: Stale) {
    && (forall p :: p in stale.full ==> InBlocks(n, p))
    && (forall ch :: ch in stale.chunks ==> ch < n)
  }

  predicate Shaped(n: nat, s: State) {
    |s.published| == |s.ues| == |s.stages| == n
  }

  function Part(n: nat): (part: seq<bool>)
    ensures |part| == n
    ensures forall i :: 0 <= i < n ==> part[i] == (i < 64)
  {
    forall i: nat ensures P.TakesPart(P.PLAIN, i) <==> i < 64 {
      P.PlainIsBelowSixtyFour(i);
    }
    P.Part(n, P.PLAIN)
  }

  function Init(n: nat, stale: Stale): (s: State)
    ensures Shaped(n, s)
  {
    State(B.FRESH, seq(n, i => false), seq(n, i => false), stale.full, stale.chunks,
          {}, {}, seq(n, i => Publish), false)
  }

  function Go(s: State, i: nat, stage: Stage): State
    requires i < |s.stages|
  {
    s.(stages := s.stages[i := stage])
  }

  /** One access of thread `i` in its start-up code. */
  function Advance(n: nat, s: State, i: nat): (t: State)
    requires Shaped(n, s) && i < n
    ensures Shaped(n, t)
  {
    match s.stages[i]
    case Publish =>
      if n == 1 then Go(s, i, Running)
      else Go(s.(published := s.published[i := true]), i, ZeroChunk(0))
    case ZeroChunk(core) =>
      if core >= n then Go(s, i, Meet(B.Out))
      else
        Go(s.(chunks := s.chunks - {core}, erased := s.erased || core in s.postedChunks), i,
           if core == i then ZeroChunk(core + 1) else ZeroSlot(core))
    case ZeroSlot(core) =>
      Go(s.(full := s.full - {RecvPtr(i, core)},
           erased := s.erased || RecvPtr(i, core) in s.posted), i, ZeroChunk(core + 1))
    case Meet(pc) =>
      if pc == B.Out then
        Go(s, i, if Part(n)[i] then Meet(B.Gate) else Read(0))
      else
        var (cell, next) := B.Advance(Count(Part(n)), s.cell, pc);
        Go(s.(cell := cell), i, if next == B.Out then Read(0) else Meet(next))
    case Read(core) =>
      if core >= n then Go(s, i, Mark)
      else if core == i || s.published[core] then Go(s, i, Read(core + 1))
      else Go(s, i, Crashed)
    case Mark => Go(s.(ues := s.ues[i := true]), i, Await(0))
    case Await(ue) =>
      if ue >= n then Go(s, i, Running)
      else if s.ues[ue] then Go(s, i, Await(ue + 1))
      else s
    case Running => s
    case Crashed => s
  }

  function Step(n: nat, s: State, act: Act): (t: State)
    requires Shaped(n, s)
    ensures Shaped(n, t)
  {
    match act
    case Turn(i) => if i < n then Advance(n, s, i) else s
    case Post(i, j) =>
      if PairOf(n, i, j) && s.stages[i].Running? then
        s.(full := s.full + {SendPtr(i, j)}, posted := s.posted + {SendPtr(i, j)})
      else s
    case Drain(i, j) =>
      if PairOf(n, j, i) && s.stages[i].Running? then
        s.(full := s.full - {RecvPtr(i, j)}, posted := s.posted - {RecvPtr(i, j)})
      else s
    case PostChunk(i) =>
      if i < n && s.stages[i].Running? then
        s.(chunks := s.chunks + {i}, postedChunks := s.postedChunks + {i})
      else s
    case DrainChunk(i, of) =>
      if i < n && s.stages[i].Running? then
        s.(chunks := s.chunks - {of}, postedChunks := s.postedChunks - {of})
      else s
  }

  function Exec(n: nat, stale: Stale, acts: seq<Act>): (s: State)
    ensures Shaped(n, s)
  {
    if |acts| == 0 then Init(n, stale) else Step(n, Exec(n, stale, acts[..|acts| - 1]), acts[|acts| - 1])
  }

  /** A thread that is through announces what it sends and takes down the flag of what it receives; no other does. */
  lemma SendsShow(n: nat, s: State, i: nat, j: nat)
    requires Shaped(n, s) && PairOf(n, i, j)
    ensures Step(n, s, Post(i, j)) ==
            if s.stages[i].Running? then
              s.(full := s.full + {SendPtr(i, j)}, posted := s.posted + {SendPtr(i, j)})
            else s
    ensures Step(n, s, Drain(j, i)) ==
            if s.stages[j].Running? then
              s.(full := s.full - {SendPtr(i, j)}, posted := s.posted - {SendPtr(i, j)})
            else s
    ensures Step(n, s, PostChunk(i)) ==
            if s.stages[i].Running? then s.(chunks := s.chunks + {i}, postedChunks := s.postedChunks + {i}) else s
    ensures Step(n, s, DrainChunk(j, i)) ==
            if s.stages[j].Running? then s.(chunks := s.chunks - {i}, postedChunks := s.postedChunks - {i}) else s
  {
    SidesAgree(i, j);
  }

  // ---------------------------------------------------------------- nothing sent is erased, nothing stale is left

  predicate Cleared(stage: Stage) {
    !stage.Publish? && !stage.ZeroChunk? && !stage.ZeroSlot?
  }

  /** The thread has yet to clear its slot from `core`. */
  predicate SlotPending(stage: Stage, core: int) {
    stage.Publish? || (stage.ZeroChunk? && stage.core <= core) || (stage.ZeroSlot? && stage.core <= core)
  }

  /** The thread has yet to clear chunk buffer `core`. */
  predicate ChunkPending(stage: Stage, core: nat) {
    stage.Publish? || (stage.ZeroChunk? && stage.core <= core) || (stage.ZeroSlot? && stage.core < core)
  }

  ghost predicate SomeoneRuns(n: nat, s: State)
    requires Shaped(n, s)
  {
    exists i :: 0 <= i < n && s.stages[i].Running?
  }

  /** The `ues_initialized` handshake. */
  ghost predicate Handshake(n: nat, s: State)
    requires Shaped(n, s)
  {
    && (forall i :: 0 <= i < n && s.ues[i] ==> s.stages[i].Await? || s.stages[i].Running?)
    && (forall i :: 0 <= i < n && (s.stages[i].Await? || s.stages[i].Running?) ==> s.ues[i])
    && (forall i :: 0 <= i < n && s.stages[i].Await? ==>
          s.stages[i].ue <= n && forall u :: 0 <= u < s.stages[i].ue ==> s.ues[u])
    && (SomeoneRuns(n, s) ==> forall u :: 0 <= u < n ==> s.ues[u])
    && (forall i :: 0 <= i < n && s.stages[i].ZeroSlot? ==> s.stages[i].core != i && s.stages[i].core < n)
  }

  /** The flags say, before anybody runs, only what is stale and to be cleared, and afterwards only what was posted. */
  ghost predicate FlagsMeanData(n: nat, s: State)
    requires Shaped(n, s)
  {
    && !s.erased
    && if SomeoneRuns(n, s) then
         s.full == s.posted && s.chunks == s.postedChunks
       else
         && s.posted == {} && s.postedChunks == {}
         && (forall p :: p in s.full ==> InBlocks(n, p) && SlotPending(s.stages[p.block], SenderAt(p)))
         && (forall ch, i :: ch in s.chunks && 0 <= i < n ==> ch < n && ChunkPending(s.stages[i], ch))
  }

  lemma NobodyRuns(n: nat, s: State, i: nat)
    requires Shaped(n, s) && Handshake(n, s) && i < n && !Cleared(s.stages[i])
    ensures !SomeoneRuns(n, s)
  {
  }

  lemma EarlyTurnKeepsHandshake(n: nat, s: State, i: nat)
    requires n > 1 && Shaped(n, s) && Handshake(n, s) && i < n && !Cleared(s.stages[i])
    ensures Handshake(n, Advance(n, s, i))
  {
    NobodyRuns(n, s, i);
    RunnersStay(n, s, i);
  }

  lemma MiddleTurnKeepsHandshake(n: nat, s: State, i: nat)
    requires n > 1 && Shaped(n, s) && Handshake(n, s) && i < n && (s.stages[i].Meet? || s.stages[i].Read?)
    ensures Handshake(n, Advance(n, s, i))
  {
    MiddleTurn(n, s, i);
    RunnersStay(n, s, i);
  }

  lemma MarkKeepsHandshake(n: nat, s: State, i: nat)
    requires n > 1 && Shaped(n, s) && Handshake(n, s) && i < n && s.stages[i].Mark?
    ensures Handshake(n, Advance(n, s, i))
  {
    RunnersStay(n, s, i);
  }

  lemma AwaitKeepsHandshake(n: nat, s: State, i: nat)
    requires n > 1 && Shaped(n, s) && Handshake(n, s) && i < n && s.stages[i].Await?
    ensures Handshake(n, Advance(n, s, i))
  {
    RunnersStay(n, s, i);
  }

  lemma AdvanceKeepsHandshake(n: nat, s: State, i: nat)
    requires n > 1 && Shaped(n, s) && Handshake(n, s) && i < n
    ensures Handshake(n, Advance(n, s, i))
  {
    if !Cleared(s.stages[i]) {
      EarlyTurnKeepsHandshake(n, s, i);
    } else if s.stages[i].Meet? || s.stages[i].Read? {
      MiddleTurnKeepsHandshake(n, s, i);
    } else if s.stages[i].Mark? {
      MarkKeepsHandshake(n, s, i);
    } else if s.stages[i].Await? {
      AwaitKeepsHandshake(n, s, i);
    }
  }

  /** In the middle of start-up a turn touches neither flags nor data. */
  lemma MiddleTurn(n: nat, s: State, i: nat)
    requires Shaped(n, s) && i < n && (s.stages[i].Meet? || s.stages[i].Read?)
    ensures var t := Advance(n, s, i);
            && t.ues == s.ues && t.full == s.full && t.chunks == s.chunks && t.erased == s.erased
            && t.posted == s.posted && t.postedChunks == s.postedChunks
            && t.stages == s.stages[i := t.stages[i]]
            && Cleared(t.stages[i]) && !t.stages[i].Await? && !t.stages[i].Running?
  {
  }

  lemma RunnersStay(n: nat, s: State, i: nat)
    requires n > 1 && Shaped(n, s) && i < n
    ensures forall k :: 0 <= k < n && s.stages[k].Running? ==> Advance(n, s, i).stages[k].Running?
    ensures !s.stages[i].Await? && SomeoneRuns(n, Advance(n, s, i)) ==> SomeoneRuns(n, s)
  {
    var t := Advance(n, s, i);
    if !s.stages[i].Await? && SomeoneRuns(n, t) {
      var k :| 0 <= k < n && t.stages[k].Running?;
      assert s.stages[k].Running?;
    }
  }

  /** A clearing step: nobody runs yet, and one more flag is down. */
  lemma ClearingKeepsFlags(n: nat, s: State, i: nat)
    requires n > 1 && Shaped(n, s) && Handshake(n, s) && FlagsMeanData(n, s) && i < n && !Cleared(s.stages[i])
    ensures FlagsMeanData(n, Advance(n, s, i))
  {
    var t := Advance(n, s, i);
    NobodyRuns(n, s, i);
    RunnersStay(n, s, i);
    forall p | p in t.full
      ensures InBlocks(n, p) && SlotPending(t.stages[p.block], SenderAt(p))
    {
      assert p in s.full && SlotPending(s.stages[p.block], SenderAt(p));
    }
  }

  /** When all threads have raised their flags and nobody runs yet, nothing is announced anywhere. */
  lemma AllClearedMeansEmpty(n: nat, s: State)
    requires n > 1 && Shaped(n, s) && Handshake(n, s) && FlagsMeanData(n, s) && !SomeoneRuns(n, s)
    requires forall u :: 0 <= u < n ==> s.ues[u]
    ensures s.full == {} && s.chunks == {}
  {
    assert s.ues[0] && Cleared(s.stages[0]);
    forall p: Ptr
      ensures p !in s.full
    {
    }
    assert forall ch :: ch in s.chunks ==> ChunkPending(s.stages[0], ch);
  }

  lemma LaterTurnKeepsFlags(n: nat, s: State, i: nat)
    requires n > 1 && Shaped(n, s) && Handshake(n, s) && FlagsMeanData(n, s) && i < n && Cleared(s.stages[i])
    ensures FlagsMeanData(n, Advance(n, s, i))
  {
    var t := Advance(n, s, i);
    RunnersStay(n, s, i);
    if s.stages[i].Meet? || s.stages[i].Read? {
      MiddleTurn(n, s, i);
    } else if s.stages[i].Await? && t.stages[i].Running? && !SomeoneRuns(n, s) {
      AllClearedMeansEmpty(n, s);
    }
  }

  lemma StepKeepsFlags(n: nat, s: State, act: Act)
    requires n > 1 && Shaped(n, s) && Handshake(n, s) && FlagsMeanData(n, s)
    ensures Handshake(n, Step(n, s, act)) && FlagsMeanData(n, Step(n, s, act))
  {
    if act.Turn? {
      if act.i < n {
        AdvanceKeepsHandshake(n, s, act.i);
        if Cleared(s.stages[act.i]) {
          LaterTurnKeepsFlags(n, s, act.i);
        } else {
          ClearingKeepsFlags(n, s, act.i);
        }
      }
    } else {
      assert Step(n, s, act).stages == s.stages;
    }
  }

  lemma {:induction false} ReachableFlags(n: nat, stale: Stale, acts: seq<Act>)
    requires n > 1 && Possible(n, stale)
    ensures Handshake(n, Exec(n, stale, acts)) && FlagsMeanData(n, Exec(n, stale, acts))
  {
    if |acts| > 0 {
      ReachableFlags(n, stale, acts[..|acts| - 1]);
      StepKeepsFlags(n, Exec(n, stale, acts[..|acts| - 1]), acts[|acts| - 1]);
    } else {
      assert !SomeoneRuns(n, Init(n, stale));
    }
  }

  /**
   In every run of two or more threads, whatever the flags said before: no clearing step ever hits data
   that a running thread has posted, and from the moment anybody runs the flags announce exactly what
   was posted and not yet taken.
   */
  lemma NothingErasedNothingStale(n: nat, stale: Stale, acts: seq<Act>)
    requires n > 1 && Possible(n, stale)
    ensures var s := Exec(n, stale, acts);
            && !s.erased
            && (SomeoneRuns(n, s) ==> s.full == s.posted && s.chunks == s.postedChunks)
  {
    ReachableFlags(n, stale, acts);
  }

  /**
   In every run, once a thread has come to barrier 0 and until somebody is through start-up, no chunk buffer at
   all and none of the thread's own slots announces anything: each thread clears all of them.
   */
  lemma ClearedMeansEmpty(n: nat, stale: Stale, acts: seq<Act>, i: nat)
    requires n > 1 && Possible(n, stale) && i < n
    requires Cleared(Exec(n, stale, acts).stages[i]) && !SomeoneRuns(n, Exec(n, stale, acts))
    ensures var s := Exec(n, stale, acts); s.chunks == {} && forall p :: p in s.full ==> p.block != i
  {
    ReachableFlags(n, stale, acts);
    var s := Exec(n, stale, acts);
    assert forall ch :: ch in s.chunks ==> ChunkPending(s.stages[i], ch);
    assert forall p :: p in s.full && p.block == i ==> SlotPending(s.stages[i], SenderAt(p));
  }

  // ---------------------------------------------------------------- nobody reads an address too early

  ghost function Viewed(stage: Stage): B.Waiter {
    match stage
    case Publish => B.Waiter(B.Out, 0, 0)
    case ZeroChunk(_) => B.Waiter(B.Out, 0, 0)
    case ZeroSlot(_) => B.Waiter(B.Out, 0, 0)
    case Meet(pc) => B.Waiter(pc, if pc in {B.Out, B.Gate, B.Inc} then 0 else 1, 0)
    case _ => B.Waiter(B.Out, 1, 1)
  }

  ghost function View(n: nat, s: State): (v: B.State)
    requires Shaped(n, s)
    ensures |v.ws| == n
  {
    B.State(s.cell, seq(n, i requires 0 <= i < n => Viewed(s.stages[i])))
  }

  ghost predicate Inv(n: nat, s: State)
    requires Shaped(n, s)
  {
    && B.Inv(Part(n), View(n, s))
    && (forall i :: 0 <= i < n && !s.stages[i].Publish? ==> s.published[i])
    && (forall i :: 0 <= i < n ==> !s.stages[i].Crashed?)
  }

  /** The thread is past barrier 0. */
  predicate Passed(stage: Stage) {
    stage.Read? || stage.Mark? || stage.Await? || stage.Running?
  }

  lemma PassedSeesAddresses(n: nat, s: State, i: nat, j: nat)
    requires 2 <= n <= 64 && Shaped(n, s) && Inv(n, s) && i < n && j < n && Passed(s.stages[i])
    ensures s.published[j]
  {
    B.InvIsSafe(Part(n), View(n, s), i, j);
    assert View(n, s).ws[i] == Viewed(s.stages[i]) && View(n, s).ws[j] == Viewed(s.stages[j]);
  }

  lemma MeetProjects(n: nat, s: State, i: nat)
    requires 2 <= n <= 64 && Shaped(n, s) && i < n && s.stages[i].Meet?
    ensures View(n, Advance(n, s, i)) == B.Turn(Part(n), View(n, s), i)
  {
    assert View(n, Advance(n, s, i)).ws == B.Turn(Part(n), View(n, s), i).ws;
  }

  /** To barrier 0, a turn of a thread is a step of its own or no step at all. */
  lemma AdvanceProjects(n: nat, s: State, i: nat)
    requires 2 <= n <= 64 && Shaped(n, s) && Inv(n, s) && i < n
    ensures View(n, Advance(n, s, i)) == View(n, s) || View(n, Advance(n, s, i)) == B.Turn(Part(n), View(n, s), i)
  {
    if s.stages[i].Meet? {
      MeetProjects(n, s, i);
    } else {
      if s.stages[i].Read? && s.stages[i].core < n {
        PassedSeesAddresses(n, s, i, s.stages[i].core);
      }
      assert View(n, Advance(n, s, i)).ws == View(n, s).ws;
    }
  }

  lemma TurnKeepsAddresses(n: nat, s: State, i: nat)
    requires 2 <= n <= 64 && Shaped(n, s) && Inv(n, s) && i < n
    ensures var t := Advance(n, s, i);
            && (forall j :: 0 <= j < n && !t.stages[j].Publish? ==> t.published[j])
            && (forall j :: 0 <= j < n ==> !t.stages[j].Crashed?)
  {
    if s.stages[i].Read? && s.stages[i].core < n {
      PassedSeesAddresses(n, s, i, s.stages[i].core);
    }
  }

  lemma StepKeepsInv(n: nat, s: State, act: Act)
    requires 2 <= n <= 64 && Shaped(n, s) && Inv(n, s)
    ensures Inv(n, Step(n, s, act))
  {
    if act.Turn? && act.i < n {
      AdvanceProjects(n, s, act.i);
      B.TurnKeepsInv(Part(n), View(n, s), act.i);
      TurnKeepsAddresses(n, s, act.i);
    } else {
      assert View(n, Step(n, s, act)) == View(n, s);
    }
  }

  lemma {:induction false} ReachableInv(n: nat, stale: Stale, acts: seq<Act>)
    requires 2 <= n <= 64
    ensures Inv(n, Exec(n, stale, acts))
  {
    if |acts| == 0 {
      assert View(n, Init(n, stale)) == B.Init(n);
      B.InitHolds(Part(n));
    } else {
      ReachableInv(n, stale, acts[..|acts| - 1]);
      StepKeepsInv(n, Exec(n, stale, acts[..|acts| - 1]), acts[|acts| - 1]);
    }
  }

  /** In every run of up to 64 threads, once any thread is past barrier 0 all addresses are there. */
  lemma PassedMeansPublished(n: nat, stale: Stale, acts: seq<Act>, i: nat, j: nat)
    requires 2 <= n <= 64 && i < n && j < n && Passed(Exec(n, stale, acts).stages[i])
    ensures Exec(n, stale, acts).published[j]
  {
    ReachableInv(n, stale, acts);
    PassedSeesAddresses(n, Exec(n, stale, acts), i, j);
  }

  // ---------------------------------------------------------------- the barrier as start-up leaves it

  /** With every thread through its one wait nobody is inside, and the gate is as it was at first. */
  lemma AllPassedLeaveFresh(n: nat, s: State)
    requires 2 <= n <= 64 && Shaped(n, s) && Inv(n, s)
    requires forall i :: 0 <= i < n ==> s.stages[i].Await? || s.stages[i].Running?
    ensures B.InMemory(s.cell) == B.FRESH && s.cell.closings == 1
  {
    var v := View(n, s);
    forall i | 0 <= i < n
      ensures v.ws[i] == B.Waiter(B.Out, 1, 1) && !B.Marks(v.ws)[i]
    {
      assert v.ws[i] == Viewed(s.stages[i]);
    }
    CountZero(B.Marks(v.ws));
    assert Part(n)[0];
    assert forall i :: 0 <= i < n ==> v.ws[i].pc != B.Reset;
    if !s.cell.cleared {
      assert B.Filling(Count(Part(n)), s.cell, v.ws[0], s.cell.closings);
    }
  }

  /**
   In every run of up to 64 threads, from the moment anybody is through start-up barrier 0 is in memory as it
   was before: ready for its next use, with one round completed.
   */
  lemma BarrierHandedOn(n: nat, stale: Stale, acts: seq<Act>)
    requires 2 <= n <= 64 && Possible(n, stale) && SomeoneRuns(n, Exec(n, stale, acts))
    ensures var s := Exec(n, stale, acts); B.InMemory(s.cell) == B.FRESH && s.cell.closings == 1
  {
    ReachableInv(n, stale, acts);
    ReachableFlags(n, stale, acts);
    var s := Exec(n, stale, acts);
    assert forall i :: 0 <= i < n ==> s.ues[i];
    AllPassedLeaveFresh(n, s);
  }

  // ---------------------------------------------------------------- start-up comes to an end

  /** In every run of up to 64 threads, while somebody is not through some thread can get on. */
  lemma NeverStuck(n: nat, stale: Stale, acts: seq<Act>, i: nat) returns (j: nat)
    requires 2 <= n <= 64 && Possible(n, stale) && i < n && !Exec(n, stale, acts).stages[i].Running?
    ensures j < n && Advance(n, Exec(n, stale, acts), j) != Exec(n, stale, acts)
  {
    ReachableInv(n, stale, acts);
    ReachableFlags(n, stale, acts);
    var s := Exec(n, stale, acts);
    j := i;
    if s.stages[i].Await? && s.stages[i].ue < n && !s.ues[s.stages[i].ue] {
      j := s.stages[i].ue;
    }
    if s.stages[j].Meet? && s.stages[j].pc != B.Out {
      j := MeetingMoves(n, s, j);
    }
  }

  lemma MeetingMoves(n: nat, s: State, i: nat) returns (j: nat)
    requires 2 <= n <= 64 && Shaped(n, s) && Inv(n, s) && i < n && s.stages[i].Meet? && s.stages[i].pc != B.Out
    ensures j < n && Advance(n, s, j) != s
  {
    var v := View(n, s);
    assert v.ws[i] == Viewed(s.stages[i]);
    if h: nat :| h < n && v.ws[h].pc == B.Out && v.ws[h].returned == 0 {
      assert v.ws[h] == Viewed(s.stages[h]);
      OutsiderMoves(n, s, h);
      j := h;
    } else {
      B.SomebodyMoves(Part(n), v, i);
      j :| B.Moves(Part(n), v, j);
      assert v.ws[j] == Viewed(s.stages[j]);
      InsiderMoves(n, s, j);
    }
  }

  lemma OutsiderMoves(n: nat, s: State, h: nat)
    requires Shaped(n, s) && h < n
    requires s.stages[h].Publish? || s.stages[h].ZeroChunk? || s.stages[h].ZeroSlot? || s.stages[h] == Meet(B.Out)
    ensures Advance(n, s, h).stages[h] != s.stages[h]
  {
  }

  lemma InsiderMoves(n: nat, s: State, j: nat)
    requires Shaped(n, s) && j < n && s.stages[j].Meet? && s.stages[j].pc != B.Out && !B.Spins(s.cell, s.stages[j].pc)
    ensures Advance(n, s, j).stages[j] != s.stages[j]
  {
    B.AdvanceDescends(Count(Part(n)), s.cell, s.stages[j].pc);
  }

  /** Turns a thread has left, spins not counted. */
  function Rank(n: nat, stage: Stage): (r: int)
  {
    match stage
    case Publish => 4 * n + 20
    case ZeroChunk(core) => 2 * (n - core) + 2 * n + 12
    case ZeroSlot(core) => 2 * (n - core) + 2 * n + 11
    case Meet(pc) => 2 * n + 4 + if pc == B.Out then 7 else B.Rank(pc)
    case Read(core) => n - core + n + 4
    case Mark => n + 2
    case Await(ue) => n - ue + 1
    case Running => 0
    case Crashed => 0
  }

  /** A thread's loop counters are within their loops. */
  predicate Counting(n: nat, stage: Stage) {
    match stage
    case ZeroChunk(core) => core <= n
    case ZeroSlot(core) => core < n
    case Read(core) => core <= n
    case Await(ue) => ue <= n
    case _ => true
  }

  lemma AdvanceCounts(n: nat, s: State, i: nat)
    requires Shaped(n, s) && i < n && Counting(n, s.stages[i])
    ensures var t := Advance(n, s, i);
            && t.stages == s.stages[i := t.stages[i]] && Counting(n, t.stages[i])
            && 0 <= Rank(n, t.stages[i]) && (t == s || Rank(n, t.stages[i]) < Rank(n, s.stages[i]))
  {
    if s.stages[i].Meet? && s.stages[i].pc != B.Out {
      B.AdvanceDescends(Count(Part(n)), s.cell, s.stages[i].pc);
    }
  }

  function Ranks(n: nat, s: State): (xs: seq<int>)
    requires Shaped(n, s)
    ensures |xs| == n
    ensures forall i :: 0 <= i < n ==> xs[i] == Rank(n, s.stages[i])
  {
    seq(n, i requires 0 <= i < n => Rank(n, s.stages[i]))
  }

  ghost predicate AllCounting(n: nat, s: State)
    requires Shaped(n, s)
  {
    forall i :: 0 <= i < n ==> Counting(n, s.stages[i])
  }

  lemma {:induction false} ReachableCounting(n: nat, stale: Stale, acts: seq<Act>)
    ensures AllCounting(n, Exec(n, stale, acts))
  {
    if |acts| > 0 {
      var s, act := Exec(n, stale, acts[..|acts| - 1]), acts[|acts| - 1];
      ReachableCounting(n, stale, acts[..|acts| - 1]);
      if act.Turn? && act.i < n {
        AdvanceCounts(n, s, act.i);
      } else {
        assert Step(n, s, act).stages == s.stages;
      }
    }
  }

  lemma TurnUsesRank(n: nat, s: State, i: nat)
    requires Shaped(n, s) && AllCounting(n, s) && i < n && Advance(n, s, i) != s
    ensures Sum(Ranks(n, Advance(n, s, i))) < Sum(Ranks(n, s))
  {
    var t := Advance(n, s, i);
    AdvanceCounts(n, s, i);
    assert Ranks(n, t) == Ranks(n, s)[i := Rank(n, t.stages[i])];
    SumUpdate(Ranks(n, s), i, Rank(n, t.stages[i]));
  }

  ghost predicate AllRun(n: nat, s: State)
    requires Shaped(n, s)
  {
    forall i :: 0 <= i < n ==> s.stages[i].Running?
  }

  lemma TurnIsNearer(n: nat, stale: Stale, acts: seq<Act>, j: nat)
    requires j < n && Advance(n, Exec(n, stale, acts), j) != Exec(n, stale, acts)
    ensures 0 <= Sum(Ranks(n, Exec(n, stale, acts + [Turn(j)]))) < Sum(Ranks(n, Exec(n, stale, acts)))
  {
    assert (acts + [Turn(j)])[..|acts|] == acts;
    ReachableCounting(n, stale, acts);
    TurnUsesRank(n, Exec(n, stale, acts), j);
    RanksNonNegative(n, stale, acts + [Turn(j)]);
  }

  lemma RanksNonNegative(n: nat, stale: Stale, acts: seq<Act>)
    ensures Sum(Ranks(n, Exec(n, stale, acts))) >= 0
  {
    ReachableCounting(n, stale, acts);
    SumNonNegative(Ranks(n, Exec(n, stale, acts)));
  }

  lemma OneTurnNearer(n: nat, stale: Stale, acts: seq<Act>) returns (j: nat)
    requires 2 <= n <= 64 && Possible(n, stale) && !AllRun(n, Exec(n, stale, acts))
    ensures 0 <= Sum(Ranks(n, Exec(n, stale, acts + [Turn(j)]))) < Sum(Ranks(n, Exec(n, stale, acts)))
  {
    var i :| 0 <= i < n && !Exec(n, stale, acts).stages[i].Running?;
    j := NeverStuck(n, stale, acts, i);
    TurnIsNearer(n, stale, acts, j);
  }

  /** Every run of up to 64 threads can be continued until all threads are through start-up. */
  lemma {:induction false} EveryRunGetsThrough(n: nat, stale: Stale, acts: seq<Act>) returns (rest: seq<Act>)
    requires 2 <= n <= 64 && Possible(n, stale)
    ensures AllRun(n, Exec(n, stale, acts + rest))
    decreases Sum(Ranks(n, Exec(n, stale, acts)))
  {
    if AllRun(n, Exec(n, stale, acts)) {
      rest := [];
      assert acts + [] == acts;
    } else {
      var j := OneTurnNearer(n, stale, acts);
      var more := EveryRunGetsThrough(n, stale, acts + [Turn(j)]);
      Regroup(acts, Turn(j), more);
      rest := [Turn(j)] + more;
    }
  }

  /** A lone thread is through with its first step. */
  lemma LoneThreadRuns(stale: Stale)
    ensures Exec(1, stale, [Turn(0)]).stages[0].Running?
  {
    assert [Turn(0)][..0] == [];
    assert Exec(1, stale, []) == Init(1, stale);
  }

  // ---------------------------------------------------------------- more than 64 threads

  /** Thread `i` runs alone: the first k of its steps. */
  function Solo(i: nat, k: nat): (acts: seq<Act>) {
    seq(k, x => Turn(i))
  }

  lemma SoloStep(n: nat, stale: Stale, i: nat, k: nat)
    requires i < n
    ensures Exec(n, stale, Solo(i, k + 1)) == Advance(n, Exec(n, stale, Solo(i, k)), i)
  {
    assert Solo(i, k + 1)[..k] == Solo(i, k);
  }

  /** Thread `i` is about to clear chunk buffer `core`, and nobody else has published. */
  predicate ClearsAlone(n: nat, s: State, i: nat, core: nat)
    requires Shaped(n, s)
  {
    i < n && s.stages[i] == ZeroChunk(core) && forall j :: 0 <= j < n && j != i ==> !s.published[j]
  }

  /** Clearing for one core takes one step for the thread's own and two for any other. */
  lemma ClearOne(n: nat, s: State, i: nat, core: nat)
    requires Shaped(n, s) && ClearsAlone(n, s, i, core) && core < n
    ensures var t := Advance(n, s, i); ClearsAlone(n, if core == i then t else Advance(n, t, i), i, core + 1)
  {
  }

  lemma SoloPublishes(n: nat, stale: Stale, i: nat)
    requires 1 < n && i < n
    ensures ClearsAlone(n, Exec(n, stale, Solo(i, 1)), i, 0)
  {
    SoloStep(n, stale, i, 0);
    assert Exec(n, stale, Solo(i, 0)) == Init(n, stale);
  }

  lemma SoloClears(n: nat, stale: Stale, i: nat, core: nat, k: nat)
    requires core < n && ClearsAlone(n, Exec(n, stale, Solo(i, k)), i, core)
    ensures ClearsAlone(n, Exec(n, stale, Solo(i, if core == i then k + 1 else k + 2)), i, core + 1)
  {
    ClearOne(n, Exec(n, stale, Solo(i, k)), i, core);
    SoloStep(n, stale, i, k);
    if core != i {
      SoloStep(n, stale, i, k + 1);
    }
  }

  lemma {:induction false} SoloZeroes(n: nat, stale: Stale, i: nat, core: nat) returns (k: nat)
    requires 1 < n && i < n && core <= n
    ensures ClearsAlone(n, Exec(n, stale, Solo(i, k)), i, core)
  {
    if core == 0 {
      k := 1;
      SoloPublishes(n, stale, i);
    } else {
      var before := SoloZeroes(n, stale, i, core - 1);
      SoloClears(n, stale, i, core - 1, before);
      k := if core - 1 == i then before + 1 else before + 2;
    }
  }

  lemma LonelyThreadCrashes(n: nat, s: State)
    requires n > 64 && Shaped(n, s) && ClearsAlone(n, s, 64, n)
    ensures Advance(n, Advance(n, Advance(n, s, 64), 64), 64).stages[64].Crashed?
  {
    assert !s.published[0];
  }

  lemma SoloThree(n: nat, stale: Stale, i: nat, k: nat)
    requires i < n
    ensures Exec(n, stale, Solo(i, k + 3)) == Advance(n, Advance(n, Advance(n, Exec(n, stale, Solo(i, k)), i), i), i)
  {
    SoloStep(n, stale, i, k);
    SoloStep(n, stale, i, k + 1);
    SoloStep(n, stale, i, k + 2);
  }

  /** Thread 64, which barrier 0 does not hold back, running alone reads thread 0's address before it is there. */
  lemma ThreadSixtyFourCrashes(n: nat, stale: Stale) returns (k: nat)
    requires n > 64
    ensures Exec(n, stale, Solo(64, k)).stages[64].Crashed?
  {
    var before := SoloZeroes(n, stale, 64, n);
    k := before + 3;
    LonelyThreadCrashes(n, Exec(n, stale, Solo(64, before)));
    SoloThree(n, stale, 64, before);
  }

  ghost predicate Safe(n: nat) {
    forall stale: Stale, acts: seq<Act>, i: nat :: i < n ==> !Exec(n, stale, acts).stages[i].Crashed?
  }

  /** Every thread finds every address it reads, in every run, exactly if there are at most 64 threads. */
  lemma AddressesAreThereIffAtMost64(n: nat)
    requires n >= 2
    ensures Safe(n) <==> n <= 64
  {
    if n <= 64 {
      forall stale: Stale, acts: seq<Act>, i: nat | i < n
        ensures !Exec(n, stale, acts).stages[i].Crashed?
      {
        ReachableInv(n, stale, acts);
      }
    } else {
      var k := ThreadSixtyFourCrashes(n, Stale({}, {}));
    }
  }
}

/**
 Start-up on SPARC: the `ues_initialized` flags alone, no barrier. Again only these flags are zeroed at
 first; slots and chunk buffers may hold anything.
 */
module StartupSparc {
  import opened Common
  import opened Slots

  datatype Stage =
    | Zero(core: nat)
    | ZeroChunk
    | Mark
    | Await(ue: nat)
    | Running

  datatype State = State(ues: seq<bool>, full: set<Entry>, chunks: set<nat>, posted: set<Entry>,
                         postedChunks: set<nat>, stages: seq<Stage>, erased: bool)

  datatype Act =
    | Turn(i: nat)
    | Post(i: nat, j: nat)
    | Drain(i: nat, j: nat)
    | PostChunk(i: nat)
    | DrainChunk(i: nat, of: nat)

  /** What the flags may say before anybody starts. */
  datatype Stale = Stale(full: set<Entry>, chunks: set<nat>)

  ghost predicate Possible(n: nat, stale: Stale) {
    && (forall e :: e in stale.full ==> InMatrix(n, e))
    && (forall ch :: ch in stale.chunks ==> ch < n)
  }

  predicate Shaped(n: nat, s: State) {
    |s.ues| == |s.stages| == n
  }

  function Init(n: nat, stale: Stale): (s: State)
    ensures Shaped(n, s)
  {
    State(seq(n, i => false), stale.full, stale.chunks, {}, {}, seq(n, i => Zero(0)), false)
  }

  function Go(s: State, i: nat, stage: Stage): State
    requires i < |s.stages|
  {
    s.(stages := s.stages[i := stage])
  }

  function Advance(n: nat, s: State, i: nat): (t: State)
    requires Shaped(n, s) && i < n
    ensures Shaped(n, t)
  {
    match s.stages[i]
    case Zero(core) =>
      if core >= n then Go(s, i, ZeroChunk)
      else
        var e := RecvEntry(i, core);
        Go(s.(full := s.full - {e}, erased := s.erased || e in s.posted), i, Zero(core + 1))
    case ZeroChunk =>
      Go(s.(chunks := s.chunks - {i}, erased := s.erased || i in s.postedChunks), i, Mark)
    case Mark => Go(s.(ues := s.ues[i := true]), i, Await(0))
    case Await(ue) =>
      if ue >= n then Go(s, i, Running)
      else if s.ues[ue] then Go(s, i, Await(ue + 1))
      else s
    case Running => s
  }

  function Step(n: nat, s: State, act: Act): (t: State)
    requires Shaped(n, s)
    ensures Shaped(n, t)
  {
    match act
    case Turn(i) => if i < n then Advance(n, s, i) else s
    case Post(i, j) =>
      if i < n && j < n && s.stages[i].Running? then
        s.(full := s.full + {SendEntry(i, j)}, posted := s.posted + {SendEntry(i, j)})
      else s
    case Drain(i, j) =>
      if i < n && j < n && s.stages[i].Running? then
        s.(full := s.full - {RecvEntry(i, j)}, posted := s.posted - {RecvEntry(i, j)})
      else s
    case PostChunk(i) =>
      if i < n && s.stages[i].Running? then
        s.(chunks := s.chunks + {i}, postedChunks := s.postedChunks + {i})
      else s
    case DrainChunk(i, of) =>
      if i < n && s.stages[i].Running? then
        s.(chunks := s.chunks - {of}, postedChunks := s.postedChunks - {of})
      else s
  }

  function Exec(n: nat, stale: Stale, acts: seq<Act>): (s: State)
    ensures Shaped(n, s)
  {
    if |acts| == 0 then Init(n, stale) else Step(n, Exec(n, stale, acts[..|acts| - 1]), acts[|acts| - 1])
  }

  /** A process that is through announces what it sends and takes down the flag of what it receives; no other does. */
  lemma SendsShow(n: nat, s: State, i: nat, j: nat)
    requires Shaped(n, s) && i < n && j < n
    ensures Step(n, s, Post(i, j)) ==
            if s.stages[i].Running? then
              s.(full := s.full + {Entry(j, i)}, posted := s.posted + {Entry(j, i)})
            else s
    ensures Step(n, s, Drain(j, i)) ==
            if s.stages[j].Running? then
              s.(full := s.full - {Entry(j, i)}, posted := s.posted - {Entry(j, i)})
            else s
    ensures Step(n, s, PostChunk(i)) ==
            if s.stages[i].Running? then s.(chunks := s.chunks + {i}, postedChunks := s.postedChunks + {i}) else s
    ensures Step(n, s, DrainChunk(j, i)) ==
            if s.stages[j].Running? then s.(chunks := s.chunks - {i}, postedChunks := s.postedChunks - {i}) else s
  {
  }

  ghost predicate SomeoneRuns(n: nat, s: State)
    requires Shaped(n, s)
  {
    exists i :: 0 <= i < n && s.stages[i].Running?
  }

  predicate Early(stage: Stage) {
    stage.Zero? || stage.ZeroChunk?
  }

  ghost predicate Handshake(n: nat, s: State)
    requires Shaped(n, s)
  {
    && (forall i :: 0 <= i < n && s.ues[i] ==> s.stages[i].Await? || s.stages[i].Running?)
    && (forall i :: 0 <= i < n && (s.stages[i].Await? || s.stages[i].Running?) ==> s.ues[i])
    && (forall i :: 0 <= i < n && s.stages[i].Await? ==>
          s.stages[i].ue <= n && forall u :: 0 <= u < s.stages[i].ue ==> s.ues[u])
    && (SomeoneRuns(n, s) ==> forall u :: 0 <= u < n ==> s.ues[u])
  }

  ghost predicate FlagsMeanData(n: nat, s: State)
    requires Shaped(n, s)
  {
    && !s.erased
    && if SomeoneRuns(n, s) then
         s.full == s.posted && s.chunks == s.postedChunks
       else
         && s.posted == {} && s.postedChunks == {}
         && (forall e :: e in s.full ==> InMatrix(n, e) && s.stages[e.row].Zero? && s.stages[e.row].core <= e.column)
         && (forall ch :: ch in s.chunks ==> ch < n && Early(s.stages[ch]))
  }

  lemma EarlyTurnKeepsInv(n: nat, s: State, i: nat)
    requires Shaped(n, s) && Handshake(n, s) && FlagsMeanData(n, s) && i < n && Early(s.stages[i])
    ensures Handshake(n, Advance(n, s, i)) && FlagsMeanData(n, Advance(n, s, i))
  {
    assert !s.ues[i] && !SomeoneRuns(n, s);
    assert forall k :: 0 <= k < n ==> !Advance(n, s, i).stages[k].Running?;
  }

  /** When all processes have raised their flags and nobody runs yet, nothing is announced anywhere. */
  lemma AllMarkedMeansEmpty(n: nat, s: State)
    requires Shaped(n, s) && FlagsMeanData(n, s) && !SomeoneRuns(n, s)
    requires forall u :: 0 <= u < n ==> !Early(s.stages[u])
    ensures s.full == {} && s.chunks == {}
  {
    assert forall e :: e in s.full ==> s.stages[e.row].Zero?;
  }

  lemma MarkKeepsHandshake(n: nat, s: State, i: nat)
    requires Shaped(n, s) && Handshake(n, s) && i < n && s.stages[i].Mark?
    ensures Handshake(n, Advance(n, s, i))
  {
    assert !s.ues[i] && !SomeoneRuns(n, s);
    assert forall k :: 0 <= k < n ==> !Advance(n, s, i).stages[k].Running?;
  }

  lemma AwaitKeepsHandshake(n: nat, s: State, i: nat)
    requires Shaped(n, s) && Handshake(n, s) && i < n && s.stages[i].Await?
    ensures Handshake(n, Advance(n, s, i))
  {
    var t := Advance(n, s, i);
    if k :| 0 <= k < n && s.stages[k].Running? {
      assert t.stages[k].Running?;
    }
  }

  lemma LateTurnKeepsHandshake(n: nat, s: State, i: nat)
    requires Shaped(n, s) && Handshake(n, s) && i < n && !Early(s.stages[i])
    ensures Handshake(n, Advance(n, s, i))
    ensures SomeoneRuns(n, s) ==> SomeoneRuns(n, Advance(n, s, i))
  {
    if s.stages[i].Mark? {
      MarkKeepsHandshake(n, s, i);
    } else if s.stages[i].Await? {
      AwaitKeepsHandshake(n, s, i);
    }
    if k :| 0 <= k < n && s.stages[k].Running? {
      assert Advance(n, s, i).stages[k].Running?;
    }
  }

  lemma LateTurnKeepsFlags(n: nat, s: State, i: nat)
    requires Shaped(n, s) && Handshake(n, s) && FlagsMeanData(n, s) && i < n && !Early(s.stages[i])
    ensures FlagsMeanData(n, Advance(n, s, i))
  {
    var t := Advance(n, s, i);
    LateTurnKeepsHandshake(n, s, i);
    if !SomeoneRuns(n, s) && SomeoneRuns(n, t) {
      AllMarkedMeansEmpty(n, s);
    }
  }

  lemma StepKeepsInv(n: nat, s: State, act: Act)
    requires Shaped(n, s) && Handshake(n, s) && FlagsMeanData(n, s)
    ensures Handshake(n, Step(n, s, act)) && FlagsMeanData(n, Step(n, s, act))
  {
    if act.Turn? {
      if act.i < n {
        if Early(s.stages[act.i]) {
          EarlyTurnKeepsInv(n, s, act.i);
        } else {
          LateTurnKeepsHandshake(n, s, act.i);
          LateTurnKeepsFlags(n, s, act.i);
        }
      }
    } else {
      assert Step(n, s, act).stages == s.stages;
    }
  }

  lemma {:induction false} ReachableFlags(n: nat, stale: Stale, acts: seq<Act>)
    requires Possible(n, stale)
    ensures Handshake(n, Exec(n, stale, acts)) && FlagsMeanData(n, Exec(n, stale, acts))
  {
    if |acts| > 0 {
      ReachableFlags(n, stale, acts[..|acts| - 1]);
      StepKeepsInv(n, Exec(n, stale, acts[..|acts| - 1]), acts[|acts| - 1]);
    }
  }

  /**
   In every run of any number of processes the flag handshake alone keeps clearing and sending apart, and
   leaves nothing stale behind for those who run.
   */
  lemma NothingErasedNothingStale(n: nat, stale: Stale, acts: seq<Act>)
    requires Possible(n, stale)
    ensures var s := Exec(n, stale, acts);
            && !s.erased
            && (SomeoneRuns(n, s) ==> s.full == s.posted && s.chunks == s.postedChunks)
  {
    ReachableFlags(n, stale, acts);
  }

  /** In every run, while somebody is not through some process can get on. */
  lemma NeverStuck(n: nat, stale: Stale, acts: seq<Act>, i: nat) returns (j: nat)
    requires Possible(n, stale) && i < n && !Exec(n, stale, acts).stages[i].Running?
    ensures j < n && Advance(n, Exec(n, stale, acts), j) != Exec(n, stale, acts)
  {
    var s := Exec(n, stale, acts);
    j := if s.stages[i].Await? && s.stages[i].ue < n && !s.ues[s.stages[i].ue] then s.stages[i].ue else i;
    ReachableFlags(n, stale, acts);
    assert Advance(n, s, j).stages[j] != s.stages[j];
  }

  /** Turns a process has left, spins not counted. */
  function Rank(n: nat, stage: Stage): int {
    match stage
    case Zero(core) => n - core + n + 4
    case ZeroChunk => n + 3
    case Mark => n + 2
    case Await(ue) => n - ue + 1
    case Running => 0
  }

  predicate Counting(n: nat, stage: Stage) {
    (stage.Zero? ==> stage.core <= n) && (stage.Await? ==> stage.ue <= n)
  }

  function Ranks(n: nat, s: State): (xs: seq<int>)
    requires Shaped(n, s)
    ensures |xs| == n
    ensures forall i :: 0 <= i < n ==> xs[i] == Rank(n, s.stages[i])
  {
    seq(n, i requires 0 <= i < n => Rank(n, s.stages[i]))
  }

  ghost predicate AllCounting(n: nat, s: State)
    requires Shaped(n, s)
  {
    forall i :: 0 <= i < n ==> Counting(n, s.stages[i])
  }

  lemma AdvanceCounts(n: nat, s: State, i: nat)
    requires Shaped(n, s) && i < n && Counting(n, s.stages[i])
    ensures var t := Advance(n, s, i);
            && t.stages == s.stages[i := t.stages[i]] && Counting(n, t.stages[i])
            && 0 <= Rank(n, t.stages[i]) && (t == s || Rank(n, t.stages[i]) < Rank(n, s.stages[i]))
  {
  }

  lemma {:induction false} ReachableCounting(n: nat, stale: Stale, acts: seq<Act>)
    ensures AllCounting(n, Exec(n, stale, acts))
  {
    if |acts| > 0 {
      var s, act := Exec(n, stale, acts[..|acts| - 1]), acts[|acts| - 1];
      ReachableCounting(n, stale, acts[..|acts| - 1]);
      if act.Turn? && act.i < n {
        AdvanceCounts(n, s, act.i);
      } else {
        assert Step(n, s, act).stages == s.stages;
      }
    }
  }

  lemma TurnUsesRank(n: nat, s: State, i: nat)
    requires Shaped(n, s) && AllCounting(n, s) && i < n && Advance(n, s, i) != s
    ensures Sum(Ranks(n, Advance(n, s, i))) < Sum(Ranks(n, s))
  {
    var t := Advance(n, s, i);
    AdvanceCounts(n, s, i);
    assert Ranks(n, t) == Ranks(n, s)[i := Rank(n, t.stages[i])];
    SumUpdate(Ranks(n, s), i, Rank(n, t.stages[i]));
  }

  ghost predicate AllRun(n: nat, s: State)
    requires Shaped(n, s)
  {
    forall i :: 0 <= i < n ==> s.stages[i].Running?
  }

  lemma TurnIsNearer(n: nat, stale: Stale, acts: seq<Act>, j: nat)
    requires j < n && Advance(n, Exec(n, stale, acts), j) != Exec(n, stale, acts)
    ensures 0 <= Sum(Ranks(n, Exec(n, stale, acts + [Turn(j)]))) < Sum(Ranks(n, Exec(n, stale, acts)))
  {
    assert (acts + [Turn(j)])[..|acts|] == acts;
    ReachableCounting(n, stale, acts);
    TurnUsesRank(n, Exec(n, stale, acts), j);
    RanksNonNegative(n, stale, acts + [Turn(j)]);
  }

  lemma RanksNonNegative(n: nat, stale: Stale, acts: seq<Act>)
    ensures Sum(Ranks(n, Exec(n, stale, acts))) >= 0
  {
    ReachableCounting(n, stale, acts);
    SumNonNegative(Ranks(n, Exec(n, stale, acts)));
  }

  lemma OneTurnNearer(n: nat, stale: Stale, acts: seq<Act>) returns (j: nat)
    requires Possible(n, stale) && !AllRun(n, Exec(n, stale, acts))
    ensures 0 <= Sum(Ranks(n, Exec(n, stale, acts + [Turn(j)]))) < Sum(Ranks(n, Exec(n, stale, acts)))
  {
    var i :| 0 <= i < n && !Exec(n, stale, acts).stages[i].Running?;
    j := NeverStuck(n, stale, acts, i);
    TurnIsNearer(n, stale, acts, j);
  }

  /** Every run of any number of processes can be continued until all are through start-up. */
  lemma {:induction false} EveryRunGetsThrough(n: nat, stale: Stale, acts: seq<Act>) returns (rest: seq<Act>)
    requires Possible(n, stale)
    ensures AllRun(n, Exec(n, stale, acts + rest))
    decreases Sum(Ranks(n, Exec(n, stale, acts)))
  {
    if AllRun(n, Exec(n, stale, acts)) {
      rest := [];
      assert acts + [] == acts;
    } else {
      var j := OneTurnNearer(n, stale, acts);
      var more := EveryRunGetsThrough(n, stale, acts + [Turn(j)]);
      Regroup(acts, Turn(j), more);
      rest := [Turn(j)] + more;
    }
  }
}
