/**
 Messages larger than a slot: they are cut into chunks that go one at a time through the sender's chunk
 buffer, whose last byte is at the same time the last byte of a full chunk and the flag. The size `k` of
 the buffer, flag included, is 8192 bytes or, on one SPARC variant, 1024; all results are for any size.

 Copies are byte by byte. With `fused` set, the copy of a full chunk and the flag store behind it count
 as one step, on either side; chunks shorter than the buffer are copied byte by byte in any case.
 */
module BigMessage {
  import opened Common
  import Arith

  type Byte = b: int | 0 <= b < 256

  type Data = seq<Byte>

  // ---------------------------------------------------------------- cutting and joining

  /** Full chunks as long as they last, then what is left over, if anything. */
  function Split(k: nat, data: Data): (chunks: seq<Data>)
    requires k > 0
    ensures forall i :: 0 <= i < |chunks| ==> 0 < |chunks[i]| <= k
  {
    if |data| == 0 then []
    else if |data| < k then [data]
    else [data[..k]] + Split(k, data[k..])
  }

  function Join(chunks: seq<Data>): Data {
    if |chunks| == 0 then [] else chunks[0] + Join(chunks[1..])
  }

  lemma {:induction false} JoinSplit(k: nat, data: Data)
    requires k > 0
    ensures Join(Split(k, data)) == data
    decreases |data|
  {
    if |data| >= k {
      JoinSplit(k, data[k..]);
      assert ([data[..k]] + Split(k, data[k..]))[1..] == Split(k, data[k..]);
      assert data == data[..k] + data[k..];
    } else if |data| > 0 {
      assert [data][1..] == [];
    }
  }

  /** All pieces of a message but the last are full, which with JoinSplit leaves no choice how to cut it. */
  lemma {:induction false} SplitShape(k: nat, data: Data)
    requires k > 0
    ensures forall i :: 0 <= i < |Split(k, data)| - 1 ==> |Split(k, data)[i]| == k
    decreases |data|
  {
    if |data| >= k {
      SplitShape(k, data[k..]);
    }
  }

  lemma CutFull(k: nat, chunks: seq<Data>, rest: Data)
    requires 0 < k <= |rest|
    ensures chunks + [rest[..k]] + Split(k, rest[k..]) == chunks + Split(k, rest)
  {
    assert Split(k, rest) == [rest[..k]] + Split(k, rest[k..]);
  }

  /** The sender's loop over a message: the pieces it puts into the buffer, in order. */
  method CutLoop(k: nat, data: Data) returns (chunks: seq<Data>)
    requires k > 0
    ensures chunks == Split(k, data)
  {
    var lastChunk, numChunks := |data| % k, |data| / k;
    var rest := data;
    chunks := [];
    while numChunks > 0
      invariant numChunks >= 0 && |rest| == numChunks * k + lastChunk && lastChunk < k
      invariant chunks + Split(k, rest) == Split(k, data)
    {
      Arith.OneChunkLess(|rest|, numChunks, k, lastChunk);
      CutFull(k, chunks, rest);
      chunks := chunks + [rest[..k]];
      rest := rest[k..];
      numChunks := numChunks - 1;
    }
    if lastChunk == 0 {
      return;
    }
    chunks := chunks + [rest];
  }

  // ---------------------------------------------------------------- the concurrent transfer

  /** The pieces to be transferred; the receiver knows their lengths. */
  datatype Config = Config(k: nat, fused: bool, chunks: seq<Data>)

  ghost predicate Sound(c: Config) {
    c.k > 0 && forall i :: 0 <= i < |c.chunks| ==> 0 < |c.chunks[i]| <= c.k
  }

  datatype Sender = SPoll | SCopy(done: nat)

  datatype Receiver = RPoll | RCopy(acc: Data)

  /** The buffer, the number of pieces sent (flag stored), and the pieces received. */
  datatype State = State(buf: Data, sent: nat, snd: Sender, got: seq<Data>, rcv: Receiver)

  datatype Act = SendTurn | ReceiveTurn

  predicate Shaped(c: Config, s: State) {
    |s.buf| == c.k > 0
  }

  predicate Flagged(c: Config, s: State)
    requires Shaped(c, s)
  {
    s.buf[c.k - 1] != 0
  }

  function Init(c: Config, junk: Data): (s: State)
    requires c.k > 0 && |junk| == c.k
    ensures Shaped(c, s)
  {
    State(junk[c.k - 1 := 0], 0, SPoll, [], RPoll)
  }

  function SendStep(c: Config, s: State): (t: State)
    requires Sound(c) && Shaped(c, s)
    ensures Shaped(c, t)
  {
    if s.sent >= |c.chunks| then s
    else
      var piece := c.chunks[s.sent];
      match s.snd
      case SPoll => if Flagged(c, s) then s else s.(snd := SCopy(0))
      case SCopy(done) =>
        if c.fused && |piece| == c.k && done == 0 then
          s.(buf := piece[c.k - 1 := 1], snd := SPoll, sent := s.sent + 1)
        else if done < |piece| then
          s.(buf := s.buf[done := piece[done]], snd := SCopy(done + 1))
        else
          s.(buf := s.buf[c.k - 1 := 1], snd := SPoll, sent := s.sent + 1)
  }

  function ReceiveStep(c: Config, s: State): (t: State)
    requires Sound(c) && Shaped(c, s)
    ensures Shaped(c, t)
  {
    if |s.got| >= |c.chunks| then s
    else
      var length := |c.chunks[|s.got|]|;
      match s.rcv
      case RPoll => if Flagged(c, s) then s.(rcv := RCopy([])) else s
      case RCopy(acc) =>
        if c.fused && length == c.k && acc == [] then
          s.(buf := s.buf[c.k - 1 := 0], rcv := RPoll, got := s.got + [s.buf])
        else if |acc| < length then
          s.(rcv := RCopy(acc + [s.buf[|acc|]]))
        else
          s.(buf := s.buf[c.k - 1 := 0], rcv := RPoll, got := s.got + [acc])
  }

  function Step(c: Config, s: State, act: Act): (t: State)
    requires Sound(c) && Shaped(c, s)
    ensures Shaped(c, t)
  {
    if act == SendTurn then SendStep(c, s) else ReceiveStep(c, s)
  }

  function Exec(c: Config, s: State, acts: seq<Act>): (t: State)
    requires Sound(c) && Shaped(c, s)
    ensures Shaped(c, t)
  {
    if |acts| == 0 then s else Step(c, Exec(c, s, acts[..|acts| - 1]), acts[|acts| - 1])
  }

  /** How a piece arrives: the flag of a full one overwrites its last byte. */
  function Arrival(k: nat, piece: Data): (a: Data)
    requires k > 0
    ensures |a| == |piece|
  {
    if |piece| == k then piece[k - 1 := 1] else piece
  }

  /** A full piece may be copied byte by byte only if its last byte does not look like a raised flag. */
  predicate SafePiece(c: Config, piece: Data) {
    c.fused || |piece| < c.k || (|piece| == c.k > 0 && piece[c.k - 1] == 0)
  }

  ghost predicate Safe(c: Config) {
    forall i :: 0 <= i < |c.chunks| ==> SafePiece(c, c.chunks[i])
  }

  ghost predicate Inv(c: Config, s: State)
    requires Sound(c) && Shaped(c, s)
  {
    var r := |s.got|;
    && r <= s.sent <= r + 1 && s.sent <= |c.chunks|
    && (forall i :: 0 <= i < r ==> s.got[i] == Arrival(c.k, c.chunks[i]))
    && (s.sent == r ==>
          && s.rcv.RPoll? && s.buf[c.k - 1] == 0
          && (s.snd.SCopy? ==>
                && s.sent < |c.chunks| && s.snd.done <= |c.chunks[s.sent]|
                && (c.fused && |c.chunks[s.sent]| == c.k ==> s.snd.done == 0)
                && s.buf[..s.snd.done] == c.chunks[s.sent][..s.snd.done]))
    && (s.sent == r + 1 ==>
          && s.snd.SPoll? && s.buf[c.k - 1] == 1
          && s.buf[..|c.chunks[r]|] == Arrival(c.k, c.chunks[r])
          && (s.rcv.RCopy? ==> |s.rcv.acc| <= |c.chunks[r]| && s.rcv.acc == s.buf[..|s.rcv.acc|]))
  }

  lemma SendKeepsInv(c: Config, s: State)
    requires Sound(c) && Safe(c) && Shaped(c, s) && Inv(c, s)
    ensures Inv(c, SendStep(c, s))
  {
    if s.sent < |c.chunks| && s.snd.SCopy? {
      var piece, done := c.chunks[s.sent], s.snd.done;
      var t := SendStep(c, s);
      assert SafePiece(c, piece);
      if done < |piece| {
        assert piece[..done + 1] == piece[..done] + [piece[done]];
        assert s.buf[done := piece[done]][..done] == s.buf[..done];
      } else {
        assert s.buf[..|piece|] == piece;
        if |piece| == c.k {
          assert s.buf == piece;
        }
      }
    }
  }

  lemma ReceiveKeepsInv(c: Config, s: State)
    requires Sound(c) && Shaped(c, s) && Inv(c, s)
    ensures Inv(c, ReceiveStep(c, s))
  {
    if |s.got| < |c.chunks| && s.rcv.RCopy? {
      var acc, length := s.rcv.acc, |c.chunks[|s.got|]|;
      if |acc| < length {
        assert s.buf[..|acc| + 1] == s.buf[..|acc|] + [s.buf[|acc|]];
      }
      if length == c.k {
        assert s.buf[..c.k] == s.buf;
      }
    }
  }

  lemma {:induction false} ReachableInv(c: Config, junk: Data, acts: seq<Act>)
    requires Sound(c) && Safe(c) && |junk| == c.k
    ensures Inv(c, Exec(c, Init(c, junk), acts))
  {
    if |acts| > 0 {
      ReachableInv(c, junk, acts[..|acts| - 1]);
      SendKeepsInv(c, Exec(c, Init(c, junk), acts[..|acts| - 1]));
      ReceiveKeepsInv(c, Exec(c, Init(c, junk), acts[..|acts| - 1]));
    }
  }

  /**
   In every run of a safe transfer, byte by byte, the pieces arrive complete and in order, each with the
   flag in place of the last byte if it is a full one, and the flag is up exactly while a sent piece
   has not been received.
   */
  lemma PiecesArrive(c: Config, junk: Data, acts: seq<Act>)
    requires Sound(c) && Safe(c) && |junk| == c.k
    ensures var s := Exec(c, Init(c, junk), acts);
            && |s.got| <= s.sent <= |s.got| + 1 && s.sent <= |c.chunks|
            && (forall i :: 0 <= i < |s.got| ==> s.got[i] == Arrival(c.k, c.chunks[i]))
            && (Flagged(c, s) <==> s.sent == |s.got| + 1)
  {
    ReachableInv(c, junk, acts);
  }

  // ---------------------------------------------------------------- the pieces get in

  /** Who has to move for the next piece to get in. */
  function Mover(s: State): Act {
    if s.sent == |s.got| then SendTurn else ReceiveTurn
  }

  /** Steps that one needs before the other's turn comes, or the piece is in. */
  function StepsLeft(c: Config, s: State): int {
    if s.sent == |s.got| then
      (if s.snd.SPoll? then c.k + 2 else c.k + 1 - s.snd.done)
    else
      (if s.rcv.RPoll? then c.k + 2 else c.k + 1 - |s.rcv.acc|)
  }

  /** An upper bound on the steps of both sides that are not polls in vain. */
  function Work(c: Config, s: State): int {
    (2 * |c.chunks| - |s.got| - s.sent) * (c.k + 3) + StepsLeft(c, s)
  }

  /** Work falls when a count moves on, and when it stands still while fewer steps are left. */
  lemma WorkFalls(c: Config, s: State, t: State)
    requires c.k > 0 && 0 <= StepsLeft(c, t) <= c.k + 2 && 0 <= StepsLeft(c, s)
    requires || |t.got| + t.sent == |s.got| + s.sent + 1
             || (|t.got| + t.sent == |s.got| + s.sent && StepsLeft(c, t) < StepsLeft(c, s))
    ensures Work(c, t) < Work(c, s)
  {
    if |t.got| + t.sent == |s.got| + s.sent + 1 {
      Arith.OutweighedBy(2 * |c.chunks| - |s.got| - s.sent, 2 * |c.chunks| - |t.got| - t.sent, c.k + 3,
                         StepsLeft(c, s), StepsLeft(c, t));
    }
  }

  lemma WorkNonNegative(c: Config, s: State)
    requires Sound(c) && Shaped(c, s) && Inv(c, s)
    ensures 0 <= StepsLeft(c, s) <= c.k + 2 && Work(c, s) >= 0
  {
    Arith.Multiple(2 * |c.chunks| - |s.got| - s.sent, c.k + 3);
  }

  /**
   Each step of a safe transfer is a poll in vain or uses up work; while pieces are missing the mover's is no
   poll in vain.
   */
  lemma StepUsesWork(c: Config, s: State, act: Act)
    requires Sound(c) && Safe(c) && Shaped(c, s) && Inv(c, s)
    ensures Step(c, s, act) == s || Work(c, Step(c, s, act)) < Work(c, s)
    ensures act == Mover(s) && |s.got| < |c.chunks| ==> Step(c, s, act) != s
  {
    var t := Step(c, s, act);
    SendKeepsInv(c, s);
    ReceiveKeepsInv(c, s);
    WorkNonNegative(c, s);
    WorkNonNegative(c, t);
    if t != s {
      if act == SendTurn {
        SendMoves(c, s);
      } else {
        ReceiveMoves(c, s);
      }
      WorkFalls(c, s, t);
    }
  }

  /** A step of the sender that is not a poll in vain. */
  lemma SendMoves(c: Config, s: State)
    requires Sound(c) && Shaped(c, s) && Inv(c, s) && SendStep(c, s) != s
    ensures var t := SendStep(c, s);
            && t.got == s.got
            && (t.sent == s.sent + 1 || (t.sent == s.sent && StepsLeft(c, t) < StepsLeft(c, s)))
  {
  }

  lemma ReceiveMoves(c: Config, s: State)
    requires Sound(c) && Shaped(c, s) && Inv(c, s) && ReceiveStep(c, s) != s
    ensures var t := ReceiveStep(c, s);
            && t.sent == s.sent
            && (|t.got| == |s.got| + 1 || (|t.got| == |s.got| && StepsLeft(c, t) < StepsLeft(c, s)))
  {
  }

  /** In every run of a safe transfer with pieces missing, one of the two can take a step that is no poll in vain. */
  lemma NeverStuck(c: Config, junk: Data, acts: seq<Act>)
    requires Sound(c) && Safe(c) && |junk| == c.k && |Exec(c, Init(c, junk), acts).got| < |c.chunks|
    ensures var s := Exec(c, Init(c, junk), acts); SendStep(c, s) != s || ReceiveStep(c, s) != s
  {
    ReachableInv(c, junk, acts);
    StepUsesWork(c, Exec(c, Init(c, junk), acts), Mover(Exec(c, Init(c, junk), acts)));
  }

  /** Steps of a run that are not polls in vain. */
  function RealSteps(c: Config, junk: Data, acts: seq<Act>): nat
    requires Sound(c) && |junk| == c.k
  {
    if |acts| == 0 then 0
    else
      var before := acts[..|acts| - 1];
      RealSteps(c, junk, before)
      + if Exec(c, Init(c, junk), acts) != Exec(c, Init(c, junk), before) then 1 else 0
  }

  /** No run of a safe transfer, however long, contains more of them than the work there is at the start. */
  lemma {:induction false} RealStepsAreBounded(c: Config, junk: Data, acts: seq<Act>)
    requires Sound(c) && Safe(c) && |junk| == c.k
    ensures RealSteps(c, junk, acts) + Work(c, Exec(c, Init(c, junk), acts)) <= Work(c, Init(c, junk))
    ensures RealSteps(c, junk, acts) <= Work(c, Init(c, junk))
  {
    ReachableInv(c, junk, acts);
    WorkNonNegative(c, Exec(c, Init(c, junk), acts));
    if |acts| > 0 {
      var before := acts[..|acts| - 1];
      RealStepsAreBounded(c, junk, before);
      ReachableInv(c, junk, before);
      StepUsesWork(c, Exec(c, Init(c, junk), before), acts[|acts| - 1]);
    }
  }

  lemma OneMoreStep(c: Config, junk: Data, acts: seq<Act>, act: Act)
    requires Sound(c) && Safe(c) && |junk| == c.k
    requires Step(c, Exec(c, Init(c, junk), acts), act) != Exec(c, Init(c, junk), acts)
    ensures RealSteps(c, junk, acts) < RealSteps(c, junk, acts + [act]) <= Work(c, Init(c, junk))
  {
    assert (acts + [act])[..|acts|] == acts;
    RealStepsAreBounded(c, junk, acts + [act]);
  }

  /** Every run of a safe transfer can be continued until all pieces have arrived as they should. */
  lemma {:induction false} EveryRunCompletes(c: Config, junk: Data, acts: seq<Act>) returns (rest: seq<Act>)
    requires Sound(c) && Safe(c) && |junk| == c.k
    ensures Exec(c, Init(c, junk), acts + rest).got == Arrivals(c.k, c.chunks)
    decreases Work(c, Init(c, junk)) - RealSteps(c, junk, acts)
  {
    var s := Exec(c, Init(c, junk), acts);
    ReachableInv(c, junk, acts);
    if |s.got| < |c.chunks| {
      StepUsesWork(c, s, Mover(s));
      OneMoreStep(c, junk, acts, Mover(s));
      var more := EveryRunCompletes(c, junk, acts + [Mover(s)]);
      Regroup(acts, Mover(s), more);
      rest := [Mover(s)] + more;
    } else {
      rest := [];
      assert acts + [] == acts;
      assert s.got == Arrivals(c.k, c.chunks);
    }
  }

  // ---------------------------------------------------------------- what arrives of a message

  /** A message with every k-th byte replaced by the flag. */
  function Marked(k: nat, data: Data): (m: Data)
    requires k > 0
    ensures |m| == |data|
    ensures forall p :: 0 <= p < |data| ==> m[p] == if p % k == k - 1 then 1 else data[p]
  {
    seq(|data|, p requires 0 <= p < |data| => if p % k == k - 1 then 1 else data[p])
  }

  function Arrivals(k: nat, chunks: seq<Data>): (a: seq<Data>)
    requires k > 0
    ensures |a| == |chunks| && forall i :: 0 <= i < |a| ==> a[i] == Arrival(k, chunks[i])
  {
    seq(|chunks|, i requires 0 <= i < |chunks| => Arrival(k, chunks[i]))
  }

  lemma {:induction false} JoinedArrivals(k: nat, data: Data)
    requires k > 0
    ensures Join(Arrivals(k, Split(k, data))) == Marked(k, data)
    decreases |data|
  {
    var chunks := Split(k, data);
    if |data| == 0 {
    } else if |data| < k {
      assert Arrivals(k, chunks) == [data] && [data][1..] == [];
      ShortIsUnmarked(k, data);
    } else {
      JoinedArrivals(k, data[k..]);
      assert chunks[1..] == Split(k, data[k..]);
      assert Arrivals(k, chunks)[1..] == Arrivals(k, chunks[1..]);
      MarkedChunk(k, data);
    }
  }

  lemma MarkedChunk(k: nat, data: Data)
    requires 0 < k <= |data|
    ensures Marked(k, data) == Arrival(k, data[..k]) + Marked(k, data[k..])
  {
    var right := Arrival(k, data[..k]) + Marked(k, data[k..]);
    forall p | 0 <= p < |data|
      ensures Marked(k, data)[p] == right[p]
    {
      if p < k {
        Arith.ModUnique(p, k, 0, p);
      } else {
        var q, r := (p - k) / k, (p - k) % k;
        assert p - k == q * k + r;
        Arith.ModUnique(p, k, q + 1, r);
      }
    }
  }

  /** A receiver that has put together `data` still needs the pieces of `rest`, from number `next` on. */
  ghost predicate Joining(k: nat, msg: Data, data: Data, rest: Data, next: nat)
    requires k > 0
  {
    && next <= |Split(k, msg)| && Split(k, msg)[next..] == Split(k, rest)
    && data + Marked(k, rest) == Marked(k, msg)
  }

  lemma JoinFull(k: nat, msg: Data, data: Data, rest: Data, next: nat)
    requires 0 < k <= |rest| && Joining(k, msg, data, rest, next)
    ensures next < |Split(k, msg)| && Split(k, msg)[next] == rest[..k]
    ensures Joining(k, msg, data + Arrival(k, rest[..k]), rest[k..], next + 1)
  {
    assert Split(k, rest) == [rest[..k]] + Split(k, rest[k..]);
    assert Split(k, msg)[next] == Split(k, rest)[0];
    assert Split(k, msg)[next + 1..] == Split(k, rest)[1..] == Split(k, rest[k..]);
    MarkedChunk(k, rest);
    assert data + (Arrival(k, rest[..k]) + Marked(k, rest[k..])) == data + Arrival(k, rest[..k]) + Marked(k, rest[k..]);
  }

  lemma JoinLast(k: nat, msg: Data, data: Data, rest: Data, next: nat)
    requires |rest| < k && Joining(k, msg, data, rest, next)
    ensures data + rest == Marked(k, msg)
    ensures |rest| > 0 ==> next < |Split(k, msg)| && Split(k, msg)[next] == rest
  {
    ShortIsUnmarked(k, rest);
    if |rest| > 0 {
      assert Split(k, msg)[next] == Split(k, rest)[0];
    }
  }

  /**
   The receiver's loop, which works out the number of full chunks and the length of the last one by itself:
   from buffers that hold the pieces of a message as they arrive it puts together the marked message.
   */
  method JoinLoop(k: nat, length: nat, buffers: seq<Data>, ghost msg: Data) returns (data: Data)
    requires k > 0 && |msg| == length && |buffers| == |Split(k, msg)|
    requires forall i :: 0 <= i < |buffers| ==>
               |Split(k, msg)[i]| <= |buffers[i]| == k
               && buffers[i][..|Split(k, msg)[i]|] == Arrival(k, Split(k, msg)[i])
    ensures data == Marked(k, msg)
  {
    var lastChunk, numChunks := length % k, length / k;
    var next := 0;
    ghost var rest := msg;
    data := [];
    while numChunks > 0
      invariant numChunks >= 0 && |rest| == numChunks * k + lastChunk && lastChunk < k
      invariant Joining(k, msg, data, rest, next)
    {
      Arith.OneChunkLess(|rest|, numChunks, k, lastChunk);
      JoinFull(k, msg, data, rest, next);
      data := data + buffers[next][..k];
      rest := rest[k..];
      next := next + 1;
      numChunks := numChunks - 1;
    }
    JoinLast(k, msg, data, rest, next);
    if lastChunk == 0 {
      assert data + rest == data;
      return;
    }
    data := data + buffers[next][..lastChunk];
  }

  lemma ShortIsUnmarked(k: nat, data: Data)
    requires |data| < k
    ensures Marked(k, data) == data
  {
    forall p | 0 <= p < |data|
      ensures p % k != k - 1
    {
      Arith.ModUnique(p, k, 0, p);
    }
  }

  /** The pieces of a sequence of messages. */
  function AllPieces(k: nat, msgs: seq<Data>): (chunks: seq<Data>)
    requires k > 0
    ensures forall i :: 0 <= i < |chunks| ==> 0 < |chunks[i]| <= k
  {
    if |msgs| == 0 then [] else AllPieces(k, msgs[..|msgs| - 1]) + Split(k, msgs[|msgs| - 1])
  }

  lemma {:induction false} PiecesOf(k: nat, msgs: seq<Data>, m: nat)
    requires k > 0 && m < |msgs|
    ensures var lo := |AllPieces(k, msgs[..m])|;
            var n := |Split(k, msgs[m])|;
            lo + n <= |AllPieces(k, msgs)| && AllPieces(k, msgs)[lo..lo + n] == Split(k, msgs[m])
  {
    var last := |msgs| - 1;
    if m < last {
      PiecesOf(k, msgs[..last], m);
      assert msgs[..last][..m] == msgs[..m];
      var lo, n := |AllPieces(k, msgs[..m])|, |Split(k, msgs[m])|;
      SliceOfFirst(AllPieces(k, msgs[..last]), Split(k, msgs[last]), lo, lo + n);
    } else {
      SliceOfSecond(AllPieces(k, msgs[..last]), Split(k, msgs[last]));
    }
  }

  lemma SliceOfFirst(a: seq<Data>, b: seq<Data>, lo: nat, hi: nat)
    requires lo <= hi <= |a|
    ensures (a + b)[lo..hi] == a[lo..hi]
  {
  }

  lemma SliceOfSecond(a: seq<Data>, b: seq<Data>)
    ensures (a + b)[|a|..|a| + |b|] == b
  {
  }

  /**
   Over any sequence of messages to one receiver, in every run of a safe transfer: once its pieces are
   in, the m-th message has arrived byte for byte except that every k-th byte reads 1.
   */
  lemma MessageArrives(c: Config, junk: Data, acts: seq<Act>, msgs: seq<Data>, m: nat)
    requires Sound(c) && Safe(c) && |junk| == c.k && c.chunks == AllPieces(c.k, msgs) && m < |msgs|
    ensures var s := Exec(c, Init(c, junk), acts);
            var lo := |AllPieces(c.k, msgs[..m])|;
            var n := |Split(c.k, msgs[m])|;
            lo + n <= |s.got| ==> Join(s.got[lo..lo + n]) == Marked(c.k, msgs[m])
  {
    ReachableInv(c, junk, acts);
    MessageFromInv(c, Exec(c, Init(c, junk), acts), msgs, m);
  }

  lemma MessageFromInv(c: Config, s: State, msgs: seq<Data>, m: nat)
    requires Sound(c) && Shaped(c, s) && Inv(c, s) && c.chunks == AllPieces(c.k, msgs) && m < |msgs|
    ensures var lo := |AllPieces(c.k, msgs[..m])|;
            var n := |Split(c.k, msgs[m])|;
            lo + n <= |s.got| ==> Join(s.got[lo..lo + n]) == Marked(c.k, msgs[m])
  {
    MessageOfPieces(c.k, msgs, m, s.got);
  }

  /** Reading a message off the pieces received so far. */
  lemma MessageOfPieces(k: nat, msgs: seq<Data>, m: nat, got: seq<Data>)
    requires k > 0 && m < |msgs| && |got| <= |AllPieces(k, msgs)|
    requires forall i :: 0 <= i < |got| ==> got[i] == Arrival(k, AllPieces(k, msgs)[i])
    ensures var lo := |AllPieces(k, msgs[..m])|;
            var n := |Split(k, msgs[m])|;
            lo + n <= |got| ==> Join(got[lo..lo + n]) == Marked(k, msgs[m])
  {
    var lo, n := |AllPieces(k, msgs[..m])|, |Split(k, msgs[m])|;
    if lo + n <= |got| {
      PiecesOf(k, msgs, m);
      JoinedArrivals(k, msgs[m]);
      SliceOfArrivals(k, AllPieces(k, msgs), got, lo, lo + n);
    }
  }

  lemma SliceOfArrivals(k: nat, chunks: seq<Data>, got: seq<Data>, lo: nat, hi: nat)
    requires k > 0 && lo <= hi <= |got| <= |chunks|
    requires forall i :: 0 <= i < |got| ==> got[i] == Arrival(k, chunks[i])
    ensures got[lo..hi] == Arrivals(k, chunks[lo..hi])
  {
  }

  /**
   In every run of a safe transfer a message, once its pieces are in, has arrived exactly as sent if and
   only if every k-th byte of it is 1.
   */
  lemma ExactIffFlagBytes(c: Config, junk: Data, acts: seq<Act>, msgs: seq<Data>, m: nat)
    requires Sound(c) && Safe(c) && |junk| == c.k && c.chunks == AllPieces(c.k, msgs) && m < |msgs|
    ensures var s := Exec(c, Init(c, junk), acts);
            var lo := |AllPieces(c.k, msgs[..m])|;
            var n := |Split(c.k, msgs[m])|;
            lo + n <= |s.got| ==>
              (Join(s.got[lo..lo + n]) == msgs[m] <==>
               forall p :: 0 <= p < |msgs[m]| && p % c.k == c.k - 1 ==> msgs[m][p] == 1)
  {
    MessageArrives(c, junk, acts, msgs, m);
    var data := msgs[m];
    if forall p :: 0 <= p < |data| && p % c.k == c.k - 1 ==> data[p] == 1 {
      assert Marked(c.k, data) == data;
    }
  }

  lemma {:induction false} ShortMessagesShortPieces(k: nat, msgs: seq<Data>)
    requires k > 0 && forall m :: 0 <= m < |msgs| ==> |msgs[m]| < k
    ensures forall i :: 0 <= i < |AllPieces(k, msgs)| ==> |AllPieces(k, msgs)[i]| < k
  {
    if |msgs| > 0 {
      ShortMessagesShortPieces(k, msgs[..|msgs| - 1]);
    }
  }

  /**
   Messages shorter than the buffer arrive exactly, any number of them one after the other, in every
   byte-level run, with nothing fused and no condition on their contents.
   */
  lemma ShortMessagesArriveExactly(c: Config, junk: Data, acts: seq<Act>, msgs: seq<Data>, m: nat)
    requires c.k > 0 && !c.fused && |junk| == c.k && c.chunks == AllPieces(c.k, msgs) && m < |msgs|
    requires forall l :: 0 <= l < |msgs| ==> |msgs[l]| < c.k
    ensures Sound(c)
    ensures var s := Exec(c, Init(c, junk), acts);
            var lo := |AllPieces(c.k, msgs[..m])|;
            var n := |Split(c.k, msgs[m])|;
            lo + n <= |s.got| ==> Join(s.got[lo..lo + n]) == msgs[m]
  {
    ShortMessagesShortPieces(c.k, msgs);
    MessageArrives(c, junk, acts, msgs, m);
    ShortIsUnmarked(c.k, msgs[m]);
  }

  // ---------------------------------------------------------------- an unsafe piece

  /** All that was sent has been received, nobody is in the middle of anything, and yet the flag is up. */
  ghost predicate Phantom(c: Config, s: State)
    requires Shaped(c, s)
  {
    s.snd.SPoll? && s.rcv.RPoll? && s.sent == |s.got| && Flagged(c, s)
  }

  function Turns(a: Act, n: nat): (acts: seq<Act>)
    ensures |acts| == n
  {
    seq(n, i => a)
  }

  lemma {:induction false} ExecConcat(c: Config, s: State, acts: seq<Act>, more: seq<Act>)
    requires Sound(c) && Shaped(c, s)
    ensures Exec(c, s, acts + more) == Exec(c, Exec(c, s, acts), more)
  {
    if |more| == 0 {
      assert acts + more == acts;
    } else {
      assert (acts + more)[..|acts + more| - 1] == acts + more[..|more| - 1];
      ExecConcat(c, s, acts, more[..|more| - 1]);
    }
  }

  lemma ExecAppend(c: Config, s: State, acts: seq<Act>, a: Act)
    requires Sound(c) && Shaped(c, s)
    ensures Exec(c, s, acts + [a]) == Step(c, Exec(c, s, acts), a)
  {
    assert (acts + [a])[..|acts|] == acts;
  }

  lemma ExecTurn(c: Config, s: State, a: Act, n: nat)
    requires Sound(c) && Shaped(c, s)
    ensures Exec(c, s, Turns(a, n + 1)) == Step(c, Exec(c, s, Turns(a, n)), a)
  {
    assert Turns(a, n + 1) == Turns(a, n) + [a];
    ExecAppend(c, s, Turns(a, n), a);
  }

  lemma SendByte(c: Config, s: State, n: nat)
    requires Sound(c) && !c.fused && Shaped(c, s) && s.sent < |c.chunks| && s.snd == SCopy(n) && n < |c.chunks[s.sent]|
    ensures SendStep(c, s) == s.(buf := s.buf[n := c.chunks[s.sent][n]], snd := SCopy(n + 1))
  {
  }

  lemma CopyByte(piece: Data, buf: Data, n: nat)
    requires n < |piece| <= |buf|
    ensures (piece[..n] + buf[n..])[n := piece[n]] == piece[..n + 1] + buf[n + 1..]
  {
  }

  /** The sender, finding the flag down, copies the first n bytes of its piece before anybody else moves. */
  lemma {:induction false} SenderCopies(c: Config, s: State, n: nat)
    requires Sound(c) && !c.fused && Shaped(c, s) && s.sent < |c.chunks| && n <= |c.chunks[s.sent]|
    requires s.snd.SPoll? && !Flagged(c, s)
    ensures Exec(c, s, Turns(SendTurn, n + 1)) == s.(buf := c.chunks[s.sent][..n] + s.buf[n..], snd := SCopy(n))
  {
    ExecTurn(c, s, SendTurn, n);
    if n == 0 {
      assert Exec(c, s, Turns(SendTurn, 0)) == s;
      assert c.chunks[s.sent][..0] + s.buf[0..] == s.buf;
    } else {
      SenderCopies(c, s, n - 1);
      SendByte(c, Exec(c, s, Turns(SendTurn, n)), n - 1);
      CopyByte(c.chunks[s.sent], s.buf, n - 1);
    }
  }

  /** The receiver, finding the flag up, copies the first n bytes of the buffer. */
  lemma {:induction false} ReceiverCopies(c: Config, s: State, n: nat)
    requires Sound(c) && !c.fused && Shaped(c, s) && |s.got| < |c.chunks| && n <= |c.chunks[|s.got|]|
    requires s.rcv.RPoll? && Flagged(c, s)
    ensures Exec(c, s, Turns(ReceiveTurn, n + 1)) == s.(rcv := RCopy(s.buf[..n]))
  {
    ExecTurn(c, s, ReceiveTurn, n);
    if n == 0 {
      assert Exec(c, s, Turns(ReceiveTurn, 0)) == s;
    } else {
      ReceiverCopies(c, s, n - 1);
      assert s.buf[..n] == s.buf[..n - 1] + [s.buf[n - 1]];
    }
  }

  /** An uninterrupted receive. */
  lemma WholeReceive(c: Config, s: State)
    requires Sound(c) && !c.fused && Shaped(c, s) && |s.got| < |c.chunks| && s.rcv.RPoll? && Flagged(c, s)
    ensures var length := |c.chunks[|s.got|]|;
            Exec(c, s, Turns(ReceiveTurn, length + 2))
            == s.(buf := s.buf[c.k - 1 := 0], got := s.got + [s.buf[..length]])
  {
    var length := |c.chunks[|s.got|]|;
    ReceiverCopies(c, s, length);
    ExecTurn(c, s, ReceiveTurn, length + 1);
  }

  /** An uninterrupted send leaves the flag up. */
  lemma WholeSend(c: Config, s: State)
    requires Sound(c) && !c.fused && Shaped(c, s) && s.sent < |c.chunks| && s.snd.SPoll? && !Flagged(c, s)
    ensures var t := Exec(c, s, Turns(SendTurn, |c.chunks[s.sent]| + 2));
            t == s.(buf := t.buf, sent := s.sent + 1) && Flagged(c, t)
  {
    SenderCopies(c, s, |c.chunks[s.sent]|);
    ExecTurn(c, s, SendTurn, |c.chunks[s.sent]| + 1);
  }

  /** Between two pieces: i of them are through, the flag is down, and nobody is in the middle of anything. */
  ghost predicate Quiet(c: Config, s: State, i: nat)
    requires Shaped(c, s)
  {
    s.snd.SPoll? && s.rcv.RPoll? && s.sent == |s.got| == i && !Flagged(c, s)
  }

  /** One piece sent and received without interruption, safe or not. */
  lemma Exchange(c: Config, s: State, i: nat) returns (acts: seq<Act>)
    requires Sound(c) && !c.fused && Shaped(c, s) && Quiet(c, s, i) && i < |c.chunks|
    ensures Quiet(c, Exec(c, s, acts), i + 1)
  {
    var send, receive := Turns(SendTurn, |c.chunks[i]| + 2), Turns(ReceiveTurn, |c.chunks[i]| + 2);
    WholeSend(c, s);
    WholeReceive(c, Exec(c, s, send));
    ExecConcat(c, s, send, receive);
    acts := send + receive;
  }

  /** Any number of pieces can be got through without a phantom. */
  lemma {:induction false} QuietReached(c: Config, junk: Data, i: nat) returns (acts: seq<Act>)
    requires Sound(c) && !c.fused && |junk| == c.k && i <= |c.chunks|
    ensures Quiet(c, Exec(c, Init(c, junk), acts), i)
  {
    if i == 0 {
      acts := [];
    } else {
      var before := QuietReached(c, junk, i - 1);
      var more := Exchange(c, Exec(c, Init(c, junk), before), i - 1);
      ExecConcat(c, Init(c, junk), before, more);
      acts := before + more;
    }
  }

  /** The run that goes wrong: the receiver is through with an unsafe piece before the sender has stored the flag. */
  lemma EarlyReceipt(c: Config, s: State, i: nat) returns (acts: seq<Act>)
    requires Sound(c) && !c.fused && Shaped(c, s) && Quiet(c, s, i) && i < |c.chunks| && !SafePiece(c, c.chunks[i])
    ensures Phantom(c, Exec(c, s, acts))
  {
    var copy, receive, store := Turns(SendTurn, c.k + 1), Turns(ReceiveTurn, c.k + 2), Turns(SendTurn, 1);
    SenderCopies(c, s, c.k);
    var t := Exec(c, s, copy);
    assert t.buf == c.chunks[i];
    WholeReceive(c, t);
    ExecTurn(c, Exec(c, t, receive), SendTurn, 0);
    ExecConcat(c, t, receive, store);
    ExecConcat(c, s, copy, receive + store);
    acts := copy + (receive + store);
  }

  ghost predicate NeverPhantom(c: Config)
    requires Sound(c)
  {
    forall junk: Data, acts: seq<Act> :: |junk| == c.k ==> !Phantom(c, Exec(c, Init(c, junk), acts))
  }

  lemma UnsafePieceHaunts(c: Config, i: nat)
    requires Sound(c) && i < |c.chunks| && !SafePiece(c, c.chunks[i])
    ensures !NeverPhantom(c)
  {
    var junk: Data := c.chunks[i];
    var before := QuietReached(c, junk, i);
    var more := EarlyReceipt(c, Exec(c, Init(c, junk), before), i);
    ExecConcat(c, Init(c, junk), before, more);
  }

  /**
   Any sequence of pieces can be transferred without leaving a phantom message behind in any run exactly
   if every piece is shorter than the buffer or ends in 0, or full pieces are copied in one step.
   */
  lemma PhantomFreeIffSafe(c: Config)
    requires Sound(c)
    ensures NeverPhantom(c) <==> Safe(c)
  {
    if Safe(c) {
      forall junk: Data, acts: seq<Act> | |junk| == c.k
        ensures !Phantom(c, Exec(c, Init(c, junk), acts))
      {
        PiecesArrive(c, junk, acts);
      }
    } else {
      var i :| 0 <= i < |c.chunks| && !SafePiece(c, c.chunks[i]);
      UnsafePieceHaunts(c, i);
    }
  }
}
