/**
 One slot: the cache line through which one fixed process sends to one fixed other process.

 Steps are single memory accesses: one test (or compare-and-swap) of the flag, the copy of one word,
 one store of the flag. Each send and each receive decides on its own whether it acquires the slot
 by polling or by a compare-and-swap through `Lockd`, so the two sides may disagree. The word that
 carries the flag counts as the flag store, which is the last access of a send.
 */
module Channel {

  /** A machine word, not interpreted. */
  newtype Word = w: int | 0 <= w < 0x1_0000_0000_0000_0000

  type Msg = seq<Word>

  datatype Flag = Empty | Messg | Lockd

  datatype Sender = Resting | Copying(msg: Msg, done: nat)

  datatype Receiver = Waiting | Fetching(buf: Msg)

  /** The slot, both parties, and the messages handed over and taken so far. */
  datatype Chan = Chan(words: Msg, flag: Flag, snd: Sender, rcv: Receiver, sent: seq<Msg>, got: seq<Msg>)

  datatype Act =
    | SendTry(msg: Msg, cas: bool)
    | SendStep
    | RecvTry(cas: bool)
    | RecvStep

  function Init(words: Msg): Chan {
    Chan(words, Empty, Resting, Waiting, [], [])
  }

  function Step(c: Chan, a: Act): Chan {
    match a
    case SendTry(msg, cas) =>
      if c.snd.Resting? && c.flag == Empty && |msg| == |c.words| then
        c.(flag := if cas then Lockd else Empty, snd := Copying(msg, 0))
      else c
    case SendStep =>
      if c.snd.Resting? then c
      else if c.snd.done < |c.words| && c.snd.done < |c.snd.msg| then
        c.(words := c.words[c.snd.done := c.snd.msg[c.snd.done]], snd := c.snd.(done := c.snd.done + 1))
      else
        c.(flag := Messg, snd := Resting, sent := c.sent + [c.snd.msg])
    case RecvTry(cas) =>
      if c.rcv.Waiting? && c.flag == Messg then
        c.(flag := if cas then Lockd else Messg, rcv := Fetching([]))
      else c
    case RecvStep =>
      if c.rcv.Waiting? then c
      else if |c.rcv.buf| < |c.words| then
        c.(rcv := Fetching(c.rcv.buf + [c.words[|c.rcv.buf|]]))
      else
        c.(flag := Empty, rcv := Waiting, got := c.got + [c.rcv.buf])
  }

  function Exec(c: Chan, acts: seq<Act>): Chan {
    if |acts| == 0 then c else Step(Exec(c, acts[..|acts| - 1]), acts[|acts| - 1])
  }

  // ---------------------------------------------------------------- the invariant

  /** The message handed over and not yet taken. */
  ghost function InFlight(c: Chan): seq<Msg> {
    if c.flag == Messg || c.rcv.Fetching? then [c.words] else []
  }

  ghost predicate Inv(c: Chan) {
    && c.sent == c.got + InFlight(c)
    && (c.snd.Copying? ==>
          && c.rcv.Waiting?
          && c.flag != Messg
          && |c.snd.msg| == |c.words|
          && c.snd.done <= |c.words|
          && c.words[..c.snd.done] == c.snd.msg[..c.snd.done])
    && (c.rcv.Fetching? ==>
          && c.flag != Empty
          && |c.rcv.buf| <= |c.words|
          && c.rcv.buf == c.words[..|c.rcv.buf|])
    && (c.flag == Lockd ==> c.snd.Copying? || c.rcv.Fetching?)
  }

  lemma StepKeepsInv(c: Chan, a: Act)
    requires Inv(c)
    ensures Inv(Step(c, a)) && |Step(c, a).words| == |c.words|
  {
    var d := Step(c, a);
    match a
    case SendTry(_, _) =>
    case RecvTry(_) =>
    case SendStep =>
      if c.snd.Copying? && c.snd.done < |c.words| {
        var k := c.snd.done;
        assert d.words[..k + 1] == c.words[..k] + [c.snd.msg[k]] == c.snd.msg[..k + 1];
      } else if c.snd.Copying? {
        assert c.words == c.words[..c.snd.done] == c.snd.msg;
      }
    case RecvStep =>
      if c.rcv.Fetching? && |c.rcv.buf| == |c.words| {
        assert c.rcv.buf == c.words;
      }
  }

  lemma {:induction false} ReachableInv(words: Msg, acts: seq<Act>)
    ensures Inv(Exec(Init(words), acts))
    ensures |Exec(Init(words), acts).words| == |words|
  {
    if |acts| > 0 {
      ReachableInv(words, acts[..|acts| - 1]);
      StepKeepsInv(Exec(Init(words), acts[..|acts| - 1]), acts[|acts| - 1]);
    }
  }

  /**
   Lossless, first in first out, at most one in flight, never torn: in every run, whatever mixture of
   polling and compare-and-swap the two sides use, what was sent is what was received followed by at
   most one message, and whenever the flag announces a message the slot holds exactly that message.
   */
  lemma LosslessFifo(words: Msg, acts: seq<Act>)
    ensures var c := Exec(Init(words), acts);
            && c.got <= c.sent
            && |c.sent| <= |c.got| + 1
            && (c.flag == Messg ==> |c.sent| == |c.got| + 1 && c.words == c.sent[|c.got|])
            && (c.flag == Empty ==> c.sent == c.got)
            && !(c.snd.Copying? && c.rcv.Fetching?)
  {
    ReachableInv(words, acts);
  }

  // ---------------------------------------------------------------- refinement of the one-place channel

  /** The channel a client sees: at most one message under way. */
  datatype OnePlace = OnePlace(slot: seq<Msg>, sent: seq<Msg>, got: seq<Msg>)

  ghost function Abstract(c: Chan): OnePlace {
    OnePlace(InFlight(c), c.sent, c.got)
  }

  ghost predicate Put(a: OnePlace, b: OnePlace, m: Msg) {
    a.slot == [] && b == OnePlace([m], a.sent + [m], a.got)
  }

  ghost predicate Take(a: OnePlace, b: OnePlace) {
    |a.slot| == 1 && b == OnePlace([], a.sent, a.got + a.slot)
  }

  /**
   Refinement: a step of the slot puts the sender's message into an empty one-place channel (at the
   flag store of a send), takes the message out of a full one (at the flag store of a receive), or
   is invisible.
   */
  lemma StepRefines(c: Chan, a: Act)
    requires Inv(c)
    ensures var (x, y) := (Abstract(c), Abstract(Step(c, a)));
            || x == y
            || (a.SendStep? && c.snd.Copying? && Put(x, y, c.snd.msg))
            || (a.RecvStep? && c.rcv.Fetching? && c.snd.Resting? && Take(x, y) && c.rcv.buf == x.slot[0])
  {
    StepKeepsInv(c, a);
    if a.SendStep? && c.snd.Copying? && c.snd.done == |c.words| {
      assert c.words[..|c.words|] == c.words && c.snd.msg[..|c.words|] == c.snd.msg;
    }
    if a.RecvStep? && c.rcv.Fetching? && |c.rcv.buf| == |c.words| {
      assert c.words[..|c.words|] == c.words;
    }
  }

  /** The same access n times. */
  function Times(a: Act, n: nat): (acts: seq<Act>)
    ensures |acts| == n
  {
    if n == 0 then [] else Times(a, n - 1) + [a]
  }

  /** An uninterrupted send: the acquiring test, the words in ascending order, the flag. */
  function SendRun(width: nat, msg: Msg, cas: bool): seq<Act> {
    [SendTry(msg, cas)] + Times(SendStep, width + 1)
  }

  function RecvRun(width: nat, cas: bool): seq<Act> {
    [RecvTry(cas)] + Times(RecvStep, width + 1)
  }

  lemma ExecTimes(c: Chan, first: Act, a: Act, n: nat)
    ensures Exec(c, [first] + Times(a, 0)) == Step(c, first)
    ensures Exec(c, [first] + Times(a, n + 1)) == Step(Exec(c, [first] + Times(a, n)), a)
  {
    assert [first] + Times(a, 0) == [first] && [first][..0] == [];
    assert Exec(c, []) == c;
    assert ([first] + Times(a, n + 1))[..n + 1] == [first] + Times(a, n);
  }

  lemma {:induction false} CopyRun(c: Chan, msg: Msg, cas: bool, k: nat)
    requires Inv(c) && c.snd.Resting? && c.flag == Empty && |msg| == |c.words| && k <= |msg|
    ensures var d := Exec(c, [SendTry(msg, cas)] + Times(SendStep, k));
            && d.snd == Copying(msg, k) && d.flag == (if cas then Lockd else Empty)
            && d.sent == c.sent && d.got == c.got && d.rcv == c.rcv && Inv(d) && |d.words| == |c.words|
  {
    if k == 0 {
      ExecTimes(c, SendTry(msg, cas), SendStep, 0);
      StepKeepsInv(c, SendTry(msg, cas));
    } else {
      CopyRun(c, msg, cas, k - 1);
      ExecTimes(c, SendTry(msg, cas), SendStep, k - 1);
      StepKeepsInv(Exec(c, [SendTry(msg, cas)] + Times(SendStep, k - 1)), SendStep);
    }
  }

  /** The one-place channel never refuses without cause: an empty slot lets a whole send through. */
  lemma SendSucceeds(c: Chan, msg: Msg, cas: bool)
    requires Inv(c) && c.snd.Resting? && c.rcv.Waiting? && InFlight(c) == [] && |msg| == |c.words|
    ensures var d := Exec(c, SendRun(|c.words|, msg, cas));
            Put(Abstract(c), Abstract(d), msg) && d.snd.Resting? && d.rcv.Waiting? && Inv(d)
  {
    CopyRun(c, msg, cas, |msg|);
    ExecTimes(c, SendTry(msg, cas), SendStep, |msg|);
    var e := Exec(c, [SendTry(msg, cas)] + Times(SendStep, |msg|));
    StepKeepsInv(e, SendStep);
    assert e.words == e.words[..|msg|] && msg == msg[..|msg|];
  }

  lemma {:induction false} FetchRun(c: Chan, cas: bool, k: nat)
    requires Inv(c) && c.rcv.Waiting? && c.flag == Messg && k <= |c.words|
    ensures var d := Exec(c, [RecvTry(cas)] + Times(RecvStep, k));
            d == c.(flag := if cas then Lockd else Messg, rcv := Fetching(c.words[..k]))
  {
    if k == 0 {
      ExecTimes(c, RecvTry(cas), RecvStep, 0);
    } else {
      FetchRun(c, cas, k - 1);
      ExecTimes(c, RecvTry(cas), RecvStep, k - 1);
      assert c.words[..k] == c.words[..k - 1] + [c.words[k - 1]];
    }
  }

  /** A full slot lets a whole receive through, and the receive hands over the message that was put in. */
  lemma ReceiveSucceeds(c: Chan, cas: bool)
    requires Inv(c) && c.snd.Resting? && c.rcv.Waiting? && InFlight(c) != []
    ensures var d := Exec(c, RecvRun(|c.words|, cas));
            Take(Abstract(c), Abstract(d)) && d.snd.Resting? && d.rcv.Waiting?
  {
    FetchRun(c, cas, |c.words|);
    ExecTimes(c, RecvTry(cas), RecvStep, |c.words|);
    assert c.words[..|c.words|] == c.words;
  }

  // ---------------------------------------------------------------- the shared cache line

  /** The slot in memory; the parties' local variables are the fields `snd` and `rcv`. */
  class Slot {
    const words: array<Word>
    var flag: Flag
    var snd: Sender
    var rcv: Receiver
    ghost var sent: seq<Msg>
    ghost var got: seq<Msg>

    ghost function Value(): Chan
      reads this, words
    {
      Chan(words[..], flag, snd, rcv, sent, got)
    }

    constructor (width: nat)
      ensures fresh(words) && words.Length == width
      ensures Value() == Init(words[..])
    {
      words := new Word[width];
      flag, snd, rcv, sent, got := Empty, Resting, Waiting, [], [];
    }

    /** The sender's acquiring test: a plain read, or a compare-and-swap that leaves `Lockd`. */
    method TrySend(msg: Msg, cas: bool) returns (ok: bool)
      requires |msg| == words.Length
      modifies this
      ensures Value() == Step(old(Value()), SendTry(msg, cas))
      ensures ok == (old(snd.Resting? && flag == Empty))
    {
      ok := snd.Resting? && flag == Empty;
      if ok {
        if cas { flag := Lockd; }
        snd := Copying(msg, 0);
      }
    }

    method ContinueSend()
      requires snd.Copying? ==> |snd.msg| == words.Length
      modifies this, words
      ensures Value() == Step(old(Value()), SendStep)
    {
      if snd.Resting? { return; }
      if snd.done < words.Length {
        words[snd.done] := snd.msg[snd.done];
        snd := snd.(done := snd.done + 1);
      } else {
        sent := sent + [snd.msg];
        flag, snd := Messg, Resting;
      }
    }

    method TryReceive(cas: bool) returns (ok: bool)
      modifies this
      ensures Value() == Step(old(Value()), RecvTry(cas))
      ensures ok == (old(rcv.Waiting? && flag == Messg))
    {
      ok := rcv.Waiting? && flag == Messg;
      if ok {
        if cas { flag := Lockd; }
        rcv := Fetching([]);
      }
    }

    method ContinueReceive()
      modifies this
      ensures Value() == Step(old(Value()), RecvStep)
    {
      if rcv.Waiting? { return; }
      if |rcv.buf| < words.Length {
        rcv := Fetching(rcv.buf + [words[|rcv.buf|]]);
      } else {
        got := got + [rcv.buf];
        flag, rcv := Empty, Waiting;
      }
    }

    /** A send nobody interrupts: refused while the slot is not empty, else the whole message and then the flag. */
    method Send(msg: Msg, cas: bool) returns (ok: bool)
      requires |msg| == words.Length && snd.Resting?
      modifies this, words
      ensures ok == old(flag == Empty)
      ensures !ok ==> Value() == old(Value())
      ensures ok ==> Value() == old(Value()).(words := msg, flag := Messg, sent := old(sent) + [msg])
    {
      ok := TrySend(msg, cas);
      if !ok { return; }
      while snd.done < words.Length
        invariant snd.Copying? && snd.msg == msg && snd.done <= words.Length
        invariant words[..snd.done] == msg[..snd.done]
        invariant rcv == old(rcv) && sent == old(sent) && got == old(got)
        decreases words.Length - snd.done
      {
        ContinueSend();
      }
      ContinueSend();
      assert words[..] == words[..words.Length] == msg[..words.Length] == msg;
    }

    /** A receive nobody interrupts: refused unless a message is announced, else a copy of it, and the slot is free. */
    method Receive(cas: bool) returns (ok: bool, msg: Msg)
      requires rcv.Waiting?
      modifies this
      ensures ok == old(flag == Messg)
      ensures !ok ==> Value() == old(Value())
      ensures ok ==> msg == words[..] && Value() == old(Value()).(flag := Empty, got := old(got) + [msg])
    {
      msg := [];
      ok := TryReceive(cas);
      if !ok { return; }
      while |rcv.buf| < words.Length
        invariant rcv.Fetching? && |rcv.buf| <= words.Length
        invariant rcv.buf == words[..|rcv.buf|]
        invariant snd == old(snd) && sent == old(sent) && got == old(got)
        decreases words.Length - |rcv.buf|
      {
        ContinueReceive();
      }
      msg := rcv.buf;
      ContinueReceive();
    }
  }
}
