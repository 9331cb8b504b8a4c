/**
 A slot as one of its two users works it: which access comes next in a send or a receive, what the one-place
 channel behind the slot holds, and how many accesses are left.
 */
module Words {
  import opened Common
  import C = Channel

  /** What the one-place channel behind a slot holds. */
  function Shown(ch: C.Chan): Option<C.Msg> {
    if ch.flag == C.Messg || ch.rcv.Fetching? then Some(ch.words) else None
  }

  /** The next access of a send; `cas` says how it acquires the slot. */
  function SendAct(msg: C.Msg, ch: C.Chan, cas: bool): C.Act {
    if ch.snd.Resting? then C.SendTry(msg, cas) else C.SendStep
  }

  function ReceiveAct(ch: C.Chan, cas: bool): C.Act {
    if ch.rcv.Waiting? then C.RecvTry(cas) else C.RecvStep
  }

  function Sending(msg: C.Msg, ch: C.Chan, cas: bool): C.Chan {
    C.Step(ch, SendAct(msg, ch, cas))
  }

  function Receiving(ch: C.Chan, cas: bool): C.Chan {
    C.Step(ch, ReceiveAct(ch, cas))
  }

  /** An access of a send: invisible, or the put. */
  lemma SendAccess(msg: C.Msg, ch: C.Chan, cas: bool)
    requires C.Inv(ch) && |ch.words| == |msg| && (ch.snd.Copying? ==> ch.snd.msg == msg)
    ensures var d := Sending(msg, ch, cas);
            && C.Inv(d) && |d.words| == |msg| && d.rcv == ch.rcv && d.got == ch.got
            && (if |d.sent| > |ch.sent| then d.snd.Resting? && Shown(ch) == None && Shown(d) == Some(msg)
                else Shown(d) == Shown(ch) && (d.snd.Copying? ==> d.snd.msg == msg))
  {
    C.StepKeepsInv(ch, SendAct(msg, ch, cas));
    if ch.snd.Copying? && ch.snd.done == |ch.words| {
      assert ch.words == ch.words[..|msg|] == ch.snd.msg;
    }
  }

  /** An access of a receive: invisible, or the take. */
  lemma ReceiveAccess(ch: C.Chan, cas: bool)
    requires C.Inv(ch)
    ensures var d := Receiving(ch, cas);
            && C.Inv(d) && |d.words| == |ch.words| && d.snd == ch.snd && d.sent == ch.sent
            && (if |d.got| > |ch.got| then
                  d.rcv.Waiting? && Shown(d) == None && Shown(ch) == Some(d.got[|ch.got|])
                else
                  Shown(d) == Shown(ch))
  {
    C.StepKeepsInv(ch, ReceiveAct(ch, cas));
    if ch.rcv.Fetching? && |ch.rcv.buf| == |ch.words| {
      assert ch.words[..|ch.words|] == ch.words;
    }
  }

  /** Where the one-place channel lets a put or a take through, the next access is no spin. */
  lemma AccessMoves(msg: C.Msg, ch: C.Chan, cas: bool)
    requires C.Inv(ch) && |ch.words| == |msg|
    ensures Shown(ch).None? ==> Sending(msg, ch, cas) != ch
    ensures Shown(ch).Some? ==> Receiving(ch, cas) != ch
  {
  }

  /** Accesses left in the send and in the receive that a slot is in, or about to be in. */
  function Micro(ch: C.Chan): int {
    (if ch.snd.Copying? then |ch.words| - ch.snd.done else |ch.words| + 1)
    + (if ch.rcv.Fetching? then |ch.words| - |ch.rcv.buf| else |ch.words| + 1)
  }

  lemma MicroNonNegative(ch: C.Chan)
    requires C.Inv(ch)
    ensures Micro(ch) >= 0
  {
  }

  /** An access is a spin, or uses up one of the accesses left, or is the last of its kind. */
  lemma SendMicro(msg: C.Msg, ch: C.Chan, cas: bool)
    requires C.Inv(ch)
    ensures var d := Sending(msg, ch, cas);
            || d == ch
            || (|d.sent| == |ch.sent| && Micro(d) < Micro(ch))
            || (|d.sent| > |ch.sent| && Micro(d) <= Micro(ch) + |ch.words| + 1)
  {
  }

  lemma ReceiveMicro(ch: C.Chan, cas: bool)
    requires C.Inv(ch)
    ensures var d := Receiving(ch, cas);
            || d == ch
            || (|d.got| == |ch.got| && Micro(d) < Micro(ch))
            || (|d.got| > |ch.got| && Micro(d) <= Micro(ch) + |ch.words| + 1)
  {
  }

  function Micros(chans: seq<C.Chan>): (xs: seq<int>)
    ensures |xs| == |chans|
    ensures forall i :: 0 <= i < |chans| ==> xs[i] == Micro(chans[i])
  {
    seq(|chans|, i requires 0 <= i < |chans| => Micro(chans[i]))
  }

  lemma MicrosUpdate(chans: seq<C.Chan>, k: nat, ch: C.Chan)
    requires k < |chans|
    ensures Sum(Micros(chans[k := ch])) == Sum(Micros(chans)) - Micro(chans[k]) + Micro(ch)
  {
    assert Micros(chans[k := ch]) == Micros(chans)[k := Micro(ch)];
    SumUpdate(Micros(chans), k, Micro(ch));
  }

  // ---------------------------------------------------------------- numbers in the first word

  const WORDS: nat := 0x1_0000_0000_0000_0000

  /** A message of `width` words with a number in the first of them. */
  function Encode(width: nat, v: int): (m: C.Msg)
    ensures |m| == width
  {
    seq(width, k => if k == 0 then (v % WORDS) as C.Word else 0)
  }

  /** The first word as an unsigned number. */
  function Decode(m: C.Msg): nat {
    if |m| == 0 then 0 else m[0] as nat
  }

  lemma EncodeDecode(width: nat, v: int)
    requires width >= 1
    ensures Decode(Encode(width, v)) == v % WORDS
  {
  }
}
