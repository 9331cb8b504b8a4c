/**
 All the slots of n processes at once. A process is either between operations, in the middle of one
 send or in the middle of one receive; a receive may come from one named process or from whichever
 slot a scan finds full, so the scan order is left to the schedule.
 */
module Network {
  import opened Common
  import opened Channel

  /** A message with the sender the receiver is told. */
  datatype Letter = Letter(from: nat, msg: Msg)

  datatype Pc =
    | Ready
    | Sending(to: nat, out: Msg, done: nat)
    | Taking(from: nat, buf: Msg)

  /** A process with the letters it has received, in the order in which it received them. */
  datatype Proc = Proc(pc: Pc, log: seq<Letter>)

  /** The slot of one ordered pair, with all that was ever sent through it. */
  datatype Lane = Lane(words: Msg, flag: Flag, sent: seq<Msg>)

  datatype Net = Net(lanes: map<(nat, nat), Lane>, procs: seq<Proc>)

  datatype Act =
    | Post(i: nat, to: nat, msg: Msg, cas: bool)  // i tries to acquire the slot to `to`
    | Look(j: nat, from: nat, cas: bool)          // j tests the slot from `from`
    | Go(i: nat)                                  // i carries on copying

  ghost predicate Shaped(n: nat, s: Net) {
    && |s.procs| == n
    && forall i: nat, j: nat :: i < n && j < n && i != j ==> (i, j) in s.lanes
  }

  ghost predicate Fresh(n: nat, s: Net) {
    && Shaped(n, s)
    && (forall i :: 0 <= i < n ==> s.procs[i] == Proc(Ready, []))
    && (forall i: nat, j: nat :: i < n && j < n && i != j ==>
          s.lanes[(i, j)].flag == Empty && s.lanes[(i, j)].sent == [])
  }

  /** One access by one process; requests that make no sense at this point change nothing. */
  function Step(n: nat, s: Net, a: Act): (t: Net)
    requires Shaped(n, s)
    ensures Shaped(n, t)
  {
    match a
    case Post(i, to, msg, cas) =>
      if PairOf(n, i, to) && s.procs[i].pc.Ready? && s.lanes[(i, to)].flag == Empty
         && |msg| == |s.lanes[(i, to)].words| then
        var lane := s.lanes[(i, to)];
        Net(s.lanes[(i, to) := lane.(flag := if cas then Lockd else Empty)],
            s.procs[i := s.procs[i].(pc := Sending(to, msg, 0))])
      else s
    case Look(j, from, cas) =>
      if PairOf(n, from, j) && s.procs[j].pc.Ready? && s.lanes[(from, j)].flag == Messg then
        var lane := s.lanes[(from, j)];
        Net(s.lanes[(from, j) := lane.(flag := if cas then Lockd else Messg)],
            s.procs[j := s.procs[j].(pc := Taking(from, []))])
      else s
    case Go(i) =>
      if i >= n then s
      else match s.procs[i].pc
        case Ready => s
        case Sending(to, out, done) =>
          if !PairOf(n, i, to) then s else
          var lane := s.lanes[(i, to)];
          if done < |lane.words| && done < |out| then
            Net(s.lanes[(i, to) := lane.(words := lane.words[done := out[done]])],
                s.procs[i := s.procs[i].(pc := Sending(to, out, done + 1))])
          else
            Net(s.lanes[(i, to) := lane.(flag := Messg, sent := lane.sent + [out])],
                s.procs[i := s.procs[i].(pc := Ready)])
        case Taking(from, buf) =>
          if !PairOf(n, from, i) then s else
          var lane := s.lanes[(from, i)];
          if |buf| < |lane.words| then
            s.(procs := s.procs[i := s.procs[i].(pc := Taking(from, buf + [lane.words[|buf|]]))])
          else
            Net(s.lanes[(from, i) := lane.(flag := Empty)],
                s.procs[i := Proc(Ready, s.procs[i].log + [Letter(from, buf)])])
  }

  function Exec(n: nat, s: Net, acts: seq<Act>): (t: Net)
    requires Shaped(n, s)
    ensures Shaped(n, t)
  {
    if |acts| == 0 then s else Step(n, Exec(n, s, acts[..|acts| - 1]), acts[|acts| - 1])
  }

  /** The messages in a log that came from `i`. */
  function From(log: seq<Letter>, i: nat): seq<Msg> {
    if |log| == 0 then []
    else From(log[..|log| - 1], i) + if log[|log| - 1].from == i then [log[|log| - 1].msg] else []
  }

  lemma FromAppend(log: seq<Letter>, x: Letter, i: nat)
    ensures From(log + [x], i) == From(log, i) + if x.from == i then [x.msg] else []
  {
  }

  // ---------------------------------------------------------------- the view of one pair

  ghost function SenderView(p: Proc, j: nat): Sender {
    if p.pc.Sending? && p.pc.to == j then Copying(p.pc.out, p.pc.done) else Resting
  }

  ghost function ReceiverView(p: Proc, i: nat): Receiver {
    if p.pc.Taking? && p.pc.from == i then Fetching(p.pc.buf) else Waiting
  }

  ghost function View(n: nat, s: Net, i: nat, j: nat): Chan
    requires Shaped(n, s) && PairOf(n, i, j)
  {
    var lane := s.lanes[(i, j)];
    Chan(lane.words, lane.flag, SenderView(s.procs[i], j), ReceiverView(s.procs[j], i),
         lane.sent, From(s.procs[j].log, i))
  }

  /** The slot-level meaning of an act for the pair (i, j), if the act concerns that pair. */
  ghost function Projected(s: Net, a: Act, i: nat, j: nat): Channel.Act
    requires i < |s.procs| && j < |s.procs|
  {
    match a
    case Post(k, to, msg, cas) => SendTry(msg, cas)
    case Look(k, from, cas) => RecvTry(cas)
    case Go(k) => if k == i then SendStep else RecvStep
  }

  ghost predicate Projects(n: nat, s: Net, a: Act, i: nat, j: nat)
    requires Shaped(n, s) && PairOf(n, i, j)
  {
    || View(n, Step(n, s, a), i, j) == View(n, s, i, j)
    || View(n, Step(n, s, a), i, j) == Channel.Step(View(n, s, i, j), Projected(s, a, i, j))
  }

  lemma PostProjects(n: nat, s: Net, a: Act, i: nat, j: nat)
    requires Shaped(n, s) && PairOf(n, i, j) && a.Post?
    ensures Projects(n, s, a, i, j)
  {
  }

  lemma LookProjects(n: nat, s: Net, a: Act, i: nat, j: nat)
    requires Shaped(n, s) && PairOf(n, i, j) && a.Look?
    ensures Projects(n, s, a, i, j)
  {
  }

  lemma SendingProjects(n: nat, s: Net, a: Act, i: nat, j: nat)
    requires Shaped(n, s) && PairOf(n, i, j) && a.Go? && a.i < n && s.procs[a.i].pc.Sending?
    ensures Projects(n, s, a, i, j)
  {
  }

  predicate Complete(n: nat, s: Net, k: nat)
    requires Shaped(n, s) && k < n && s.procs[k].pc.Taking?
  {
    PairOf(n, s.procs[k].pc.from, k) && |s.procs[k].pc.buf| >= |s.lanes[(s.procs[k].pc.from, k)].words|
  }

  lemma TakingWordProjects(n: nat, s: Net, a: Act, i: nat, j: nat)
    requires Shaped(n, s) && PairOf(n, i, j) && a.Go? && a.i < n && s.procs[a.i].pc.Taking? && !Complete(n, s, a.i)
    ensures Projects(n, s, a, i, j)
  {
  }

  lemma TakingLastProjects(n: nat, s: Net, a: Act, i: nat, j: nat)
    requires Shaped(n, s) && PairOf(n, i, j) && a.Go? && a.i < n && s.procs[a.i].pc.Taking? && Complete(n, s, a.i)
    ensures Projects(n, s, a, i, j)
  {
    if a.i == j && s.procs[j].pc.from == i {
      LastOfThisPair(n, s, i, j);
    } else {
      LastOfAnotherPair(n, s, a.i, i, j);
    }
  }

  lemma LastOfThisPair(n: nat, s: Net, i: nat, j: nat)
    requires Shaped(n, s) && PairOf(n, i, j) && s.procs[j].pc.Taking? && s.procs[j].pc.from == i && Complete(n, s, j)
    ensures View(n, Step(n, s, Go(j)), i, j) == Channel.Step(View(n, s, i, j), RecvStep)
  {
    FromAppend(s.procs[j].log, Letter(i, s.procs[j].pc.buf), i);
  }

  lemma LastOfAnotherPair(n: nat, s: Net, k: nat, i: nat, j: nat)
    requires Shaped(n, s) && PairOf(n, i, j) && k < n && s.procs[k].pc.Taking? && Complete(n, s, k)
    requires k != j || s.procs[k].pc.from != i
    ensures View(n, Step(n, s, Go(k)), i, j) == View(n, s, i, j)
  {
    FromAppend(s.procs[k].log, Letter(s.procs[k].pc.from, s.procs[k].pc.buf), i);
  }

  /** To each pair, a step of any process is a step of that pair's slot or no step at all. */
  lemma StepProjects(n: nat, s: Net, a: Act, i: nat, j: nat)
    requires Shaped(n, s) && PairOf(n, i, j)
    ensures Projects(n, s, a, i, j)
  {
    match a
    case Post(_, _, _, _) => PostProjects(n, s, a, i, j);
    case Look(_, _, _) => LookProjects(n, s, a, i, j);
    case Go(k) =>
      if k < n && s.procs[k].pc.Sending? {
        SendingProjects(n, s, a, i, j);
      } else if k < n && s.procs[k].pc.Taking? {
        if Complete(n, s, k) {
          TakingLastProjects(n, s, a, i, j);
        } else {
          TakingWordProjects(n, s, a, i, j);
        }
      }
  }

  ghost predicate Inv(n: nat, s: Net)
    requires Shaped(n, s)
  {
    && (forall i: nat, j: nat :: PairOf(n, i, j) ==> Channel.Inv(View(n, s, i, j)))
    && (forall j :: 0 <= j < n ==> Tagged(n, j, s.procs[j]))
  }

  ghost predicate Tagged(n: nat, j: nat, p: Proc) {
    && (p.pc.Taking? ==> PairOf(n, p.pc.from, j))
    && forall k :: 0 <= k < |p.log| ==> PairOf(n, p.log[k].from, j)
  }

  lemma StepKeepsInv(n: nat, s: Net, a: Act)
    requires Shaped(n, s) && Inv(n, s)
    ensures Inv(n, Step(n, s, a))
  {
    var t := Step(n, s, a);
    forall i: nat, j: nat | PairOf(n, i, j)
      ensures Channel.Inv(View(n, t, i, j))
    {
      StepProjects(n, s, a, i, j);
      Channel.StepKeepsInv(View(n, s, i, j), Projected(s, a, i, j));
    }
    forall j | 0 <= j < n
      ensures Tagged(n, j, t.procs[j])
    {
      assert Tagged(n, j, s.procs[j]);
    }
  }

  lemma {:induction false} ReachableInv(n: nat, s: Net, acts: seq<Act>)
    requires Fresh(n, s)
    ensures Inv(n, Exec(n, s, acts))
  {
    if |acts| > 0 {
      ReachableInv(n, s, acts[..|acts| - 1]);
      StepKeepsInv(n, Exec(n, s, acts[..|acts| - 1]), acts[|acts| - 1]);
    }
  }

  /**
   For every ordered pair, in every run of all n processes: what i sent to j is what j received from
   i, in that order, followed by at most one message in flight; and a slot announcing a message holds
   it complete.
   */
  lemma EveryPairIsFifo(n: nat, s: Net, acts: seq<Act>, i: nat, j: nat)
    requires Fresh(n, s) && PairOf(n, i, j)
    ensures var t := Exec(n, s, acts);
            var lane := t.lanes[(i, j)];
            var got := From(t.procs[j].log, i);
            && got <= lane.sent && |lane.sent| <= |got| + 1
            && (lane.flag == Messg ==> |lane.sent| == |got| + 1 && lane.words == lane.sent[|got|])
            && (lane.flag == Empty ==> lane.sent == got)
  {
    ReachableInv(n, s, acts);
    assert Channel.Inv(View(n, Exec(n, s, acts), i, j));
  }

  /**
   Refinement for all slots at once: an access changes nothing that a client of the one-place channels can
   see, except that the last access of a send puts the message into the channel of that one pair, and
   the last access of a receive takes it out and hands it, with its sender's name, to the receiver. A
   process is in the middle of one operation at most, so no access is visible to two pairs.
   */
  lemma StepRefinesOnePlace(n: nat, s: Net, a: Act, i: nat, j: nat)
    requires Shaped(n, s) && Inv(n, s) && PairOf(n, i, j)
    ensures var t := Step(n, s, a);
            var x, y := Abstract(View(n, s, i, j)), Abstract(View(n, t, i, j));
            || x == y
            || (a == Go(i) && s.procs[i].pc.Sending? && s.procs[i].pc.to == j && Put(x, y, s.procs[i].pc.out))
            || (a == Go(j) && s.procs[j].pc.Taking? && s.procs[j].pc.from == i && Take(x, y)
                && t.procs[j].log == s.procs[j].log + [Letter(i, x.slot[0])])
  {
    StepProjects(n, s, a, i, j);
    assert Channel.Inv(View(n, s, i, j));
    Channel.StepRefines(View(n, s, i, j), Projected(s, a, i, j));
  }

  // ---------------------------------------------------------------- no operation is refused without cause

  /** Process `i` carries on k times before anybody else moves. */
  function Carry(n: nat, s: Net, i: nat, k: nat): (t: Net)
    requires Shaped(n, s)
    ensures Shaped(n, t)
  {
    if k == 0 then s else Step(n, Carry(n, s, i, k - 1), Go(i))
  }

  /** The state with another lane for the pair (i, j), and with process `p` elsewhere. */
  function With(n: nat, s: Net, i: nat, j: nat, lane: Lane, p: nat, proc: Proc): (t: Net)
    requires Shaped(n, s) && PairOf(n, i, j) && p < n
    ensures Shaped(n, t) && t.lanes[(i, j)] == lane && t.procs[p] == proc
  {
    Net(s.lanes[(i, j) := lane], s.procs[p := proc])
  }

  lemma WithTwice(n: nat, s: Net, i: nat, j: nat, lane: Lane, p: nat, proc: Proc, lane': Lane, proc': Proc)
    requires Shaped(n, s) && PairOf(n, i, j) && p < n
    ensures With(n, With(n, s, i, j, lane, p, proc), i, j, lane', p, proc') == With(n, s, i, j, lane', p, proc')
  {
    assert s.lanes[(i, j) := lane][(i, j) := lane'] == s.lanes[(i, j) := lane'];
    assert s.procs[p := proc][p := proc'] == s.procs[p := proc'];
  }

  lemma SendGo(n: nat, s: Net, i: nat, j: nat)
    requires Shaped(n, s) && PairOf(n, i, j) && s.procs[i].pc.Sending? && s.procs[i].pc.to == j
    requires |s.procs[i].pc.out| == |s.lanes[(i, j)].words| >= s.procs[i].pc.done
    ensures var lane, proc := s.lanes[(i, j)], s.procs[i];
            var k, out := proc.pc.done, proc.pc.out;
            Step(n, s, Go(i)) ==
            if k < |out| then
              With(n, s, i, j, lane.(words := lane.words[k := out[k]]), i, proc.(pc := Sending(j, out, k + 1)))
            else
              With(n, s, i, j, lane.(flag := Messg, sent := lane.sent + [out]), i, proc.(pc := Ready))
  {
  }

  /** A slot with the first k words of a message in it, on the way to being sent. */
  function Copied(lane: Lane, msg: Msg, cas: bool, k: nat): Lane
    requires k <= |msg| == |lane.words|
  {
    lane.(words := msg[..k] + lane.words[k..], flag := if cas then Lockd else Empty)
  }

  lemma CopiedWord(lane: Lane, msg: Msg, cas: bool, k: nat)
    requires k < |msg| == |lane.words|
    ensures var copied := Copied(lane, msg, cas, k);
            copied.(words := copied.words[k := msg[k]]) == Copied(lane, msg, cas, k + 1)
  {
    assert (msg[..k] + lane.words[k..])[k := msg[k]] == msg[..k + 1] + lane.words[k + 1..];
  }

  lemma CopyNext(n: nat, s: Net, i: nat, j: nat, msg: Msg, cas: bool, k: nat)
    requires Shaped(n, s) && PairOf(n, i, j) && k < |msg| == |s.lanes[(i, j)].words|
    ensures var lane, proc := s.lanes[(i, j)], s.procs[i];
            Step(n, With(n, s, i, j, Copied(lane, msg, cas, k), i, proc.(pc := Sending(j, msg, k))), Go(i))
            == With(n, s, i, j, Copied(lane, msg, cas, k + 1), i, proc.(pc := Sending(j, msg, k + 1)))
  {
    var lane := s.lanes[(i, j)];
    var before, after := Copied(lane, msg, cas, k), Copied(lane, msg, cas, k + 1);
    var proc := s.procs[i].(pc := Sending(j, msg, k));
    CopiedWord(lane, msg, cas, k);
    SendGo(n, With(n, s, i, j, before, i, proc), i, j);
    WithTwice(n, s, i, j, before, i, proc, after, proc.(pc := Sending(j, msg, k + 1)));
  }

  lemma CopyStart(n: nat, s: Net, i: nat, j: nat, msg: Msg, cas: bool)
    requires Shaped(n, s) && PairOf(n, i, j) && s.procs[i].pc.Ready? && s.lanes[(i, j)].flag == Empty
    requires |msg| == |s.lanes[(i, j)].words|
    ensures Step(n, s, Post(i, j, msg, cas))
            == With(n, s, i, j, Copied(s.lanes[(i, j)], msg, cas, 0), i, s.procs[i].(pc := Sending(j, msg, 0)))
  {
    assert msg[..0] + s.lanes[(i, j)].words[0..] == s.lanes[(i, j)].words;
  }

  /** The sender has acquired the slot and copied k words. */
  lemma {:induction false} CopyRun(n: nat, s: Net, i: nat, j: nat, msg: Msg, cas: bool, k: nat)
    requires Shaped(n, s) && PairOf(n, i, j) && s.procs[i].pc.Ready? && s.lanes[(i, j)].flag == Empty
    requires k <= |msg| == |s.lanes[(i, j)].words|
    ensures Carry(n, Step(n, s, Post(i, j, msg, cas)), i, k)
            == With(n, s, i, j, Copied(s.lanes[(i, j)], msg, cas, k), i, s.procs[i].(pc := Sending(j, msg, k)))
  {
    if k == 0 {
      CopyStart(n, s, i, j, msg, cas);
    } else {
      CopyRun(n, s, i, j, msg, cas, k - 1);
      CopyNext(n, s, i, j, msg, cas, k - 1);
    }
  }

  /**
   A process that is at nothing else and faces an empty slot gets a whole send through, by either way of
   acquiring the slot: the message, the flag, and nothing else is changed.
   */
  lemma SendGetsThrough(n: nat, s: Net, i: nat, j: nat, msg: Msg, cas: bool)
    requires Shaped(n, s) && PairOf(n, i, j) && s.procs[i].pc.Ready? && s.lanes[(i, j)].flag == Empty
    requires |msg| == |s.lanes[(i, j)].words|
    ensures Carry(n, Step(n, s, Post(i, j, msg, cas)), i, |msg| + 1)
            == s.(lanes := s.lanes[(i, j) := Lane(msg, Messg, s.lanes[(i, j)].sent + [msg])])
  {
    var lane := s.lanes[(i, j)];
    CopyRun(n, s, i, j, msg, cas, |msg|);
    var before := Copied(lane, msg, cas, |msg|);
    var proc := s.procs[i].(pc := Sending(j, msg, |msg|));
    assert before.words == msg;
    SendGo(n, With(n, s, i, j, before, i, proc), i, j);
    WithTwice(n, s, i, j, before, i, proc, Lane(msg, Messg, lane.sent + [msg]), s.procs[i]);
    assert s.procs[i := s.procs[i]] == s.procs;
  }

  lemma TakeGo(n: nat, s: Net, i: nat, j: nat)
    requires Shaped(n, s) && PairOf(n, i, j) && s.procs[j].pc.Taking? && s.procs[j].pc.from == i
    ensures var lane, proc := s.lanes[(i, j)], s.procs[j];
            var buf := proc.pc.buf;
            Step(n, s, Go(j)) ==
            if |buf| < |lane.words| then With(n, s, i, j, lane, j, proc.(pc := Taking(i, buf + [lane.words[|buf|]])))
            else With(n, s, i, j, lane.(flag := Empty), j, Proc(Ready, proc.log + [Letter(i, buf)]))
  {
    assert s.lanes[(i, j) := s.lanes[(i, j)]] == s.lanes;
  }

  /** The receiver has acquired the slot and copied k words. */
  lemma {:induction false} FetchRun(n: nat, s: Net, i: nat, j: nat, cas: bool, k: nat)
    requires Shaped(n, s) && PairOf(n, i, j) && s.procs[j].pc.Ready? && s.lanes[(i, j)].flag == Messg
    requires k <= |s.lanes[(i, j)].words|
    ensures var lane := s.lanes[(i, j)];
            Carry(n, Step(n, s, Look(j, i, cas)), j, k)
            == With(n, s, i, j, lane.(flag := if cas then Lockd else Messg),
                    j, s.procs[j].(pc := Taking(i, lane.words[..k])))
  {
    if k > 0 {
      FetchRun(n, s, i, j, cas, k - 1);
      var words := s.lanes[(i, j)].words;
      var lane := s.lanes[(i, j)].(flag := if cas then Lockd else Messg);
      var proc := s.procs[j].(pc := Taking(i, words[..k - 1]));
      assert words[..k] == words[..k - 1] + [words[k - 1]];
      TakeGo(n, With(n, s, i, j, lane, j, proc), i, j);
      WithTwice(n, s, i, j, lane, j, proc, lane, proc.(pc := Taking(i, words[..k])));
    }
  }

  /**
   A process that is at nothing else and faces a full slot gets the whole message out, with its sender's name,
   by either way of acquiring the slot; the flag is taken down, and nothing else is changed.
   */
  lemma ReceiveGetsThrough(n: nat, s: Net, i: nat, j: nat, cas: bool)
    requires Shaped(n, s) && PairOf(n, i, j) && s.procs[j].pc.Ready? && s.lanes[(i, j)].flag == Messg
    ensures var lane := s.lanes[(i, j)];
            Carry(n, Step(n, s, Look(j, i, cas)), j, |lane.words| + 1)
            == Net(s.lanes[(i, j) := lane.(flag := Empty)],
                   s.procs[j := Proc(Ready, s.procs[j].log + [Letter(i, lane.words)])])
  {
    var words := s.lanes[(i, j)].words;
    FetchRun(n, s, i, j, cas, |words|);
    assert words[..|words|] == words;
    var lane := s.lanes[(i, j)].(flag := if cas then Lockd else Messg);
    var proc := s.procs[j].(pc := Taking(i, words));
    TakeGo(n, With(n, s, i, j, lane, j, proc), i, j);
    WithTwice(n, s, i, j, lane, j, proc, lane.(flag := Empty), Proc(Ready, proc.log + [Letter(i, words)]));
  }

  /** A slot that is not empty refuses a send, and one without a message a receive, without a trace. */
  lemma RefusedWithoutTrace(n: nat, s: Net, i: nat, j: nat, msg: Msg, cas: bool)
    requires Shaped(n, s) && PairOf(n, i, j)
    ensures s.lanes[(i, j)].flag != Empty ==> Step(n, s, Post(i, j, msg, cas)) == s
    ensures s.lanes[(i, j)].flag != Messg ==> Step(n, s, Look(j, i, cas)) == s
  {
  }

  // ---------------------------------------------------------------- receive-any as a merge

  /** Position of the k-th letter among those with the same tag. */
  function Rank(log: seq<Letter>, k: nat): nat
    requires k < |log|
  {
    |From(log[..k], log[k].from)|
  }

  lemma {:induction false} FromPrefix(log: seq<Letter>, k: nat, i: nat)
    requires k <= |log|
    ensures From(log[..k], i) <= From(log, i)
  {
    if k == |log| {
      assert log[..k] == log;
    } else {
      var last := |log| - 1;
      FromPrefix(log[..last], k, i);
      assert log[..last][..k] == log[..k];
    }
  }

  lemma LetterInFrom(log: seq<Letter>, k: nat)
    requires k < |log|
    ensures Rank(log, k) < |From(log, log[k].from)| && From(log, log[k].from)[Rank(log, k)] == log[k].msg
  {
    assert log[..k + 1] == log[..k] + [log[k]];
    FromAppend(log[..k], log[k], log[k].from);
    FromPrefix(log, k + 1, log[k].from);
  }

  /**
   Receive-any is a merge: in every run the k-th letter a process receives carries the name of another
   process, and its text is the next message of that process in sending order.
   */
  lemma ReceiveAnyMerges(n: nat, s: Net, acts: seq<Act>, j: nat, k: nat)
    requires Fresh(n, s) && j < n && k < |Exec(n, s, acts).procs[j].log|
    ensures var t := Exec(n, s, acts);
            var letter := t.procs[j].log[k];
            && PairOf(n, letter.from, j)
            && Rank(t.procs[j].log, k) < |t.lanes[(letter.from, j)].sent|
            && letter.msg == t.lanes[(letter.from, j)].sent[Rank(t.procs[j].log, k)]
  {
    ReachableInv(n, s, acts);
    var t := Exec(n, s, acts);
    assert Tagged(n, j, t.procs[j]);
    LetterInFrom(t.procs[j].log, k);
    EveryPairIsFifo(n, s, acts, t.procs[j].log[k].from, j);
  }
}
