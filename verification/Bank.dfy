/**
 The bank before shutdown: application processes send DEPOSIT, WITHDRAW and CHECK requests to servers
 that each own a part of the accounts. Deposits are not acknowledged; the other two are answered and
 the application waits for the answer.

 Slots are the one-place channels of the Channel module. What an application asks for next, and which
 client a server turns to next, is left to the schedule.
 */
module Bank {
  import opened Common

  datatype Op =
    | Deposit(acc: nat, amount: nat)
    | Withdraw(acc: nat, amount: nat)
    | Check(acc: nat)

  /** A request as a server logs it. */
  datatype Entry = Entry(client: nat, op: Op)

  // ---------------------------------------------------------------- the sequential bank

  /** The accounts after one request. A request for an account the server does not own is not sent. */
  function Apply(bal: seq<int>, op: Op): (after: seq<int>)
    ensures |after| == |bal|
  {
    if op.acc >= |bal| then bal
    else match op
      case Deposit(acc, amount) => bal[acc := bal[acc] + amount]
      case Withdraw(acc, amount) => if bal[acc] >= amount then bal[acc := bal[acc] - amount] else bal
      case Check(_) => bal
  }

  /** The answer to a request, if it gets one: the balance, or whether the withdrawal succeeded. */
  function Answer(bal: seq<int>, op: Op): Option<int> {
    if op.acc >= |bal| then None
    else match op
      case Deposit(_, _) => None
      case Withdraw(acc, amount) => Some(if bal[acc] >= amount then 1 else 0)
      case Check(acc) => Some(bal[acc])
  }

  /** The accounts of a sequential bank, all 0 at first, after processing `log`. */
  function Run(accounts: nat, log: seq<Entry>): (bal: seq<int>)
    ensures |bal| == accounts
  {
    if |log| == 0 then seq(accounts, i => 0)
    else Apply(Run(accounts, log[..|log| - 1]), log[|log| - 1].op)
  }

  /** The answers that sequential bank gives to client `c`, in order. */
  function Answers(accounts: nat, log: seq<Entry>, c: nat): seq<int> {
    if |log| == 0 then []
    else
      var before, last := log[..|log| - 1], log[|log| - 1];
      var answer := Answer(Run(accounts, before), last.op);
      Answers(accounts, before, c) + if last.client == c && answer.Some? then [answer.value] else []
  }

  /** The requests of client `c` in a log. */
  function Requests(log: seq<Entry>, c: nat): seq<Op> {
    if |log| == 0 then []
    else Requests(log[..|log| - 1], c) + if log[|log| - 1].client == c then [log[|log| - 1].op] else []
  }

  lemma LogAppend(accounts: nat, log: seq<Entry>, e: Entry, c: nat)
    ensures Run(accounts, log + [e]) == Apply(Run(accounts, log), e.op)
    ensures Requests(log + [e], c) == Requests(log, c) + if e.client == c then [e.op] else []
    ensures var answer := Answer(Run(accounts, log), e.op);
            Answers(accounts, log + [e], c) ==
            Answers(accounts, log, c) + if e.client == c && answer.Some? then [answer.value] else []
  {
  }

  // ---------------------------------------------------------------- the concurrent program

  datatype Config = Config(apps: nat, dsls: nat, accounts: nat)

  /** An application process: the request it waits for, all it ever asked each server, and the answers it got. */
  datatype Client = Client(awaiting: Option<nat>, issued: seq<seq<Op>>, heard: seq<seq<int>>)

  /** A server: its accounts, the requests in the order it processed them, and an answer it has yet to send. */
  datatype Server = Server(bal: seq<int>, log: seq<Entry>, pending: Option<(nat, int)>)

  /** `request[a][s]` is the slot from client a to server s, `reply[a][s]` the slot back. */
  datatype State = State(clients: seq<Client>, servers: seq<Server>,
                         request: seq<seq<Option<Op>>>, reply: seq<seq<Option<int>>>)

  datatype Act =
    | Ask(a: nat, s: nat, op: Op)
    | Hear(a: nat)
    | Process(s: nat, a: nat)
    | Reply(s: nat)

  predicate Shaped(c: Config, st: State) {
    && |st.clients| == |st.request| == |st.reply| == c.apps
    && |st.servers| == c.dsls
    && (forall a :: 0 <= a < c.apps ==>
          && |st.request[a]| == |st.reply[a]| == c.dsls
          && |st.clients[a].issued| == |st.clients[a].heard| == c.dsls)
    && (forall s :: 0 <= s < c.dsls ==> |st.servers[s].bal| == c.accounts)
  }

  function Init(c: Config): (st: State)
    ensures Shaped(c, st)
  {
    State(seq(c.apps, a => Client(None, seq(c.dsls, s => []), seq(c.dsls, s => []))),
          seq(c.dsls, s => Server(seq(c.accounts, i => 0), [], None)),
          seq(c.apps, a => seq(c.dsls, s => None)),
          seq(c.apps, a => seq(c.dsls, s => None)))
  }

  predicate Enabled(c: Config, st: State, act: Act)
    requires Shaped(c, st)
  {
    match act
    case Ask(a, s, op) =>
      a < c.apps && s < c.dsls && op.acc < c.accounts && st.clients[a].awaiting.None? && st.request[a][s].None?
    case Hear(a) =>
      a < c.apps && st.clients[a].awaiting.Some? && st.clients[a].awaiting.value < c.dsls
      && st.reply[a][st.clients[a].awaiting.value].Some?
    case Process(s, a) =>
      s < c.dsls && a < c.apps && st.servers[s].pending.None? && st.request[a][s].Some?
    case Reply(s) =>
      s < c.dsls && st.servers[s].pending.Some? && st.servers[s].pending.value.0 < c.apps
      && st.reply[st.servers[s].pending.value.0][s].None?
  }

  function Step(c: Config, st: State, act: Act): (t: State)
    requires Shaped(c, st)
    ensures Shaped(c, t)
  {
    if !Enabled(c, st, act) then st
    else match act
      case Ask(a, s, op) =>
        var cl := st.clients[a];
        st.(request := st.request[a := st.request[a][s := Some(op)]],
            clients := st.clients[a := cl.(issued := cl.issued[s := cl.issued[s] + [op]],
                                           awaiting := if op.Deposit? then None else Some(s))])
      case Hear(a) =>
        var cl := st.clients[a];
        var s := cl.awaiting.value;
        st.(reply := st.reply[a := st.reply[a][s := None]],
            clients := st.clients[a := cl.(heard := cl.heard[s := cl.heard[s] + [st.reply[a][s].value]],
                                           awaiting := None)])
      case Process(s, a) =>
        var v, op := st.servers[s], st.request[a][s].value;
        var answer := Answer(v.bal, op);
        st.(request := st.request[a := st.request[a][s := None]],
            servers := st.servers[s := Server(Apply(v.bal, op), v.log + [Entry(a, op)],
                                              if answer.Some? then Some((a, answer.value)) else None)])
      case Reply(s) =>
        var v := st.servers[s];
        var (a, w) := v.pending.value;
        st.(reply := st.reply[a := st.reply[a][s := Some(w)]],
            servers := st.servers[s := v.(pending := None)])
  }

  function Exec(c: Config, acts: seq<Act>): (st: State)
    ensures Shaped(c, st)
  {
    if |acts| == 0 then Init(c) else Step(c, Exec(c, acts[..|acts| - 1]), acts[|acts| - 1])
  }

  // ---------------------------------------------------------------- the invariant

  /** The answer to client `a` that the server has computed and not yet put into the slot. */
  function PendingFor(v: Server, a: nat): seq<int> {
    if v.pending.Some? && v.pending.value.0 == a then [v.pending.value.1] else []
  }

  ghost predicate ServerOk(c: Config, v: Server) {
    && v.bal == Run(c.accounts, v.log)
    && (v.pending.Some? ==> v.pending.value.0 < c.apps)
    && (forall k :: 0 <= k < |v.log| ==> v.log[k].client < c.apps && v.log[k].op.acc < c.accounts)
  }

  /** A client and a server agree on what was asked, what was answered and what is still under way. */
  ghost predicate PairOk(c: Config, a: nat, s: nat, issued: seq<Op>, heard: seq<int>, awaiting: Option<nat>, v: Server,
                         request: Option<Op>, reply: Option<int>)
  {
    && issued == Requests(v.log, a) + OneOrNone(request)
    && (request.Some? ==> request.value.acc < c.accounts)
    && Answers(c.accounts, v.log, a) == heard + OneOrNone(reply) + PendingFor(v, a)
    && (if awaiting == Some(s) then 1 else 0)
       == (if request.Some? && !request.value.Deposit? then 1 else 0) + |OneOrNone(reply)| + |PendingFor(v, a)|
  }

  ghost predicate Inv(c: Config, st: State)
    requires Shaped(c, st)
  {
    && (forall s :: 0 <= s < c.dsls ==> ServerOk(c, st.servers[s]))
    && (forall a, s :: 0 <= a < c.apps && 0 <= s < c.dsls ==> Agrees(c, st, a, s))
    && (forall a :: 0 <= a < c.apps && st.clients[a].awaiting.Some? ==> st.clients[a].awaiting.value < c.dsls)
  }

  ghost predicate Agrees(c: Config, st: State, a: nat, s: nat)
    requires Shaped(c, st) && a < c.apps && s < c.dsls
  {
    PairOk(c, a, s, st.clients[a].issued[s], st.clients[a].heard[s], st.clients[a].awaiting, st.servers[s],
           st.request[a][s], st.reply[a][s])
  }

  lemma AskKeepsPair(c: Config, st: State, b: nat, r: nat, op: Op, a: nat, s: nat)
    requires Shaped(c, st) && Enabled(c, st, Ask(b, r, op)) && a < c.apps && s < c.dsls && Agrees(c, st, a, s)
    ensures Agrees(c, Step(c, st, Ask(b, r, op)), a, s)
  {
  }

  lemma HearKeepsPair(c: Config, st: State, b: nat, a: nat, s: nat)
    requires Shaped(c, st) && Enabled(c, st, Hear(b)) && a < c.apps && s < c.dsls && Agrees(c, st, a, s)
    ensures Agrees(c, Step(c, st, Hear(b)), a, s)
  {
  }

  lemma ReplyKeepsPair(c: Config, st: State, r: nat, a: nat, s: nat)
    requires Shaped(c, st) && Enabled(c, st, Reply(r)) && a < c.apps && s < c.dsls && Agrees(c, st, a, s)
    ensures Agrees(c, Step(c, st, Reply(r)), a, s)
  {
    var t := Step(c, st, Reply(r));
    if r == s {
      if st.servers[r].pending.value.0 == a {
        assert t.reply[a][s] == Some(st.servers[r].pending.value.1);
      } else {
        assert t.reply[a] == st.reply[a];
      }
    } else {
      assert t.reply[a][s] == st.reply[a][s] && t.servers[s] == st.servers[s];
    }
  }

  /** What processing a request of client `b` does to client `a`'s account of the same server. */
  lemma ProcessedPair(c: Config, a: nat, s: nat, issued: seq<Op>, heard: seq<int>, awaiting: Option<nat>, v: Server,
                      request: Option<Op>, reply: Option<int>, b: nat, op: Op)
    requires PairOk(c, a, s, issued, heard, awaiting, v, request, reply)
    requires |v.bal| == c.accounts && v.bal == Run(c.accounts, v.log) && v.pending.None? && op.acc < c.accounts
    requires a == b ==> request == Some(op)
    ensures var answer := Answer(v.bal, op);
            var w := Server(Apply(v.bal, op), v.log + [Entry(b, op)],
                            if answer.Some? then Some((b, answer.value)) else None);
            PairOk(c, a, s, issued, heard, awaiting, w, if a == b then None else request, reply)
  {
  }

  lemma ProcessKeepsPair(c: Config, st: State, r: nat, b: nat, a: nat, s: nat)
    requires Shaped(c, st) && Enabled(c, st, Process(r, b)) && a < c.apps && s < c.dsls && Agrees(c, st, a, s)
    requires Agrees(c, st, b, r) && ServerOk(c, st.servers[r])
    ensures Agrees(c, Step(c, st, Process(r, b)), a, s)
  {
    if r == s {
      ProcessedPair(c, a, s, st.clients[a].issued[s], st.clients[a].heard[s], st.clients[a].awaiting, st.servers[s],
                    st.request[a][s], st.reply[a][s], b, st.request[b][s].value);
    }
  }

  lemma StepKeepsPair(c: Config, st: State, act: Act, a: nat, s: nat)
    requires Shaped(c, st) && Inv(c, st) && Enabled(c, st, act) && a < c.apps && s < c.dsls
    ensures Agrees(c, Step(c, st, act), a, s)
  {
    assert Agrees(c, st, a, s);
    match act
    case Ask(b, r, op) => AskKeepsPair(c, st, b, r, op, a, s);
    case Hear(b) => HearKeepsPair(c, st, b, a, s);
    case Reply(r) => ReplyKeepsPair(c, st, r, a, s);
    case Process(r, b) =>
      assert Agrees(c, st, b, r);
      ProcessKeepsPair(c, st, r, b, a, s);
  }

  lemma StepKeepsServer(c: Config, st: State, act: Act, s: nat)
    requires Shaped(c, st) && Inv(c, st) && Enabled(c, st, act) && s < c.dsls
    ensures ServerOk(c, Step(c, st, act).servers[s])
  {
    var v := st.servers[s];
    assert ServerOk(c, v);
    if act.Process? && act.s == s {
      assert Agrees(c, st, act.a, s);
      LogAppend(c.accounts, v.log, Entry(act.a, st.request[act.a][s].value), act.a);
    }
  }

  lemma StepKeepsInv(c: Config, st: State, act: Act)
    requires Shaped(c, st) && Inv(c, st)
    ensures Inv(c, Step(c, st, act))
  {
    if Enabled(c, st, act) {
      var t := Step(c, st, act);
      forall a, s | 0 <= a < c.apps && 0 <= s < c.dsls
        ensures Agrees(c, t, a, s)
      {
        StepKeepsPair(c, st, act, a, s);
      }
      forall s | 0 <= s < c.dsls
        ensures ServerOk(c, t.servers[s])
      {
        StepKeepsServer(c, st, act, s);
      }
    }
  }

  lemma {:induction false} ReachableInv(c: Config, acts: seq<Act>)
    ensures Inv(c, Exec(c, acts))
  {
    if |acts| > 0 {
      ReachableInv(c, acts[..|acts| - 1]);
      StepKeepsInv(c, Exec(c, acts[..|acts| - 1]), acts[|acts| - 1]);
    } else {
      forall a, s | 0 <= a < c.apps && 0 <= s < c.dsls
        ensures Agrees(c, Init(c), a, s)
      {
      }
    }
  }

  // ---------------------------------------------------------------- what the program promises

  /**
   Each server refines a sequential bank: in every run its accounts are those of one sequential run over
   its log; for every client that log has the client's requests in program order, all but at most the
   one still in the slot; and the answers the client has heard are those of the sequential run, all
   but at most one, which is missing only while the client waits for it.
   */
  lemma RefinesSequentialBank(c: Config, acts: seq<Act>, a: nat, s: nat)
    requires a < c.apps && s < c.dsls
    ensures var st := Exec(c, acts);
            var log, cl := st.servers[s].log, st.clients[a];
            && st.servers[s].bal == Run(c.accounts, log)
            && Requests(log, a) <= cl.issued[s] && |cl.issued[s]| <= |Requests(log, a)| + 1
            && cl.heard[s] <= Answers(c.accounts, log, a)
            && |Answers(c.accounts, log, a)| <= |cl.heard[s]| + 1
            && (cl.awaiting != Some(s) ==> cl.heard[s] == Answers(c.accounts, log, a))
  {
    ReachableInv(c, acts);
    assert Agrees(c, Exec(c, acts), a, s) && ServerOk(c, Exec(c, acts).servers[s]);
  }

  /** An answer in a slot is the sequential bank's latest answer to that client, who is waiting for it. */
  lemma ReplyIsAwaited(c: Config, acts: seq<Act>, a: nat, s: nat)
    requires a < c.apps && s < c.dsls && Exec(c, acts).reply[a][s].Some?
    ensures var st := Exec(c, acts);
            var answers := Answers(c.accounts, st.servers[s].log, a);
            && Enabled(c, st, Hear(a)) && st.clients[a].awaiting == Some(s)
            && |answers| > 0 && st.reply[a][s].value == answers[|answers| - 1]
            && answers[..|answers| - 1] == st.clients[a].heard[s]
  {
    ReachableInv(c, acts);
    assert Agrees(c, Exec(c, acts), a, s);
  }

  /** A server never has to wait before it can reply. */
  lemma ReplyNeverBlocks(c: Config, acts: seq<Act>, s: nat)
    requires s < c.dsls && Exec(c, acts).servers[s].pending.Some?
    ensures Enabled(c, Exec(c, acts), Reply(s))
  {
    ReachableInv(c, acts);
    var st := Exec(c, acts);
    assert ServerOk(c, st.servers[s]);
    assert Agrees(c, st, st.servers[s].pending.value.0, s);
  }

  /** While a client waits for an answer, something that brings the answer nearer can happen. */
  lemma AnswerIsUnderWay(c: Config, acts: seq<Act>, a: nat) returns (act: Act)
    requires a < c.apps && Exec(c, acts).clients[a].awaiting.Some?
    ensures Enabled(c, Exec(c, acts), act)
    ensures act == Hear(a) || (act.Reply? && Exec(c, acts).clients[a].awaiting == Some(act.s))
         || act == Process(Exec(c, acts).clients[a].awaiting.value, a)
  {
    ReachableInv(c, acts);
    var st := Exec(c, acts);
    var s := st.clients[a].awaiting.value;
    assert Agrees(c, st, a, s) && ServerOk(c, st.servers[s]);
    if st.reply[a][s].Some? {
      act := Hear(a);
    } else if st.servers[s].pending.Some? {
      ReplyNeverBlocks(c, acts, s);
      act := Reply(s);
    } else {
      act := Process(s, a);
    }
  }

  // ---------------------------------------------------------------- what each operation does, and that all gets done

  /** A client that waits for nothing puts any request for a real account into an empty slot. */
  lemma AskPuts(c: Config, st: State, a: nat, s: nat, op: Op)
    requires Shaped(c, st) && a < c.apps && s < c.dsls && op.acc < c.accounts && st.clients[a].awaiting.None?
    ensures var cl, t := st.clients[a], Step(c, st, Ask(a, s, op));
            if st.request[a][s].Some? then
              t == st
            else
              && t.request == st.request[a := st.request[a][s := Some(op)]] && t.reply == st.reply
              && t.servers == st.servers
              && t.clients == st.clients[a := Client(if op.Deposit? then None else Some(s),
                                                     cl.issued[s := cl.issued[s] + [op]], cl.heard)]
  {
  }

  /** A server with no answer to send takes any request of any client out of its slot and processes it. */
  lemma ProcessTakes(c: Config, st: State, s: nat, a: nat)
    requires Shaped(c, st) && s < c.dsls && a < c.apps && st.servers[s].pending.None?
    ensures var v, t := st.servers[s], Step(c, st, Process(s, a));
            if st.request[a][s].None? then
              t == st
            else
              var op := st.request[a][s].value;
              && t.request == st.request[a := st.request[a][s := None]] && t.reply == st.reply
              && t.clients == st.clients
              && t.servers == st.servers[s := t.servers[s]]
              && t.servers[s].log == v.log + [Entry(a, op)] && t.servers[s].bal == Apply(v.bal, op)
              && (t.servers[s].pending.Some? <==> !op.Deposit? && op.acc < c.accounts)
              && (t.servers[s].pending.Some? ==> t.servers[s].pending == Some((a, Answer(v.bal, op).value)))
  {
  }

  /** An answer goes to the client it is for, and a client hears the server it waits for. */
  lemma AnswersTravel(c: Config, st: State, a: nat, s: nat)
    requires Shaped(c, st) && a < c.apps && s < c.dsls
    ensures st.servers[s].pending.Some? && st.servers[s].pending.value.0 == a && st.reply[a][s].None? ==>
              var t := Step(c, st, Reply(s));
              t == st.(reply := st.reply[a := st.reply[a][s := Some(st.servers[s].pending.value.1)]],
                       servers := st.servers[s := st.servers[s].(pending := None)])
    ensures st.clients[a].awaiting == Some(s) && st.reply[a][s].Some? ==>
              var cl, t := st.clients[a], Step(c, st, Hear(a));
              t == st.(reply := st.reply[a := st.reply[a][s := None]],
                       clients := st.clients[a := Client(None, cl.issued,
                                                         cl.heard[s := cl.heard[s] + [st.reply[a][s].value]])])
  {
  }

  /** Nothing is under way between client a and server s. */
  ghost predicate Settled(c: Config, st: State, a: nat, s: nat)
    requires Shaped(c, st) && a < c.apps && s < c.dsls
  {
    st.request[a][s].None? && st.reply[a][s].None? && st.servers[s].pending.None?
  }

  ghost predicate AllSettled(c: Config, st: State)
    requires Shaped(c, st)
  {
    forall a: nat, s: nat :: a < c.apps && s < c.dsls ==> Settled(c, st, a, s)
  }

  /** Steps until what is in the slots of one pair is dealt with. */
  function PairWork(request: Option<Op>, reply: Option<int>): int {
    (if request.Some? then 3 else 0) + (if reply.Some? then 1 else 0)
  }

  function RowWork(c: Config, st: State, a: nat): (xs: seq<int>)
    requires Shaped(c, st) && a < c.apps
    ensures |xs| == c.dsls
    ensures forall s :: 0 <= s < c.dsls ==> xs[s] == PairWork(st.request[a][s], st.reply[a][s])
  {
    seq(c.dsls, s requires 0 <= s < c.dsls => PairWork(st.request[a][s], st.reply[a][s]))
  }

  function SlotWork(c: Config, st: State): (xs: seq<int>)
    requires Shaped(c, st)
    ensures |xs| == c.apps
    ensures forall a :: 0 <= a < c.apps ==> xs[a] == Sum(RowWork(c, st, a))
  {
    seq(c.apps, a requires 0 <= a < c.apps => Sum(RowWork(c, st, a)))
  }

  function ReplyWork(c: Config, st: State): (xs: seq<int>)
    requires Shaped(c, st)
    ensures |xs| == c.dsls
    ensures forall s :: 0 <= s < c.dsls ==> xs[s] == if st.servers[s].pending.Some? then 2 else 0
  {
    seq(c.dsls, s requires 0 <= s < c.dsls => if st.servers[s].pending.Some? then 2 else 0)
  }

  /** Steps until everything asked so far is processed, answered and heard. */
  function Work(c: Config, st: State): int
    requires Shaped(c, st)
  {
    Sum(SlotWork(c, st)) + Sum(ReplyWork(c, st))
  }

  lemma WorkNonNegative(c: Config, st: State)
    requires Shaped(c, st)
    ensures Work(c, st) >= 0
  {
    forall a | 0 <= a < c.apps
      ensures SlotWork(c, st)[a] >= 0
    {
      SumNonNegative(RowWork(c, st, a));
    }
    SumNonNegative(SlotWork(c, st));
    SumNonNegative(ReplyWork(c, st));
  }

  /** A step between a and s changes the work of their slots and of the server's answer, and no other. */
  lemma WorkChanges(c: Config, st: State, t: State, a: nat, s: nat)
    requires Shaped(c, st) && Shaped(c, t) && a < c.apps && s < c.dsls
    requires forall b, r :: 0 <= b < c.apps && 0 <= r < c.dsls && (b != a || r != s) ==>
               t.request[b][r] == st.request[b][r] && t.reply[b][r] == st.reply[b][r]
    requires forall r :: 0 <= r < c.dsls && r != s ==> t.servers[r].pending == st.servers[r].pending
    ensures Work(c, t) == Work(c, st)
                          + PairWork(t.request[a][s], t.reply[a][s]) - PairWork(st.request[a][s], st.reply[a][s])
                          + ReplyWork(c, t)[s] - ReplyWork(c, st)[s]
  {
    assert RowWork(c, t, a) == RowWork(c, st, a)[s := PairWork(t.request[a][s], t.reply[a][s])];
    SumUpdate(RowWork(c, st, a), s, PairWork(t.request[a][s], t.reply[a][s]));
    forall b | 0 <= b < c.apps && b != a
      ensures RowWork(c, t, b) == RowWork(c, st, b)
    {
    }
    assert SlotWork(c, t) == SlotWork(c, st)[a := Sum(RowWork(c, t, a))];
    SumUpdate(SlotWork(c, st), a, Sum(RowWork(c, t, a)));
    assert ReplyWork(c, t) == ReplyWork(c, st)[s := ReplyWork(c, t)[s]];
    SumUpdate(ReplyWork(c, st), s, ReplyWork(c, t)[s]);
  }

  /** Every step but a new request brings the end of what is under way nearer. */
  lemma StepSettles(c: Config, st: State, act: Act)
    requires Shaped(c, st) && Enabled(c, st, act) && !act.Ask?
    ensures Work(c, Step(c, st, act)) < Work(c, st)
  {
    var t := Step(c, st, act);
    match act
    case Hear(a) => WorkChanges(c, st, t, a, st.clients[a].awaiting.value);
    case Process(s, a) => WorkChanges(c, st, t, a, s);
    case Reply(s) => WorkChanges(c, st, t, st.servers[s].pending.value.0, s);
  }

  /** In every run, while anything is under way a step that is no new request is possible. */
  lemma UnsettledMoves(c: Config, acts: seq<Act>, a: nat, s: nat) returns (act: Act)
    requires a < c.apps && s < c.dsls && !Settled(c, Exec(c, acts), a, s)
    ensures !act.Ask? && Enabled(c, Exec(c, acts), act)
  {
    var st := Exec(c, acts);
    if st.servers[s].pending.Some? {
      act := Reply(s);
      ReplyNeverBlocks(c, acts, s);
    } else if st.reply[a][s].Some? {
      act := Hear(a);
      ReplyIsAwaited(c, acts, a, s);
    } else {
      act := Process(s, a);
    }
  }

  /** Every request of client a to server s has been processed, and every answer heard. */
  ghost predicate Done(c: Config, st: State, a: nat, s: nat)
    requires Shaped(c, st) && a < c.apps && s < c.dsls
  {
    && Requests(st.servers[s].log, a) == st.clients[a].issued[s]
    && Answers(c.accounts, st.servers[s].log, a) == st.clients[a].heard[s]
    && st.clients[a].awaiting != Some(s)
  }

  lemma SettledIsDone(c: Config, acts: seq<Act>, a: nat, s: nat)
    requires a < c.apps && s < c.dsls && Settled(c, Exec(c, acts), a, s)
    ensures Done(c, Exec(c, acts), a, s)
  {
    ReachableInv(c, acts);
    assert Agrees(c, Exec(c, acts), a, s);
  }

  lemma OneStepNearer(c: Config, acts: seq<Act>) returns (act: Act)
    requires !AllSettled(c, Exec(c, acts))
    ensures !act.Ask? && 0 <= Work(c, Exec(c, acts + [act])) < Work(c, Exec(c, acts))
  {
    var a: nat, s: nat :| a < c.apps && s < c.dsls && !Settled(c, Exec(c, acts), a, s);
    act := UnsettledMoves(c, acts, a, s);
    StepSettles(c, Exec(c, acts), act);
    assert (acts + [act])[..|acts|] == acts;
    WorkNonNegative(c, Exec(c, acts + [act]));
  }

  lemma {:induction false} EveryRunSettles(c: Config, acts: seq<Act>) returns (rest: seq<Act>)
    ensures forall k :: 0 <= k < |rest| ==> !rest[k].Ask?
    ensures AllSettled(c, Exec(c, acts + rest))
    decreases Work(c, Exec(c, acts))
  {
    if AllSettled(c, Exec(c, acts)) {
      rest := [];
      assert acts + [] == acts;
    } else {
      var act := OneStepNearer(c, acts);
      var more := EveryRunSettles(c, acts + [act]);
      Regroup(acts, act, more);
      rest := [act] + more;
    }
  }

  /**
   Every run can be continued, without a new request, until all slots are empty, every request ever made has been
   processed in its client's order, and every answer has been heard.
   */
  lemma EverythingGetsDone(c: Config, acts: seq<Act>) returns (rest: seq<Act>)
    ensures forall k :: 0 <= k < |rest| ==> !rest[k].Ask?
    ensures forall a: nat, s: nat :: a < c.apps && s < c.dsls ==>
              Settled(c, Exec(c, acts + rest), a, s) && Done(c, Exec(c, acts + rest), a, s)
  {
    rest := EveryRunSettles(c, acts);
    forall a: nat, s: nat | a < c.apps && s < c.dsls
      ensures Done(c, Exec(c, acts + rest), a, s)
    {
      SettledIsDone(c, acts + rest, a, s);
    }
  }

  // ---------------------------------------------------------------- conservation

  function Deposited(ops: seq<Op>): (d: nat) {
    if |ops| == 0 then 0
    else Deposited(ops[..|ops| - 1]) + if ops[|ops| - 1].Deposit? then ops[|ops| - 1].amount else 0
  }

  lemma DepositedAppend(ops: seq<Op>, op: Op)
    ensures Deposited(ops + [op]) == Deposited(ops) + if op.Deposit? then op.amount else 0
  {
  }

  /** What the successful withdrawals of a log took out. */
  function Withdrawn(accounts: nat, log: seq<Entry>): (w: nat) {
    if |log| == 0 then 0
    else
      var before, op := log[..|log| - 1], log[|log| - 1].op;
      Withdrawn(accounts, before)
      + if op.Withdraw? && Answer(Run(accounts, before), op) == Some(1) then op.amount else 0
  }

  function DepositsByClient(log: seq<Entry>, apps: nat): (xs: seq<int>)
    ensures |xs| == apps
  {
    seq(apps, a requires 0 <= a < apps => Deposited(Requests(log, a)))
  }

  /** Over one server's log: balances are what all clients deposited less what was withdrawn, and none is negative. */
  lemma {:induction false} LogConserves(accounts: nat, apps: nat, log: seq<Entry>)
    requires forall k :: 0 <= k < |log| ==> log[k].client < apps && log[k].op.acc < accounts
    ensures Sum(Run(accounts, log)) == Sum(DepositsByClient(log, apps)) - Withdrawn(accounts, log)
    ensures forall i :: 0 <= i < accounts ==> Run(accounts, log)[i] >= 0
  {
    if |log| == 0 {
      SumOfZeros(Run(accounts, log));
      SumOfZeros(DepositsByClient(log, apps));
    } else {
      var before, e := log[..|log| - 1], log[|log| - 1];
      LogConserves(accounts, apps, before);
      var bal := Run(accounts, before);
      SumUpdate(bal, e.op.acc, Run(accounts, log)[e.op.acc]);
      DepositedAppend(Requests(before, e.client), e.op);
      var mine := Deposited(Requests(log, e.client));
      SumUpdate(DepositsByClient(before, apps), e.client, mine);
      forall a | 0 <= a < apps && a != e.client
        ensures DepositsByClient(log, apps)[a] == DepositsByClient(before, apps)[a]
      {
        assert Requests(log, a) == Requests(before, a);
      }
      assert DepositsByClient(log, apps) == DepositsByClient(before, apps)[e.client := mine];
      assert Run(accounts, log) == bal[e.op.acc := Run(accounts, log)[e.op.acc]];
    }
  }

  /** What a log deposited into account `acc`. */
  function DepositedInto(log: seq<Entry>, acc: nat): (d: nat) {
    if |log| == 0 then 0
    else
      var op := log[|log| - 1].op;
      DepositedInto(log[..|log| - 1], acc) + if op.Deposit? && op.acc == acc then op.amount else 0
  }

  /**
   What a log took out of account `acc`: a withdrawal succeeds exactly if what was deposited into the
   account before it, less what was taken out before it, covers the amount.
   */
  function TakenFrom(log: seq<Entry>, acc: nat): (w: nat) {
    if |log| == 0 then 0
    else
      var before, op := log[..|log| - 1], log[|log| - 1].op;
      TakenFrom(before, acc) +
        if op.Withdraw? && op.acc == acc && DepositedInto(before, acc) - TakenFrom(before, acc) >= op.amount
        then op.amount else 0
  }

  /**
   The sequential bank is the one it should be, account by account: a balance is what was deposited into
   that account less what was taken from it, which is also what CHECK answers, and a WITHDRAW is granted
   exactly if that covers it. No other account's requests matter.
   */
  lemma {:induction false} AccountHistory(accounts: nat, log: seq<Entry>, acc: nat)
    requires acc < accounts
    ensures Run(accounts, log)[acc] == DepositedInto(log, acc) - TakenFrom(log, acc) >= 0
    ensures Answer(Run(accounts, log), Check(acc)) == Some(DepositedInto(log, acc) - TakenFrom(log, acc))
    ensures forall amount: nat :: Answer(Run(accounts, log), Withdraw(acc, amount)) ==
              Some(if DepositedInto(log, acc) - TakenFrom(log, acc) >= amount then 1 else 0)
  {
    if |log| > 0 {
      AccountHistory(accounts, log[..|log| - 1], acc);
    }
  }

  lemma {:induction false} SumOfZeros(xs: seq<int>)
    requires forall i :: 0 <= i < |xs| ==> xs[i] == 0
    ensures Sum(xs) == 0
  {
    if |xs| > 0 {
      SumOfZeros(xs[..|xs| - 1]);
    }
  }

  lemma {:induction false} SumOfDifferences(xs: seq<int>, ys: seq<int>, zs: seq<int>)
    requires |xs| == |ys| == |zs|
    requires forall i :: 0 <= i < |xs| ==> xs[i] == ys[i] - zs[i]
    ensures Sum(xs) == Sum(ys) - Sum(zs)
  {
    if |xs| > 0 {
      SumOfDifferences(xs[..|xs| - 1], ys[..|xs| - 1], zs[..|xs| - 1]);
    }
  }

  /** What client by client was deposited with server `s`, and how much of it is still in the slots. */
  ghost function Sent(c: Config, st: State, s: nat): (xs: seq<int>)
    requires Shaped(c, st) && s < c.dsls
    ensures |xs| == c.apps
  {
    seq(c.apps, a requires 0 <= a < c.apps => Deposited(st.clients[a].issued[s]))
  }

  ghost function InSlots(c: Config, st: State, s: nat): (xs: seq<int>)
    requires Shaped(c, st) && s < c.dsls
    ensures |xs| == c.apps
  {
    seq(c.apps, a requires 0 <= a < c.apps => Deposited(OneOrNone(st.request[a][s])))
  }

  /**
   Conservation in every run: a server's balances add up to the deposits sent to it, less those still in
   its slots, less the successful withdrawals; and no balance is negative.
   */
  lemma Conservation(c: Config, acts: seq<Act>, s: nat)
    requires s < c.dsls
    ensures var st := Exec(c, acts);
            && Sum(st.servers[s].bal)
               == Sum(Sent(c, st, s)) - Sum(InSlots(c, st, s)) - Withdrawn(c.accounts, st.servers[s].log)
            && forall i :: 0 <= i < c.accounts ==> st.servers[s].bal[i] >= 0
  {
    ReachableInv(c, acts);
    var st := Exec(c, acts);
    var log := st.servers[s].log;
    assert ServerOk(c, st.servers[s]);
    LogConserves(c.accounts, c.apps, log);
    forall a | 0 <= a < c.apps
      ensures DepositsByClient(log, c.apps)[a] == Sent(c, st, s)[a] - InSlots(c, st, s)[a]
    {
      assert Agrees(c, st, a, s);
      var slot := st.request[a][s];
      if slot.Some? {
        DepositedAppend(Requests(log, a), slot.value);
        DepositedAppend([], slot.value);
        assert [] + [slot.value] == OneOrNone(slot);
      } else {
        assert Requests(log, a) + [] == Requests(log, a);
      }
    }
    SumOfDifferences(DepositsByClient(log, c.apps), Sent(c, st, s), InSlots(c, st, s));
  }

  lemma {:induction false} ElementBelowSum(xs: seq<int>, i: nat)
    requires i < |xs| && forall k :: 0 <= k < |xs| ==> xs[k] >= 0
    ensures xs[i] <= Sum(xs)
  {
    var last := |xs| - 1;
    SumNonNegative(xs[..last]);
    if i < last {
      ElementBelowSum(xs[..last], i);
    }
  }

  /** As long as fewer than 2^31 units were ever deposited with a server, its 32-bit balances cannot overflow. */
  lemma NoOverflow(c: Config, acts: seq<Act>, s: nat, i: nat)
    requires s < c.dsls && i < c.accounts && Sum(Sent(c, Exec(c, acts), s)) <= INT32_MAX
    ensures 0 <= Exec(c, acts).servers[s].bal[i] <= INT32_MAX
  {
    Conservation(c, acts, s);
    var st := Exec(c, acts);
    SumNonNegative(InSlots(c, st, s));
    ElementBelowSum(st.servers[s].bal, i);
  }

  // ---------------------------------------------------------------- the server in memory

  /** The accounts a server owns, updated in place by its loop. */
  class Accounts {
    const balance: array<int>

    constructor (accounts: nat)
      ensures fresh(balance) && balance[..] == Run(accounts, [])
    {
      balance := new int[accounts](_ => 0);
    }

    /** The switch of the server loop; the additions are 32 bits wide. */
    method Serve(op: Op) returns (reply: Option<int>)
      requires op.acc < balance.Length
      modifies balance
      ensures reply == Answer(old(balance[..]), op)
      ensures -INT32_MAX <= old(balance[op.acc]) <= INT32_MAX
              && (op.Deposit? ==> old(balance[op.acc]) + op.amount <= INT32_MAX) ==>
                balance[..] == Apply(old(balance[..]), op)
    {
      reply := None;
      match op
      case Deposit(acc, amount) =>
        balance[acc] := ToInt32(balance[acc] + amount);
      case Withdraw(acc, amount) =>
        var successful := 0;
        if balance[acc] >= amount {
          balance[acc] := ToInt32(balance[acc] - amount);
          successful := 1;
        }
        reply := Some(successful);
      case Check(acc) =>
        reply := Some(balance[acc]);
    }
  }
}
