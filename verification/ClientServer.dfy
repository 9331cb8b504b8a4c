/**
 The client/server benchmark: every client sends `msgs` numbered messages round robin to the servers;
 a server counts the low numbers and leaves when it has seen one from every client.

 Slots are the one-place channels of the Channel module. Each server takes from whichever client the
 schedule names, which covers every order its scan can produce.
 */
module ClientServer {
  import opened Common
  import Arith

  /** `roundTrip` selects the variant in which the server echoes and the client waits for the echo. */
  datatype Config = Config(apps: nat, dsls: nat, msgs: nat, roundTrip: bool)

  ghost predicate Sound(c: Config) {
    c.dsls >= 1 && c.msgs < UINT32
  }

  /** What an unsigned comparison reads from a signed 32-bit field. */
  function ToUint32(v: int): int {
    v % UINT32
  }

  /** The server, by its place in `dsl_seq`, that gets the client's message number `t`, counted from 0. */
  function Dest(dsls: nat, t: nat): (s: nat)
    requires dsls > 0
    ensures s < dsls
  {
    if t == 0 then 0 else (t - 1) % dsls
  }

  /** Server 0 first, then all servers in turn from server 0 on, and so on round. */
  lemma RoundRobin(dsls: nat)
    requires dsls > 0
    ensures Dest(dsls, 0) == 0
    ensures forall t: nat :: 1 <= t <= dsls ==> Dest(dsls, t) == t - 1
    ensures forall t: nat :: 1 <= t ==> Dest(dsls, t + dsls) == Dest(dsls, t)
  {
    forall t: nat | 1 <= t
      ensures t <= dsls ==> Dest(dsls, t) == t - 1
      ensures Dest(dsls, t + dsls) == Dest(dsls, t)
    {
      var q, r := (t - 1) / dsls, (t - 1) % dsls;
      Arith.DivMod(t - 1, dsls);
      assert (q + 1) * dsls == q * dsls + dsls;
      Arith.ModUnique(t + dsls - 1, dsls, q + 1, r);
      if t <= dsls {
        Arith.ModUnique(t - 1, dsls, 0, t - 1);
      }
    }
  }

  /** The payload of message number `t`. */
  function Payload(c: Config, t: nat): int {
    ToInt32(c.msgs - 1 - t)
  }

  /** A payload the server counts towards termination. */
  predicate Low(c: Config, w: int) {
    ToUint32(w) < c.dsls
  }

  // ---------------------------------------------------------------- the sequential client

  /** The ids of the servers, built by the set-up loop, with the number of servers and of clients. */
  method BuildDslSeq(procs: nat, perCore: nat) returns (seqs: array<nat>, dsls: nat, apps: nat)
    requires perCore > 0 && procs < 256
    ensures fresh(seqs) && seqs.Length == 256
    ensures dsls + apps == procs && dsls <= 256
    ensures forall i :: 0 <= i < dsls ==> seqs[i] == i * perCore < procs
    ensures forall id :: 0 <= id < procs && id % perCore == 0 ==> id / perCore < dsls && seqs[id / perCore] == id
    ensures forall i :: dsls <= i < 256 ==> seqs[i] == 0
  {
    seqs := new nat[256](_ => 0);
    dsls, apps := 0, 0;
    var j := 0;
    while j < procs
      invariant 0 <= j <= procs
      invariant dsls + apps == j
      invariant (dsls - 1) * perCore < j <= dsls * perCore
      invariant forall i :: 0 <= i < dsls ==> seqs[i] == i * perCore < j
      invariant forall i :: dsls <= i < 256 ==> seqs[i] == 0
    {
      Arith.NextMultiple(j, dsls, perCore);
      if j % perCore == 0 {
        seqs[dsls] := j;
        dsls := dsls + 1;
      } else {
        apps := apps + 1;
      }
      j := j + 1;
    }
    forall id | 0 <= id < procs && id % perCore == 0
      ensures id / perCore < dsls && seqs[id / perCore] == id
    {
      Arith.MultipleBelow(id, dsls, perCore);
    }
  }

  /** What a client's message buffer holds after its exchange number `t`, given the echoes. */
  function AfterExchange(c: Config, echoes: seq<int>, t: nat): int {
    if c.roundTrip && t < |echoes| then echoes[t] else Payload(c, t)
  }

  /** The exchanges among the first `t` after which the buffer does not hold the counter. */
  function Mismatches(c: Config, echoes: seq<int>, t: nat): nat {
    if t == 0 then 0
    else Mismatches(c, echoes, t - 1) + if AfterExchange(c, echoes, t - 1) != c.msgs - t then 1 else 0
  }

  /**
   What one client does, message by message: to which id it sends, and what, and how many failed ping-pongs
   it reports when its receives return `echoes`.
   */
  method ClientLoop(c: Config, seqs: array<nat>, echoes: seq<int>) returns (trace: seq<(nat, int)>, failed: nat)
    requires Sound(c) && seqs.Length == 256 && c.dsls <= 256 && seqs[0] == 0
    requires c.roundTrip ==> |echoes| == c.msgs
    ensures |trace| == c.msgs
    ensures forall t :: 0 <= t < c.msgs ==> trace[t] == (seqs[Dest(c.dsls, t)], Payload(c, t))
    ensures c.msgs > 0 ==> trace[0].0 == 0
    ensures forall t :: 1 <= t <= c.dsls && t < c.msgs ==> trace[t].0 == seqs[t - 1]
    ensures forall t :: 1 <= t && t + c.dsls < c.msgs ==> trace[t + c.dsls].0 == trace[t].0
    ensures failed == Mismatches(c, echoes, c.msgs)
  {
    var to, toIdx := 0, 0;
    var left: int := c.msgs;
    trace, failed := [], 0;
    while left > 0
      invariant 0 <= left <= c.msgs && |trace| == c.msgs - left
      invariant toIdx == |trace| % c.dsls
      invariant to == seqs[Dest(c.dsls, |trace|)]
      invariant forall t :: 0 <= t < |trace| ==> trace[t] == (seqs[Dest(c.dsls, t)], Payload(c, t))
      invariant failed == Mismatches(c, echoes, |trace|)
    {
      left := left - 1;
      var word := ToInt32(left);
      if c.roundTrip {
        trace, word := trace + [(to, word)], echoes[|trace|];
      } else {
        trace := trace + [(to, word)];
      }
      to := seqs[toIdx];
      toIdx := toIdx + 1;
      Arith.NextMod(|trace| - 1, c.dsls);
      if toIdx == c.dsls {
        toIdx := 0;
      }
      if word != left {
        failed := failed + 1;
      }
    }
    TraceGoesRound(c, seqs[..], trace);
  }

  lemma TraceGoesRound(c: Config, seqs: seq<nat>, trace: seq<(nat, int)>)
    requires Sound(c) && |seqs| == 256 && c.dsls <= 256 && seqs[0] == 0 && |trace| == c.msgs
    requires forall t :: 0 <= t < c.msgs ==> trace[t].0 == seqs[Dest(c.dsls, t)]
    ensures c.msgs > 0 ==> trace[0].0 == 0
    ensures forall t :: 1 <= t <= c.dsls && t < c.msgs ==> trace[t].0 == seqs[t - 1]
    ensures forall t :: 1 <= t && t + c.dsls < c.msgs ==> trace[t + c.dsls].0 == trace[t].0
  {
    RoundRobin(c.dsls);
    forall t | 1 <= t && t + c.dsls < c.msgs
      ensures trace[t + c.dsls].0 == trace[t].0
    {
      assert Dest(c.dsls, t + c.dsls) == Dest(c.dsls, t);
    }
  }

  /** Echoes that return what was sent, as `TripOk` has it in every run, fail only for numbers beyond 31 bits. */
  lemma {:induction false} TrueEchoesMatch(c: Config, echoes: seq<int>, t: nat)
    requires Sound(c) && t <= c.msgs
    requires c.roundTrip ==> |echoes| == c.msgs && forall u :: 0 <= u < c.msgs ==> echoes[u] == Payload(c, u)
    ensures Mismatches(c, echoes, t) == 0 <==> t == 0 || c.msgs <= INT32_MAX + 1
  {
    if t > 0 {
      TrueEchoesMatch(c, echoes, t - 1);
    }
  }

  // ---------------------------------------------------------------- what a client sends to one server

  /** Payloads addressed to server `s` among the client's first `t` messages, in order. */
  function Addressed(c: Config, s: nat, t: nat): seq<int>
    requires c.dsls > 0
  {
    if t == 0 then []
    else Addressed(c, s, t - 1) + if Dest(c.dsls, t - 1) == s then [Payload(c, t - 1)] else []
  }

  lemma {:induction false} AddressedPrefix(c: Config, s: nat, t: nat, u: nat)
    requires c.dsls > 0 && t <= u
    ensures Addressed(c, s, t) <= Addressed(c, s, u)
  {
    if t < u {
      AddressedPrefix(c, s, t, u - 1);
    }
  }

  /** All that a client ever sends to server `s`. */
  function Share(c: Config, s: nat): seq<int>
    requires c.dsls > 0
  {
    Addressed(c, s, c.msgs)
  }

  /** Every server gets a low message from each client. */
  predicate EnoughMessages(c: Config) {
    c.msgs > c.dsls || (c.dsls == 1 && c.msgs == 1)
  }

  /** The configurations in which the termination rule works. */
  predicate Balanced(c: Config) {
    c.apps >= 1 && EnoughMessages(c)
  }

  lemma LowPayload(c: Config, t: nat)
    requires Sound(c) && t < c.msgs
    ensures Low(c, Payload(c, t)) <==> t + c.dsls >= c.msgs
  {
  }

  /** Among the last `dsls` messages of a client that sends enough exactly one goes to each server. */
  lemma LastTurn(c: Config, s: nat) returns (u: nat)
    requires Sound(c) && EnoughMessages(c) && s < c.dsls
    ensures c.msgs - c.dsls <= u < c.msgs && Dest(c.dsls, u) == s
    ensures forall t: nat :: c.msgs - c.dsls <= t < c.msgs && t != u ==> Dest(c.dsls, t) != s
  {
    var d := c.dsls;
    if c.msgs == 1 {
      u := 0;
    } else {
      // the window of t - 1 is lo .. lo + d - 1
      var lo := c.msgs - d - 1;
      var q, r := lo / d, lo % d;
      assert lo == q * d + r;
      var x := if s >= r then q * d + s else (q + 1) * d + s;
      assert (q + 1) * d == q * d + d;
      Arith.ModUnique(x, d, if s >= r then q else q + 1, s);
      assert lo <= x < lo + d;
      u := x + 1;
      forall t: nat | c.msgs - d <= t < c.msgs && t != u
        ensures Dest(d, t) != s
      {
        if (t - 1) % d == s {
          Arith.SameResidue(t - 1, x, d);
        }
      }
    }
  }

  /** Up to message `t`, the low payloads addressed to `s` are just the one of its last turn `u`, at the end. */
  lemma {:induction false} LowsSoFar(c: Config, s: nat, t: nat, u: nat)
    requires Sound(c) && s < c.dsls && t <= c.msgs && u < c.msgs
    requires c.msgs - c.dsls <= u && Dest(c.dsls, u) == s
    requires forall v: nat :: c.msgs - c.dsls <= v < c.msgs && v != u ==> Dest(c.dsls, v) != s
    ensures EndsLow(c, Addressed(c, s, t), t > u)
  {
    if t > 0 {
      LowsSoFar(c, s, t - 1, u);
      LowPayload(c, t - 1);
      if t - 1 > u {
        assert Dest(c.dsls, t - 1) != s;
      } else if Dest(c.dsls, t - 1) == s {
        EndsLowAppend(c, Addressed(c, s, t - 1), Payload(c, t - 1));
      }
    }
  }

  /** No payload is low except, if `yes`, the last one. */
  ghost predicate EndsLow(c: Config, a: seq<int>, yes: bool) {
    && (yes ==> |a| > 0)
    && forall k :: 0 <= k < |a| ==> (Low(c, a[k]) <==> yes && k == |a| - 1)
  }

  lemma EndsLowAppend(c: Config, a: seq<int>, w: int)
    requires EndsLow(c, a, false)
    ensures EndsLow(c, a + [w], Low(c, w))
  {
  }

  /**
   With enough messages each client's share for each server ends with its one low payload, and
   no other payload in it is low.
   */
  lemma ShareEndsLow(c: Config, s: nat)
    requires Sound(c) && EnoughMessages(c) && s < c.dsls
    ensures |Share(c, s)| > 0
    ensures forall k :: 0 <= k < |Share(c, s)| ==> (Low(c, Share(c, s)[k]) <==> k == |Share(c, s)| - 1)
  {
    var u := LastTurn(c, s);
    LowsSoFar(c, s, c.msgs, u);
  }

  lemma {:induction false} NothingForLast(c: Config, t: nat)
    requires c.dsls > 1 && t <= c.dsls
    ensures Addressed(c, c.dsls - 1, t) == []
  {
    if t > 0 {
      NothingForLast(c, t - 1);
      if t > 1 {
        Arith.ModUnique(t - 2, c.dsls, 0, t - 2);
      }
    }
  }

  /** With fewer the last server is sent nothing at all. */
  lemma UnbalancedStarves(c: Config)
    requires Sound(c) && !EnoughMessages(c)
    ensures Share(c, c.dsls - 1) == []
  {
    if c.dsls > 1 {
      NothingForLast(c, c.msgs);
    }
  }

  // ---------------------------------------------------------------- the concurrent program

  /** A client: messages completed, whether it waits for an echo, and whether it reported a failed ping-pong. */
  datatype Client = Client(done: nat, awaiting: bool, reported: bool)

  datatype Phase = Serving | Replying(to: nat, w: int) | Left

  /** A server: what it took from each client so far, and its countdown. */
  datatype Server = Server(got: seq<seq<int>>, zeros: int, phase: Phase)

  /** `request[a][s]` is the slot from client a to server s, `reply[a][s]` the slot back. */
  datatype State = State(clients: seq<Client>, servers: seq<Server>,
                         request: seq<seq<Option<int>>>, reply: seq<seq<Option<int>>>)

  datatype Act =
    | Send(a: nat)           // client a tries to send its next message
    | Collect(a: nat)        // client a tries to receive the echo
    | Take(s: nat, a: nat)   // server s tests the slot of client a
    | Reply(s: nat)          // server s tries to send the echo

  predicate Shaped(c: Config, st: State) {
    && |st.clients| == |st.request| == |st.reply| == c.apps
    && |st.servers| == c.dsls
    && (forall a :: 0 <= a < c.apps ==> |st.request[a]| == |st.reply[a]| == c.dsls)
    && (forall s :: 0 <= s < c.dsls ==> |st.servers[s].got| == c.apps)
  }

  function Init(c: Config): (st: State)
    ensures Shaped(c, st)
  {
    State(seq(c.apps, a => Client(0, false, false)),
          seq(c.dsls, s => Server(seq(c.apps, a => []), c.apps, Serving)),
          seq(c.apps, a => seq(c.dsls, s => None)),
          seq(c.apps, a => seq(c.dsls, s => None)))
  }

  /** The server's loop body after a message: count it if it is low, and leave at zero. */
  function Counted(c: Config, v: Server, w: int): Server {
    if Low(c, w) then
      v.(zeros := v.zeros - 1, phase := if v.zeros == 1 then Left else Serving)
    else
      v.(phase := Serving)
  }

  predicate Enabled(c: Config, st: State, act: Act)
    requires Shaped(c, st)
  {
    match act
    case Send(a) =>
      a < c.apps && c.dsls > 0 && !st.clients[a].awaiting && st.clients[a].done < c.msgs
      && st.request[a][Dest(c.dsls, st.clients[a].done)].None?
    case Collect(a) =>
      a < c.apps && c.dsls > 0 && st.clients[a].awaiting && st.reply[a][Dest(c.dsls, st.clients[a].done)].Some?
    case Take(s, a) =>
      s < c.dsls && a < c.apps && st.servers[s].phase.Serving? && st.request[a][s].Some?
    case Reply(s) =>
      s < c.dsls && st.servers[s].phase.Replying? && st.servers[s].phase.to < c.apps
      && st.reply[st.servers[s].phase.to][s].None?
  }

  /** The client's loop body after its exchange: compare what the message buffer holds with the counter. */
  function Compared(c: Config, cl: Client, w: int): Client {
    Client(cl.done + 1, false, cl.reported || w != c.msgs - 1 - cl.done)
  }

  function Step(c: Config, st: State, act: Act): (t: State)
    requires Shaped(c, st)
    ensures Shaped(c, t)
  {
    if !Enabled(c, st, act) then st
    else match act
      case Send(a) =>
        var cl := st.clients[a];
        var s, w := Dest(c.dsls, cl.done), Payload(c, cl.done);
        st.(request := st.request[a := st.request[a][s := Some(w)]],
            clients := st.clients[a := if c.roundTrip then cl.(awaiting := true) else Compared(c, cl, w)])
      case Collect(a) =>
        var cl := st.clients[a];
        var s := Dest(c.dsls, cl.done);
        st.(reply := st.reply[a := st.reply[a][s := None]],
            clients := st.clients[a := Compared(c, cl, st.reply[a][s].value)])
      case Take(s, a) =>
        var w := st.request[a][s].value;
        var v := st.servers[s].(got := st.servers[s].got[a := st.servers[s].got[a] + [w]]);
        st.(request := st.request[a := st.request[a][s := None]],
            servers := st.servers[s := if c.roundTrip then v.(phase := Replying(a, w)) else Counted(c, v, w)])
      case Reply(s) =>
        var v := st.servers[s];
        var a, w := v.phase.to, v.phase.w;
        st.(reply := st.reply[a := st.reply[a][s := Some(w)]],
            servers := st.servers[s := Counted(c, v, w)])
  }

  function Exec(c: Config, acts: seq<Act>): (st: State)
    ensures Shaped(c, st)
  {
    if |acts| == 0 then Init(c) else Step(c, Exec(c, acts[..|acts| - 1]), acts[|acts| - 1])
  }

  // ---------------------------------------------------------------- what each operation does, in any configuration

  /** Low payloads among messages a server has received. */
  function Lows(c: Config, inbox: seq<int>): (n: nat)
    ensures n <= |inbox|
  {
    if |inbox| == 0 then 0 else Lows(c, inbox[..|inbox| - 1]) + if Low(c, inbox[|inbox| - 1]) then 1 else 0
  }

  function LowsTaken(c: Config, v: Server): (xs: seq<int>)
    ensures |xs| == |v.got|
    ensures forall a :: 0 <= a < |v.got| ==> xs[a] == Lows(c, v.got[a])
  {
    seq(|v.got|, a requires 0 <= a < |v.got| => Lows(c, v.got[a]))
  }

  /** A low payload that has been taken and is yet to be echoed and counted. */
  function Uncounted(c: Config, v: Server): int {
    if v.phase.Replying? && Low(c, v.phase.w) then 1 else 0
  }

  /** The countdown is what it should be, and the loop is left when it comes to zero. */
  ghost predicate CountsDown(c: Config, v: Server) {
    && v.zeros == c.apps - Sum(LowsTaken(c, v)) + Uncounted(c, v)
    && (v.phase.Left? <==> v.zeros == 0 && c.apps > 0)
  }

  lemma {:induction false} NoLows(c: Config, xs: seq<int>)
    requires forall k :: 0 <= k < |xs| ==> xs[k] == 0
    ensures Sum(xs) == 0
  {
    if |xs| > 0 {
      NoLows(c, xs[..|xs| - 1]);
    }
  }

  lemma TakenCounts(c: Config, v: Server, u: Server, a: nat, w: int)
    requires a < |v.got| && u.got == v.got[a := v.got[a] + [w]]
    ensures Sum(LowsTaken(c, u)) == Sum(LowsTaken(c, v)) + if Low(c, w) then 1 else 0
  {
    assert (v.got[a] + [w])[..|v.got[a]|] == v.got[a];
    assert LowsTaken(c, u) == LowsTaken(c, v)[a := Lows(c, v.got[a] + [w])];
    SumUpdate(LowsTaken(c, v), a, Lows(c, v.got[a] + [w]));
  }

  lemma StepCountsDown(c: Config, st: State, act: Act, s: nat)
    requires Sound(c) && Shaped(c, st) && s < c.dsls && CountsDown(c, st.servers[s])
    ensures CountsDown(c, Step(c, st, act).servers[s])
  {
    if Enabled(c, st, act) && act.Take? && act.s == s {
      TakenCounts(c, st.servers[s], Step(c, st, act).servers[s], act.a, st.request[act.a][s].value);
    }
    if Enabled(c, st, act) && act.Reply? && act.s == s {
      assert LowsTaken(c, Step(c, st, act).servers[s]) == LowsTaken(c, st.servers[s]);
    }
  }

  /**
   In every run of every configuration a server's countdown is the number of clients less the low numbers it has
   taken (one that it is about to echo not yet counted), and it has left exactly if that has come to zero.
   */
  lemma {:induction false} CountdownIsExact(c: Config, acts: seq<Act>, s: nat)
    requires Sound(c) && s < c.dsls
    ensures CountsDown(c, Exec(c, acts).servers[s])
  {
    if |acts| == 0 {
      NoLows(c, LowsTaken(c, Init(c).servers[s]));
    } else {
      CountdownIsExact(c, acts[..|acts| - 1], s);
      StepCountsDown(c, Exec(c, acts[..|acts| - 1]), acts[|acts| - 1], s);
    }
  }

  /**
   A client that has messages left and waits for no echo puts the next one into an empty slot: the first goes to
   server 0, and after that it is the servers' turn one by one. In the round trip it then waits for the echo.
   */
  lemma SendPuts(c: Config, st: State, a: nat)
    requires Sound(c) && Shaped(c, st) && a < c.apps && st.clients[a].done < c.msgs && !st.clients[a].awaiting
    ensures var done, t := st.clients[a].done, Step(c, st, Send(a));
            var s := if done == 0 then 0 else (done - 1) % c.dsls;
            if st.request[a][s].Some? then
              t == st
            else
              && t.request == st.request[a := st.request[a][s := Some(ToInt32(c.msgs - 1 - done))]]
              && t.reply == st.reply && t.servers == st.servers
              && t.clients == st.clients[a := t.clients[a]] && Issued(t.clients[a]) == done + 1
              && t.clients[a].awaiting == c.roundTrip
  {
  }

  /** A client that waits takes the echo out of the slot of the server it sent to, and goes on. */
  lemma CollectTakes(c: Config, st: State, a: nat)
    requires Sound(c) && Shaped(c, st) && a < c.apps && st.clients[a].awaiting
    ensures var done, t := st.clients[a].done, Step(c, st, Collect(a));
            var s := if done == 0 then 0 else (done - 1) % c.dsls;
            if st.reply[a][s].None? then
              t == st
            else
              && t.reply == st.reply[a := st.reply[a][s := None]] && t.request == st.request && t.servers == st.servers
              && t.clients == st.clients[a := t.clients[a]] && t.clients[a].done == done + 1 && !t.clients[a].awaiting
              && (t.clients[a].reported <==> st.clients[a].reported || st.reply[a][s] != Some(c.msgs - 1 - done))
  {
  }

  /** A server in its loop takes a message from any client that has one for it; in the round trip it will echo it. */
  lemma TakeTakes(c: Config, st: State, s: nat, a: nat)
    requires Sound(c) && Shaped(c, st) && s < c.dsls && a < c.apps && st.servers[s].phase.Serving?
    ensures var v, t := st.servers[s], Step(c, st, Take(s, a));
            if st.request[a][s].None? then
              t == st
            else
              var w := st.request[a][s].value;
              && t.request == st.request[a := st.request[a][s := None]] && t.reply == st.reply
              && t.clients == st.clients
              && t.servers == st.servers[s := t.servers[s]] && t.servers[s].got == v.got[a := v.got[a] + [w]]
              && (if c.roundTrip then t.servers[s].phase == Replying(a, w) && t.servers[s].zeros == v.zeros
                  else Tallying(c, v, t.servers[s], w))
  {
  }

  /** The echo goes back to the client the message came from, and then the server counts it. */
  lemma ReplyPuts(c: Config, st: State, s: nat)
    requires Sound(c) && Shaped(c, st) && s < c.dsls && st.servers[s].phase.Replying? && st.servers[s].phase.to < c.apps
    ensures var v, t := st.servers[s], Step(c, st, Reply(s));
            var a, w := v.phase.to, v.phase.w;
            if st.reply[a][s].Some? then
              t == st
            else
              && t.reply == st.reply[a := st.reply[a][s := Some(w)]] && t.request == st.request
              && t.clients == st.clients && t.servers == st.servers[s := t.servers[s]]
              && t.servers[s].got == v.got && Tallying(c, v, t.servers[s], w)
  {
  }

  /** The countdown goes down for numbers that read, unsigned, below the number of servers; zero ends the loop. */
  predicate Tallying(c: Config, v: Server, u: Server, w: int) {
    && u.zeros == v.zeros - (if 0 <= w % UINT32 < c.dsls then 1 else 0)
    && u.phase == if u.zeros == 0 && u.zeros != v.zeros then Left else Serving
  }

  // ---------------------------------------------------------------- the invariant

  /** Messages client `cl` has put into slots. */
  function Issued(cl: Client): nat {
    cl.done + if cl.awaiting then 1 else 0
  }

  /** What a client sent to a server is what the server took, followed by what is in the slot. */
  ghost predicate PairOk(c: Config, s: nat, cl: Client, slot: Option<int>, got: seq<int>)
    requires c.dsls > 0
  {
    got + OneOrNone(slot) == Addressed(c, s, Issued(cl))
  }

  /** In the round trip, where the message a client is waiting for has got to. */
  ghost predicate TripOk(c: Config, a: nat, s: nat, cl: Client, v: Server, request: Option<int>, reply: Option<int>)
    requires c.dsls > 0
  {
    var out := cl.awaiting && Dest(c.dsls, cl.done) == s;
    var replying := v.phase.Replying? && v.phase.to == a;
    && (out ==> (if request.Some? then 1 else 0) + (if replying then 1 else 0) + (if reply.Some? then 1 else 0) == 1)
    && (!out && c.roundTrip ==> request.None?)
    && (!out ==> !replying && reply.None?)
    && (replying ==> v.phase.w == Payload(c, cl.done))
    && (reply.Some? ==> reply.value == Payload(c, cl.done))
  }

  ghost predicate ClientOk(c: Config, cl: Client) {
    && Issued(cl) <= c.msgs
    && (cl.awaiting ==> c.roundTrip)
    && (cl.reported <==> cl.done >= 1 && c.msgs - 1 > INT32_MAX)
  }

  /** Client `a`'s countable message has been taken and counted. */
  predicate Tallied(c: Config, s: nat, v: Server, a: nat)
    requires c.dsls > 0 && a < |v.got|
  {
    |v.got[a]| == |Share(c, s)| && !(v.phase.Replying? && v.phase.to == a)
  }

  function Tallies(c: Config, s: nat, v: Server): (bs: seq<bool>)
    requires c.dsls > 0
    ensures |bs| == |v.got|
    ensures forall a :: 0 <= a < |v.got| ==> bs[a] == Tallied(c, s, v, a)
  {
    seq(|v.got|, a requires 0 <= a < |v.got| => Tallied(c, s, v, a))
  }

  ghost predicate ServerOk(c: Config, s: nat, v: Server)
    requires c.dsls > 0
  {
    && (v.phase.Replying? ==> c.roundTrip && v.phase.to < c.apps && v.phase.to < |v.got|
                              && |v.got[v.phase.to]| > 0 && v.got[v.phase.to][|v.got[v.phase.to]| - 1] == v.phase.w)
    && (Balanced(c) ==>
          && v.zeros == c.apps - Count(Tallies(c, s, v))
          && (v.phase.Left? <==> v.zeros == 0))
    && (c.apps == 0 || (!EnoughMessages(c) && s == c.dsls - 1) ==> v == Server(v.got, c.apps, Serving))
  }

  ghost predicate Inv(c: Config, st: State)
    requires Sound(c) && Shaped(c, st)
  {
    && (forall a :: 0 <= a < c.apps ==> ClientOk(c, st.clients[a]))
    && (forall s :: 0 <= s < c.dsls ==> ServerOk(c, s, st.servers[s]))
    && (forall a: nat, s: nat :: a < c.apps && s < c.dsls ==> Matched(c, st, a, s))
  }

  /** Client `a` and server `s` agree on what is done and what is under way. */
  ghost predicate Matched(c: Config, st: State, a: nat, s: nat)
    requires Sound(c) && Shaped(c, st) && a < c.apps && s < c.dsls
  {
    && PairOk(c, s, st.clients[a], st.request[a][s], st.servers[s].got[a])
    && TripOk(c, a, s, st.clients[a], st.servers[s], st.request[a][s], st.reply[a][s])
  }

  lemma InitHolds(c: Config)
    requires Sound(c)
    ensures Inv(c, Init(c))
  {
    forall s | 0 <= s < c.dsls
      ensures ServerOk(c, s, Init(c).servers[s])
    {
      if Balanced(c) {
        ShareEndsLow(c, s);
        CountZero(Tallies(c, s, Init(c).servers[s]));
      }
    }
  }

  /** The next message a server takes from a client is low exactly when it completes that client's share. */
  lemma LowCompletesShare(c: Config, s: nat, cl: Client, got: seq<int>, w: int)
    requires Sound(c) && Balanced(c) && s < c.dsls && Issued(cl) <= c.msgs
    requires got + [w] <= Addressed(c, s, Issued(cl))
    ensures |got| < |Share(c, s)| && (Low(c, w) <==> |got| + 1 == |Share(c, s)|)
  {
    AddressedPrefix(c, s, Issued(cl), c.msgs);
    ShareEndsLow(c, s);
    assert Share(c, s)[|got|] == (got + [w])[|got|] == w;
  }

  lemma TallyChange(c: Config, s: nat, v: Server, x: Server, a: nat)
    requires c.dsls > 0 && a < |v.got| == |x.got|
    requires forall b :: 0 <= b < |v.got| && b != a ==> Tallied(c, s, x, b) == Tallied(c, s, v, b)
    ensures Count(Tallies(c, s, x)) ==
            Count(Tallies(c, s, v)) - (if Tallied(c, s, v, a) then 1 else 0) + (if Tallied(c, s, x, a) then 1 else 0)
  {
    assert Tallies(c, s, x) == Tallies(c, s, v)[a := Tallied(c, s, x, a)];
    CountUpdate(Tallies(c, s, v), a, Tallied(c, s, x, a));
  }

  lemma SendKeepsInv(c: Config, st: State, a: nat)
    requires Sound(c) && Shaped(c, st) && Inv(c, st) && Enabled(c, st, Send(a))
    ensures Inv(c, Step(c, st, Send(a)))
  {
    var t := Step(c, st, Send(a));
    var cl := st.clients[a];
    assert ClientOk(c, cl);
    SendClientOk(c, cl);
    forall b: nat, s: nat | b < c.apps && s < c.dsls
      ensures Matched(c, t, b, s)
    {
      SendKeepsMatch(c, st, a, b, s);
    }
  }

  lemma SendKeepsMatch(c: Config, st: State, a: nat, b: nat, s: nat)
    requires Sound(c) && Shaped(c, st) && Enabled(c, st, Send(a)) && b < c.apps && s < c.dsls && Matched(c, st, b, s)
    ensures Matched(c, Step(c, st, Send(a)), b, s)
  {
  }

  /** The comparison after an exchange fails exactly for counter values that do not fit in 32 signed bits. */
  lemma SendCompares(c: Config, cl: Client)
    requires Sound(c) && ClientOk(c, cl) && cl.done < c.msgs
    ensures Compared(c, cl, Payload(c, cl.done)).reported <==> c.msgs - 1 > INT32_MAX
  {
  }

  lemma SendClientOk(c: Config, cl: Client)
    requires Sound(c) && ClientOk(c, cl) && !cl.awaiting && cl.done < c.msgs
    ensures ClientOk(c, if c.roundTrip then cl.(awaiting := true) else Compared(c, cl, Payload(c, cl.done)))
  {
  }

  lemma CollectKeepsInv(c: Config, st: State, a: nat)
    requires Sound(c) && Shaped(c, st) && Inv(c, st) && Enabled(c, st, Collect(a))
    ensures Inv(c, Step(c, st, Collect(a)))
  {
    var t := Step(c, st, Collect(a));
    var cl := st.clients[a];
    var d := Dest(c.dsls, cl.done);
    assert ClientOk(c, cl);
    assert Matched(c, st, a, d);
    assert ClientOk(c, t.clients[a]) by { SendCompares(c, cl); }
    forall b: nat, s: nat | b < c.apps && s < c.dsls
      ensures Matched(c, t, b, s)
    {
      assert Matched(c, st, b, s);
    }
  }

  /** What one server does with a message, seen from its own bookkeeping. */
  lemma TakeServerOk(c: Config, s: nat, v: Server, a: nat, w: int, cl: Client)
    requires Sound(c) && s < c.dsls && a < c.apps == |v.got| && ServerOk(c, s, v) && v.phase.Serving?
    requires ClientOk(c, cl) && v.got[a] + [w] == Addressed(c, s, Issued(cl))
    ensures var u := v.(got := v.got[a := v.got[a] + [w]]);
            ServerOk(c, s, if c.roundTrip then u.(phase := Replying(a, w)) else Counted(c, u, w))
  {
    var u := v.(got := v.got[a := v.got[a] + [w]]);
    var x := if c.roundTrip then u.(phase := Replying(a, w)) else Counted(c, u, w);
    if Balanced(c) {
      LowCompletesShare(c, s, cl, v.got[a], w);
      TallyChange(c, s, v, x, a);
    } else if s == c.dsls - 1 {
      UnbalancedStarves(c);
      AddressedPrefix(c, s, Issued(cl), c.msgs);
    }
  }

  lemma TakeKeepsInv(c: Config, st: State, s: nat, a: nat)
    requires Sound(c) && Shaped(c, st) && Inv(c, st) && Enabled(c, st, Take(s, a))
    ensures Inv(c, Step(c, st, Take(s, a)))
  {
    var t := Step(c, st, Take(s, a));
    assert ClientOk(c, st.clients[a]) && ServerOk(c, s, st.servers[s]);
    assert Matched(c, st, a, s);
    TakeServerOk(c, s, st.servers[s], a, st.request[a][s].value, st.clients[a]);
    forall b: nat, r: nat | b < c.apps && r < c.dsls
      ensures Matched(c, t, b, r)
    {
      TakeKeepsMatch(c, st, s, a, b, r);
    }
  }

  lemma TakeKeepsMatch(c: Config, st: State, s: nat, a: nat, b: nat, r: nat)
    requires Sound(c) && Shaped(c, st) && Enabled(c, st, Take(s, a)) && b < c.apps && r < c.dsls && Matched(c, st, b, r)
    requires ClientOk(c, st.clients[b])
    ensures Matched(c, Step(c, st, Take(s, a)), b, r)
  {
    var t := Step(c, st, Take(s, a));
    if b != a || r != s {
      assert t.request[b][r] == st.request[b][r] && t.servers[r].got[b] == st.servers[r].got[b];
    } else {
      var w := st.request[a][s].value;
      var got, done := st.servers[s].got[a], st.clients[a].done;
      assert t.servers[s].got[a] == got + [w] && t.request[a][s] == None;
      if c.roundTrip {
        assert got + [w] == Addressed(c, s, done) + [Payload(c, done)];
        assert w == (got + [w])[|got|];
      }
    }
  }

  lemma ReplyServerOk(c: Config, s: nat, v: Server, got: seq<int>, cl: Client)
    requires Sound(c) && s < c.dsls && c.apps == |v.got| && ServerOk(c, s, v) && v.phase.Replying?
    requires ClientOk(c, cl) && got == v.got[v.phase.to] && got <= Addressed(c, s, Issued(cl))
    ensures ServerOk(c, s, Counted(c, v, v.phase.w))
  {
    var a, w := v.phase.to, v.phase.w;
    if Balanced(c) {
      assert got == got[..|got| - 1] + [w];
      LowCompletesShare(c, s, cl, got[..|got| - 1], w);
      TallyChange(c, s, v, Counted(c, v, w), a);
    }
  }

  lemma ReplyKeepsInv(c: Config, st: State, s: nat)
    requires Sound(c) && Shaped(c, st) && Inv(c, st) && Enabled(c, st, Reply(s))
    ensures Inv(c, Step(c, st, Reply(s)))
  {
    var t := Step(c, st, Reply(s));
    var a := st.servers[s].phase.to;
    assert ClientOk(c, st.clients[a]) && ServerOk(c, s, st.servers[s]);
    assert Matched(c, st, a, s);
    ReplyServerOk(c, s, st.servers[s], st.servers[s].got[a], st.clients[a]);
    forall b: nat, r: nat | b < c.apps && r < c.dsls
      ensures Matched(c, t, b, r)
    {
      assert Matched(c, st, b, r);
    }
  }

  lemma StepKeepsInv(c: Config, st: State, act: Act)
    requires Sound(c) && Shaped(c, st) && Inv(c, st)
    ensures Inv(c, Step(c, st, act))
  {
    if Enabled(c, st, act) {
      match act
      case Send(a) => SendKeepsInv(c, st, a);
      case Collect(a) => CollectKeepsInv(c, st, a);
      case Take(s, a) => TakeKeepsInv(c, st, s, a);
      case Reply(s) => ReplyKeepsInv(c, st, s);
    }
  }

  lemma {:induction false} ReachableInv(c: Config, acts: seq<Act>)
    requires Sound(c)
    ensures Inv(c, Exec(c, acts))
  {
    if |acts| == 0 {
      InitHolds(c);
    } else {
      ReachableInv(c, acts[..|acts| - 1]);
      StepKeepsInv(c, Exec(c, acts[..|acts| - 1]), acts[|acts| - 1]);
    }
  }

  // ---------------------------------------------------------------- what the program promises

  /** Server `s` has received, and answered, all that any client ever sends it. */
  ghost predicate Satisfied(c: Config, s: nat, v: Server)
    requires c.dsls > 0
  {
    !v.phase.Replying? && forall a :: 0 <= a < |v.got| ==> v.got[a] == Share(c, s)
  }

  lemma SatisfiedIffLeft(c: Config, st: State, s: nat)
    requires Sound(c) && Balanced(c) && Shaped(c, st) && Inv(c, st) && s < c.dsls
    ensures st.servers[s].phase.Left? <==> Satisfied(c, s, st.servers[s])
  {
    var v := st.servers[s];
    assert ServerOk(c, s, v);
    CountFull(Tallies(c, s, v));
    forall a | 0 <= a < c.apps
      ensures |v.got[a]| == |Share(c, s)| <==> v.got[a] == Share(c, s)
    {
      assert Matched(c, st, a, s) && ClientOk(c, st.clients[a]);
      AddressedPrefix(c, s, Issued(st.clients[a]), c.msgs);
      assert v.got[a] <= Share(c, s);
    }
    if v.phase.Left? {
      forall a | 0 <= a < c.apps
        ensures v.got[a] == Share(c, s)
      {
        assert Tallies(c, s, v)[a];
      }
    }
    if Satisfied(c, s, v) {
      forall a | 0 <= a < c.apps
        ensures Tallies(c, s, v)[a]
      {
      }
    }
  }

  /**
   Termination detection is exact: with a client and more messages than servers (or one message and one
   server), in every run a server has left its loop exactly when it has received every message any client
   ever addresses to it; otherwise the last server, which is sent nothing, never leaves in any run, and
   with no clients no server does.
   */
  lemma DetectionIsExact(c: Config, acts: seq<Act>)
    requires Sound(c)
    ensures var st := Exec(c, acts);
            if Balanced(c) then
              forall s :: 0 <= s < c.dsls ==> (st.servers[s].phase.Left? <==> Satisfied(c, s, st.servers[s]))
            else
              && !st.servers[c.dsls - 1].phase.Left? && Satisfied(c, c.dsls - 1, st.servers[c.dsls - 1])
              && (c.apps == 0 ==> forall s :: 0 <= s < c.dsls ==> !st.servers[s].phase.Left?)
  {
    ReachableInv(c, acts);
    var st := Exec(c, acts);
    if Balanced(c) {
      forall s | 0 <= s < c.dsls
        ensures st.servers[s].phase.Left? <==> Satisfied(c, s, st.servers[s])
      {
        SatisfiedIffLeft(c, st, s);
      }
    } else {
      LastServerStarves(c, st);
    }
  }

  lemma LastServerStarves(c: Config, st: State)
    requires Sound(c) && !Balanced(c) && Shaped(c, st) && Inv(c, st)
    ensures !st.servers[c.dsls - 1].phase.Left? && Satisfied(c, c.dsls - 1, st.servers[c.dsls - 1])
    ensures c.apps == 0 ==> forall s :: 0 <= s < c.dsls ==> !st.servers[s].phase.Left?
  {
    var s := c.dsls - 1;
    assert ServerOk(c, s, st.servers[s]);
    forall a | 0 <= a < c.apps
      ensures st.servers[s].got[a] == Share(c, s)
    {
      UnbalancedStarves(c);
      assert Matched(c, st, a, s) && ClientOk(c, st.clients[a]);
      AddressedPrefix(c, s, Issued(st.clients[a]), c.msgs);
    }
  }

  ghost predicate Exact(c: Config)
    requires Sound(c)
  {
    forall acts: seq<Act>, s: nat :: s < c.dsls ==>
      (Exec(c, acts).servers[s].phase.Left? <==> Satisfied(c, s, Exec(c, acts).servers[s]))
  }

  /** The rule detects termination in every run exactly in the balanced configurations. */
  lemma ExactIffBalanced(c: Config)
    requires Sound(c)
    ensures Exact(c) <==> Balanced(c)
  {
    if Balanced(c) {
      forall acts: seq<Act>, s: nat | s < c.dsls
        ensures Exec(c, acts).servers[s].phase.Left? <==> Satisfied(c, s, Exec(c, acts).servers[s])
      {
        DetectionIsExact(c, acts);
      }
    } else {
      DetectionIsExact(c, []);
      assert !(Exec(c, []).servers[c.dsls - 1].phase.Left?
               <==> Satisfied(c, c.dsls - 1, Exec(c, []).servers[c.dsls - 1]));
    }
  }

  /** In every run, whenever a server replies its reply slot is empty, so skipping the test changes nothing. */
  lemma ReplySlotIsEmpty(c: Config, acts: seq<Act>, s: nat)
    requires Sound(c) && s < c.dsls && Exec(c, acts).servers[s].phase.Replying?
    ensures Enabled(c, Exec(c, acts), Reply(s))
  {
    ReachableInv(c, acts);
    ReplyIsAwaited(c, Exec(c, acts), s);
  }

  /** A server that is about to reply has an empty slot to reply through and a client waiting for it. */
  lemma ReplyIsAwaited(c: Config, st: State, s: nat)
    requires Sound(c) && Shaped(c, st) && Inv(c, st) && s < c.dsls && st.servers[s].phase.Replying?
    ensures Enabled(c, st, Reply(s))
    ensures var cl := st.clients[st.servers[s].phase.to]; cl.awaiting && cl.done < c.msgs
  {
    assert ServerOk(c, s, st.servers[s]);
    assert Matched(c, st, st.servers[s].phase.to, s) && ClientOk(c, st.clients[st.servers[s].phase.to]);
  }

  /**
   The "Ping-pong failed" report: a client that has completed a message has printed it if and only if the
   message numbers exceed 31 bits; so for msgs <= 2^31 it is unreachable in every run.
   */
  lemma PingPongReport(c: Config, acts: seq<Act>, a: nat)
    requires Sound(c) && a < c.apps
    ensures var cl := Exec(c, acts).clients[a];
            cl.reported <==> cl.done >= 1 && c.msgs > INT32_MAX + 1
  {
    ReachableInv(c, acts);
    assert ClientOk(c, Exec(c, acts).clients[a]);
  }

  // ---------------------------------------------------------------- progress

  ghost predicate Over(c: Config, st: State)
    requires Shaped(c, st)
  {
    && (forall a :: 0 <= a < c.apps ==> st.clients[a].done == c.msgs)
    && (forall s :: 0 <= s < c.dsls ==> st.servers[s].phase.Left?)
  }

  /** A balanced program is never stuck before every client is done and every server has left. */
  lemma NeverStuck(c: Config, acts: seq<Act>) returns (act: Act)
    requires Sound(c) && Balanced(c) && !Over(c, Exec(c, acts))
    ensures Enabled(c, Exec(c, acts), act)
  {
    ReachableInv(c, acts);
    var st := Exec(c, acts);
    if a :| 0 <= a < c.apps && st.clients[a].done != c.msgs {
      act := ClientMoves(c, st, a);
    } else {
      var s :| 0 <= s < c.dsls && !st.servers[s].phase.Left?;
      act := ServerMoves(c, st, s);
    }
  }

  /** Something that concerns client `a` can happen while it is not done. */
  lemma ClientMoves(c: Config, st: State, a: nat) returns (act: Act)
    requires Sound(c) && Balanced(c) && Shaped(c, st) && Inv(c, st) && a < c.apps && st.clients[a].done != c.msgs
    ensures Enabled(c, st, act)
  {
    var cl := st.clients[a];
    var s := Dest(c.dsls, cl.done);
    assert ClientOk(c, cl);
    assert Matched(c, st, a, s);
    if st.request[a][s].Some? {
      act := SlotIsServed(c, st, a, s);
    } else if !cl.awaiting {
      act := Send(a);
    } else if st.reply[a][s].Some? {
      act := Collect(a);
    } else {
      act := Reply(s);
    }
  }

  /** A full request slot belongs to a server that is still serving, or replying to somebody. */
  lemma SlotIsServed(c: Config, st: State, a: nat, s: nat) returns (act: Act)
    requires Sound(c) && Balanced(c) && Shaped(c, st) && Inv(c, st) && a < c.apps && s < c.dsls
    requires st.request[a][s].Some?
    ensures Enabled(c, st, act)
  {
    var v := st.servers[s];
    SatisfiedIffLeft(c, st, s);
    assert Matched(c, st, a, s) && ClientOk(c, st.clients[a]);
    AddressedPrefix(c, s, Issued(st.clients[a]), c.msgs);
    assert |v.got[a]| < |Share(c, s)|;
    if v.phase.Serving? {
      act := Take(s, a);
    } else {
      ReplyIsAwaited(c, st, s);
      act := Reply(s);
    }
  }

  /** When the clients are done, a server that has not left still has a full slot or a reply to send. */
  lemma ServerMoves(c: Config, st: State, s: nat) returns (act: Act)
    requires Sound(c) && Balanced(c) && Shaped(c, st) && Inv(c, st) && s < c.dsls && !st.servers[s].phase.Left?
    requires forall a :: 0 <= a < c.apps ==> st.clients[a].done == c.msgs
    ensures Enabled(c, st, act)
  {
    var v := st.servers[s];
    assert ServerOk(c, s, v);
    SatisfiedIffLeft(c, st, s);
    if v.phase.Replying? {
      ReplyIsAwaited(c, st, s);
      assert false;
    }
    var a :| 0 <= a < c.apps && v.got[a] != Share(c, s);
    assert Matched(c, st, a, s) && ClientOk(c, st.clients[a]);
    act := Take(s, a);
  }

  // ---------------------------------------------------------------- termination

  function ClientWork(c: Config, cl: Client): int {
    2 * (c.msgs - cl.done) - if cl.awaiting then 1 else 0
  }

  function Missing(c: Config, got: seq<seq<int>>): (xs: seq<int>)
    ensures |xs| == |got|
    ensures forall a :: 0 <= a < |got| ==> xs[a] == 2 * (c.msgs - |got[a]|)
  {
    seq(|got|, a requires 0 <= a < |got| => 2 * (c.msgs - |got[a]|))
  }

  function ServerWork(c: Config, v: Server): int {
    Sum(Missing(c, v.got)) + if v.phase.Replying? then 1 else 0
  }

  function ClientWorks(c: Config, st: State): (xs: seq<int>)
    requires Shaped(c, st)
    ensures |xs| == c.apps
  {
    seq(c.apps, a requires 0 <= a < c.apps => ClientWork(c, st.clients[a]))
  }

  function ServerWorks(c: Config, st: State): (xs: seq<int>)
    requires Shaped(c, st)
    ensures |xs| == c.dsls
  {
    seq(c.dsls, s requires 0 <= s < c.dsls => ServerWork(c, st.servers[s]))
  }

  /** An upper bound on the steps the program has left. */
  function Work(c: Config, st: State): int
    requires Shaped(c, st)
  {
    Sum(ClientWorks(c, st)) + Sum(ServerWorks(c, st))
  }

  lemma ClientStepShrinks(c: Config, st: State, act: Act)
    requires Sound(c) && Shaped(c, st) && Enabled(c, st, act) && (act.Send? || act.Collect?)
    ensures Work(c, Step(c, st, act)) < Work(c, st)
  {
    var t := Step(c, st, act);
    SumUpdate(ClientWorks(c, st), act.a, ClientWork(c, t.clients[act.a]));
    assert ClientWorks(c, t) == ClientWorks(c, st)[act.a := ClientWork(c, t.clients[act.a])];
    assert ServerWorks(c, t) == ServerWorks(c, st);
  }

  lemma ServerStepShrinks(c: Config, st: State, act: Act)
    requires Sound(c) && Shaped(c, st) && Enabled(c, st, act) && (act.Take? || act.Reply?)
    ensures Work(c, Step(c, st, act)) < Work(c, st)
  {
    var t := Step(c, st, act);
    var v, w := st.servers[act.s], t.servers[act.s];
    if act.Take? {
      assert Missing(c, w.got) == Missing(c, v.got)[act.a := 2 * (c.msgs - |w.got[act.a]|)];
      SumUpdate(Missing(c, v.got), act.a, 2 * (c.msgs - |w.got[act.a]|));
    }
    SumUpdate(ServerWorks(c, st), act.s, ServerWork(c, w));
    assert ServerWorks(c, t) == ServerWorks(c, st)[act.s := ServerWork(c, w)];
    assert ClientWorks(c, t) == ClientWorks(c, st);
  }

  lemma StepShrinks(c: Config, st: State, act: Act)
    requires Sound(c) && Shaped(c, st) && Enabled(c, st, act)
    ensures Work(c, Step(c, st, act)) < Work(c, st)
  {
    if act.Send? || act.Collect? {
      ClientStepShrinks(c, st, act);
    } else {
      ServerStepShrinks(c, st, act);
    }
  }

  lemma {:induction false} AddressedLength(c: Config, s: nat, t: nat)
    requires c.dsls > 0
    ensures |Addressed(c, s, t)| <= t
  {
    if t > 0 {
      AddressedLength(c, s, t - 1);
    }
  }

  lemma ServerWorkNonNegative(c: Config, st: State, s: nat)
    requires Sound(c) && Shaped(c, st) && Inv(c, st) && s < c.dsls
    ensures ServerWork(c, st.servers[s]) >= 0
  {
    forall a | 0 <= a < c.apps
      ensures Missing(c, st.servers[s].got)[a] >= 0
    {
      assert Matched(c, st, a, s) && ClientOk(c, st.clients[a]);
      AddressedLength(c, s, Issued(st.clients[a]));
    }
    SumNonNegative(Missing(c, st.servers[s].got));
  }

  lemma WorkNonNegative(c: Config, st: State)
    requires Sound(c) && Shaped(c, st) && Inv(c, st)
    ensures Work(c, st) >= 0
  {
    forall a | 0 <= a < c.apps
      ensures ClientWorks(c, st)[a] >= 0
    {
      assert ClientOk(c, st.clients[a]);
    }
    forall s | 0 <= s < c.dsls
      ensures ServerWorks(c, st)[s] >= 0
    {
      ServerWorkNonNegative(c, st, s);
    }
    SumNonNegative(ClientWorks(c, st));
    SumNonNegative(ServerWorks(c, st));
  }

  /** The acts of a run that did something, the rest being tests that failed. */
  function RealSteps(c: Config, acts: seq<Act>): nat {
    if |acts| == 0 then 0
    else
      var before := acts[..|acts| - 1];
      RealSteps(c, before) + if Enabled(c, Exec(c, before), acts[|acts| - 1]) then 1 else 0
  }

  /** No run, however long, contains more real steps than the work there is at the start. */
  lemma {:induction false} RealStepsAreBounded(c: Config, acts: seq<Act>)
    requires Sound(c)
    ensures RealSteps(c, acts) + Work(c, Exec(c, acts)) <= Work(c, Init(c))
    ensures RealSteps(c, acts) <= Work(c, Init(c))
  {
    ReachableInv(c, acts);
    WorkNonNegative(c, Exec(c, acts));
    if |acts| > 0 {
      var before, act := acts[..|acts| - 1], acts[|acts| - 1];
      RealStepsAreBounded(c, before);
      if Enabled(c, Exec(c, before), act) {
        StepShrinks(c, Exec(c, before), act);
      }
    }
  }

  lemma OneMoreStep(c: Config, acts: seq<Act>, act: Act)
    requires Sound(c) && Enabled(c, Exec(c, acts), act)
    ensures RealSteps(c, acts) < RealSteps(c, acts + [act]) <= Work(c, Init(c))
  {
    assert (acts + [act])[..|acts|] == acts;
    RealStepsAreBounded(c, acts + [act]);
  }

  /** Every run of a balanced program can be continued until all clients are done and all servers have left. */
  lemma {:induction false} EveryRunCanFinish(c: Config, acts: seq<Act>) returns (rest: seq<Act>)
    requires Sound(c) && Balanced(c)
    ensures Over(c, Exec(c, acts + rest))
    decreases Work(c, Init(c)) - RealSteps(c, acts)
  {
    if Over(c, Exec(c, acts)) {
      rest := [];
      assert acts + [] == acts;
    } else {
      var act := NeverStuck(c, acts);
      OneMoreStep(c, acts, act);
      var more := EveryRunCanFinish(c, acts + [act]);
      Regroup(acts, act, more);
      rest := [act] + more;
    }
  }

  // ---------------------------------------------------------------- the sequential server

  /** The low numbers that bring the 32-bit countdown back to zero. */
  function Awaited(c: Config): nat {
    if c.apps == 0 then UINT32 else c.apps
  }

  /** The countdown after n of them. */
  function Remaining(c: Config, n: nat): int {
    if n == 0 then c.apps else Awaited(c) - n
  }

  /** The server's loop over what its receives return: it stops with the message that brings the countdown to zero. */
  method ServerLoop(c: Config, inbox: seq<int>) returns (taken: nat, left: bool)
    requires c.apps < UINT32
    ensures taken <= |inbox|
    ensures left ==> taken > 0 && Lows(c, inbox[..taken]) == Awaited(c) && Lows(c, inbox[..taken - 1]) == Awaited(c) - 1
    ensures !left ==> taken == |inbox| && Lows(c, inbox) < Awaited(c)
  {
    var zeros := c.apps;
    taken, left := 0, false;
    while taken < |inbox|
      invariant 0 <= taken <= |inbox|
      invariant Lows(c, inbox[..taken]) < Awaited(c) && zeros == Remaining(c, Lows(c, inbox[..taken]))
    {
      var w := inbox[taken];
      assert inbox[..taken + 1][..taken] == inbox[..taken];
      taken := taken + 1;
      if Low(c, w) {
        zeros := (zeros + UINT32 - 1) % UINT32;
        if zeros == 0 {
          left := true;
          return;
        }
      }
    }
    assert inbox[..taken] == inbox;
  }
}
