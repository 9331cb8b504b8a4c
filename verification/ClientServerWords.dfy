/**
 The client/server benchmark once more, with its slots word by word: every send and receive of a client or a
 server is as many accesses as the Channel module has for them, each acquiring its slot by polling or by
 compare-and-swap as the schedule has it, all interleaved.

 Every run of this machine is, seen through the slots, a run of the ClientServer machine.
 */
module ClientServerWords {
  import opened Common
  import opened ClientServer
  import opened Words
  import Arith
  import C = Channel

  ghost predicate Wide(c: Config, width: nat) {
    Sound(c) && width >= 1
  }

  /** The two slots between a client and a server. */
  datatype Link = Link(request: C.Chan, reply: C.Chan)

  /** `busy[s]` is the client whose slot server s has begun to copy. */
  datatype Fine = Fine(clients: seq<Client>, servers: seq<Server>, links: seq<seq<Link>>, busy: seq<Option<nat>>)

  /** A user's next access in the operation that `op` names in the coarse machine. */
  datatype FineAct = FineAct(op: Act, cas: bool)

  /** The payload that a slot's first word stands for: a signed 32-bit number. */
  function Number(m: C.Msg): int {
    ToInt32(Decode(m))
  }

  function Held(ch: C.Chan): Option<int> {
    if Shown(ch).Some? then Some(Number(Shown(ch).value)) else None
  }

  predicate FineShaped(c: Config, s: Fine) {
    && |s.clients| == |s.links| == c.apps
    && |s.servers| == |s.busy| == c.dsls
    && (forall a :: 0 <= a < c.apps ==> |s.links[a]| == c.dsls)
    && (forall v :: 0 <= v < c.dsls ==> |s.servers[v].got| == c.apps)
  }

  function Abs(c: Config, s: Fine): (st: State)
    requires FineShaped(c, s)
    ensures Shaped(c, st)
    ensures forall a, v :: 0 <= a < c.apps && 0 <= v < c.dsls ==>
              st.request[a][v] == Held(s.links[a][v].request) && st.reply[a][v] == Held(s.links[a][v].reply)
  {
    State(s.clients, s.servers,
          seq(c.apps, a requires 0 <= a < c.apps =>
              seq(c.dsls, v requires 0 <= v < c.dsls => Held(s.links[a][v].request))),
          seq(c.apps, a requires 0 <= a < c.apps =>
              seq(c.dsls, v requires 0 <= v < c.dsls => Held(s.links[a][v].reply))))
  }

  function FineInit(c: Config, width: nat): (s: Fine)
    ensures FineShaped(c, s)
  {
    var idle := C.Init(Encode(width, 0));
    Fine(Init(c).clients, Init(c).servers, seq(c.apps, a => seq(c.dsls, v => Link(idle, idle))), seq(c.dsls, v => None))
  }

  // ---------------------------------------------------------------- who is at which operation

  predicate AtSend(c: Config, cl: Client) {
    c.dsls > 0 && !cl.awaiting && cl.done < c.msgs
  }

  predicate AtCollect(c: Config, cl: Client) {
    c.dsls > 0 && cl.awaiting
  }

  predicate AtTake(v: Server, busy: Option<nat>, a: nat) {
    v.phase.Serving? && (busy.None? || busy == Some(a))
  }

  predicate AtReply(c: Config, v: Server) {
    v.phase.Replying? && v.phase.to < c.apps
  }

  function WithRequest(s: Fine, a: nat, v: nat, ch: C.Chan): Fine
    requires a < |s.links| && v < |s.links[a]|
  {
    s.(links := s.links[a := s.links[a][v := s.links[a][v].(request := ch)]])
  }

  function WithReply(s: Fine, a: nat, v: nat, ch: C.Chan): Fine
    requires a < |s.links| && v < |s.links[a]|
  {
    s.(links := s.links[a := s.links[a][v := s.links[a][v].(reply := ch)]])
  }

  /** The same users with what the coarse step leaves in their own variables. */
  function Completed(c: Config, s: Fine, t: State): Fine {
    s.(clients := t.clients, servers := t.servers)
  }

  /** One access; with the last one of an operation the user goes on as in the coarse machine. */
  function FineStep(c: Config, width: nat, s: Fine, act: FineAct): (t: Fine)
    requires FineShaped(c, s)
    ensures FineShaped(c, t)
  {
    match act.op
    case Send(a) =>
      if a < c.apps && AtSend(c, s.clients[a]) then
        var v := Dest(c.dsls, s.clients[a].done);
        var ch := s.links[a][v].request;
        var d := Sending(Encode(width, Payload(c, s.clients[a].done)), ch, act.cas);
        var t := WithRequest(s, a, v, d);
        if |d.sent| > |ch.sent| then Completed(c, t, Step(c, Abs(c, s), act.op)) else t
      else s
    case Collect(a) =>
      if a < c.apps && AtCollect(c, s.clients[a]) then
        var v := Dest(c.dsls, s.clients[a].done);
        var ch := s.links[a][v].reply;
        var d := Receiving(ch, act.cas);
        var t := WithReply(s, a, v, d);
        if |d.got| > |ch.got| then Completed(c, t, Step(c, Abs(c, s), act.op)) else t
      else s
    case Take(v, a) =>
      if v < c.dsls && a < c.apps && AtTake(s.servers[v], s.busy[v], a) then
        var ch := s.links[a][v].request;
        var d := Receiving(ch, act.cas);
        var t := WithRequest(s, a, v, d).(busy := s.busy[v := if d.rcv.Fetching? then Some(a) else None]);
        if |d.got| > |ch.got| then Completed(c, t, Step(c, Abs(c, s), act.op)) else t
      else s
    case Reply(v) =>
      if v < c.dsls && AtReply(c, s.servers[v]) then
        var a := s.servers[v].phase.to;
        var ch := s.links[a][v].reply;
        var d := Sending(Encode(width, s.servers[v].phase.w), ch, act.cas);
        var t := WithReply(s, a, v, d);
        if |d.sent| > |ch.sent| then Completed(c, t, Step(c, Abs(c, s), act.op)) else t
      else s
  }

  function FineExec(c: Config, width: nat, acts: seq<FineAct>): (s: Fine)
    ensures FineShaped(c, s)
  {
    if |acts| == 0 then FineInit(c, width)
    else FineStep(c, width, FineExec(c, width, acts[..|acts| - 1]), acts[|acts| - 1])
  }

  // ---------------------------------------------------------------- the invariant

  /** The request slot of client a and server v is at the point where its two users are. */
  ghost predicate RequestOk(c: Config, width: nat, ch: C.Chan, a: nat, v: nat, cl: Client,
                            server: Server, busy: Option<nat>) {
    && C.Inv(ch) && |ch.words| == width
    && (ch.snd.Copying? ==> AtSend(c, cl) && Dest(c.dsls, cl.done) == v
                             && ch.snd.msg == Encode(width, Payload(c, cl.done)))
    && (ch.rcv.Fetching? <==> busy == Some(a))
    && (busy == Some(a) ==> server.phase.Serving?)
  }

  ghost predicate ReplyOk(c: Config, width: nat, ch: C.Chan, a: nat, v: nat, cl: Client, server: Server) {
    && C.Inv(ch) && |ch.words| == width
    && (ch.snd.Copying? ==> AtReply(c, server) && server.phase.to == a && ch.snd.msg == Encode(width, server.phase.w))
    && (ch.rcv.Fetching? ==> AtCollect(c, cl) && Dest(c.dsls, cl.done) == v)
  }

  ghost predicate Linked(c: Config, width: nat, s: Fine, a: nat, v: nat)
    requires FineShaped(c, s) && a < c.apps && v < c.dsls
  {
    && RequestOk(c, width, s.links[a][v].request, a, v, s.clients[a], s.servers[v], s.busy[v])
    && ReplyOk(c, width, s.links[a][v].reply, a, v, s.clients[a], s.servers[v])
  }

  ghost predicate FineInv(c: Config, width: nat, s: Fine)
    requires Sound(c) && FineShaped(c, s)
  {
    && Inv(c, Abs(c, s))
    && (forall a: nat, v: nat :: a < c.apps && v < c.dsls ==> Linked(c, width, s, a, v))
    && (forall v :: 0 <= v < c.dsls && s.busy[v].Some? ==> s.busy[v].value < c.apps)
  }

  lemma InitLinked(c: Config, width: nat)
    requires Wide(c, width)
    ensures FineInv(c, width, FineInit(c, width)) && Abs(c, FineInit(c, width)) == Init(c)
  {
    var x, y := Abs(c, FineInit(c, width)), Init(c);
    forall a | 0 <= a < c.apps
      ensures x.request[a] == y.request[a] && x.reply[a] == y.reply[a]
    {
    }
    assert x.request == y.request && x.reply == y.reply;
    InitHolds(c);
  }

  lemma PayloadIsNumber(width: nat, v: int)
    requires width >= 1
    ensures Number(Encode(width, ToInt32(v))) == ToInt32(v)
  {
    EncodeDecode(width, ToInt32(v));
  }

  // ---------------------------------------------------------------- an access and the slots it does not touch

  lemma RequestsOnly(c: Config, s: Fine, t: Fine, a: nat, v: nat, ch: C.Chan)
    requires FineShaped(c, s) && FineShaped(c, t) && a < c.apps && v < c.dsls
    requires t.links == WithRequest(s, a, v, ch).links
    ensures Abs(c, t).reply == Abs(c, s).reply
    ensures Abs(c, t).request == Abs(c, s).request[a := Abs(c, s).request[a][v := Held(ch)]]
    ensures Held(ch) == Held(s.links[a][v].request) ==> Abs(c, t).request == Abs(c, s).request
  {
    var x, y := Abs(c, s), Abs(c, t);
    forall b | 0 <= b < c.apps
      ensures y.reply[b] == x.reply[b]
      ensures y.request[b] == x.request[a := x.request[a][v := Held(ch)]][b]
    {
    }
    SameEntry(x.request, a, v);
  }

  lemma RepliesOnly(c: Config, s: Fine, t: Fine, a: nat, v: nat, ch: C.Chan)
    requires FineShaped(c, s) && FineShaped(c, t) && a < c.apps && v < c.dsls
    requires t.links == WithReply(s, a, v, ch).links
    ensures Abs(c, t).request == Abs(c, s).request
    ensures Abs(c, t).reply == Abs(c, s).reply[a := Abs(c, s).reply[a][v := Held(ch)]]
    ensures Held(ch) == Held(s.links[a][v].reply) ==> Abs(c, t).reply == Abs(c, s).reply
  {
    var x, y := Abs(c, s), Abs(c, t);
    forall b | 0 <= b < c.apps
      ensures y.request[b] == x.request[b]
      ensures y.reply[b] == x.reply[a := x.reply[a][v := Held(ch)]][b]
    {
    }
    SameEntry(x.reply, a, v);
  }

  /** An access that hands nothing over is invisible; the last one of an operation is the coarse step. */
  ghost predicate Shows(c: Config, s: Fine, t: Fine, op: Act, over: bool)
    requires FineShaped(c, s) && FineShaped(c, t)
  {
    if over then Enabled(c, Abs(c, s), op) && Abs(c, t) == Step(c, Abs(c, s), op) else Abs(c, t) == Abs(c, s)
  }

  lemma SendRefines(c: Config, width: nat, s: Fine, a: nat, cas: bool)
    requires Wide(c, width) && FineShaped(c, s) && FineInv(c, width, s) && a < c.apps && AtSend(c, s.clients[a])
    ensures var t := FineStep(c, width, s, FineAct(Send(a), cas));
            var x, y := a, Dest(c.dsls, s.clients[a].done);
            Shows(c, s, t, Send(a), |t.links[x][y].request.sent| > |s.links[x][y].request.sent|)
  {
    var v, w := Dest(c.dsls, s.clients[a].done), Payload(c, s.clients[a].done);
    var ch := s.links[a][v].request;
    var d := Sending(Encode(width, w), ch, cas);
    assert Linked(c, width, s, a, v);
    SendAccess(Encode(width, w), ch, cas);
    PayloadIsNumber(width, c.msgs - 1 - s.clients[a].done);
    RequestsOnly(c, s, FineStep(c, width, s, FineAct(Send(a), cas)), a, v, d);
  }

  lemma CollectRefines(c: Config, width: nat, s: Fine, a: nat, cas: bool)
    requires Wide(c, width) && FineShaped(c, s) && FineInv(c, width, s) && a < c.apps && AtCollect(c, s.clients[a])
    ensures var t := FineStep(c, width, s, FineAct(Collect(a), cas));
            var x, y := a, Dest(c.dsls, s.clients[a].done);
            Shows(c, s, t, Collect(a), |t.links[x][y].reply.got| > |s.links[x][y].reply.got|)
  {
    var v := Dest(c.dsls, s.clients[a].done);
    var ch := s.links[a][v].reply;
    var d := Receiving(ch, cas);
    assert Linked(c, width, s, a, v);
    ReceiveAccess(ch, cas);
    RepliesOnly(c, s, FineStep(c, width, s, FineAct(Collect(a), cas)), a, v, d);
  }

  lemma TakeRefines(c: Config, width: nat, s: Fine, v: nat, a: nat, cas: bool)
    requires Wide(c, width) && FineShaped(c, s) && FineInv(c, width, s)
    requires v < c.dsls && a < c.apps && AtTake(s.servers[v], s.busy[v], a)
    ensures var t := FineStep(c, width, s, FineAct(Take(v, a), cas));
            var x, y := a, v;
            Shows(c, s, t, Take(v, a), |t.links[x][y].request.got| > |s.links[x][y].request.got|)
  {
    var ch := s.links[a][v].request;
    var d := Receiving(ch, cas);
    assert Linked(c, width, s, a, v);
    ReceiveAccess(ch, cas);
    RequestsOnly(c, s, FineStep(c, width, s, FineAct(Take(v, a), cas)), a, v, d);
  }

  /** A reply is the number the client sent, so it is a 32-bit one. */
  lemma ReplyIsNumber(c: Config, width: nat, s: Fine, v: nat)
    requires Wide(c, width) && FineShaped(c, s) && FineInv(c, width, s) && v < c.dsls && AtReply(c, s.servers[v])
    ensures Number(Encode(width, s.servers[v].phase.w)) == s.servers[v].phase.w
  {
    var a := s.servers[v].phase.to;
    assert Matched(c, Abs(c, s), a, v);
    PayloadIsNumber(width, c.msgs - 1 - s.clients[a].done);
  }

  lemma ReplyRefines(c: Config, width: nat, s: Fine, v: nat, cas: bool)
    requires Wide(c, width) && FineShaped(c, s) && FineInv(c, width, s) && v < c.dsls && AtReply(c, s.servers[v])
    ensures var t := FineStep(c, width, s, FineAct(Reply(v), cas));
            var x, y := s.servers[v].phase.to, v;
            Shows(c, s, t, Reply(v), |t.links[x][y].reply.sent| > |s.links[x][y].reply.sent|)
  {
    var a, w := s.servers[v].phase.to, s.servers[v].phase.w;
    var ch := s.links[a][v].reply;
    var d := Sending(Encode(width, w), ch, cas);
    assert Linked(c, width, s, a, v);
    SendAccess(Encode(width, w), ch, cas);
    ReplyIsNumber(c, width, s, v);
    RepliesOnly(c, s, FineStep(c, width, s, FineAct(Reply(v), cas)), a, v, d);
  }

  // ---------------------------------------------------------------- what every access keeps

  lemma SendKeepsLink(c: Config, width: nat, s: Fine, a: nat, cas: bool, b: nat, u: nat)
    requires Wide(c, width) && FineShaped(c, s) && a < c.apps && AtSend(c, s.clients[a]) && b < c.apps && u < c.dsls
    requires Linked(c, width, s, b, u) && Linked(c, width, s, a, Dest(c.dsls, s.clients[a].done))
    ensures Linked(c, width, FineStep(c, width, s, FineAct(Send(a), cas)), b, u)
  {
    var v, w := Dest(c.dsls, s.clients[a].done), Payload(c, s.clients[a].done);
    SendAccess(Encode(width, w), s.links[a][v].request, cas);
    if b != a || u != v {
      assert FineStep(c, width, s, FineAct(Send(a), cas)).links[b][u] == s.links[b][u];
    }
  }

  lemma CollectKeepsLink(c: Config, width: nat, s: Fine, a: nat, cas: bool, b: nat, u: nat)
    requires Wide(c, width) && FineShaped(c, s) && a < c.apps && AtCollect(c, s.clients[a]) && b < c.apps && u < c.dsls
    requires Linked(c, width, s, b, u) && Linked(c, width, s, a, Dest(c.dsls, s.clients[a].done))
    ensures Linked(c, width, FineStep(c, width, s, FineAct(Collect(a), cas)), b, u)
  {
    ReceiveAccess(s.links[a][Dest(c.dsls, s.clients[a].done)].reply, cas);
  }

  lemma TakeKeepsLink(c: Config, width: nat, s: Fine, v: nat, a: nat, cas: bool, b: nat, u: nat)
    requires Wide(c, width) && FineShaped(c, s) && v < c.dsls && a < c.apps && AtTake(s.servers[v], s.busy[v], a)
    requires b < c.apps && u < c.dsls && Linked(c, width, s, b, u) && Linked(c, width, s, a, v)
    ensures Linked(c, width, FineStep(c, width, s, FineAct(Take(v, a), cas)), b, u)
  {
    ReceiveAccess(s.links[a][v].request, cas);
    if b != a || u != v {
      assert FineStep(c, width, s, FineAct(Take(v, a), cas)).links[b][u] == s.links[b][u];
    }
  }

  lemma ReplyKeepsLink(c: Config, width: nat, s: Fine, v: nat, cas: bool, b: nat, u: nat)
    requires Wide(c, width) && FineShaped(c, s) && v < c.dsls && AtReply(c, s.servers[v])
    requires b < c.apps && u < c.dsls && Linked(c, width, s, b, u) && Linked(c, width, s, s.servers[v].phase.to, v)
    ensures Linked(c, width, FineStep(c, width, s, FineAct(Reply(v), cas)), b, u)
  {
    SendAccess(Encode(width, s.servers[v].phase.w), s.links[s.servers[v].phase.to][v].reply, cas);
  }

  /** Every access keeps the invariant, and is a step of the coarse machine or invisible to it. */
  lemma FineStepRefines(c: Config, width: nat, s: Fine, act: FineAct)
    requires Wide(c, width) && FineShaped(c, s) && FineInv(c, width, s)
    ensures var t := FineStep(c, width, s, act);
            FineInv(c, width, t) && (Shows(c, s, t, act.op, true) || Shows(c, s, t, act.op, false))
  {
    AccessRefines(c, width, s, act);
    StepKeepsInv(c, Abs(c, s), act.op);
    forall b: nat, u: nat | b < c.apps && u < c.dsls
      ensures Linked(c, width, FineStep(c, width, s, act), b, u)
    {
      AccessKeepsLink(c, width, s, act, b, u);
    }
  }

  lemma AccessRefines(c: Config, width: nat, s: Fine, act: FineAct)
    requires Wide(c, width) && FineShaped(c, s) && FineInv(c, width, s)
    ensures var t := FineStep(c, width, s, act); Shows(c, s, t, act.op, true) || Shows(c, s, t, act.op, false)
  {
    match act.op
    case Send(a) => if a < c.apps && AtSend(c, s.clients[a]) { SendRefines(c, width, s, a, act.cas); }
    case Collect(a) => if a < c.apps && AtCollect(c, s.clients[a]) { CollectRefines(c, width, s, a, act.cas); }
    case Take(v, a) =>
      if v < c.dsls && a < c.apps && AtTake(s.servers[v], s.busy[v], a) { TakeRefines(c, width, s, v, a, act.cas); }
    case Reply(v) => if v < c.dsls && AtReply(c, s.servers[v]) { ReplyRefines(c, width, s, v, act.cas); }
  }

  lemma AccessKeepsLink(c: Config, width: nat, s: Fine, act: FineAct, b: nat, u: nat)
    requires Wide(c, width) && FineShaped(c, s) && FineInv(c, width, s) && b < c.apps && u < c.dsls
    ensures Linked(c, width, FineStep(c, width, s, act), b, u)
  {
    assert Linked(c, width, s, b, u);
    match act.op
    case Send(a) =>
      if a < c.apps && AtSend(c, s.clients[a]) {
        assert Linked(c, width, s, a, Dest(c.dsls, s.clients[a].done));
        SendKeepsLink(c, width, s, a, act.cas, b, u);
      }
    case Collect(a) =>
      if a < c.apps && AtCollect(c, s.clients[a]) {
        assert Linked(c, width, s, a, Dest(c.dsls, s.clients[a].done));
        CollectKeepsLink(c, width, s, a, act.cas, b, u);
      }
    case Take(v, a) =>
      if v < c.dsls && a < c.apps && AtTake(s.servers[v], s.busy[v], a) {
        assert Linked(c, width, s, a, v);
        TakeKeepsLink(c, width, s, v, a, act.cas, b, u);
      }
    case Reply(v) =>
      if v < c.dsls && AtReply(c, s.servers[v]) {
        assert Linked(c, width, s, s.servers[v].phase.to, v);
        ReplyKeepsLink(c, width, s, v, act.cas, b, u);
      }
  }

  /** Seen through the slots, every run is a run of the coarse machine. */
  lemma {:induction false} RunRefines(c: Config, width: nat, acts: seq<FineAct>) returns (coarse: seq<Act>)
    requires Wide(c, width)
    ensures FineInv(c, width, FineExec(c, width, acts))
    ensures Abs(c, FineExec(c, width, acts)) == Exec(c, coarse)
  {
    if |acts| == 0 {
      InitLinked(c, width);
      coarse := [];
    } else {
      var s, act := FineExec(c, width, acts[..|acts| - 1]), acts[|acts| - 1];
      coarse := RunRefines(c, width, acts[..|acts| - 1]);
      FineStepRefines(c, width, s, act);
      if Abs(c, FineStep(c, width, s, act)) != Abs(c, s) {
        assert (coarse + [act.op])[..|coarse|] == coarse;
        coarse := coarse + [act.op];
      }
    }
  }

  // ---------------------------------------------------------------- the theorems, word by word

  /**
   In every run of a balanced configuration a server has left its loop exactly when it has received every message
   any client ever addresses to it; in any other the last server never leaves.
   */
  lemma DetectionIsExactWordByWord(c: Config, width: nat, acts: seq<FineAct>)
    requires Wide(c, width)
    ensures var s := FineExec(c, width, acts);
            if Balanced(c) then
              forall v :: 0 <= v < c.dsls ==> (s.servers[v].phase.Left? <==> Satisfied(c, v, s.servers[v]))
            else
              !s.servers[c.dsls - 1].phase.Left? && Satisfied(c, c.dsls - 1, s.servers[c.dsls - 1])
  {
    var coarse := RunRefines(c, width, acts);
    DetectionIsExact(c, coarse);
    assert FineExec(c, width, acts).servers == Exec(c, coarse).servers;
  }

  /** In every run, when a server sets about replying the flag of its reply slot reads empty: no test is needed. */
  lemma ReplySlotIsEmptyWordByWord(c: Config, width: nat, acts: seq<FineAct>, v: nat)
    requires Wide(c, width) && v < c.dsls && AtReply(c, FineExec(c, width, acts).servers[v])
    ensures var s := FineExec(c, width, acts);
            var ch := s.links[s.servers[v].phase.to][v].reply;
            ch.snd.Resting? ==> ch.flag == C.Empty
  {
    var coarse := RunRefines(c, width, acts);
    ReplySlotIsEmpty(c, coarse, v);
    var s := FineExec(c, width, acts);
    assert Linked(c, width, s, s.servers[v].phase.to, v);
    assert Held(s.links[s.servers[v].phase.to][v].reply) == None;
  }

  // ---------------------------------------------------------------- progress

  /** The access that brings an enabled coarse step closer: a server that has begun to copy a slot goes on. */
  function Next(c: Config, s: Fine, op: Act): Act
    requires FineShaped(c, s)
  {
    if op.Take? && op.s < c.dsls && s.busy[op.s].Some? then Take(op.s, s.busy[op.s].value) else op
  }

  lemma ClientMoves(c: Config, width: nat, s: Fine, op: Act, cas: bool)
    requires Wide(c, width) && FineShaped(c, s) && FineInv(c, width, s) && Enabled(c, Abs(c, s), op)
    requires op.Send? || op.Collect?
    ensures FineStep(c, width, s, FineAct(op, cas)).links != s.links
  {
    var v := Dest(c.dsls, s.clients[op.a].done);
    var link := s.links[op.a][v];
    assert Linked(c, width, s, op.a, v);
    if op.Send? {
      AccessMoves(Encode(width, Payload(c, s.clients[op.a].done)), link.request, cas);
    } else {
      AccessMoves(link.reply.words, link.reply, cas);
    }
    assert FineStep(c, width, s, FineAct(op, cas)).links[op.a][v] != link;
  }

  lemma ServerMoves(c: Config, width: nat, s: Fine, op: Act, cas: bool)
    requires Wide(c, width) && FineShaped(c, s) && FineInv(c, width, s) && Enabled(c, Abs(c, s), op)
    requires op.Take? || op.Reply?
    ensures FineStep(c, width, s, FineAct(Next(c, s, op), cas)).links != s.links
  {
    var v := op.s;
    var a := if op.Reply? then s.servers[v].phase.to else Next(c, s, op).a;
    var link := s.links[a][v];
    assert Linked(c, width, s, a, v);
    if op.Take? {
      AccessMoves(link.request.words, link.request, cas);
    } else {
      AccessMoves(Encode(width, s.servers[v].phase.w), link.reply, cas);
    }
    assert FineStep(c, width, s, FineAct(Next(c, s, op), cas)).links[a][v] != link;
  }

  /** A balanced program is never stuck before every client is done and every server has left. */
  lemma NeverStuckWordByWord(c: Config, width: nat, acts: seq<FineAct>, cas: bool) returns (act: FineAct)
    requires Wide(c, width) && Balanced(c) && !Over(c, Abs(c, FineExec(c, width, acts)))
    ensures act.cas == cas && FineStep(c, width, FineExec(c, width, acts), act) != FineExec(c, width, acts)
  {
    var coarse := RunRefines(c, width, acts);
    var op := NeverStuck(c, coarse);
    var s := FineExec(c, width, acts);
    if op.Send? || op.Collect? {
      act := FineAct(op, cas);
      ClientMoves(c, width, s, op, cas);
    } else {
      act := FineAct(Next(c, s, op), cas);
      ServerMoves(c, width, s, op, cas);
    }
  }

  // ---------------------------------------------------------------- termination

  function LinkMicro(link: Link): int {
    Micro(link.request) + Micro(link.reply)
  }

  function RowMicros(row: seq<Link>): (xs: seq<int>)
    ensures |xs| == |row|
    ensures forall v :: 0 <= v < |row| ==> xs[v] == LinkMicro(row[v])
  {
    seq(|row|, v requires 0 <= v < |row| => LinkMicro(row[v]))
  }

  function AllMicros(links: seq<seq<Link>>): (xs: seq<int>)
    ensures |xs| == |links|
    ensures forall a :: 0 <= a < |links| ==> xs[a] == Sum(RowMicros(links[a]))
  {
    seq(|links|, a requires 0 <= a < |links| => Sum(RowMicros(links[a])))
  }

  lemma MicrosChange(links: seq<seq<Link>>, a: nat, v: nat, link: Link)
    requires a < |links| && v < |links[a]|
    ensures Sum(AllMicros(links[a := links[a][v := link]]))
            == Sum(AllMicros(links)) - LinkMicro(links[a][v]) + LinkMicro(link)
  {
    var row := links[a][v := link];
    assert RowMicros(row) == RowMicros(links[a])[v := LinkMicro(link)];
    SumUpdate(RowMicros(links[a]), v, LinkMicro(link));
    assert AllMicros(links[a := row]) == AllMicros(links)[a := Sum(RowMicros(row))];
    SumUpdate(AllMicros(links), a, Sum(RowMicros(row)));
  }

  /** An upper bound on the accesses left that are not failed tests. */
  function FineWork(c: Config, width: nat, s: Fine): int
    requires FineShaped(c, s)
  {
    Work(c, Abs(c, s)) * (width + 2) + Sum(AllMicros(s.links))
  }

  /** What an access does: nothing, an invisible part of a transfer, or a step of the coarse machine. */
  ghost predicate Progresses(c: Config, width: nat, s: Fine, t: Fine, op: Act)
    requires FineShaped(c, s) && FineShaped(c, t)
  {
    || t == s
    || (Abs(c, t) == Abs(c, s) && Sum(AllMicros(t.links)) < Sum(AllMicros(s.links)))
    || (Enabled(c, Abs(c, s), op) && Abs(c, t) == Step(c, Abs(c, s), op)
        && Sum(AllMicros(t.links)) <= Sum(AllMicros(s.links)) + width + 1)
  }

  /** An access changes one link; what becomes of that link decides. */
  lemma LinkProgresses(c: Config, width: nat, s: Fine, t: Fine, op: Act, a: nat, v: nat, link: Link, over: bool)
    requires FineShaped(c, s) && FineShaped(c, t) && a < c.apps && v < c.dsls && Shows(c, s, t, op, over)
    requires t.links == s.links[a := s.links[a][v := link]]
    requires || t == s
             || (!over && LinkMicro(link) < LinkMicro(s.links[a][v]))
             || (over && LinkMicro(link) <= LinkMicro(s.links[a][v]) + width + 1)
    ensures Progresses(c, width, s, t, op)
  {
    MicrosChange(s.links, a, v, link);
  }

  lemma SendProgresses(c: Config, width: nat, s: Fine, a: nat, cas: bool)
    requires Wide(c, width) && FineShaped(c, s) && FineInv(c, width, s) && a < c.apps && AtSend(c, s.clients[a])
    ensures Progresses(c, width, s, FineStep(c, width, s, FineAct(Send(a), cas)), Send(a))
  {
    var v, msg := Dest(c.dsls, s.clients[a].done), Encode(width, Payload(c, s.clients[a].done));
    var link := s.links[a][v];
    assert Linked(c, width, s, a, v);
    SendMicro(msg, link.request, cas);
    SendRefines(c, width, s, a, cas);
    var next := link.(request := Sending(msg, link.request, cas));
    SameEntry(s.links, a, v);
    LinkProgresses(c, width, s, FineStep(c, width, s, FineAct(Send(a), cas)), Send(a), a, v, next,
                   |next.request.sent| > |link.request.sent|);
  }

  lemma CollectProgresses(c: Config, width: nat, s: Fine, a: nat, cas: bool)
    requires Wide(c, width) && FineShaped(c, s) && FineInv(c, width, s) && a < c.apps && AtCollect(c, s.clients[a])
    ensures Progresses(c, width, s, FineStep(c, width, s, FineAct(Collect(a), cas)), Collect(a))
  {
    var v := Dest(c.dsls, s.clients[a].done);
    var link := s.links[a][v];
    assert Linked(c, width, s, a, v);
    ReceiveMicro(link.reply, cas);
    CollectRefines(c, width, s, a, cas);
    var next := link.(reply := Receiving(link.reply, cas));
    SameEntry(s.links, a, v);
    LinkProgresses(c, width, s, FineStep(c, width, s, FineAct(Collect(a), cas)), Collect(a), a, v, next,
                   |next.reply.got| > |link.reply.got|);
  }

  lemma TakeProgresses(c: Config, width: nat, s: Fine, v: nat, a: nat, cas: bool)
    requires Wide(c, width) && FineShaped(c, s) && FineInv(c, width, s)
    requires v < c.dsls && a < c.apps && AtTake(s.servers[v], s.busy[v], a)
    ensures Progresses(c, width, s, FineStep(c, width, s, FineAct(Take(v, a), cas)), Take(v, a))
  {
    var link := s.links[a][v];
    assert Linked(c, width, s, a, v);
    ReceiveMicro(link.request, cas);
    TakeRefines(c, width, s, v, a, cas);
    var next := link.(request := Receiving(link.request, cas));
    SameEntry(s.links, a, v);
    LinkProgresses(c, width, s, FineStep(c, width, s, FineAct(Take(v, a), cas)), Take(v, a), a, v, next,
                   |next.request.got| > |link.request.got|);
  }

  lemma ReplyProgresses(c: Config, width: nat, s: Fine, v: nat, cas: bool)
    requires Wide(c, width) && FineShaped(c, s) && FineInv(c, width, s) && v < c.dsls && AtReply(c, s.servers[v])
    ensures Progresses(c, width, s, FineStep(c, width, s, FineAct(Reply(v), cas)), Reply(v))
  {
    var a, msg := s.servers[v].phase.to, Encode(width, s.servers[v].phase.w);
    var link := s.links[a][v];
    assert Linked(c, width, s, a, v);
    SendMicro(msg, link.reply, cas);
    ReplyRefines(c, width, s, v, cas);
    var next := link.(reply := Sending(msg, link.reply, cas));
    SameEntry(s.links, a, v);
    LinkProgresses(c, width, s, FineStep(c, width, s, FineAct(Reply(v), cas)), Reply(v), a, v, next,
                   |next.reply.sent| > |link.reply.sent|);
  }

  lemma StepProgresses(c: Config, width: nat, s: Fine, act: FineAct)
    requires Wide(c, width) && FineShaped(c, s) && FineInv(c, width, s)
    ensures Progresses(c, width, s, FineStep(c, width, s, act), act.op)
  {
    match act.op
    case Send(a) => if a < c.apps && AtSend(c, s.clients[a]) { SendProgresses(c, width, s, a, act.cas); }
    case Collect(a) => if a < c.apps && AtCollect(c, s.clients[a]) { CollectProgresses(c, width, s, a, act.cas); }
    case Take(v, a) =>
      if v < c.dsls && a < c.apps && AtTake(s.servers[v], s.busy[v], a) { TakeProgresses(c, width, s, v, a, act.cas); }
    case Reply(v) => if v < c.dsls && AtReply(c, s.servers[v]) { ReplyProgresses(c, width, s, v, act.cas); }
  }

  lemma FewerVisibleStepsLeft(c: Config, width: nat, s: Fine, t: Fine)
    requires FineShaped(c, s) && FineShaped(c, t) && Work(c, Abs(c, t)) < Work(c, Abs(c, s))
    requires Sum(AllMicros(t.links)) <= Sum(AllMicros(s.links)) + width + 1
    ensures FineWork(c, width, t) < FineWork(c, width, s)
  {
    Arith.OutweighedBy(Work(c, Abs(c, s)), Work(c, Abs(c, t)), width + 2,
                       Sum(AllMicros(s.links)), Sum(AllMicros(t.links)));
  }

  lemma ProgressUsesWork(c: Config, width: nat, s: Fine, t: Fine, op: Act)
    requires Wide(c, width) && FineShaped(c, s) && FineShaped(c, t) && Progresses(c, width, s, t, op) && t != s
    ensures FineWork(c, width, t) < FineWork(c, width, s)
  {
    if !(Abs(c, t) == Abs(c, s) && Sum(AllMicros(t.links)) < Sum(AllMicros(s.links))) {
      StepShrinks(c, Abs(c, s), op);
      FewerVisibleStepsLeft(c, width, s, t);
    }
  }

  lemma RowNonNegative(c: Config, width: nat, s: Fine, a: nat)
    requires Wide(c, width) && FineShaped(c, s) && FineInv(c, width, s) && a < c.apps
    ensures Sum(RowMicros(s.links[a])) >= 0
  {
    forall v | 0 <= v < c.dsls
      ensures RowMicros(s.links[a])[v] >= 0
    {
      assert Linked(c, width, s, a, v);
      MicroNonNegative(s.links[a][v].request);
      MicroNonNegative(s.links[a][v].reply);
    }
    SumNonNegative(RowMicros(s.links[a]));
  }

  lemma MicrosNonNegative(c: Config, width: nat, s: Fine)
    requires Wide(c, width) && FineShaped(c, s) && FineInv(c, width, s)
    ensures Sum(AllMicros(s.links)) >= 0
  {
    forall a | 0 <= a < c.apps
      ensures AllMicros(s.links)[a] >= 0
    {
      RowNonNegative(c, width, s, a);
    }
    SumNonNegative(AllMicros(s.links));
  }

  lemma WeighedNonNegative(c: Config, width: nat, s: Fine)
    requires FineShaped(c, s) && Work(c, Abs(c, s)) >= 0 && Sum(AllMicros(s.links)) >= 0
    ensures FineWork(c, width, s) >= 0
  {
    Arith.Multiple(Work(c, Abs(c, s)), width + 2);
  }

  lemma FineWorkNonNegative(c: Config, width: nat, s: Fine)
    requires Wide(c, width) && FineShaped(c, s) && FineInv(c, width, s)
    ensures FineWork(c, width, s) >= 0
  {
    MicrosNonNegative(c, width, s);
    WorkNonNegative(c, Abs(c, s));
    WeighedNonNegative(c, width, s);
  }

  /** Accesses of a run that are not failed tests. */
  function RealAccesses(c: Config, width: nat, acts: seq<FineAct>): nat {
    if |acts| == 0 then 0
    else
      var before := acts[..|acts| - 1];
      RealAccesses(c, width, before) + if FineExec(c, width, acts) != FineExec(c, width, before) then 1 else 0
  }

  /** No run, however long, contains more real accesses than the work there is at the start. */
  lemma {:induction false} RealAccessesAreBounded(c: Config, width: nat, acts: seq<FineAct>)
    requires Wide(c, width)
    ensures RealAccesses(c, width, acts) + FineWork(c, width, FineExec(c, width, acts))
            <= FineWork(c, width, FineInit(c, width))
    ensures RealAccesses(c, width, acts) <= FineWork(c, width, FineInit(c, width))
  {
    var _ := RunRefines(c, width, acts);
    FineWorkNonNegative(c, width, FineExec(c, width, acts));
    if |acts| > 0 {
      var before, act := acts[..|acts| - 1], acts[|acts| - 1];
      RealAccessesAreBounded(c, width, before);
      if FineExec(c, width, acts) != FineExec(c, width, before) {
        var _ := RunRefines(c, width, before);
        StepProgresses(c, width, FineExec(c, width, before), act);
        ProgressUsesWork(c, width, FineExec(c, width, before), FineExec(c, width, acts), act.op);
      }
    }
  }

  lemma OneMoreAccess(c: Config, width: nat, acts: seq<FineAct>, act: FineAct)
    requires Wide(c, width) && FineStep(c, width, FineExec(c, width, acts), act) != FineExec(c, width, acts)
    ensures RealAccesses(c, width, acts) < RealAccesses(c, width, acts + [act])
            <= FineWork(c, width, FineInit(c, width))
  {
    assert (acts + [act])[..|acts|] == acts;
    RealAccessesAreBounded(c, width, acts + [act]);
  }

  /** Every run of a balanced program can be continued until all clients are done and all servers have left. */
  lemma {:induction false} EveryRunFinishesWordByWord(c: Config, width: nat, acts: seq<FineAct>)
      returns (rest: seq<FineAct>)
    requires Wide(c, width) && Balanced(c)
    ensures Over(c, Abs(c, FineExec(c, width, acts + rest)))
    decreases FineWork(c, width, FineInit(c, width)) - RealAccesses(c, width, acts)
  {
    if Over(c, Abs(c, FineExec(c, width, acts))) {
      rest := [];
      assert acts + [] == acts;
    } else {
      var act := NeverStuckWordByWord(c, width, acts, false);
      OneMoreAccess(c, width, acts, act);
      var more := EveryRunFinishesWordByWord(c, width, acts + [act]);
      Regroup(acts, act, more);
      rest := [act] + more;
    }
  }
}
