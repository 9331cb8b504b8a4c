/**
 Receiving from a subset of the processes: the compacted view of the slots, and the fair scan over it.
 */
module ColourReceive {
  import Arith
  import opened Common
  import opened Slots

  // ---------------------------------------------------------------- the colour view

  /** The processes below n, other than the receiver, that the colour function selects, in ascending order. */
  function Selected(n: nat, self: nat, colour: nat -> int): seq<nat> {
    if n == 0 then []
    else Selected(n - 1, self, colour) + if n - 1 != self && colour(n - 1) != 0 then [n - 1] else []
  }

  lemma {:induction false} SelectedIsEnumeration(n: nat, self: nat, colour: nat -> int)
    ensures var sel := Selected(n, self, colour);
            && (forall k, l :: 0 <= k < l < |sel| ==> sel[k] < sel[l])
            && (forall ue: nat :: ue in sel <==> ue < n && ue != self && colour(ue) != 0)
            && |sel| <= n
  {
    if n > 0 {
      SelectedIsEnumeration(n - 1, self, colour);
      var before := Selected(n - 1, self, colour);
      assert forall k :: 0 <= k < |before| ==> before[k] in before;
    }
  }

  /** The id of a sender as the 8-bit field of the view keeps it. */
  function Tag(ue: nat): nat {
    ue % 256
  }

  /** The first pass: mark the participants and count them. */
  method MarkParticipants(n: nat, self: nat, colour: nat -> int) returns (participants: array<int>, num: nat)
    ensures fresh(participants) && participants.Length == n
    ensures num == |Selected(n, self, colour)|
    ensures forall ue :: 0 <= ue < n ==> participants[ue] == if ue == self then 0 else colour(ue)
  {
    participants := new int[n](_ => 0);
    num := 0;
    var ue := 0;
    while ue < n
      invariant 0 <= ue <= n
      invariant num == |Selected(ue, self, colour)|
      invariant forall i :: 0 <= i < ue ==> participants[i] == if i == self then 0 else colour(i)
    {
      if ue == self {
        participants[ue] := 0;
      } else {
        participants[ue] := colour(ue);
        if participants[ue] != 0 {
          num := num + 1;
        }
      }
      ue := ue + 1;
    }
  }

  /** Build the view: the second pass collects the participants' slots and ids. */
  method BuildView(n: nat, self: nat, colour: nat -> int) returns (buf: array<Ptr>, from: array<nat>)
    ensures fresh(buf) && fresh(from)
    ensures buf.Length == from.Length == |Selected(n, self, colour)|
    ensures forall k :: 0 <= k < from.Length ==> from[k] == Tag(Selected(n, self, colour)[k])
    ensures forall k :: 0 <= k < from.Length ==> buf[k] == RecvPtr(self, Selected(n, self, colour)[k])
  {
    var participants, num := MarkParticipants(n, self, colour);
    buf := new Ptr[num](_ => Ptr(0, 0));
    from := new nat[num](_ => 0);
    var bufNum, ue := 0, 0;
    ghost var sel := Selected(n, self, colour);
    while ue < n
      invariant 0 <= ue <= n
      invariant forall i :: 0 <= i < n ==> participants[i] == if i == self then 0 else colour(i)
      invariant bufNum == |Selected(ue, self, colour)| <= num
      invariant forall k :: 0 <= k < bufNum ==> from[k] == Tag(sel[k]) && buf[k] == RecvPtr(self, sel[k])
    {
      if participants[ue] != 0 {
        NextSelected(ue, n, self, colour, sel);
        assert bufNum < num && sel[bufNum] == ue;
        buf[bufNum] := RecvPtr(self, ue);
        from[bufNum] := Tag(ue);
        bufNum := bufNum + 1;
      }
      ue := ue + 1;
    }
  }

  lemma {:induction false} SelectedPrefix(m: nat, n: nat, self: nat, colour: nat -> int)
    requires m <= n
    ensures Selected(m, self, colour) <= Selected(n, self, colour)
  {
    if m < n {
      SelectedPrefix(m, n - 1, self, colour);
    }
  }

  lemma NextSelected(m: nat, n: nat, self: nat, colour: nat -> int, sel: seq<nat>)
    requires m < n && m != self && colour(m) != 0 && sel == Selected(n, self, colour)
    ensures var k := |Selected(m, self, colour)|;
            |Selected(m + 1, self, colour)| == k + 1 && k < |sel| && sel[k] == m
  {
    assert Selected(m + 1, self, colour) == Selected(m, self, colour) + [m];
    SelectedPrefix(m + 1, n, self, colour);
  }

  /** The view names every sender truly exactly if no selected process has an id beyond 8 bits. */
  lemma TagsAreTrueIffByte(n: nat, self: nat, colour: nat -> int)
    ensures var sel := Selected(n, self, colour);
            (forall k :: 0 <= k < |sel| ==> Tag(sel[k]) == sel[k]) <==>
            (forall ue: nat :: ue < n && ue != self && colour(ue) != 0 ==> ue < 256)
  {
    SelectedIsEnumeration(n, self, colour);
    var sel := Selected(n, self, colour);
    if forall k :: 0 <= k < |sel| ==> Tag(sel[k]) == sel[k] {
      forall ue: nat | ue < n && ue != self && colour(ue) != 0
        ensures ue < 256
      {
        assert ue in sel;
      }
    }
    if forall ue: nat :: ue < n && ue != self && colour(ue) != 0 ==> ue < 256 {
      forall k | 0 <= k < |sel|
        ensures Tag(sel[k]) == sel[k]
      {
        assert sel[k] in sel;
      }
    }
  }

  // ---------------------------------------------------------------- the fair scan

  /** Where a scan with this cursor tests next; a cursor beyond the view is stale and counts as 0. */
  function Norm(k: nat, cursor: nat): nat {
    if cursor < k then cursor else 0
  }

  /** One call: `flags[t]` are the entries whose flag announces a message at the moment of the t-th test. */
  function Scan(k: nat, cursor: nat, flags: seq<set<nat>>): (r: (Option<nat>, nat))
    decreases |flags|
  {
    if k == 0 || |flags| == 0 then (None, cursor)
    else
      var c := Norm(k, cursor);
      if c in flags[0] then (Some(c), if c + 1 == k then 0 else c + 1)
      else Scan(k, c + 1, flags[1..])
  }

  /** Tests before entry p is reached from entry c, going round. */
  function Distance(k: nat, c: nat, p: nat): (d: nat)
    requires c < k && p < k
    ensures d < k
  {
    if c <= p then p - c else k - c + p
  }

  /** While p's message waits, one call comes closer to p: it takes p or an entry strictly on the way to p. */
  lemma {:induction false} ScanApproaches(k: nat, cursor: nat, flags: seq<set<nat>>, p: nat)
    requires p < k && forall t :: 0 <= t < |flags| ==> p in flags[t]
    ensures var (r, next) := Scan(k, cursor, flags);
            && (r.Some? && r.value != p ==>
                  r.value < k && Distance(k, Norm(k, next), p) < Distance(k, Norm(k, cursor), p))
            && (r.None? ==> |flags| + Distance(k, Norm(k, next), p) <= Distance(k, Norm(k, cursor), p))
    decreases |flags|
  {
    if |flags| > 0 {
      var c := Norm(k, cursor);
      if c !in flags[0] {
        assert Distance(k, Norm(k, c + 1), p) == Distance(k, c, p) - 1;
        ScanApproaches(k, c + 1, flags[1..], p);
      }
    }
  }

  /** The messages a sequence of calls returns; the cursor persists from call to call. */
  function Calls(k: nat, cursor: nat, calls: seq<seq<set<nat>>>): seq<nat>
    decreases |calls|
  {
    if |calls| == 0 then []
    else
      var (r, next) := Scan(k, cursor, calls[0]);
      (if r.Some? then [r.value] else []) + Calls(k, next, calls[1..])
  }

  /**
   Bounded bypass: from the moment entry p holds a message, whatever else arrives before any test and
   however stale the cursor is, the calls return at most k - 1 messages from others before p's.
   */
  lemma {:induction false} BoundedBypass(k: nat, cursor: nat, calls: seq<seq<set<nat>>>, p: nat)
    requires p < k
    requires forall j, t :: 0 <= j < |calls| && 0 <= t < |calls[j]| ==> p in calls[j][t]
    ensures p !in Calls(k, cursor, calls) ==> |Calls(k, cursor, calls)| <= Distance(k, Norm(k, cursor), p) < k
    decreases |calls|
  {
    if |calls| > 0 {
      var (r, next) := Scan(k, cursor, calls[0]);
      ScanApproaches(k, cursor, calls[0], p);
      assert forall j, t :: 0 <= j < |calls[1..]| && 0 <= t < |calls[1..][j]| ==> p in calls[1..][j][t];
      BoundedBypass(k, next, calls[1..], p);
    }
  }

  /** And a call made while p's message waits returns within k tests. */
  lemma CallReturns(k: nat, cursor: nat, flags: seq<set<nat>>, p: nat)
    requires p < k <= |flags| && forall t :: 0 <= t < |flags| ==> p in flags[t]
    ensures Scan(k, cursor, flags).0.Some?
  {
    ScanApproaches(k, cursor, flags, p);
  }

  // ---------------------------------------------------------------- two views and one cursor

  /** A call on the view in question, or on another view of the same thread, which uses the same cursor. */
  datatype Call = Own(flags: seq<set<nat>>) | Other(flags: seq<set<nat>>)

  /** What the calls on a view of k entries return when calls on a view of m entries are mixed in. */
  function Mixed(k: nat, m: nat, cursor: nat, calls: seq<Call>): seq<nat>
    decreases |calls|
  {
    if |calls| == 0 then []
    else match calls[0]
      case Own(flags) =>
        var (r, next) := Scan(k, cursor, flags);
        (if r.Some? then [r.value] else []) + Mixed(k, m, next, calls[1..])
      case Other(flags) =>
        Mixed(k, m, Scan(m, cursor, flags).1, calls[1..])
  }

  /** Entry p holds a message at every test of the view in question. */
  ghost predicate Waits(p: nat, calls: seq<Call>) {
    forall j, t :: 0 <= j < |calls| && calls[j].Own? && 0 <= t < |calls[j].flags| ==> p in calls[j].flags[t]
  }

  /** The bound of BoundedBypass holds whatever is called on the other view, and in whatever order. */
  ghost predicate BoundedBeside(k: nat, m: nat) {
    forall cursor: nat, calls: seq<Call>, p: nat ::
      p < k && Waits(p, calls) && p !in Mixed(k, m, cursor, calls) ==> |Mixed(k, m, cursor, calls)| < k
  }

  /** A view of a single entry serves it with the first call that returns. */
  lemma {:induction false} SingleIsServed(m: nat, cursor: nat, calls: seq<Call>)
    requires Waits(0, calls)
    ensures 0 !in Mixed(1, m, cursor, calls) ==> Mixed(1, m, cursor, calls) == []
    decreases |calls|
  {
    if |calls| > 0 {
      assert forall j :: 0 <= j < |calls[1..]| ==> calls[1..][j] == calls[j + 1];
      match calls[0]
      case Own(flags) =>
        ScanApproaches(1, cursor, flags, 0);
        SingleIsServed(m, Scan(1, cursor, flags).1, calls[1..]);
      case Other(flags) =>
        SingleIsServed(m, Scan(m, cursor, flags).1, calls[1..]);
    }
  }

  /** Flags of m tests of a view whose last entry alone holds a message. */
  function LastOnly(m: nat): (flags: seq<set<nat>>)
    requires m >= 1
    ensures |flags| == m && forall t :: 0 <= t < m ==> flags[t] == {m - 1}
  {
    seq(m, t => {m - 1})
  }

  /** A call on such a view brings the cursor back to the start. */
  lemma {:induction false} LastResets(m: nat, cursor: nat, flags: seq<set<nat>>)
    requires m >= 1 && |flags| + Norm(m, cursor) >= m && forall t :: 0 <= t < |flags| ==> flags[t] == {m - 1}
    ensures Scan(m, cursor, flags).1 == 0
    decreases |flags|
  {
    var c := Norm(m, cursor);
    if c < m - 1 {
      LastResets(m, c + 1, flags[1..]);
    }
  }

  /** n times a call on the one view, entries 0 and 1 being full, and a call on the other, its last entry being full. */
  function Rounds(m: nat, n: nat): (calls: seq<Call>)
    requires m >= 1
    ensures forall j :: 0 <= j < |calls| ==> calls[j] == Own([{0, 1}]) || calls[j] == Other(LastOnly(m))
  {
    if n == 0 then [] else [Own([{0, 1}]), Other(LastOnly(m))] + Rounds(m, n - 1)
  }

  /** Then the calls on the first view return entry 0 again and again. */
  lemma {:induction false} AlwaysFirst(k: nat, m: nat, n: nat)
    requires k >= 2 && m >= 1
    ensures Mixed(k, m, 0, Rounds(m, n)) == seq(n, t => 0)
  {
    if n > 0 {
      AlwaysFirst(k, m, n - 1);
      var calls := Rounds(m, n);
      assert calls[1..] == [Other(LastOnly(m))] + Rounds(m, n - 1) && calls[1..][1..] == Rounds(m, n - 1);
      assert Scan(k, 0, [{0, 1}]) == (Some(0), 1);
      LastResets(m, 1, LastOnly(m));
      assert Mixed(k, m, 1, calls[1..]) == Mixed(k, m, 0, Rounds(m, n - 1));
      assert seq(n, t => 0) == [0] + seq(n - 1, t => 0);
    }
  }

  /**
   Beside another view of the same thread, of any size, the bound survives all patterns of calls and of
   arrivals exactly if the view has a single entry.
   */
  lemma BoundedBesideIffSingle(k: nat, m: nat)
    requires k >= 1 && m >= 1
    ensures BoundedBeside(k, m) <==> k == 1
  {
    if k == 1 {
      forall cursor: nat, calls: seq<Call>, p: nat |
        p < k && Waits(p, calls) && p !in Mixed(k, m, cursor, calls)
        ensures |Mixed(k, m, cursor, calls)| < k
      {
        SingleIsServed(m, cursor, calls);
      }
    } else {
      AlwaysFirst(k, m, k);
      var calls := Rounds(m, k);
      assert Waits(1, calls) && 1 !in Mixed(k, m, 0, calls) && |Mixed(k, m, 0, calls)| == k;
    }
  }

  // ---------------------------------------------------------------- what a call returns

  /** Calls with enough tests all return, one entry each. */
  lemma {:induction false} AllReturn(k: nat, cursor: nat, calls: seq<seq<set<nat>>>, p: nat)
    requires p < k && forall j :: 0 <= j < |calls| ==> |calls[j]| >= k
    requires forall j, t :: 0 <= j < |calls| && 0 <= t < |calls[j]| ==> p in calls[j][t]
    ensures |Calls(k, cursor, calls)| == |calls|
    decreases |calls|
  {
    if |calls| > 0 {
      CallReturns(k, cursor, calls[0], p);
      assert forall j :: 0 <= j < |calls[1..]| ==> calls[1..][j] == calls[j + 1];
      AllReturn(k, Scan(k, cursor, calls[0]).1, calls[1..], p);
    }
  }

  /** So a waiting entry is served by one of the next k calls. */
  lemma ServedWithinRound(k: nat, cursor: nat, calls: seq<seq<set<nat>>>, p: nat)
    requires p < k <= |calls| && forall j :: 0 <= j < |calls| ==> |calls[j]| >= k
    requires forall j, t :: 0 <= j < |calls| && 0 <= t < |calls[j]| ==> p in calls[j][t]
    ensures p in Calls(k, cursor, calls)
  {
    AllReturn(k, cursor, calls, p);
    BoundedBypass(k, cursor, calls, p);
  }

  lemma NextInRound(k: nat, c: nat, u: nat)
    requires c < k
    ensures (Norm(k, c + 1) + u) % k == (c + u + 1) % k
  {
    if c + 1 == k {
      var q, r := u / k, u % k;
      assert u == q * k + r;
      Arith.ModUnique(k + u, k, q + 1, r);
    }
  }

  /** The entry that the u-th test from entry c on looks at. */
  function Place(k: nat, c: nat, u: nat): nat
    requires k > 0
  {
    (c + u) % k
  }

  ghost predicate Misses(k: nat, c: nat, flags: seq<set<nat>>, t: nat)
    requires k > 0 && t <= |flags|
  {
    forall u :: 0 <= u < t ==> Place(k, c, u) !in flags[u]
  }

  lemma MissesOneMore(k: nat, c: nat, flags: seq<set<nat>>, t: nat)
    requires c < k && 0 < |flags| && c !in flags[0] && t <= |flags[1..]| && Misses(k, Norm(k, c + 1), flags[1..], t)
    ensures Misses(k, c, flags, t + 1)
  {
    forall u | 0 <= u < t + 1
      ensures Place(k, c, u) !in flags[u]
    {
      if u > 0 {
        NextInRound(k, c, u - 1);
        assert Place(k, Norm(k, c + 1), u - 1) !in flags[1..][u - 1];
      } else {
        Arith.ModUnique(c, k, 0, c);
      }
    }
  }

  /** A call only returns an entry that announced a message when it was tested, and skips only entries that did not. */
  lemma {:induction false} ScanIsFirstHit(k: nat, cursor: nat, flags: seq<set<nat>>) returns (t: nat)
    requires k > 0
    ensures t <= |flags| && Misses(k, Norm(k, cursor), flags, t)
    ensures Scan(k, cursor, flags).0 == if t == |flags| then None else Some(Place(k, Norm(k, cursor), t))
    ensures t < |flags| ==> Place(k, Norm(k, cursor), t) in flags[t]
    decreases |flags|
  {
    var c := Norm(k, cursor);
    if |flags| == 0 {
      t := 0;
    } else if c in flags[0] {
      t := 0;
      Arith.ModUnique(c, k, 0, c);
    } else {
      t := ScanIsFirstHit(k, c + 1, flags[1..]);
      MissesOneMore(k, c, flags, t);
      NextInRound(k, c, t);
      assert t < |flags[1..]| ==> flags[1..][t] == flags[t + 1];
      t := t + 1;
    }
  }

  /** The persistent cursor of one receiver. */
  class Scanner {
    var cursor: nat

    constructor ()
      ensures cursor == 0
    {
      cursor := 0;
    }

    /** The receive loop over a view of k entries, run for as many tests as `flags` provides for. */
    method Receive(k: nat, flags: seq<set<nat>>) returns (r: Option<nat>)
      modifies this
      ensures (r, Norm(k, cursor)) == (Scan(k, old(cursor), flags).0, Norm(k, Scan(k, old(cursor), flags).1))
    {
      var t := 0;
      assert flags[0..] == flags;
      while k > 0 && t < |flags|
        invariant 0 <= t <= |flags|
        invariant Scan(k, old(cursor), flags).0 == Scan(k, cursor, flags[t..]).0
        invariant Norm(k, Scan(k, old(cursor), flags).1) == Norm(k, Scan(k, cursor, flags[t..]).1)
        decreases |flags| - t, if cursor < k then 0 else 1
      {
        ghost var tests, place := t, cursor;
        while cursor < k && t < |flags|
          invariant tests <= t <= |flags|
          invariant t == tests ==> cursor == place
          invariant Scan(k, old(cursor), flags).0 == Scan(k, cursor, flags[t..]).0
          invariant Norm(k, Scan(k, old(cursor), flags).1) == Norm(k, Scan(k, cursor, flags[t..]).1)
          decreases |flags| - t
        {
          assert flags[t..][1..] == flags[t + 1..];
          if cursor in flags[t] {
            r := Some(cursor);
            cursor := cursor + 1;
            if cursor == k {
              cursor := 0;
            }
            return;
          }
          t := t + 1;
          cursor := cursor + 1;
        }
        if t < |flags| {
          cursor := 0;
        }
      }
      r := None;
    }
  }
}
