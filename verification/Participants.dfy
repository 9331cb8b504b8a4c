/**
 Who takes part in a barrier, as every caller of wait works it out for itself.
 */
module Participants {
  import opened Common
  import opened Bits
  import Arith

  const NUM_BARRIERS: nat := 16
  const ALL_ONES: nat := 0xFFFF_FFFF_FFFF_FFFF

  /** The colour function of a barrier, if it has one. */
  datatype Colouring = Plain | Coloured(of: nat -> int)

  /** What a barrier remembers about its participants: a 64-bit map and a colour function. */
  datatype Setting = Setting(bits: nat, colouring: Colouring)

  /** A barrier in shared memory. */
  datatype Record = Record(setting: Setting, ticket: nat, cleared: bool)

  /** What a caller who configures a barrier asks for. */
  function Requested(bitmap: nat, colouring: Colouring): Setting {
    Setting(bitmap, colouring)
  }

  /** What the barrier remembers instead: the map is not stored. */
  function Stored(bitmap: nat, colouring: Colouring): Setting {
    Setting(ALL_ONES, colouring)
  }

  /** Configure a barrier and reset it. */
  method InitBarrier(table: array<Record>, barrier: nat, bitmap: nat, colouring: Colouring)
    requires table.Length == NUM_BARRIERS
    modifies table
    ensures forall b :: 0 <= b < NUM_BARRIERS ==>
              table[b] == if b == barrier then Record(Stored(bitmap, colouring), 0, false) else old(table[b])
  {
    if barrier >= NUM_BARRIERS {
      return;
    }
    table[barrier] := table[barrier].(setting := Setting(ALL_ONES, colouring));
    table[barrier] := table[barrier].(ticket := 0);
    table[barrier] := table[barrier].(cleared := false);
  }

  /** The callers that do not return early: those with a colour other than 0, or without colours those in the map. */
  predicate TakesPart(setting: Setting, id: nat) {
    match setting.colouring
    case Plain => Bit(setting.bits, id)
    case Coloured(of) => of(id) != 0
  }

  function Part(n: nat, setting: Setting): (part: seq<bool>)
    ensures |part| == n
    ensures forall i :: 0 <= i < n ==> part[i] == TakesPart(setting, i)
  {
    seq(n, i requires 0 <= i => TakesPart(setting, i))
  }

  /** What the counting loop adds for one id. */
  function Contribution(setting: Setting, id: nat): int {
    match setting.colouring
    case Plain => if Bit(setting.bits, id) then 1 else 0
    case Coloured(of) => of(id)
  }

  function Total(n: nat, setting: Setting): int {
    if n == 0 then 0 else Total(n - 1, setting) + Contribution(setting, n - 1)
  }

  /**
   The head of wait: scan all ids, shifting the map along and adding up participants in 32 bits, and leave
   at once on finding that the caller is not one of them.
   */
  method NumPart(n: nat, id: nat, setting: Setting) returns (early: bool, num: nat)
    requires id < n
    ensures early <==> !TakesPart(setting, id)
    ensures early <==> match setting.colouring case Plain => !Bit(setting.bits, id) case Coloured(of) => of(id) == 0
    ensures !early ==> num == Total(n, setting) % UINT32
  {
    var bpar := setting.bits;
    num := 0;
    var from := 0;
    while from < n
      invariant 0 <= from <= n
      invariant setting.colouring.Plain? ==> bpar == Shr(setting.bits, from)
      invariant num == Total(from, setting) % UINT32
      invariant id < from ==> TakesPart(setting, id)
    {
      Arith.ModAdd(Total(from, setting), Contribution(setting, from), UINT32);
      match setting.colouring {
        case Coloured(of) =>
          num := (num + of(from)) % UINT32;
          if from == id && of(from) == 0 {
            return true, num;
          }
        case Plain =>
          BitShr(setting.bits, from, 0);
          ShrNext(setting.bits, from);
          var isPart := bpar % 2;
          num := (num + isPart) % UINT32;
          if from == id && isPart == 0 {
            return true, num;
          }
          bpar := bpar / 2;
      }
      from := from + 1;
    }
    early := false;
  }

  /** What the ids bring in one by one: their colours, or their bits in the map. */
  function Shares(n: nat, setting: Setting): (xs: seq<int>)
    ensures |xs| == n
    ensures forall i: nat :: i < n ==>
              xs[i] == match setting.colouring
                       case Plain => if Bit(setting.bits, i) then 1 else 0
                       case Coloured(of) => of(i)
  {
    seq(n, i requires 0 <= i => Contribution(setting, i))
  }

  lemma {:induction false} TotalIsSum(n: nat, setting: Setting)
    ensures Total(n, setting) == Sum(Shares(n, setting))
  {
    if n > 0 {
      TotalIsSum(n - 1, setting);
      assert Shares(n, setting)[..n - 1] == Shares(n - 1, setting);
    }
  }

  lemma PowerOfWord()
    ensures Pow2(64) == ALL_ONES + 1
  {
    PowersOf32();
    Pow2Add(32, 32);
  }

  predicate ZeroOne(n: nat, setting: Setting) {
    forall i :: 0 <= i < n ==> 0 <= Contribution(setting, i) <= 1
  }

  lemma {:induction false} PartPrefix(n: nat, setting: Setting)
    ensures Count(Part(n + 1, setting)) == Count(Part(n, setting)) + if TakesPart(setting, n) then 1 else 0
  {
    assert Part(n + 1, setting)[..n] == Part(n, setting);
  }

  /** With colours 0 and 1, or no colour at all, the total is the number of ids that take part. */
  lemma {:induction false} TotalCountsParticipants(n: nat, setting: Setting)
    requires ZeroOne(n, setting)
    ensures Total(n, setting) == Count(Part(n, setting))
  {
    if n > 0 {
      TotalCountsParticipants(n - 1, setting);
      PartPrefix(n - 1, setting);
    }
  }

  lemma {:induction false} TotalAtLeastCount(n: nat, setting: Setting)
    requires forall i :: 0 <= i < n ==> Contribution(setting, i) >= 0
    ensures Total(n, setting) >= Count(Part(n, setting))
    ensures Total(n, setting) == Count(Part(n, setting)) ==> ZeroOne(n, setting)
  {
    if n > 0 {
      TotalAtLeastCount(n - 1, setting);
      PartPrefix(n - 1, setting);
      assert Contribution(setting, n - 1) >= 0;
    }
  }

  /**
   All callers agree, and on the right number, exactly for 0/1 colours: among colour functions with
   non-negative values and a total that fits in 32 bits, the count each caller computes is the number
   of callers that stay if and only if no colour exceeds 1.
   */
  lemma AgreementIffZeroOne(n: nat, setting: Setting)
    requires forall i :: 0 <= i < n ==> Contribution(setting, i) >= 0
    requires Total(n, setting) < UINT32
    ensures Total(n, setting) % UINT32 == Count(Part(n, setting)) <==> ZeroOne(n, setting)
  {
    TotalAtLeastCount(n, setting);
    if ZeroOne(n, setting) {
      TotalCountsParticipants(n, setting);
    }
  }

  /** The setting of every barrier configured without a colour function. */
  const PLAIN: Setting := Setting(ALL_ONES, Plain)

  lemma PlainIsBelowSixtyFour(id: nat)
    ensures TakesPart(PLAIN, id) <==> id < 64
  {
    PowerOfWord();
    BitOnes(64, id);
  }

  /** Without a colour function only ids below 64 count, however many processes there are. */
  lemma {:induction false} PlainCountsSixtyFour(n: nat)
    ensures Count(Part(n, PLAIN)) == if n <= 64 then n else 64
  {
    if n > 0 {
      PlainCountsSixtyFour(n - 1);
      PartPrefix(n - 1, PLAIN);
      PlainIsBelowSixtyFour(n - 1);
    }
  }

  // ---------------------------------------------------------------- the bitmap that is not stored

  lemma {:induction false} BitBeyond(x: nat, k: nat, i: nat)
    requires x < Pow2(k) && k <= i
    ensures !Bit(x, i)
  {
    if k == 0 {
      BitZero(i);
    } else {
      BitBeyond(x / 2, k - 1, i - 1);
    }
  }

  /** A process takes part though it was not asked for. */
  predicate Unasked(bitmap: nat, colouring: Colouring, id: nat) {
    colouring.Plain? && id < 64 && !Bit(bitmap, id)
  }

  /** Nobody who was asked for is left out, and those who take part without being asked are the unasked ones. */
  lemma StoredAgainstRequested(bitmap: nat, colouring: Colouring, id: nat)
    requires bitmap <= ALL_ONES
    ensures TakesPart(Stored(bitmap, colouring), id) <==>
            TakesPart(Requested(bitmap, colouring), id) || Unasked(bitmap, colouring, id)
  {
    if colouring.Plain? {
      PlainIsBelowSixtyFour(id);
      PowerOfWord();
      if id >= 64 {
        BitBeyond(bitmap, 64, id);
      }
    }
  }

  /** The participants of a configured barrier are those asked for, and as many, exactly if nobody is unasked. */
  lemma MapIsHonouredIff(n: nat, bitmap: nat, colouring: Colouring)
    requires bitmap <= ALL_ONES
    ensures var stored, requested := Part(n, Stored(bitmap, colouring)), Part(n, Requested(bitmap, colouring));
            var honoured := forall id: nat :: id < n ==> !Unasked(bitmap, colouring, id);
            && (stored == requested <==> honoured)
            && (if honoured then Count(stored) == Count(requested) else Count(stored) > Count(requested))
  {
    var stored, requested := Part(n, Stored(bitmap, colouring)), Part(n, Requested(bitmap, colouring));
    forall id: nat | id < n
      ensures stored[id] <==> requested[id] || Unasked(bitmap, colouring, id)
    {
      StoredAgainstRequested(bitmap, colouring, id);
    }
    CountMonotone(requested, stored);
    if id: nat :| id < n && Unasked(bitmap, colouring, id) {
      assert stored[id] && !requested[id];
    } else {
      assert stored == requested;
    }
  }

  /** For every number of processes at once: without a colour function only the map of all ones is honoured. */
  lemma OnlyAllOnesIsHonoured(bitmap: nat)
    requires bitmap <= ALL_ONES
    ensures (forall n: nat :: Part(n, Stored(bitmap, Plain)) == Part(n, Requested(bitmap, Plain)))
            <==> bitmap == ALL_ONES
  {
    if forall n: nat :: Part(n, Stored(bitmap, Plain)) == Part(n, Requested(bitmap, Plain)) {
      forall i: nat
        ensures Bit(bitmap, i) <==> Bit(ALL_ONES, i)
      {
        assert Part(i + 1, Stored(bitmap, Plain)) == Part(i + 1, Requested(bitmap, Plain));
        assert Part(i + 1, Stored(bitmap, Plain))[i] == Part(i + 1, Requested(bitmap, Plain))[i];
      }
      SameBits(bitmap, ALL_ONES);
    }
  }

  /** Asked for process 0 alone, a barrier of two processes takes in both, and process 0 waits for process 1. */
  lemma LoneProcessWaitsForTwo()
    ensures Part(2, Requested(1, Plain)) == [true, false]
    ensures Part(2, Stored(1, Plain)) == [true, true] && Total(2, Stored(1, Plain)) == 2
  {
    assert Bit(1, 0) && !Bit(1, 1);
    PlainIsBelowSixtyFour(0);
    PlainIsBelowSixtyFour(1);
    assert Total(1, PLAIN) == 1;
  }

  // ---------------------------------------------------------------- colours other than 0 and 1

  /** What the participants' colours exceed 1 by, all together; colours below 0 count negatively. */
  function Excess(n: nat, setting: Setting): int {
    if n == 0 then 0
    else Excess(n - 1, setting) + if TakesPart(setting, n - 1) then Contribution(setting, n - 1) - 1 else 0
  }

  lemma {:induction false} TotalIsCountAndExcess(n: nat, setting: Setting)
    ensures Total(n, setting) == Count(Part(n, setting)) + Excess(n, setting)
  {
    if n > 0 {
      TotalIsCountAndExcess(n - 1, setting);
      PartPrefix(n - 1, setting);
    }
  }

  /** For any colours whatever: the number waited for is right exactly if the excess cancels out in 32 bits. */
  lemma AgreementIffNoExcess(n: nat, setting: Setting)
    requires n < UINT32
    ensures Total(n, setting) % UINT32 == Count(Part(n, setting)) <==> Excess(n, setting) % UINT32 == 0
  {
    TotalIsCountAndExcess(n, setting);
    var count, excess := Count(Part(n, setting)), Excess(n, setting);
    assert excess == (excess / UINT32) * UINT32 + excess % UINT32;
    if excess % UINT32 == 0 {
      Arith.ModUnique(count + excess, UINT32, excess / UINT32, count);
    } else if (count + excess) % UINT32 == count {
      var q := (count + excess) / UINT32;
      assert count + excess == q * UINT32 + count;
      Arith.ModUnique(excess, UINT32, q, 0);
    }
  }

  /**
   Negative colours break the equivalence both ways: -1 and 3 cancel to the right number, and with -1, 1, 1
   three participants wait for one although no colour exceeds 1.
   */
  lemma NegativeColours()
    ensures var cancel := Setting(ALL_ONES, Coloured((id: nat) => if id == 0 then -1 else 3));
            Total(2, cancel) == 2 == Count(Part(2, cancel)) && !ZeroOne(2, cancel)
    ensures var short := Setting(ALL_ONES, Coloured((id: nat) => if id == 0 then -1 else 1));
            Total(3, short) == 1 && Count(Part(3, short)) == 3
  {
    var cancel := Setting(ALL_ONES, Coloured((id: nat) => if id == 0 then -1 else 3));
    var short := Setting(ALL_ONES, Coloured((id: nat) => if id == 0 then -1 else 1));
    assert Contribution(cancel, 1) == 3;
    PartPrefix(0, cancel);
    PartPrefix(1, cancel);
    PartPrefix(0, short);
    PartPrefix(1, short);
    PartPrefix(2, short);
    assert Total(1, short) == -1 && Total(2, short) == 0;
  }

  /** The library's own function 10 * id is no valid colour: with two processes the one that stays waits for ten. */
  lemma TenTimesIdMiscounts()
    ensures var setting := Setting(ALL_ONES, Coloured((id: nat) => 10 * id));
            Total(2, setting) == 10 && Count(Part(2, setting)) == 1
  {
  }

  /** Barrier 1 as the library sets it up. */
  const APP: Setting := Setting(ALL_ONES, Coloured((id: nat) => if id % 3 != 0 then 1 else 0))
}
