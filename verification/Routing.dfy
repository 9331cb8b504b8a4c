/** From account numbers to servers: the bank's `get_dsl` and the local account number. */
module Routing {
  import opened Common
  import Arith
  import opened Bits

  /** The table of server ids as the set-up loop leaves it: multiples of `perCore`, then zeros. */
  predicate DslTable(table: seq<nat>, dsls: nat, perCore: nat) {
    && |table| == 256 && 1 <= dsls <= 255 && perCore >= 1
    && (forall i :: 0 <= i < dsls ==> table[i] == i * perCore)
    && (forall i :: dsls <= i < 256 ==> table[i] == 0)
  }

  /** Accounts per server: the code's integer division. */
  function PerServer(accounts: nat, dsls: nat): nat
    requires dsls >= 1
  {
    accounts / dsls
  }

  /** An account number drawn by masking a random word, for a power of two of accounts. */
  function Draw(random: nat, accounts: nat): nat
    requires accounts >= 1
  {
    And(random, accounts - 1)
  }

  /** With a power of two of accounts the draw is the random word modulo the number of accounts. */
  lemma DrawIsRemainder(random: nat, accounts: nat)
    requires IsPow2(accounts)
    ensures Draw(random, accounts) == random % accounts < accounts
  {
    var k: nat :| accounts == Pow2(k);
    MaskIsRemainder(random, k);
  }

  lemma {:induction false} Pow2Wide(k: nat)
    ensures Pow2(k) <= 256 || Pow2(k) % 256 == 0
  {
    if k <= 8 {
      Pow2Monotone(k, 8);
    } else {
      Pow2Add(k - 8, 8);
      assert Pow2(8) == 256;
      Arith.ModUnique(Pow2(k), 256, Pow2(k - 8), 0);
    }
  }

  lemma EnoughPerServer(accounts: nat, dsls: nat)
    requires IsPow2(accounts) && 1 <= dsls <= 255 && dsls <= accounts
    ensures 1 <= PerServer(accounts, dsls) && accounts <= 256 * PerServer(accounts, dsls)
  {
    var k: nat :| accounts == Pow2(k);
    Pow2Wide(k);
    Arith.DivAtLeast(accounts, dsls, 1);
    if accounts > 256 {
      var m := accounts / 256;
      Arith.TimesMonotone(m, dsls, 256);
      Arith.DivAtLeast(accounts, dsls, m);
    }
  }

  /**
   For any power of two of accounts and up to 255 servers the lookup divides by zero exactly if there are more
   servers than accounts, and otherwise never leaves the table.
   */
  lemma LookupInBounds(accounts: nat, dsls: nat, acc: nat)
    requires IsPow2(accounts) && 1 <= dsls <= 255 && acc < accounts
    ensures PerServer(accounts, dsls) == 0 <==> dsls > accounts
    ensures dsls <= accounts ==> acc / PerServer(accounts, dsls) < 256
  {
    if dsls <= accounts {
      EnoughPerServer(accounts, dsls);
      Arith.DivBelow(acc, PerServer(accounts, dsls), 256);
    } else {
      Arith.ModUnique(accounts, dsls, 0, accounts);
    }
  }

  /** The server an account number goes to, and the local number there; None stands for a division by zero. */
  function Route(table: seq<nat>, accounts: nat, dsls: nat, acc: nat): Option<(nat, nat)>
    requires IsPow2(accounts) && |table| == 256 && 1 <= dsls <= 255 && acc < accounts
  {
    LookupInBounds(accounts, dsls, acc);
    var q := PerServer(accounts, dsls);
    if q == 0 then None else Some((table[acc / q], acc % q))
  }

  /**
   Where every account goes, whether the servers divide the accounts or not: with q accounts to a server, the
   whole part of accounts / dsls, account s * q + l is local account l of server s as long as there is such a
   server, and the accounts left over go to process 0.
   */
  lemma RouteIs(table: seq<nat>, accounts: nat, dsls: nat, perCore: nat, q: nat, s: nat, l: nat)
    requires IsPow2(accounts) && DslTable(table, dsls, perCore)
    requires dsls * q <= accounts < dsls * (q + 1) && l < q && s * q + l < accounts
    ensures Route(table, accounts, dsls, s * q + l) == Some((if s < dsls then s * perCore else 0, l))
  {
    assert dsls * (q + 1) == q * dsls + dsls;
    Arith.ModUnique(accounts, dsls, q, accounts - q * dsls);
    Arith.ModUnique(s * q + l, q, s, l);
    LookupInBounds(accounts, dsls, s * q + l);
  }

  /** Every account is routed, and no two of them alike. */
  ghost predicate OneToOne(table: seq<nat>, accounts: nat, dsls: nat)
    requires IsPow2(accounts) && |table| == 256 && 1 <= dsls <= 255
  {
    && (forall x: nat :: x < accounts ==> Route(table, accounts, dsls, x).Some?)
    && forall x: nat, y: nat ::
         x < accounts && y < accounts && Route(table, accounts, dsls, x) == Route(table, accounts, dsls, y) ==> x == y
  }

  /** When the servers divide the accounts evenly, account s * q + l is local account l of server s. */
  lemma RouteHits(table: seq<nat>, accounts: nat, dsls: nat, perCore: nat, s: nat, l: nat)
    requires IsPow2(accounts) && DslTable(table, dsls, perCore) && accounts % dsls == 0
    requires s < dsls && l < PerServer(accounts, dsls)
    ensures var q := PerServer(accounts, dsls);
            0 <= s * q + l < accounts && Route(table, accounts, dsls, s * q + l) == Some((s * perCore, l))
  {
    var q := PerServer(accounts, dsls);
    Arith.DivMod(accounts, dsls);
    Arith.InGrid(s, l, dsls, q);
    Arith.ModUnique(s * q + l, q, s, l);
  }

  /** There are no more servers than accounts if they divide them. */
  lemma DivisorsFit(accounts: nat, dsls: nat)
    requires IsPow2(accounts) && dsls >= 1 && accounts % dsls == 0
    ensures dsls <= accounts
  {
    if dsls > accounts {
      Arith.ModUnique(accounts, dsls, 0, accounts);
    }
  }

  /** Every account goes to a real server and a local account that server has. */
  lemma RouteLands(table: seq<nat>, accounts: nat, dsls: nat, perCore: nat, acc: nat)
    requires IsPow2(accounts) && DslTable(table, dsls, perCore) && accounts % dsls == 0
    requires acc < accounts
    ensures var q := PerServer(accounts, dsls);
            && q > 0 && acc / q < dsls && acc % q < q
            && Route(table, accounts, dsls, acc) == Some((acc / q * perCore, acc % q))
  {
    var q := PerServer(accounts, dsls);
    DivisorsFit(accounts, dsls);
    EnoughPerServer(accounts, dsls);
    Arith.DivMod(accounts, dsls);
    Arith.DivBelow(acc, q, dsls);
  }

  /**
   Accounts map one to one onto servers and local accounts exactly if the number of servers divides the number
   of accounts. Otherwise, with more servers than accounts no account is routed at all, and with fewer account
   dsls * (accounts / dsls) lands on account 0 of the first server.
   */
  lemma OneToOneIffDivides(table: seq<nat>, accounts: nat, dsls: nat, perCore: nat)
    requires IsPow2(accounts) && DslTable(table, dsls, perCore)
    ensures OneToOne(table, accounts, dsls) <==> accounts % dsls == 0
  {
    if accounts % dsls == 0 {
      forall x: nat | x < accounts
        ensures Route(table, accounts, dsls, x).Some?
      {
        RouteLands(table, accounts, dsls, perCore, x);
      }
      forall x: nat, y: nat |
        x < accounts && y < accounts && Route(table, accounts, dsls, x) == Route(table, accounts, dsls, y)
        ensures x == y
      {
        SameRouteSameAccount(table, accounts, dsls, perCore, x, y);
      }
    } else if dsls > accounts {
      LookupInBounds(accounts, dsls, 0);
      assert Route(table, accounts, dsls, 0).None?;
    } else {
      Collision(table, accounts, dsls, perCore);
    }
  }

  lemma SameRouteSameAccount(table: seq<nat>, accounts: nat, dsls: nat, perCore: nat, x: nat, y: nat)
    requires IsPow2(accounts) && DslTable(table, dsls, perCore) && accounts % dsls == 0
    requires x < accounts && y < accounts && Route(table, accounts, dsls, x) == Route(table, accounts, dsls, y)
    ensures x == y
  {
    var q := PerServer(accounts, dsls);
    RouteLands(table, accounts, dsls, perCore, x);
    RouteLands(table, accounts, dsls, perCore, y);
    SameMultiple(x / q, y / q, perCore);
    Arith.DivMod(x, q);
    Arith.DivMod(y, q);
  }

  lemma SameMultiple(a: int, b: int, p: int)
    requires p > 0 && a * p == b * p
    ensures a == b
  {
  }

  lemma Collision(table: seq<nat>, accounts: nat, dsls: nat, perCore: nat)
    requires IsPow2(accounts) && DslTable(table, dsls, perCore) && dsls <= accounts && accounts % dsls != 0
    ensures var x := dsls * PerServer(accounts, dsls);
            0 < x < accounts && Route(table, accounts, dsls, x) == Route(table, accounts, dsls, 0) == Some((0, 0))
  {
    var q := PerServer(accounts, dsls);
    EnoughPerServer(accounts, dsls);
    assert accounts == q * dsls + accounts % dsls;
    Arith.Multiple(dsls, q);
    Arith.ModUnique(dsls * q, q, dsls, 0);
    Arith.ModUnique(0, q, 0, 0);
  }
}
