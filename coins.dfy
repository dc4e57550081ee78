/**
 * What the coin operations do to the coin table, as functions of it:
 * listing, balance, creation and the UTXO transfer with change, with the
 * accounting properties they keep.
 */
module Coins {
  import opened Keys
  import opened Outcomes
  import opened Store
  import opened Records
  import opened World

  /** The sum of the amounts of a sequence of coins. */
  function Total(cs: seq<Coin>): real
  {
    if cs == [] then 0.0 else cs[0].amount + Total(cs[1..])
  }

  lemma {:induction false} TotalAppend(a: seq<Coin>, b: seq<Coin>)
    ensures Total(a + b) == Total(a) + Total(b)
  {
    if a == [] {
      assert a + b == b;
    } else {
      assert (a + b)[0] == a[0] && (a + b)[1..] == a[1..] + b;
      TotalAppend(a[1..], b);
    }
  }

  /** What ReadCurrencyListByOwner returns: the owner's scan, re-checked on the owner field. */
  function CoinsOf(t: Table<Coin>, owner: string): seq<Coin>
  {
    Listing(Scan(t, owner), owner, CoinOwner)
  }

  /** What ReadTotalCurrencyByOwner returns. */
  function Balance(t: Table<Coin>, owner: string): real
  {
    Total(CoinsOf(t, owner))
  }

  /** The value held by all owners together. */
  function Supply(t: Table<Coin>): real
  {
    Total(Values(t))
  }

  /** Every listed coin is the owner's, whatever the table holds. */
  lemma CoinsOfOwned(t: Table<Coin>, owner: string, c: Coin)
    requires c in CoinsOf(t, owner)
    ensures c.owner == owner
  {
    ListingMember(Scan(t, owner), owner, CoinOwner, c);
  }

  /** Every coin is under its owner's key, so the owner re-check drops nothing. */
  lemma CoinsOfIsScan(t: Table<Coin>, owner: string)
    requires CoinKeyed(t)
    ensures CoinsOf(t, owner) == Values(Scan(t, owner))
  {
    forall e | e in Scan(t, owner)
      ensures CoinOwner(e.value) == owner
    {
      ScanMember(t, owner, e);
    }
    ListingAllOwned(Scan(t, owner), owner, CoinOwner);
  }

  // ---------------------------------------------------------------------
  // Greedy coin selection

  /**
   * How many coins the transfer loop takes from cs: it adds each coin to a
   * running total that starts at acc and stops right after the coin that
   * brings the total to at least amount, or at the end of cs.
   */
  function Pick(cs: seq<Coin>, amount: real, acc: real): (n: nat)
    ensures n <= |cs|
    ensures cs != [] ==> 1 <= n
  {
    if cs == [] then 0
    else if acc + cs[0].amount >= amount then 1
    else 1 + Pick(cs[1..], amount, acc + cs[0].amount)
  }

  lemma TotalFirst(cs: seq<Coin>, m: nat)
    requires 1 <= m <= |cs|
    ensures Total(cs[..m]) == cs[0].amount + Total(cs[1..][..m - 1])
  {
    assert cs[..m][0] == cs[0] && cs[..m][1..] == cs[1..][..m - 1];
  }

  lemma {:induction false} PickReaches(cs: seq<Coin>, amount: real, acc: real)
    requires cs != []
    ensures var n := Pick(cs, amount, acc);
      (acc + Total(cs[..n]) >= amount || n == |cs|) &&
      forall m :: 1 <= m < n ==> acc + Total(cs[..m]) < amount
  {
    var n := Pick(cs, amount, acc);
    TotalFirst(cs, 1);
    assert cs[1..][..0] == [];
    if acc + cs[0].amount < amount && cs[1..] != [] {
      var acc' := acc + cs[0].amount;
      PickReaches(cs[1..], amount, acc');
      TotalFirst(cs, n);
      forall m | 1 <= m < n
        ensures acc + Total(cs[..m]) < amount
      {
        TotalFirst(cs, m);
      }
    }
  }

  /**
   * The coins a transfer spends are the shortest non-empty prefix of the
   * payer's listing whose total reaches the amount; when no prefix reaches
   * it, the loop runs through the whole listing.
   */
  lemma SpendIsShortestReachingPrefix(cs: seq<Coin>, amount: real)
    requires cs != []
    ensures var n := Pick(cs, amount, 0.0);
      1 <= n <= |cs| &&
      (Total(cs[..n]) >= amount || n == |cs|) &&
      (forall m :: 1 <= m < n ==> Total(cs[..m]) < amount)
  {
    PickReaches(cs, amount, 0.0);
  }

  /** The keys the transfer deletes: the payer's key with each spent coin's id. */
  function SpentKeys(owner: string, cs: seq<Coin>): (r: seq<Key>)
    ensures |r| == |cs|
    ensures forall i :: 0 <= i < |cs| ==> r[i] == Key(owner, cs[i].id)
  {
    if cs == [] then [] else [Key(owner, cs[0].id)] + SpentKeys(owner, cs[1..])
  }

  // ---------------------------------------------------------------------
  // Creating a coin

  /** CreateCurrency on the coin table: refuse an occupied key, else store the coin. */
  function AddCoin(t: Table<Coin>, c: Coin): (r: Result<Table<Coin>>)
    ensures r.Err? <==> CoinKey(c) in KeysOf(t)
    ensures r.Err? ==> r.error == AlreadyExists
    ensures r.Ok? ==> Lookup(r.value, CoinKey(c)) == Some(c)
  {
    LookupNone(t, CoinKey(c));
    PutLookup(t, CoinKey(c), c, CoinKey(c));
    if Lookup(t, CoinKey(c)).Some? then Err(AlreadyExists) else Ok(Put(t, CoinKey(c), c))
  }

  /** A created coin is read back under its key, and every other key reads as before. */
  lemma AddCoinLookup(t: Table<Coin>, c: Coin, k: Key)
    requires AddCoin(t, c).Ok?
    ensures Lookup(AddCoin(t, c).value, k) == if k == CoinKey(c) then Some(c) else Lookup(t, k)
  {
    PutLookup(t, CoinKey(c), c, k);
  }

  lemma {:induction false} TotalPutNew(s: Table<Coin>, k: Key, c: Coin)
    requires Lookup(s, k).None?
    ensures Total(Values(Put(s, k, c))) == Total(Values(s)) + c.amount
  {
    if s != [] {
      LookupNone(s, k);
      assert KeysOf(s)[0] == s[0].key;
      if !KeyLess(k, s[0].key) {
        TotalPutNew(s[1..], k, c);
      }
    }
  }

  lemma {:induction false} TotalRemove(s: Table<Coin>, k: Key, c: Coin)
    requires Sorted(s) && Lookup(s, k) == Some(c)
    ensures Total(Values(Remove(s, k))) == Total(Values(s)) - c.amount
  {
    SortedUnique(s);
    if s[0].key == k {
      RemoveFirst(s);
    } else {
      SortedTail(s);
      TotalRemove(s[1..], k, c);
    }
  }

  /**
   * A created coin adds its amount to its owner's balance and to the supply,
   * is inserted into its owner's scan in key order, and leaves every other
   * owner's scan alone.
   */
  lemma AddCoinCredits(t: Table<Coin>, c: Coin)
    requires CoinTable(t) && AddCoin(t, c).Ok?
    ensures var t' := AddCoin(t, c).value;
      CoinTable(t') &&
      Scan(t', c.owner) == Put(Scan(t, c.owner), CoinKey(c), c) &&
      (forall o :: o != c.owner ==> Scan(t', o) == Scan(t, o)) &&
      Balance(t', c.owner) == Balance(t, c.owner) + c.amount &&
      Supply(t') == Supply(t) + c.amount
  {
    var k := CoinKey(c);
    var t' := Put(t, k, c);
    CoinTablePut(t, c);
    forall o {
      ScanPut(t, k, c, o);
    }
    LookupNone(t, k);
    TotalPutNew(t, k, c);
    CoinsOfIsScan(t, c.owner);
    CoinsOfIsScan(t', c.owner);
    ScanLookup(t, c.owner, k);
    TotalPutNew(Scan(t, c.owner), k, c);
  }

  // ---------------------------------------------------------------------
  // Transfer

  /**
   * TransferCurrency on the coin table: take the payer's coins in listing
   * order until they cover the amount, refuse before deleting anything if
   * the payer has no coin or they never do, delete the spent coins, then
   * settle.
   */
  function Transfer(t: Table<Coin>, from: string, to: string, amount: real, reason: string, now: int): Result<Table<Coin>>
  {
    var list := CoinsOf(t, from);
    if list == [] then Err(NoFunds)
    else
      var n := Pick(list, amount, 0.0);
      if Total(list[..n]) < amount then Err(InsufficientBalance)
      else Settle(RemoveAll(t, SpentKeys(from, list[..n])), from, to, amount, Total(list[..n]), reason, now)
  }

  /**
   * The second half of a transfer, once the spent coins (worth total) are
   * deleted: mint one coin of exactly the amount for the payee and, when
   * total exceeds the amount, a "Change" coin of the difference for the
   * payer.
   */
  function Settle(t: Table<Coin>, from: string, to: string, amount: real, total: real, reason: string, now: int): Result<Table<Coin>>
  {
    match AddCoin(t, Mint(to, amount, reason, now))
    case Err(e) => Err(e)
    case Ok(paid) =>
      if total > amount then AddCoin(paid, Mint(from, total - amount, "Change", now))
      else Ok(paid)
  }

  /** A transfer fails only for want of funds or because a minted coin's key is taken. */
  lemma TransferErrors(t: Table<Coin>, from: string, to: string, amount: real, reason: string, now: int)
    requires Transfer(t, from, to, amount, reason, now).Err?
    ensures Transfer(t, from, to, amount, reason, now).error in {NoFunds, InsufficientBalance, AlreadyExists}
  {
  }

  /** The transfer refuses for want of funds exactly in these two cases. */
  lemma TransferRefusals(t: Table<Coin>, from: string, to: string, amount: real, reason: string, now: int)
    ensures var list := CoinsOf(t, from);
      (Transfer(t, from, to, amount, reason, now) == Err(NoFunds) <==> list == []) &&
      (Transfer(t, from, to, amount, reason, now) == Err(InsufficientBalance) <==>
         list != [] && forall m :: 1 <= m <= |list| ==> Total(list[..m]) < amount)
  {
    var list := CoinsOf(t, from);
    if list != [] {
      var n := Pick(list, amount, 0.0);
      PickReaches(list, amount, 0.0);
      if forall m :: 1 <= m <= |list| ==> Total(list[..m]) < amount {
        assert Total(list[..n]) < amount;
      }
    }
  }

  lemma {:induction false} TotalNonNegative(cs: seq<Coin>)
    requires forall c :: c in cs ==> c.amount >= 0.0
    ensures Total(cs) >= 0.0
  {
    if cs != [] {
      assert cs[0] in cs;
      TotalNonNegative(cs[1..]);
    }
  }

  /** With no negative coin, a prefix of a listing never holds more than the whole of it. */
  lemma PrefixBelowTotal(cs: seq<Coin>, m: nat)
    requires forall c :: c in cs ==> c.amount >= 0.0
    requires m <= |cs|
    ensures Total(cs[..m]) <= Total(cs)
  {
    assert cs == cs[..m] + cs[m..];
    TotalAppend(cs[..m], cs[m..]);
    TotalNonNegative(cs[m..]);
  }

  /** With no negative coin, the transfer refuses as insufficient exactly when the balance is below the amount. */
  lemma TransferRefusesBelowBalance(t: Table<Coin>, from: string, to: string, amount: real, reason: string, now: int)
    requires forall c :: c in CoinsOf(t, from) ==> c.amount >= 0.0
    ensures Transfer(t, from, to, amount, reason, now) == Err(InsufficientBalance) <==>
      CoinsOf(t, from) != [] && Balance(t, from) < amount
  {
    var list := CoinsOf(t, from);
    TransferRefusals(t, from, to, amount, reason, now);
    if list != [] {
      assert list[..|list|] == list;
      forall m | 1 <= m <= |list|
        ensures Total(list[..m]) <= Total(list)
      {
        PrefixBelowTotal(list, m);
      }
    }
  }

  /** The supply part of SpendCoins, by induction on the number of spent coins. */
  lemma {:induction false} SupplySpend(t: Table<Coin>, from: string, n: nat)
    requires Sorted(t) && n <= |Scan(t, from)|
    ensures Supply(RemoveAll(t, KeysOf(Scan(t, from)[..n]))) == Supply(t) - Total(Values(Scan(t, from)[..n]))
    decreases n
  {
    var s := Scan(t, from);
    if n > 0 {
      ScanSorted(t, from);
      SortedUnique(s);
      SortedUnique(t);
      ScanMember(t, from, s[0]);
      LookupMember(t, s[0]);
      TotalRemove(t, s[0].key, s[0].value);
      var t' := Remove(t, s[0].key);
      RemoveSorted(t, s[0].key);
      ScanRemove(t, s[0].key, from);
      RemoveFirst(s);
      SupplySpend(t', from, n - 1);
      assert s[1..][..n - 1] == s[..n][1..];
      assert KeysOf(s[..n])[1..] == KeysOf(s[1..][..n - 1]);
      assert Values(s[..n]) == [s[0].value] + Values(s[1..][..n - 1]);
    }
  }

  /** The keys the transfer deletes for the first n listed coins are the keys of the first n scanned entries. */
  lemma SpentKeysAreScanKeys(t: Table<Coin>, from: string, n: nat)
    requires CoinKeyed(t) && n <= |CoinsOf(t, from)|
    ensures SpentKeys(from, CoinsOf(t, from)[..n]) == KeysOf(Scan(t, from)[..n])
  {
    var s := Scan(t, from);
    CoinsOfIsScan(t, from);
    var ks := SpentKeys(from, CoinsOf(t, from)[..n]);
    forall i | 0 <= i < n
      ensures ks[i] == KeysOf(s[..n])[i]
    {
      ScanMember(t, from, s[i]);
      ScanOwned(t, from, i);
    }
  }

  /**
   * Deleting the first n coins of an owner's listing leaves the rest of the
   * listing, every other owner's listing, and takes their total off the
   * supply and off the owner's balance.
   */
  lemma SpendCoins(t: Table<Coin>, from: string, n: nat)
    requires CoinTable(t) && n <= |CoinsOf(t, from)|
    ensures var t' := RemoveAll(t, SpentKeys(from, CoinsOf(t, from)[..n]));
      CoinTable(t') &&
      Scan(t', from) == Scan(t, from)[n..] &&
      (forall o :: o != from ==> Scan(t', o) == Scan(t, o)) &&
      Supply(t') == Supply(t) - Total(CoinsOf(t, from)[..n]) &&
      Balance(t', from) == Balance(t, from) - Total(CoinsOf(t, from)[..n])
  {
    var s := Scan(t, from);
    var list := CoinsOf(t, from);
    CoinsOfIsScan(t, from);
    var ks := SpentKeys(from, list[..n]);
    SpentKeysAreScanKeys(t, from, n);
    var t' := RemoveAll(t, ks);
    CoinTableRemoveAll(t, ks);
    ScanRemovePrefix(t, from, n);
    CoinsOfIsScan(t', from);
    assert list == list[..n] + list[n..];
    TotalAppend(list[..n], list[n..]);
    assert Values(s[n..]) == list[n..];
    assert Values(s[..n]) == list[..n];
    SupplySpend(t, from, n);
  }

  /**
   * Settling credits the payee with the amount and the payer with the
   * change, when there is change, and leaves every other owner's scan
   * alone; the supply grows by what was minted.
   */
  lemma SettleCredits(t: Table<Coin>, from: string, to: string, amount: real, total: real, reason: string, now: int)
    requires CoinTable(t) && Settle(t, from, to, amount, total, reason, now).Ok?
    ensures var t' := Settle(t, from, to, amount, total, reason, now).value;
      var paid := Mint(to, amount, reason, now);
      var change := Mint(from, total - amount, "Change", now);
      CoinTable(t') &&
      Supply(t') == Supply(t) + (if total > amount then total else amount) &&
      (from != to ==>
        Scan(t', to) == Put(Scan(t, to), CoinKey(paid), paid) &&
        Scan(t', from) == (if total > amount then Put(Scan(t, from), CoinKey(change), change) else Scan(t, from)) &&
        Balance(t', to) == Balance(t, to) + amount &&
        Balance(t', from) == Balance(t, from) + (if total > amount then total - amount else 0.0)) &&
      (forall o :: o != from && o != to ==> Scan(t', o) == Scan(t, o))
  {
    var paid := Mint(to, amount, reason, now);
    AddCoinCredits(t, paid);
    var t2 := AddCoin(t, paid).value;
    if total > amount {
      var change := Mint(from, total - amount, "Change", now);
      AddCoinCredits(t2, change);
      if from != to {
        var t3 := AddCoin(t2, change).value;
        CoinsOfIsScan(t3, to);
        CoinsOfIsScan(t2, to);
      }
    } else if from != to {
      CoinsOfIsScan(t2, from);
      CoinsOfIsScan(t, from);
    }
  }

  /**
   * Conservation: a transfer that succeeds leaves the coin table well
   * formed and the total value held by all owners unchanged, whoever the
   * payer and payee are.
   */
  lemma TransferConserves(t: Table<Coin>, from: string, to: string, amount: real, reason: string, now: int)
    requires CoinTable(t) && Transfer(t, from, to, amount, reason, now).Ok?
    ensures CoinTable(Transfer(t, from, to, amount, reason, now).value)
    ensures Supply(Transfer(t, from, to, amount, reason, now).value) == Supply(t)
  {
    var list := CoinsOf(t, from);
    var n := Pick(list, amount, 0.0);
    var total := Total(list[..n]);
    SpendCoins(t, from, n);
    SettleCredits(RemoveAll(t, SpentKeys(from, list[..n])), from, to, amount, total, reason, now);
  }

  /**
   * Between two different owners a successful transfer moves exactly the
   * amount: the payer's balance drops by it and the payee's rises by it.
   */
  lemma TransferSettles(t: Table<Coin>, from: string, to: string, amount: real, reason: string, now: int)
    requires CoinTable(t) && from != to && Transfer(t, from, to, amount, reason, now).Ok?
    ensures Balance(Transfer(t, from, to, amount, reason, now).value, from) == Balance(t, from) - amount
    ensures Balance(Transfer(t, from, to, amount, reason, now).value, to) == Balance(t, to) + amount
  {
    var list := CoinsOf(t, from);
    var n := Pick(list, amount, 0.0);
    var total := Total(list[..n]);
    var t1 := RemoveAll(t, SpentKeys(from, list[..n]));
    assert Transfer(t, from, to, amount, reason, now) == Settle(t1, from, to, amount, total, reason, now);
    assert total >= amount;
    SpendCoins(t, from, n);
    SettleCredits(t1, from, to, amount, total, reason, now);
  }

  /**
   * Between two different owners, after a successful transfer the payer's
   * scan is the unspent rest of it plus the change coin when there is
   * change, the payee's gains the minted coin, and no one else's changes.
   */
  lemma TransferRescans(t: Table<Coin>, from: string, to: string, amount: real, reason: string, now: int)
    requires CoinTable(t) && from != to && Transfer(t, from, to, amount, reason, now).Ok?
    ensures var t' := Transfer(t, from, to, amount, reason, now).value;
      var list := CoinsOf(t, from);
      var n := Pick(list, amount, 0.0);
      var total := Total(list[..n]);
      var change := Mint(from, total - amount, "Change", now);
      var paid := Mint(to, amount, reason, now);
      Scan(t', from) == (if total > amount then Put(Scan(t, from)[n..], CoinKey(change), change) else Scan(t, from)[n..]) &&
      Scan(t', to) == Put(Scan(t, to), CoinKey(paid), paid) &&
      (forall o :: o != from && o != to ==> Scan(t', o) == Scan(t, o))
  {
    var list := CoinsOf(t, from);
    var n := Pick(list, amount, 0.0);
    var total := Total(list[..n]);
    var t1 := RemoveAll(t, SpentKeys(from, list[..n]));
    assert Transfer(t, from, to, amount, reason, now) == Settle(t1, from, to, amount, total, reason, now);
    SpendCoins(t, from, n);
    SettleCredits(t1, from, to, amount, total, reason, now);
  }

  /** What every key reads after settling: the minted coins under their keys, the old record elsewhere. */
  lemma SettleLookup(t: Table<Coin>, from: string, to: string, amount: real, total: real, reason: string, now: int, k: Key)
    requires Settle(t, from, to, amount, total, reason, now).Ok?
    ensures var change := Mint(from, total - amount, "Change", now);
      var paid := Mint(to, amount, reason, now);
      Lookup(Settle(t, from, to, amount, total, reason, now).value, k) ==
        if k == CoinKey(paid) then Some(paid)
        else if total > amount && k == CoinKey(change) then Some(change)
        else Lookup(t, k)
  {
    var paid := Mint(to, amount, reason, now);
    AddCoinLookup(t, paid, k);
    if total > amount {
      var t2 := AddCoin(t, paid).value;
      var change := Mint(from, total - amount, "Change", now);
      AddCoinLookup(t2, change, k);
      LookupNone(t2, CoinKey(paid));
    }
  }

  /**
   * What every key reads after a successful transfer: the paid coin under
   * its key, the change coin under its key when there is change, nothing
   * under a spent coin's key, and the old record everywhere else.
   */
  lemma TransferLookup(t: Table<Coin>, from: string, to: string, amount: real, reason: string, now: int, k: Key)
    requires Transfer(t, from, to, amount, reason, now).Ok?
    ensures var list := CoinsOf(t, from);
      var n := Pick(list, amount, 0.0);
      var total := Total(list[..n]);
      var change := Mint(from, total - amount, "Change", now);
      var paid := Mint(to, amount, reason, now);
      Lookup(Transfer(t, from, to, amount, reason, now).value, k) ==
        if k == CoinKey(paid) then Some(paid)
        else if total > amount && k == CoinKey(change) then Some(change)
        else if k in SpentKeys(from, list[..n]) then None
        else Lookup(t, k)
  {
    var list := CoinsOf(t, from);
    var n := Pick(list, amount, 0.0);
    var total := Total(list[..n]);
    var ks := SpentKeys(from, list[..n]);
    RemoveAllLookup(t, ks, k);
    SettleLookup(RemoveAll(t, ks), from, to, amount, total, reason, now, k);
  }

  /** One spent coin: it can no longer be read back, unless its id is the one the transfer mints with. */
  lemma SpentCoinGone(t: Table<Coin>, from: string, to: string, amount: real, reason: string, now: int, i: nat)
    requires Transfer(t, from, to, amount, reason, now).Ok?
    requires i < Pick(CoinsOf(t, from), amount, 0.0)
    ensures var c := CoinsOf(t, from)[i];
      Lookup(Transfer(t, from, to, amount, reason, now).value, CoinKey(c)).None? || c.id == MintId(from, now)
  {
    var list := CoinsOf(t, from);
    var n := Pick(list, amount, 0.0);
    var c := list[i];
    if c.id != MintId(from, now) {
      var total := Total(list[..n]);
      var ks := SpentKeys(from, list[..n]);
      var t1 := RemoveAll(t, ks);
      assert Transfer(t, from, to, amount, reason, now) == Settle(t1, from, to, amount, total, reason, now);
      var k := CoinKey(c);
      CoinsOfOwned(t, from, c);
      assert ks[i] == k;
      RemoveAllLookup(t, ks, k);
      SettleLookup(t1, from, to, amount, total, reason, now, k);
    }
  }

  /**
   * No double spend: after a successful transfer no spent coin can be read
   * back, except under the one id the transfer mints coins with.
   */
  lemma TransferSpends(t: Table<Coin>, from: string, to: string, amount: real, reason: string, now: int)
    requires Transfer(t, from, to, amount, reason, now).Ok?
    ensures var list := CoinsOf(t, from);
      var n := Pick(list, amount, 0.0);
      forall c :: c in list[..n] ==>
        Lookup(Transfer(t, from, to, amount, reason, now).value, CoinKey(c)).None? || c.id == MintId(from, now)
  {
    var list := CoinsOf(t, from);
    var n := Pick(list, amount, 0.0);
    forall c | c in list[..n]
      ensures Lookup(Transfer(t, from, to, amount, reason, now).value, CoinKey(c)).None? || c.id == MintId(from, now)
    {
      var i :| 0 <= i < n && list[..n][i] == c;
      SpentCoinGone(t, from, to, amount, reason, now, i);
    }
  }

  /** Settling never overwrites a stored record: a key that read something reads the same after. */
  lemma SettleKeepsStored(t: Table<Coin>, from: string, to: string, amount: real, total: real, reason: string, now: int, k: Key)
    requires Settle(t, from, to, amount, total, reason, now).Ok? && Lookup(t, k).Some?
    ensures Lookup(Settle(t, from, to, amount, total, reason, now).value, k) == Lookup(t, k)
  {
    var paid := Mint(to, amount, reason, now);
    LookupNone(t, k);
    AddCoinLookup(t, paid, k);
    if total > amount {
      var t2 := AddCoin(t, paid).value;
      LookupNone(t2, k);
      AddCoinLookup(t2, Mint(from, total - amount, "Change", now), k);
    }
  }

  /** A coin of the listing beyond the first n is stored under its key, and that key is not among the first n coins' keys. */
  lemma UnspentKey(t: Table<Coin>, from: string, n: nat, i: nat)
    requires CoinTable(t) && n <= i < |CoinsOf(t, from)|
    ensures var c := CoinsOf(t, from)[i];
      CoinKey(c) !in SpentKeys(from, CoinsOf(t, from)[..n]) && Lookup(t, CoinKey(c)) == Some(c)
  {
    var list := CoinsOf(t, from);
    var ks := SpentKeys(from, list[..n]);
    var s := Scan(t, from);
    CoinsOfIsScan(t, from);
    SpentKeysAreScanKeys(t, from, n);
    ScanSorted(t, from);
    SortedUnique(s);
    SortedUnique(t);
    var e := s[i];
    ScanMember(t, from, e);
    LookupMember(t, e);
    assert e.key == CoinKey(list[i]);
    forall j | 0 <= j < n
      ensures ks[j] != e.key
    {
      assert ks[j] == s[j].key;
    }
  }

  /** One unspent coin of the payer: it reads back unchanged after a successful transfer. */
  lemma UnspentCoinKept(t: Table<Coin>, from: string, to: string, amount: real, reason: string, now: int, i: nat)
    requires CoinTable(t) && Transfer(t, from, to, amount, reason, now).Ok?
    requires Pick(CoinsOf(t, from), amount, 0.0) <= i < |CoinsOf(t, from)|
    ensures var c := CoinsOf(t, from)[i];
      Lookup(Transfer(t, from, to, amount, reason, now).value, CoinKey(c)) == Some(c)
  {
    var list := CoinsOf(t, from);
    var n := Pick(list, amount, 0.0);
    var ks := SpentKeys(from, list[..n]);
    var k := CoinKey(list[i]);
    UnspentKey(t, from, n, i);
    RemoveAllLookup(t, ks, k);
    SettleKeepsStored(RemoveAll(t, ks), from, to, amount, Total(list[..n]), reason, now, k);
  }

  /** The payer's unspent coins are all still there after a successful transfer, untouched. */
  lemma TransferKeepsUnspent(t: Table<Coin>, from: string, to: string, amount: real, reason: string, now: int)
    requires CoinTable(t) && Transfer(t, from, to, amount, reason, now).Ok?
    ensures var list := CoinsOf(t, from);
      var n := Pick(list, amount, 0.0);
      forall c :: c in list[n..] ==> Lookup(Transfer(t, from, to, amount, reason, now).value, CoinKey(c)) == Some(c)
  {
    var list := CoinsOf(t, from);
    var n := Pick(list, amount, 0.0);
    forall c | c in list[n..]
      ensures Lookup(Transfer(t, from, to, amount, reason, now).value, CoinKey(c)) == Some(c)
    {
      var i :| 0 <= i < |list| - n && list[n..][i] == c;
      UnspentCoinKept(t, from, to, amount, reason, now, n + i);
    }
  }
}
