/**
 * The coin operations of the chaincode as they run against the world
 * state: each reads and writes the coin table through GetState, PutState,
 * DelState and the owner's range scan, and is proved to do exactly what
 * the matching function of module Coins says.
 */
module CoinLedger {
  import opened Keys
  import opened Outcomes
  import opened Store
  import opened Records
  import opened World
  import opened Coins

  /** CreateCurrency: refuse a coin whose key is taken, else store it. */
  method CreateCurrency(ws: WorldState, c: Coin) returns (r: Outcome)
    requires ws.Valid()
    modifies ws
    ensures ws.Valid()
    ensures AddCoin(old(ws.coins), c) == (if r.Pass? then Ok(ws.coins) else Err(r.error))
    ensures r.Fail? ==> ws.coins == old(ws.coins)
    ensures ws.loans == old(ws.loans) && ws.insurances == old(ws.insurances)
  {
    var existing := ReadState(ws.coins, CoinKey(c));
    if existing.Ok? {
      return Fail(AlreadyExists);
    }
    ws.PutCoin(c);
    r := Pass;
  }

  /** ReadCurrencyListByOwner: the owner's coins in key order, re-checked on their owner field. */
  method ReadCurrencyListByOwner(ws: WorldState, owner: string) returns (list: seq<Coin>)
    ensures list == CoinsOf(ws.coins, owner)
    ensures forall i :: 0 <= i < |list| ==> list[i].owner == owner
    ensures ws.Valid() ==> list == Values(Scan(ws.coins, owner))
  {
    list := ListByOwner(ws.coins, owner, CoinOwner);
    if ws.Valid() {
      CoinsOfIsScan(ws.coins, owner);
    }
  }

  /** ReadTotalCurrencyByOwner: the sum of the owner's coins, 0 when there are none. */
  method ReadTotalCurrencyByOwner(ws: WorldState, owner: string) returns (total: real)
    ensures total == Balance(ws.coins, owner)
    ensures CoinsOf(ws.coins, owner) == [] ==> total == 0.0
  {
    var list := ReadCurrencyListByOwner(ws, owner);
    total := 0.0;
    var i := 0;
    while i < |list|
      invariant 0 <= i <= |list|
      invariant total + Total(list[i..]) == Total(list)
    {
      assert list[i..][1..] == list[i + 1..];
      total := total + list[i].amount;
      i := i + 1;
    }
  }

  /**
   * The selection loop of TransferCurrency: add up coins in listing order,
   * stopping right after the one that brings the running total to the
   * amount.
   */
  method PickCoins(list: seq<Coin>, amount: real) returns (spent: seq<Coin>, total: real)
    ensures spent == list[..Pick(list, amount, 0.0)]
    ensures total == Total(spent)
  {
    total := 0.0;
    spent := [];
    var i := 0;
    while i < |list|
      invariant 0 <= i <= |list|
      invariant spent == list[..i]
      invariant total == Total(list[..i])
      invariant i + Pick(list[i..], amount, total) == Pick(list, amount, 0.0)
    {
      assert list[i..][0] == list[i] && list[i..][1..] == list[i + 1..];
      assert list[..i + 1] == list[..i] + [list[i]];
      TotalAppend(list[..i], [list[i]]);
      total := total + list[i].amount;
      spent := spent + [list[i]];
      i := i + 1;
      if total >= amount {
        assert i == Pick(list, amount, 0.0);
        break;
      }
    }
  }

  /** The deletion loop of TransferCurrency: DelState the payer's key with each spent coin's id, in order. */
  method DeleteCoins(ws: WorldState, owner: string, spent: seq<Coin>)
    requires ws.Valid()
    modifies ws
    ensures ws.Valid()
    ensures ws.coins == RemoveAll(old(ws.coins), SpentKeys(owner, spent))
    ensures ws.loans == old(ws.loans) && ws.insurances == old(ws.insurances)
  {
    ghost var keys := SpentKeys(owner, spent);
    var j := 0;
    while j < |spent|
      invariant 0 <= j <= |spent|
      invariant ws.Valid()
      invariant ws.coins == RemoveAll(old(ws.coins), keys[..j])
      invariant ws.loans == old(ws.loans) && ws.insurances == old(ws.insurances)
    {
      ws.DelCoin(Key(owner, spent[j].id));
      assert keys[..j + 1] == keys[..j] + [keys[j]];
      RemoveAllSnoc(old(ws.coins), keys[..j], keys[j]);
      j := j + 1;
    }
    assert keys[..|spent|] == keys;
  }

  /** The minting half of TransferCurrency: the payee's coin, then the payer's change when there is any. */
  method MintCoins(ws: WorldState, from: string, to: string, amount: real, total: real, reason: string, now: int)
    returns (r: Outcome)
    requires ws.Valid()
    modifies ws
    ensures ws.Valid()
    ensures Settle(old(ws.coins), from, to, amount, total, reason, now) == (if r.Pass? then Ok(ws.coins) else Err(r.error))
    ensures ws.loans == old(ws.loans) && ws.insurances == old(ws.insurances)
  {
    r := CreateCurrency(ws, Mint(to, amount, reason, now));
    if r.Fail? {
      return;
    }
    if total > amount {
      r := CreateCurrency(ws, Mint(from, total - amount, "Change", now));
    }
  }

  /**
   * TransferCurrency: collect the payer's coins until they cover the
   * amount, refuse before any write if they never do, delete them, mint the
   * payee's coin and, when the collected coins exceed the amount, the
   * payer's change.
   */
  method TransferCurrency(ws: WorldState, from: string, to: string, amount: real, reason: string, now: int)
    returns (r: Outcome)
    requires ws.Valid()
    modifies ws
    ensures ws.Valid()
    ensures Transfer(old(ws.coins), from, to, amount, reason, now) == (if r.Pass? then Ok(ws.coins) else Err(r.error))
    ensures r == Fail(NoFunds) || r == Fail(InsufficientBalance) ==> ws.coins == old(ws.coins)
    ensures ws.loans == old(ws.loans) && ws.insurances == old(ws.insurances)
  {
    var list := ReadCurrencyListByOwner(ws, from);
    if |list| == 0 {
      return Fail(NoFunds);
    }
    var spent, total := PickCoins(list, amount);
    if total < amount {
      return Fail(InsufficientBalance);
    }
    DeleteCoins(ws, from, spent);
    r := MintCoins(ws, from, to, amount, total, reason, now);
  }
}
