/**
 * The world state the chaincode works on: one ordered table per composite
 * key tag. Writes go through PutState and DelState and are visible to later
 * reads of the same invocation.
 */
module World {
  import opened Keys
  import opened Store
  import opened Records

  /** Every coin sits under the key built from its own owner and id. */
  ghost predicate CoinKeyed(t: Table<Coin>)
  {
    forall e :: e in t ==> e.key == CoinKey(e.value)
  }

  ghost predicate LoanKeyed(t: Table<Loan>)
  {
    forall e :: e in t ==> e.key == LoanKey(e.value)
  }

  ghost predicate InsuranceKeyed(t: Table<Insurance>)
  {
    forall e :: e in t ==> e.key == InsuranceKey(e.value)
  }

  /** A well-formed coin table: in key order, every coin under its own key. */
  ghost predicate CoinTable(t: Table<Coin>)
  {
    Sorted(t) && CoinKeyed(t)
  }

  ghost predicate LoanTable(t: Table<Loan>)
  {
    Sorted(t) && LoanKeyed(t)
  }

  ghost predicate InsuranceTable(t: Table<Insurance>)
  {
    Sorted(t) && InsuranceKeyed(t)
  }

  /** The whole world state as a value: what one invocation reads and what it leaves. */
  datatype Ledger = Ledger(coins: Table<Coin>, loans: Table<Loan>, insurances: Table<Insurance>)

  /** Every table of the ledger is well formed. */
  ghost predicate Wellformed(w: Ledger)
  {
    CoinTable(w.coins) && LoanTable(w.loans) && InsuranceTable(w.insurances)
  }

  /** Storing a coin under its own key keeps the coin table well formed. */
  lemma CoinTablePut(t: Table<Coin>, c: Coin)
    requires CoinTable(t)
    ensures CoinTable(Put(t, CoinKey(c), c))
  {
    PutSorted(t, CoinKey(c), c);
    forall e | e in Put(t, CoinKey(c), c)
      ensures e.key == CoinKey(e.value)
    {
      PutMember(t, CoinKey(c), c, e);
    }
  }

  /** Deleting keys keeps the coin table well formed. */
  lemma {:induction false} CoinTableRemoveAll(t: Table<Coin>, ks: seq<Key>)
    requires CoinTable(t)
    ensures CoinTable(RemoveAll(t, ks))
  {
    RemoveAllSorted(t, ks);
    forall e | e in RemoveAll(t, ks)
      ensures e.key == CoinKey(e.value)
    {
      RemoveAllMember(t, ks, e);
    }
  }

  lemma LoanTablePut(t: Table<Loan>, l: Loan)
    requires LoanTable(t)
    ensures LoanTable(Put(t, LoanKey(l), l))
  {
    PutSorted(t, LoanKey(l), l);
    forall e | e in Put(t, LoanKey(l), l)
      ensures e.key == LoanKey(e.value)
    {
      PutMember(t, LoanKey(l), l, e);
    }
  }

  lemma InsuranceTablePut(t: Table<Insurance>, i: Insurance)
    requires InsuranceTable(t)
    ensures InsuranceTable(Put(t, InsuranceKey(i), i))
  {
    PutSorted(t, InsuranceKey(i), i);
    forall e | e in Put(t, InsuranceKey(i), i)
      ensures e.key == InsuranceKey(e.value)
    {
      PutMember(t, InsuranceKey(i), i, e);
    }
  }

  class WorldState {
    var coins: Table<Coin>
    var loans: Table<Loan>
    var insurances: Table<Insurance>

    /** The current world state as a value. */
    function Snapshot(): Ledger
      reads this
    {
      Ledger(coins, loans, insurances)
    }

    ghost predicate Valid()
      reads this
    {
      Wellformed(Snapshot())
    }

    /** An empty ledger. */
    constructor ()
      ensures Valid()
      ensures coins == [] && loans == [] && insurances == []
    {
      coins, loans, insurances := [], [], [];
    }

    /** PutState(("Currency", c.owner, c.id), c). */
    method PutCoin(c: Coin)
      requires Valid()
      modifies this
      ensures Valid()
      ensures coins == Put(old(coins), CoinKey(c), c)
      ensures loans == old(loans) && insurances == old(insurances)
    {
      CoinTablePut(coins, c);
      coins := Put(coins, CoinKey(c), c);
    }

    /** DelState(("Currency", k.owner, k.id)). */
    method DelCoin(k: Key)
      requires Valid()
      modifies this
      ensures Valid()
      ensures coins == Remove(old(coins), k)
      ensures loans == old(loans) && insurances == old(insurances)
    {
      CoinTableRemoveAll(coins, [k]);
      assert RemoveAll(coins, [k]) == RemoveAll(Remove(coins, k), []);
      coins := Remove(coins, k);
    }

    /** PutState(("Loan", l.applicant, l.businessId), l). */
    method PutLoan(l: Loan)
      requires Valid()
      modifies this
      ensures Valid()
      ensures loans == Put(old(loans), LoanKey(l), l)
      ensures coins == old(coins) && insurances == old(insurances)
    {
      LoanTablePut(loans, l);
      loans := Put(loans, LoanKey(l), l);
    }

    /** PutState(("Insurance", i.applicant, i.businessId), i). */
    method PutInsurance(i: Insurance)
      requires Valid()
      modifies this
      ensures Valid()
      ensures insurances == Put(old(insurances), InsuranceKey(i), i)
      ensures coins == old(coins) && loans == old(loans)
    {
      InsuranceTablePut(insurances, i);
      insurances := Put(insurances, InsuranceKey(i), i);
    }
  }
}
