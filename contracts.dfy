/**
 * The contract state machine as functions of the world state: what each
 * contract operation of the chaincode reads, decides and leaves behind,
 * for Loan and Insurance records stored under (kind, applicant,
 * businessId). A result Err(e) means the invocation fails and the platform
 * discards every write it made.
 */
module Contracts {
  import opened Keys
  import opened Outcomes
  import opened Store
  import opened Records
  import opened World
  import opened Coins
  import opened Underwriting

  // ---------------------------------------------------------------------
  // The state machine

  /** One transition, or none: Applied to Approved or Rejected, Approved to Claimed. */
  predicate Advances(s: ContractState, s': ContractState)
  {
    s == s' || (s == Applied && (s' == Approved || s' == Rejected)) || (s == Approved && s' == Claimed)
  }

  /** Any number of transitions. */
  predicate Reaches(s: ContractState, s': ContractState)
  {
    s == s' || (s == Applied && s' != Expired) || (s == Approved && s' == Claimed)
  }

  /**
   * Any run of transitions ends in a state reachable from where it started;
   * a run from Applied to Claimed passes through Approved; and a run that
   * starts in Rejected or Claimed never leaves it.
   */
  lemma {:induction false} HistoryReaches(h: seq<ContractState>)
    requires h != []
    requires forall i :: 0 <= i < |h| - 1 ==> Advances(h[i], h[i + 1])
    ensures Reaches(h[0], h[|h| - 1])
    ensures h[0] == Applied && h[|h| - 1] == Claimed ==> Approved in h
    ensures h[0] == Rejected || h[0] == Claimed ==> forall i :: 0 <= i < |h| ==> h[i] == h[0]
  {
    if |h| > 1 {
      HistoryReaches(h[1..]);
      assert h[1..][0] == h[1] && h[1..][|h| - 2] == h[|h| - 1];
      if h[0] == Applied && h[|h| - 1] == Claimed && h[1] != Approved {
        assert h[1] == Applied;
        assert Approved in h[1..];
      }
      if h[0] == Rejected || h[0] == Claimed {
        forall i | 0 <= i < |h|
          ensures h[i] == h[0]
        {
          if i > 0 {
            assert h[1..][i - 1] == h[i];
          }
        }
      }
    }
  }

  /** A loan record after one step: it advanced by at most one transition and only its state and update time changed. */
  predicate LoanAdvanced(l: Loan, l': Loan)
  {
    Advances(l.state, l'.state) && l' == l.(state := l'.state, updatedAt := l'.updatedAt)
  }

  predicate InsuranceAdvanced(i: Insurance, i': Insurance)
  {
    Advances(i.state, i'.state) && i' == i.(state := i'.state, updatedAt := i'.updatedAt)
  }

  /**
   * One invocation's effect on the loan table, key by key: a stored loan is
   * still stored and advanced by at most one transition, and a loan that
   * appears starts in Applied.
   */
  ghost predicate LoansStep(t: Table<Loan>, t': Table<Loan>)
  {
    forall k :: match Lookup(t, k)
      case Some(l) => Lookup(t', k).Some? && LoanAdvanced(l, Lookup(t', k).value)
      case None => Lookup(t', k).None? || Lookup(t', k).value.state == Applied
  }

  ghost predicate InsurancesStep(t: Table<Insurance>, t': Table<Insurance>)
  {
    forall k :: match Lookup(t, k)
      case Some(i) => Lookup(t', k).Some? && InsuranceAdvanced(i, Lookup(t', k).value)
      case None => Lookup(t', k).None? || Lookup(t', k).value.state == Applied
  }

  // ---------------------------------------------------------------------
  // Counting approved loans

  /** 1 when the record is an Approved loan of the owner. */
  function Counted(l: Loan, owner: string): nat
  {
    if l.applicant == owner && l.state == Approved then 1 else 0
  }

  /** The counting loop of CountLoansByOwner over a scan. */
  function CountApproved(s: Table<Loan>, owner: string): nat
  {
    if s == [] then 0 else Counted(s[0].value, owner) + CountApproved(s[1..], owner)
  }

  /** What CountLoansByOwner returns: the owner's Approved loans. */
  function ApprovedCount(t: Table<Loan>, owner: string): nat
  {
    CountApproved(Scan(t, owner), owner)
  }

  /** Counted for what GetState finds under k, 0 when nothing. */
  function CountedAt(t: Table<Loan>, k: Key, owner: string): nat
  {
    match Lookup(t, k)
    case None => 0
    case Some(l) => Counted(l, owner)
  }

  /** Storing a loan replaces the count of what was under its key by its own. */
  lemma {:induction false} CountApprovedPut(s: Table<Loan>, k: Key, l: Loan, owner: string)
    requires Sorted(s)
    ensures CountApproved(Put(s, k, l), owner) + CountedAt(s, k, owner) == CountApproved(s, owner) + Counted(l, owner)
  {
    if s == [] {
    } else if s[0].key == k {
      assert ([Entry(k, l)] + s[1..])[1..] == s[1..];
    } else if KeyLess(k, s[0].key) {
      LookupBelow(s, k);
      assert ([Entry(k, l)] + s)[1..] == s;
    } else {
      SortedTail(s);
      CountApprovedPut(s[1..], k, l, owner);
      assert ([s[0]] + Put(s[1..], k, l))[1..] == Put(s[1..], k, l);
    }
  }

  /**
   * Storing a loan under an owner's key changes that owner's approved count
   * by what it adds and what it replaces, and no other owner's count.
   */
  lemma ApprovedCountPut(t: Table<Loan>, k: Key, l: Loan, owner: string)
    requires Sorted(t)
    ensures k.owner != owner ==> ApprovedCount(Put(t, k, l), owner) == ApprovedCount(t, owner)
    ensures k.owner == owner ==>
      ApprovedCount(Put(t, k, l), owner) + CountedAt(t, k, owner) == ApprovedCount(t, owner) + Counted(l, owner)
  {
    ScanPut(t, k, l, owner);
    if k.owner == owner {
      ScanSorted(t, owner);
      ScanLookup(t, owner, k);
      CountApprovedPut(Scan(t, owner), k, l, owner);
    }
  }

  /** The consequence of the origination rule: no owner ever holds more than four approved loans. */
  ghost predicate LoanCap(t: Table<Loan>)
  {
    forall owner :: ApprovedCount(t, owner) <= 4
  }

  // ---------------------------------------------------------------------
  // Creation

  /** The record CreateLoan writes: Applied, created and updated at the transaction time. */
  function NewLoan(applicant: string, businessId: string, amount: real, issuer: string, rate: real, period: int, now: int): Loan
  {
    Loan(businessId, amount, issuer, Applied, period, rate, applicant, now, now)
  }

  function NewInsurance(applicant: string, businessId: string, amount: real, issuer: string, rate: real, now: int): Insurance
  {
    Insurance(businessId, amount, issuer, Applied, rate, applicant, now, now)
  }

  /** CreateLoan: refuse an occupied key, else store a new Applied loan under it. */
  function CreateLoan(w: Ledger, applicant: string, businessId: string, amount: real, issuer: string, rate: real, period: int, now: int): (r: Result<Ledger>)
    ensures r.Err? <==> Key(applicant, businessId) in KeysOf(w.loans)
    ensures r.Err? ==> r.error == AlreadyExists
    ensures r.Ok? ==> Lookup(r.value.loans, Key(applicant, businessId)) == Some(NewLoan(applicant, businessId, amount, issuer, rate, period, now))
    ensures r.Ok? ==> r.value.coins == w.coins && r.value.insurances == w.insurances
  {
    var k := Key(applicant, businessId);
    PutLookup(w.loans, k, NewLoan(applicant, businessId, amount, issuer, rate, period, now), k);
    if ReadState(w.loans, k).Ok? then Err(AlreadyExists)
    else Ok(w.(loans := Put(w.loans, k, NewLoan(applicant, businessId, amount, issuer, rate, period, now))))
  }

  /** CreateInsurance: refuse an occupied key, else store a new Applied insurance under it. */
  function CreateInsurance(w: Ledger, applicant: string, businessId: string, amount: real, issuer: string, rate: real, now: int): (r: Result<Ledger>)
    ensures r.Err? <==> Key(applicant, businessId) in KeysOf(w.insurances)
    ensures r.Err? ==> r.error == AlreadyExists
    ensures r.Ok? ==> Lookup(r.value.insurances, Key(applicant, businessId)) == Some(NewInsurance(applicant, businessId, amount, issuer, rate, now))
    ensures r.Ok? ==> r.value.coins == w.coins && r.value.loans == w.loans
  {
    var k := Key(applicant, businessId);
    PutLookup(w.insurances, k, NewInsurance(applicant, businessId, amount, issuer, rate, now), k);
    if ReadState(w.insurances, k).Ok? then Err(AlreadyExists)
    else Ok(w.(insurances := Put(w.insurances, k, NewInsurance(applicant, businessId, amount, issuer, rate, now))))
  }

  /** CreateContract: dispatch on the kind of business, refusing any kind but "Loan" and "Insurance". */
  function CreateContract(w: Ledger, applicant: string, businessId: string, amount: real, issuer: string, rate: real, kind: string, period: int, now: int): (r: Result<Ledger>)
    ensures kind != "Loan" && kind != "Insurance" <==> r == Err(UnknownKind)
  {
    match kind
    case "Loan" => CreateLoan(w, applicant, businessId, amount, issuer, rate, period, now)
    case "Insurance" => CreateInsurance(w, applicant, businessId, amount, issuer, rate, now)
    case _ => Err(UnknownKind)
  }

  /** A creation stores exactly one record: every other key reads as before. */
  lemma CreateLoanStoresOne(w: Ledger, applicant: string, businessId: string, amount: real, issuer: string, rate: real, period: int, now: int, k: Key)
    requires CreateLoan(w, applicant, businessId, amount, issuer, rate, period, now).Ok?
    requires k != Key(applicant, businessId)
    ensures Lookup(CreateLoan(w, applicant, businessId, amount, issuer, rate, period, now).value.loans, k) == Lookup(w.loans, k)
  {
    PutLookup(w.loans, Key(applicant, businessId), NewLoan(applicant, businessId, amount, issuer, rate, period, now), k);
  }

  lemma CreateInsuranceStoresOne(w: Ledger, applicant: string, businessId: string, amount: real, issuer: string, rate: real, now: int, k: Key)
    requires CreateInsurance(w, applicant, businessId, amount, issuer, rate, now).Ok?
    requires k != Key(applicant, businessId)
    ensures Lookup(CreateInsurance(w, applicant, businessId, amount, issuer, rate, now).value.insurances, k) == Lookup(w.insurances, k)
  {
    PutLookup(w.insurances, Key(applicant, businessId), NewInsurance(applicant, businessId, amount, issuer, rate, now), k);
  }

  // ---------------------------------------------------------------------
  // Origination

  /**
   * StartLoan: the loan must exist and be Applied; a rejected application
   * is recorded as Rejected with no payment; an accepted one pays the
   * principal from issuer to applicant and is recorded as Approved. The
   * flag says whether the loan was accepted.
   */
  function StartLoan(w: Ledger, applicant: string, businessId: string, credit: real, income: real, now: int): Result<(bool, Ledger)>
  {
    var k := Key(applicant, businessId);
    match ReadState(w.loans, k)
    case Err(e) => Err(e)
    case Ok(l) =>
      if l.state != Applied then Err(InvalidState)
      else if LoanRejected(credit, income, l.amount, ApprovedCount(w.loans, applicant)) then
        Ok((false, w.(loans := Put(w.loans, k, l.(state := Rejected, updatedAt := now)))))
      else
        match Transfer(w.coins, l.issuer, l.applicant, l.amount, "Loan", now)
        case Err(e) => Err(e)
        case Ok(coins) => Ok((true, Ledger(coins, Put(w.loans, k, l.(state := Approved, updatedAt := now)), w.insurances)))
  }

  /**
   * StartInsurance: the insurance must exist and be Applied; a rejected
   * application is recorded as Rejected with no payment; an accepted one
   * pays the premium from applicant to issuer and is recorded as Approved.
   */
  function StartInsurance(w: Ledger, applicant: string, businessId: string, credit: real, income: real, now: int): Result<(bool, Ledger)>
  {
    var k := Key(applicant, businessId);
    match ReadState(w.insurances, k)
    case Err(e) => Err(e)
    case Ok(i) =>
      if i.state != Applied then Err(InvalidState)
      else if InsuranceRejected(credit, income) then
        Ok((false, w.(insurances := Put(w.insurances, k, i.(state := Rejected, updatedAt := now)))))
      else
        match Transfer(w.coins, i.applicant, i.issuer, i.amount, "Insurance", now)
        case Err(e) => Err(e)
        case Ok(coins) => Ok((true, Ledger(coins, w.loans, Put(w.insurances, k, i.(state := Approved, updatedAt := now)))))
  }

  // ---------------------------------------------------------------------
  // Claims

  /**
   * LoanContractCheck: the loan must exist and be Approved; unless the
   * claim condition holds the check fails as NotClaimable; otherwise the
   * applicant repays principal and interest to the issuer and the loan is
   * recorded as Claimed.
   */
  function LoanCheck(w: Ledger, applicant: string, businessId: string, credit: real, income: real, currentTime: int, now: int): Result<Ledger>
  {
    var k := Key(applicant, businessId);
    match ReadState(w.loans, k)
    case Err(e) => Err(e)
    case Ok(l) =>
      if l.state != Approved then Err(InvalidState)
      else if !LoanClaimable(credit, income, LoanOverdue(currentTime, l.createdAt, l.period)) then Err(NotClaimable)
      else
        match Transfer(w.coins, l.applicant, l.issuer, Repayment(l.amount, l.rate), "Loan", now)
        case Err(e) => Err(e)
        case Ok(coins) => Ok(Ledger(coins, Put(w.loans, k, l.(state := Claimed, updatedAt := now)), w.insurances))
  }

  /**
   * InsuranceContractCheck: the insurance must exist and be Approved;
   * unless the claim condition holds the check fails as NotClaimable;
   * otherwise the issuer pays principal and interest out to the applicant
   * and the insurance is recorded as Claimed.
   */
  function InsuranceCheck(w: Ledger, applicant: string, businessId: string, credit: real, income: real, isSudden: bool, now: int): Result<Ledger>
  {
    var k := Key(applicant, businessId);
    match ReadState(w.insurances, k)
    case Err(e) => Err(e)
    case Ok(i) =>
      if i.state != Approved then Err(InvalidState)
      else if !InsuranceClaimable(credit, income, isSudden) then Err(NotClaimable)
      else
        match Transfer(w.coins, i.issuer, i.applicant, Repayment(i.amount, i.rate), "Insurance", now)
        case Err(e) => Err(e)
        case Ok(coins) => Ok(Ledger(coins, w.loans, Put(w.insurances, k, i.(state := Claimed, updatedAt := now))))
  }
}
