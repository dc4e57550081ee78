/**
 * The contract operations of the chaincode as they run against the world
 * state: each reads with GetState or a range scan, decides, pays through
 * TransferCurrency and writes the updated record with PutState, and is
 * proved to do exactly what the matching function of module Contracts
 * says. A failed invocation's writes are discarded by the platform, so on
 * failure only the error is specified.
 */
module ContractEngine {
  import opened Keys
  import opened Outcomes
  import opened Store
  import opened Records
  import opened World
  import opened Underwriting
  import opened CoinLedger
  import Coins
  import Contracts

  // ---------------------------------------------------------------------
  // Reads

  /** ReadLoan: GetState under ("Loan", owner, id); NotFound when nothing is stored there. */
  method ReadLoan(ws: WorldState, owner: string, id: string) returns (r: Result<Loan>)
    ensures r.Ok? <==> Key(owner, id) in KeysOf(ws.loans)
    ensures r.Ok? ==> Lookup(ws.loans, Key(owner, id)) == Some(r.value)
    ensures r.Err? ==> r.error == NotFound
    ensures ws.Valid() && r.Ok? ==> r.value.applicant == owner && r.value.businessId == id
  {
    r := ReadState(ws.loans, Key(owner, id));
    if r.Ok? {
      assert Entry(Key(owner, id), r.value) in ws.loans;
    }
  }

  /** ReadInsurance: GetState under ("Insurance", owner, id); NotFound when nothing is stored there. */
  method ReadInsurance(ws: WorldState, owner: string, id: string) returns (r: Result<Insurance>)
    ensures r.Ok? <==> Key(owner, id) in KeysOf(ws.insurances)
    ensures r.Ok? ==> Lookup(ws.insurances, Key(owner, id)) == Some(r.value)
    ensures r.Err? ==> r.error == NotFound
    ensures ws.Valid() && r.Ok? ==> r.value.applicant == owner && r.value.businessId == id
  {
    r := ReadState(ws.insurances, Key(owner, id));
    if r.Ok? {
      assert Entry(Key(owner, id), r.value) in ws.insurances;
    }
  }

  /** ReadLoanListByOwner: the owner's loans in key order, re-checked on their applicant field. */
  method ReadLoanListByOwner(ws: WorldState, owner: string) returns (list: seq<Loan>)
    ensures list == Listing(Scan(ws.loans, owner), owner, LoanApplicant)
    ensures forall i :: 0 <= i < |list| ==> list[i].applicant == owner
    ensures ws.Valid() ==> list == Values(Scan(ws.loans, owner))
  {
    list := ListByOwner(ws.loans, owner, LoanApplicant);
    if ws.Valid() {
      forall e | e in Scan(ws.loans, owner)
        ensures LoanApplicant(e.value) == owner
      {
        ScanMember(ws.loans, owner, e);
      }
      ListingAllOwned(Scan(ws.loans, owner), owner, LoanApplicant);
    }
  }

  /** ReadInsuranceListByOwner: the owner's insurances in key order, re-checked on their applicant field. */
  method ReadInsuranceListByOwner(ws: WorldState, owner: string) returns (list: seq<Insurance>)
    ensures list == Listing(Scan(ws.insurances, owner), owner, InsuranceApplicant)
    ensures forall i :: 0 <= i < |list| ==> list[i].applicant == owner
    ensures ws.Valid() ==> list == Values(Scan(ws.insurances, owner))
  {
    list := ListByOwner(ws.insurances, owner, InsuranceApplicant);
    if ws.Valid() {
      forall e | e in Scan(ws.insurances, owner)
        ensures InsuranceApplicant(e.value) == owner
      {
        ScanMember(ws.insurances, owner, e);
      }
      ListingAllOwned(Scan(ws.insurances, owner), owner, InsuranceApplicant);
    }
  }

  /** CountLoansByOwner: walk the owner's loan scan, counting the Approved loans that name the owner. */
  method CountLoansByOwner(ws: WorldState, owner: string) returns (count: nat)
    ensures count == Contracts.ApprovedCount(ws.loans, owner)
    ensures count <= |Scan(ws.loans, owner)|
  {
    var results := Scan(ws.loans, owner);
    count := 0;
    var i := 0;
    while i < |results|
      invariant 0 <= i <= |results|
      invariant count + Contracts.CountApproved(results[i..], owner) == Contracts.CountApproved(results, owner)
      invariant count <= i
    {
      assert results[i..][0] == results[i] && results[i..][1..] == results[i + 1..];
      var loan := results[i].value;
      if loan.applicant == owner && loan.state == Approved {
        count := count + 1;
      }
      i := i + 1;
    }
  }

  // ---------------------------------------------------------------------
  // Creation

  /** CreateLoan: refuse an occupied key, else PutState a new Applied loan. */
  method CreateLoan(ws: WorldState, applicant: string, businessId: string, amount: real, issuer: string, rate: real, period: int, now: int)
    returns (r: Outcome)
    requires ws.Valid()
    modifies ws
    ensures ws.Valid()
    ensures Contracts.CreateLoan(old(ws.Snapshot()), applicant, businessId, amount, issuer, rate, period, now)
      == (if r.Pass? then Ok(ws.Snapshot()) else Err(r.error))
    ensures r.Fail? ==> ws.Snapshot() == old(ws.Snapshot())
  {
    var existing := ReadState(ws.loans, Key(applicant, businessId));
    if existing.Ok? {
      return Fail(AlreadyExists);
    }
    ws.PutLoan(Contracts.NewLoan(applicant, businessId, amount, issuer, rate, period, now));
    r := Pass;
  }

  /** CreateInsurance: refuse an occupied key, else PutState a new Applied insurance. */
  method CreateInsurance(ws: WorldState, applicant: string, businessId: string, amount: real, issuer: string, rate: real, now: int)
    returns (r: Outcome)
    requires ws.Valid()
    modifies ws
    ensures ws.Valid()
    ensures Contracts.CreateInsurance(old(ws.Snapshot()), applicant, businessId, amount, issuer, rate, now)
      == (if r.Pass? then Ok(ws.Snapshot()) else Err(r.error))
    ensures r.Fail? ==> ws.Snapshot() == old(ws.Snapshot())
  {
    var existing := ReadState(ws.insurances, Key(applicant, businessId));
    if existing.Ok? {
      return Fail(AlreadyExists);
    }
    ws.PutInsurance(Contracts.NewInsurance(applicant, businessId, amount, issuer, rate, now));
    r := Pass;
  }

  /** CreateContract: dispatch on the kind of business. */
  method CreateContract(ws: WorldState, applicant: string, businessId: string, amount: real, issuer: string, rate: real, kind: string, period: int, now: int)
    returns (r: Outcome)
    requires ws.Valid()
    modifies ws
    ensures ws.Valid()
    ensures Contracts.CreateContract(old(ws.Snapshot()), applicant, businessId, amount, issuer, rate, kind, period, now)
      == (if r.Pass? then Ok(ws.Snapshot()) else Err(r.error))
    ensures r.Fail? ==> ws.Snapshot() == old(ws.Snapshot())
  {
    if kind == "Loan" {
      r := CreateLoan(ws, applicant, businessId, amount, issuer, rate, period, now);
    } else if kind == "Insurance" {
      r := CreateInsurance(ws, applicant, businessId, amount, issuer, rate, now);
    } else {
      r := Fail(UnknownKind);
    }
  }

  // ---------------------------------------------------------------------
  // Origination

  /**
   * StartLoan: read the loan, require Applied, count the applicant's
   * approved loans, record a rejection, or pay the principal and record
   * the approval. The flag says whether the loan was accepted.
   */
  method StartLoan(ws: WorldState, applicant: string, businessId: string, credit: real, income: real, now: int)
    returns (accepted: bool, r: Outcome)
    requires ws.Valid()
    modifies ws
    ensures ws.Valid()
    ensures Contracts.StartLoan(old(ws.Snapshot()), applicant, businessId, credit, income, now)
      == (if r.Pass? then Ok((accepted, ws.Snapshot())) else Err(r.error))
    ensures r.Fail? ==> !accepted
    ensures r.Fail? && r.error != AlreadyExists ==> ws.Snapshot() == old(ws.Snapshot())
  {
    var loan := ReadLoan(ws, applicant, businessId);
    if loan.Err? {
      return false, Fail(loan.error);
    }
    var l := loan.value;
    if l.state != Applied {
      return false, Fail(InvalidState);
    }
    var count := CountLoansByOwner(ws, applicant);
    if LoanRejected(credit, income, l.amount, count) {
      ws.PutLoan(l.(state := Rejected, updatedAt := now));
      return false, Pass;
    }
    ghost var before := ws.Snapshot();
    var paid := TransferCurrency(ws, l.issuer, l.applicant, l.amount, "Loan", now);
    if paid.Fail? {
      Coins.TransferErrors(before.coins, l.issuer, l.applicant, l.amount, "Loan", now);
      return false, paid;
    }
    ws.PutLoan(l.(state := Approved, updatedAt := now));
    return true, Pass;
  }

  /**
   * StartInsurance: read the insurance, require Applied, record a
   * rejection, or take the premium and record the approval. The flag says
   * whether the insurance was accepted.
   */
  method StartInsurance(ws: WorldState, applicant: string, businessId: string, credit: real, income: real, now: int)
    returns (accepted: bool, r: Outcome)
    requires ws.Valid()
    modifies ws
    ensures ws.Valid()
    ensures Contracts.StartInsurance(old(ws.Snapshot()), applicant, businessId, credit, income, now)
      == (if r.Pass? then Ok((accepted, ws.Snapshot())) else Err(r.error))
    ensures r.Fail? ==> !accepted
    ensures r.Fail? && r.error != AlreadyExists ==> ws.Snapshot() == old(ws.Snapshot())
  {
    var insurance := ReadInsurance(ws, applicant, businessId);
    if insurance.Err? {
      return false, Fail(insurance.error);
    }
    var i := insurance.value;
    if i.state != Applied {
      return false, Fail(InvalidState);
    }
    if InsuranceRejected(credit, income) {
      ws.PutInsurance(i.(state := Rejected, updatedAt := now));
      return false, Pass;
    }
    ghost var before := ws.Snapshot();
    var paid := TransferCurrency(ws, i.applicant, i.issuer, i.amount, "Insurance", now);
    if paid.Fail? {
      Coins.TransferErrors(before.coins, i.applicant, i.issuer, i.amount, "Insurance", now);
      return false, paid;
    }
    ws.PutInsurance(i.(state := Approved, updatedAt := now));
    return true, Pass;
  }

  // ---------------------------------------------------------------------
  // Claims

  /**
   * LoanContractCheck: read the loan, require Approved, decide whether it
   * is overdue and claimable, and if so collect principal and interest
   * from the applicant and record the claim. The flag says whether the
   * loan was claimed.
   */
  method LoanContractCheck(ws: WorldState, applicant: string, businessId: string, credit: real, income: real, currentTime: int, now: int)
    returns (claimed: bool, r: Outcome)
    requires ws.Valid()
    modifies ws
    ensures ws.Valid()
    ensures Contracts.LoanCheck(old(ws.Snapshot()), applicant, businessId, credit, income, currentTime, now)
      == (if r.Pass? then Ok(ws.Snapshot()) else Err(r.error))
    ensures claimed <==> r.Pass?
    ensures r.Fail? && r.error != AlreadyExists ==> ws.Snapshot() == old(ws.Snapshot())
  {
    var loan := ReadLoan(ws, applicant, businessId);
    if loan.Err? {
      return false, Fail(loan.error);
    }
    var l := loan.value;
    if l.state != Approved {
      return false, Fail(InvalidState);
    }
    var overdue := LoanOverdue(currentTime, l.createdAt, l.period);
    if LoanClaimable(credit, income, overdue) {
      ghost var before := ws.Snapshot();
      var paid := TransferCurrency(ws, l.applicant, l.issuer, Repayment(l.amount, l.rate), "Loan", now);
      if paid.Fail? {
        Coins.TransferErrors(before.coins, l.applicant, l.issuer, Repayment(l.amount, l.rate), "Loan", now);
        return false, paid;
      }
      ws.PutLoan(l.(state := Claimed, updatedAt := now));
      return true, Pass;
    }
    return false, Fail(NotClaimable);
  }

  /**
   * InsuranceContractCheck: read the insurance, require Approved, and when
   * the claim condition holds pay principal and interest out to the
   * applicant and record the claim. The flag says whether the insurance
   * was claimed.
   */
  method InsuranceContractCheck(ws: WorldState, applicant: string, businessId: string, credit: real, income: real, isSudden: bool, now: int)
    returns (claimed: bool, r: Outcome)
    requires ws.Valid()
    modifies ws
    ensures ws.Valid()
    ensures Contracts.InsuranceCheck(old(ws.Snapshot()), applicant, businessId, credit, income, isSudden, now)
      == (if r.Pass? then Ok(ws.Snapshot()) else Err(r.error))
    ensures claimed <==> r.Pass?
    ensures r.Fail? && r.error != AlreadyExists ==> ws.Snapshot() == old(ws.Snapshot())
  {
    var insurance := ReadInsurance(ws, applicant, businessId);
    if insurance.Err? {
      return false, Fail(insurance.error);
    }
    var i := insurance.value;
    if i.state != Approved {
      return false, Fail(InvalidState);
    }
    if InsuranceClaimable(credit, income, isSudden) {
      ghost var before := ws.Snapshot();
      var paid := TransferCurrency(ws, i.issuer, i.applicant, Repayment(i.amount, i.rate), "Insurance", now);
      if paid.Fail? {
        Coins.TransferErrors(before.coins, i.issuer, i.applicant, Repayment(i.amount, i.rate), "Insurance", now);
        return false, paid;
      }
      ws.PutInsurance(i.(state := Claimed, updatedAt := now));
      return true, Pass;
    }
    return false, Fail(NotClaimable);
  }
}
