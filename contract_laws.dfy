/**
 * What the contract operations promise, operation by operation: which
 * errors they raise and when, what the underwriting decision does to the
 * record and to the balances, and the invariants one successful invocation
 * keeps (well-formed tables, forward-only states, conservation of value,
 * the approved-loan cap).
 */
module ContractLaws {
  import opened Keys
  import opened Outcomes
  import opened Store
  import opened Records
  import opened World
  import opened Coins
  import opened Underwriting
  import opened Contracts

  // ---------------------------------------------------------------------
  // Errors

  /** StartLoan fails as NotFound exactly when no loan is stored under the key, and as InvalidState exactly when it is not Applied. */
  lemma StartLoanGuards(w: Ledger, applicant: string, businessId: string, credit: real, income: real, now: int)
    ensures var k := Key(applicant, businessId);
      var r := StartLoan(w, applicant, businessId, credit, income, now);
      (r == Err(NotFound) <==> Lookup(w.loans, k).None?) &&
      (r == Err(InvalidState) <==> Lookup(w.loans, k).Some? && Lookup(w.loans, k).value.state != Applied)
  {
    var k := Key(applicant, businessId);
    LookupNone(w.loans, k);
    if Lookup(w.loans, k).Some? {
      var l := Lookup(w.loans, k).value;
      if Transfer(w.coins, l.issuer, l.applicant, l.amount, "Loan", now).Err? {
        TransferErrors(w.coins, l.issuer, l.applicant, l.amount, "Loan", now);
      }
    }
  }

  /** StartInsurance fails as NotFound exactly when no insurance is stored under the key, and as InvalidState exactly when it is not Applied. */
  lemma StartInsuranceGuards(w: Ledger, applicant: string, businessId: string, credit: real, income: real, now: int)
    ensures var k := Key(applicant, businessId);
      var r := StartInsurance(w, applicant, businessId, credit, income, now);
      (r == Err(NotFound) <==> Lookup(w.insurances, k).None?) &&
      (r == Err(InvalidState) <==> Lookup(w.insurances, k).Some? && Lookup(w.insurances, k).value.state != Applied)
  {
    var k := Key(applicant, businessId);
    LookupNone(w.insurances, k);
    if Lookup(w.insurances, k).Some? {
      var i := Lookup(w.insurances, k).value;
      if Transfer(w.coins, i.applicant, i.issuer, i.amount, "Insurance", now).Err? {
        TransferErrors(w.coins, i.applicant, i.issuer, i.amount, "Insurance", now);
      }
    }
  }

  /**
   * LoanContractCheck fails as NotFound exactly when no loan is stored under
   * the key, as InvalidState exactly when it is not Approved, and as
   * NotClaimable exactly when it is Approved but the claim condition fails.
   */
  lemma LoanCheckGuards(w: Ledger, applicant: string, businessId: string, credit: real, income: real, currentTime: int, now: int)
    ensures var k := Key(applicant, businessId);
      var r := LoanCheck(w, applicant, businessId, credit, income, currentTime, now);
      (r == Err(NotFound) <==> Lookup(w.loans, k).None?) &&
      (r == Err(InvalidState) <==> Lookup(w.loans, k).Some? && Lookup(w.loans, k).value.state != Approved) &&
      (r == Err(NotClaimable) <==>
        (Lookup(w.loans, k).Some? && Lookup(w.loans, k).value.state == Approved &&
         !LoanClaimable(credit, income, LoanOverdue(currentTime, Lookup(w.loans, k).value.createdAt, Lookup(w.loans, k).value.period))))
  {
    var k := Key(applicant, businessId);
    LookupNone(w.loans, k);
    if Lookup(w.loans, k).Some? {
      var l := Lookup(w.loans, k).value;
      if Transfer(w.coins, l.applicant, l.issuer, Repayment(l.amount, l.rate), "Loan", now).Err? {
        TransferErrors(w.coins, l.applicant, l.issuer, Repayment(l.amount, l.rate), "Loan", now);
      }
    }
  }

  /**
   * InsuranceContractCheck fails as NotFound exactly when no insurance is
   * stored under the key, as InvalidState exactly when it is not Approved,
   * and as NotClaimable exactly when it is Approved but the claim condition
   * fails.
   */
  lemma InsuranceCheckGuards(w: Ledger, applicant: string, businessId: string, credit: real, income: real, isSudden: bool, now: int)
    ensures var k := Key(applicant, businessId);
      var r := InsuranceCheck(w, applicant, businessId, credit, income, isSudden, now);
      (r == Err(NotFound) <==> Lookup(w.insurances, k).None?) &&
      (r == Err(InvalidState) <==> Lookup(w.insurances, k).Some? && Lookup(w.insurances, k).value.state != Approved) &&
      (r == Err(NotClaimable) <==>
        (Lookup(w.insurances, k).Some? && Lookup(w.insurances, k).value.state == Approved &&
         !InsuranceClaimable(credit, income, isSudden)))
  {
    var k := Key(applicant, businessId);
    LookupNone(w.insurances, k);
    if Lookup(w.insurances, k).Some? {
      var i := Lookup(w.insurances, k).value;
      if Transfer(w.coins, i.issuer, i.applicant, Repayment(i.amount, i.rate), "Insurance", now).Err? {
        TransferErrors(w.coins, i.issuer, i.applicant, Repayment(i.amount, i.rate), "Insurance", now);
      }
    }
  }

  // ---------------------------------------------------------------------
  // Decisions and settlement

  /**
   * For an Applied loan, StartLoan rejects exactly under the origination
   * rule, with no payment; otherwise it succeeds exactly when the principal
   * can be paid, and then the issuer's balance drops and the applicant's
   * rises by the principal.
   */
  lemma StartLoanDecides(w: Ledger, applicant: string, businessId: string, credit: real, income: real, now: int)
    requires Wellformed(w)
    requires Lookup(w.loans, Key(applicant, businessId)).Some?
    requires Lookup(w.loans, Key(applicant, businessId)).value.state == Applied
    ensures var k := Key(applicant, businessId);
      var l := Lookup(w.loans, k).value;
      var r := StartLoan(w, applicant, businessId, credit, income, now);
      var pay := Transfer(w.coins, l.issuer, l.applicant, l.amount, "Loan", now);
      (r.Ok? && !r.value.0 <==> LoanRejected(credit, income, l.amount, ApprovedCount(w.loans, applicant))) &&
      (r.Ok? && !r.value.0 ==>
        r.value.1.coins == w.coins && Lookup(r.value.1.loans, k) == Some(l.(state := Rejected, updatedAt := now))) &&
      (r.Ok? && r.value.0 <==> !LoanRejected(credit, income, l.amount, ApprovedCount(w.loans, applicant)) && pay.Ok?) &&
      (r.Ok? && r.value.0 ==>
        r.value.1.coins == pay.value && Lookup(r.value.1.loans, k) == Some(l.(state := Approved, updatedAt := now)) &&
        (l.issuer != l.applicant ==>
          Balance(r.value.1.coins, l.issuer) == Balance(w.coins, l.issuer) - l.amount &&
          Balance(r.value.1.coins, l.applicant) == Balance(w.coins, l.applicant) + l.amount))
  {
    var k := Key(applicant, businessId);
    var l := Lookup(w.loans, k).value;
    var rejected := l.(state := Rejected, updatedAt := now);
    var approved := l.(state := Approved, updatedAt := now);
    PutLookup(w.loans, k, rejected, k);
    PutLookup(w.loans, k, approved, k);
    var pay := Transfer(w.coins, l.issuer, l.applicant, l.amount, "Loan", now);
    if pay.Ok? && l.issuer != l.applicant {
      TransferSettles(w.coins, l.issuer, l.applicant, l.amount, "Loan", now);
    }
  }

  /**
   * For an Applied insurance, StartInsurance rejects exactly under the
   * origination rule, with no payment; otherwise it succeeds exactly when
   * the premium can be paid, and then the applicant's balance drops and the
   * issuer's rises by the premium.
   */
  lemma StartInsuranceDecides(w: Ledger, applicant: string, businessId: string, credit: real, income: real, now: int)
    requires Wellformed(w)
    requires Lookup(w.insurances, Key(applicant, businessId)).Some?
    requires Lookup(w.insurances, Key(applicant, businessId)).value.state == Applied
    ensures var k := Key(applicant, businessId);
      var i := Lookup(w.insurances, k).value;
      var r := StartInsurance(w, applicant, businessId, credit, income, now);
      var pay := Transfer(w.coins, i.applicant, i.issuer, i.amount, "Insurance", now);
      (r.Ok? && !r.value.0 <==> InsuranceRejected(credit, income)) &&
      (r.Ok? && !r.value.0 ==>
        r.value.1.coins == w.coins && Lookup(r.value.1.insurances, k) == Some(i.(state := Rejected, updatedAt := now))) &&
      (r.Ok? && r.value.0 <==> !InsuranceRejected(credit, income) && pay.Ok?) &&
      (r.Ok? && r.value.0 ==>
        r.value.1.coins == pay.value && Lookup(r.value.1.insurances, k) == Some(i.(state := Approved, updatedAt := now)) &&
        (i.issuer != i.applicant ==>
          Balance(r.value.1.coins, i.applicant) == Balance(w.coins, i.applicant) - i.amount &&
          Balance(r.value.1.coins, i.issuer) == Balance(w.coins, i.issuer) + i.amount))
  {
    var k := Key(applicant, businessId);
    var i := Lookup(w.insurances, k).value;
    PutLookup(w.insurances, k, i.(state := Rejected, updatedAt := now), k);
    PutLookup(w.insurances, k, i.(state := Approved, updatedAt := now), k);
    var pay := Transfer(w.coins, i.applicant, i.issuer, i.amount, "Insurance", now);
    if pay.Ok? && i.issuer != i.applicant {
      TransferSettles(w.coins, i.applicant, i.issuer, i.amount, "Insurance", now);
    }
  }

  /**
   * For an Approved loan whose claim condition holds, LoanContractCheck
   * succeeds exactly when the applicant can repay principal and interest;
   * the loan is then Claimed and that sum has moved from the applicant to
   * the issuer.
   */
  lemma LoanCheckClaims(w: Ledger, applicant: string, businessId: string, credit: real, income: real, currentTime: int, now: int)
    requires Wellformed(w)
    requires Lookup(w.loans, Key(applicant, businessId)).Some?
    requires Lookup(w.loans, Key(applicant, businessId)).value.state == Approved
    requires var l := Lookup(w.loans, Key(applicant, businessId)).value;
      LoanClaimable(credit, income, LoanOverdue(currentTime, l.createdAt, l.period))
    ensures var k := Key(applicant, businessId);
      var l := Lookup(w.loans, k).value;
      var r := LoanCheck(w, applicant, businessId, credit, income, currentTime, now);
      var pay := Transfer(w.coins, l.applicant, l.issuer, Repayment(l.amount, l.rate), "Loan", now);
      (r.Ok? <==> pay.Ok?) &&
      (r.Ok? ==>
        r.value.coins == pay.value && Lookup(r.value.loans, k) == Some(l.(state := Claimed, updatedAt := now)) &&
        (l.issuer != l.applicant ==>
          Balance(r.value.coins, l.applicant) == Balance(w.coins, l.applicant) - Repayment(l.amount, l.rate) &&
          Balance(r.value.coins, l.issuer) == Balance(w.coins, l.issuer) + Repayment(l.amount, l.rate)))
  {
    var k := Key(applicant, businessId);
    var l := Lookup(w.loans, k).value;
    PutLookup(w.loans, k, l.(state := Claimed, updatedAt := now), k);
    var pay := Transfer(w.coins, l.applicant, l.issuer, Repayment(l.amount, l.rate), "Loan", now);
    if pay.Ok? && l.issuer != l.applicant {
      TransferSettles(w.coins, l.applicant, l.issuer, Repayment(l.amount, l.rate), "Loan", now);
    }
  }

  /**
   * For an Approved insurance whose claim condition holds,
   * InsuranceContractCheck succeeds exactly when the issuer can pay
   * principal and interest; the insurance is then Claimed and that sum has
   * moved from the issuer to the applicant.
   */
  lemma InsuranceCheckClaims(w: Ledger, applicant: string, businessId: string, credit: real, income: real, isSudden: bool, now: int)
    requires Wellformed(w)
    requires Lookup(w.insurances, Key(applicant, businessId)).Some?
    requires Lookup(w.insurances, Key(applicant, businessId)).value.state == Approved
    requires InsuranceClaimable(credit, income, isSudden)
    ensures var k := Key(applicant, businessId);
      var i := Lookup(w.insurances, k).value;
      var r := InsuranceCheck(w, applicant, businessId, credit, income, isSudden, now);
      var pay := Transfer(w.coins, i.issuer, i.applicant, Repayment(i.amount, i.rate), "Insurance", now);
      (r.Ok? <==> pay.Ok?) &&
      (r.Ok? ==>
        r.value.coins == pay.value && Lookup(r.value.insurances, k) == Some(i.(state := Claimed, updatedAt := now)) &&
        (i.issuer != i.applicant ==>
          Balance(r.value.coins, i.issuer) == Balance(w.coins, i.issuer) - Repayment(i.amount, i.rate) &&
          Balance(r.value.coins, i.applicant) == Balance(w.coins, i.applicant) + Repayment(i.amount, i.rate)))
  {
    var k := Key(applicant, businessId);
    var i := Lookup(w.insurances, k).value;
    PutLookup(w.insurances, k, i.(state := Claimed, updatedAt := now), k);
    var pay := Transfer(w.coins, i.issuer, i.applicant, Repayment(i.amount, i.rate), "Insurance", now);
    if pay.Ok? && i.issuer != i.applicant {
      TransferSettles(w.coins, i.issuer, i.applicant, Repayment(i.amount, i.rate), "Insurance", now);
    }
  }

  // ---------------------------------------------------------------------
  // One invocation

  /**
   * What one successful invocation keeps: the tables stay well formed,
   * every stored contract advances by at most one transition and new ones
   * start Applied, coins only change hands (the supply is unchanged), and
   * no owner comes to hold more than four approved loans.
   */
  ghost predicate Step(w: Ledger, w': Ledger)
  {
    Wellformed(w') && LoansStep(w.loans, w'.loans) && InsurancesStep(w.insurances, w'.insurances) &&
    Supply(w'.coins) == Supply(w.coins) && (LoanCap(w.loans) ==> LoanCap(w'.loans))
  }

  /**
   * The contract tables after an invocation that writes one loan: k reads
   * v, every other loan key reads as before, and the insurances are as
   * they were.
   */
  ghost predicate WritesLoan(w: Ledger, w': Ledger, k: Key, v: Loan)
  {
    Lookup(w'.loans, k) == Some(v) && (forall k' :: k' != k ==> Lookup(w'.loans, k') == Lookup(w.loans, k')) &&
    w'.insurances == w.insurances
  }

  ghost predicate WritesInsurance(w: Ledger, w': Ledger, k: Key, v: Insurance)
  {
    Lookup(w'.insurances, k) == Some(v) && (forall k' :: k' != k ==> Lookup(w'.insurances, k') == Lookup(w.insurances, k')) &&
    w'.loans == w.loans
  }

  /** Storing v under k and nothing else writes exactly that loan. */
  lemma LoanWritten(w: Ledger, w': Ledger, k: Key, v: Loan)
    requires w'.loans == Put(w.loans, k, v) && w'.insurances == w.insurances
    ensures WritesLoan(w, w', k, v)
  {
    forall k' {
      PutLookup(w.loans, k, v, k');
    }
  }

  lemma InsuranceWritten(w: Ledger, w': Ledger, k: Key, v: Insurance)
    requires w'.insurances == Put(w.insurances, k, v) && w'.loans == w.loans
    ensures WritesInsurance(w, w', k, v)
  {
    forall k' {
      PutLookup(w.insurances, k, v, k');
    }
  }

  lemma LoansStepSame(t: Table<Loan>)
    ensures LoansStep(t, t)
  {
  }

  lemma InsurancesStepSame(t: Table<Insurance>)
    ensures InsurancesStep(t, t)
  {
  }

  /** Storing a loan is one step when it advances what was there, or is Applied where nothing was. */
  lemma LoansStepPut(t: Table<Loan>, k: Key, v: Loan)
    requires match Lookup(t, k) case Some(l) => LoanAdvanced(l, v) case None => v.state == Applied
    ensures LoansStep(t, Put(t, k, v))
  {
    forall k' {
      PutLookup(t, k, v, k');
    }
  }

  lemma InsurancesStepPut(t: Table<Insurance>, k: Key, v: Insurance)
    requires match Lookup(t, k) case Some(i) => InsuranceAdvanced(i, v) case None => v.state == Applied
    ensures InsurancesStep(t, Put(t, k, v))
  {
    forall k' {
      PutLookup(t, k, v, k');
    }
  }

  /** Storing a loan keeps the cap when the owner's count, corrected for what it replaces, stays within four. */
  lemma LoanCapPut(t: Table<Loan>, k: Key, v: Loan)
    requires Sorted(t) && LoanCap(t)
    requires ApprovedCount(t, k.owner) + Counted(v, k.owner) <= 4 + CountedAt(t, k, k.owner)
    ensures LoanCap(Put(t, k, v))
  {
    forall owner
      ensures ApprovedCount(Put(t, k, v), owner) <= 4
    {
      ApprovedCountPut(t, k, v, owner);
    }
  }

  /** A record read from a keyed loan table is stored under its own key. */
  lemma LoanUnderOwnKey(t: Table<Loan>, k: Key)
    requires LoanTable(t) && ReadState(t, k).Ok?
    ensures LoanKey(ReadState(t, k).value) == k
    ensures Lookup(t, k) == Some(ReadState(t, k).value)
  {
    assert Entry(k, ReadState(t, k).value) in t;
  }

  lemma InsuranceUnderOwnKey(t: Table<Insurance>, k: Key)
    requires InsuranceTable(t) && ReadState(t, k).Ok?
    ensures InsuranceKey(ReadState(t, k).value) == k
    ensures Lookup(t, k) == Some(ReadState(t, k).value)
  {
    assert Entry(k, ReadState(t, k).value) in t;
  }

  /** A successful CreateLoan is one step. */
  lemma CreateLoanStep(w: Ledger, applicant: string, businessId: string, amount: real, issuer: string, rate: real, period: int, now: int)
    requires Wellformed(w) && CreateLoan(w, applicant, businessId, amount, issuer, rate, period, now).Ok?
    ensures Step(w, CreateLoan(w, applicant, businessId, amount, issuer, rate, period, now).value)
    ensures WritesLoan(w, CreateLoan(w, applicant, businessId, amount, issuer, rate, period, now).value,
      Key(applicant, businessId), NewLoan(applicant, businessId, amount, issuer, rate, period, now))
    ensures CreateLoan(w, applicant, businessId, amount, issuer, rate, period, now).value.coins == w.coins
  {
    var k := Key(applicant, businessId);
    var v := NewLoan(applicant, businessId, amount, issuer, rate, period, now);
    LoanWritten(w, CreateLoan(w, applicant, businessId, amount, issuer, rate, period, now).value, k, v);
    LookupNone(w.loans, k);
    LoanTablePut(w.loans, v);
    LoansStepPut(w.loans, k, v);
    InsurancesStepSame(w.insurances);
    if LoanCap(w.loans) {
      LoanCapPut(w.loans, k, v);
    }
  }

  /** A successful CreateInsurance is one step. */
  lemma CreateInsuranceStep(w: Ledger, applicant: string, businessId: string, amount: real, issuer: string, rate: real, now: int)
    requires Wellformed(w) && CreateInsurance(w, applicant, businessId, amount, issuer, rate, now).Ok?
    ensures Step(w, CreateInsurance(w, applicant, businessId, amount, issuer, rate, now).value)
    ensures WritesInsurance(w, CreateInsurance(w, applicant, businessId, amount, issuer, rate, now).value,
      Key(applicant, businessId), NewInsurance(applicant, businessId, amount, issuer, rate, now))
    ensures CreateInsurance(w, applicant, businessId, amount, issuer, rate, now).value.coins == w.coins
  {
    var k := Key(applicant, businessId);
    var v := NewInsurance(applicant, businessId, amount, issuer, rate, now);
    InsuranceWritten(w, CreateInsurance(w, applicant, businessId, amount, issuer, rate, now).value, k, v);
    LookupNone(w.insurances, k);
    InsuranceTablePut(w.insurances, v);
    InsurancesStepPut(w.insurances, k, v);
    LoansStepSame(w.loans);
  }

  /** A successful CreateContract is one step. */
  lemma CreateContractStep(w: Ledger, applicant: string, businessId: string, amount: real, issuer: string, rate: real, kind: string, period: int, now: int)
    requires Wellformed(w) && CreateContract(w, applicant, businessId, amount, issuer, rate, kind, period, now).Ok?
    ensures Step(w, CreateContract(w, applicant, businessId, amount, issuer, rate, kind, period, now).value)
    ensures kind == "Loan" ==> WritesLoan(w, CreateContract(w, applicant, businessId, amount, issuer, rate, kind, period, now).value,
      Key(applicant, businessId), NewLoan(applicant, businessId, amount, issuer, rate, period, now))
    ensures kind == "Insurance" ==> WritesInsurance(w, CreateContract(w, applicant, businessId, amount, issuer, rate, kind, period, now).value,
      Key(applicant, businessId), NewInsurance(applicant, businessId, amount, issuer, rate, now))
    ensures CreateContract(w, applicant, businessId, amount, issuer, rate, kind, period, now).value.coins == w.coins
  {
    if kind == "Loan" {
      CreateLoanStep(w, applicant, businessId, amount, issuer, rate, period, now);
    } else {
      CreateInsuranceStep(w, applicant, businessId, amount, issuer, rate, now);
    }
  }

  /**
   * A successful StartLoan is one step; in particular an accepted loan
   * keeps its applicant within four approved loans, because acceptance
   * needs at most three already.
   */
  lemma StartLoanStep(w: Ledger, applicant: string, businessId: string, credit: real, income: real, now: int)
    requires Wellformed(w) && StartLoan(w, applicant, businessId, credit, income, now).Ok?
    ensures Step(w, StartLoan(w, applicant, businessId, credit, income, now).value.1)
    ensures var r := StartLoan(w, applicant, businessId, credit, income, now).value;
      var l := ReadState(w.loans, Key(applicant, businessId)).value;
      WritesLoan(w, r.1, Key(applicant, businessId), l.(state := if r.0 then Approved else Rejected, updatedAt := now))
  {
    var k := Key(applicant, businessId);
    var l := ReadState(w.loans, k).value;
    LoanUnderOwnKey(w.loans, k);
    InsurancesStepSame(w.insurances);
    if LoanRejected(credit, income, l.amount, ApprovedCount(w.loans, applicant)) {
      var v := l.(state := Rejected, updatedAt := now);
      LoanWritten(w, StartLoan(w, applicant, businessId, credit, income, now).value.1, k, v);
      LoanTablePut(w.loans, v);
      LoansStepPut(w.loans, k, v);
      if LoanCap(w.loans) {
        LoanCapPut(w.loans, k, v);
      }
    } else {
      var v := l.(state := Approved, updatedAt := now);
      LoanWritten(w, StartLoan(w, applicant, businessId, credit, income, now).value.1, k, v);
      TransferConserves(w.coins, l.issuer, l.applicant, l.amount, "Loan", now);
      LoanTablePut(w.loans, v);
      LoansStepPut(w.loans, k, v);
      if LoanCap(w.loans) {
        LoanCapPut(w.loans, k, v);
      }
    }
  }

  /** A successful StartInsurance is one step. */
  lemma StartInsuranceStep(w: Ledger, applicant: string, businessId: string, credit: real, income: real, now: int)
    requires Wellformed(w) && StartInsurance(w, applicant, businessId, credit, income, now).Ok?
    ensures Step(w, StartInsurance(w, applicant, businessId, credit, income, now).value.1)
    ensures var r := StartInsurance(w, applicant, businessId, credit, income, now).value;
      var i := ReadState(w.insurances, Key(applicant, businessId)).value;
      WritesInsurance(w, r.1, Key(applicant, businessId), i.(state := if r.0 then Approved else Rejected, updatedAt := now))
  {
    var k := Key(applicant, businessId);
    var i := ReadState(w.insurances, k).value;
    InsuranceUnderOwnKey(w.insurances, k);
    LoansStepSame(w.loans);
    if InsuranceRejected(credit, income) {
      var v := i.(state := Rejected, updatedAt := now);
      InsuranceWritten(w, StartInsurance(w, applicant, businessId, credit, income, now).value.1, k, v);
      InsuranceTablePut(w.insurances, v);
      InsurancesStepPut(w.insurances, k, v);
    } else {
      var v := i.(state := Approved, updatedAt := now);
      InsuranceWritten(w, StartInsurance(w, applicant, businessId, credit, income, now).value.1, k, v);
      TransferConserves(w.coins, i.applicant, i.issuer, i.amount, "Insurance", now);
      InsuranceTablePut(w.insurances, v);
      InsurancesStepPut(w.insurances, k, v);
    }
  }

  /** A successful LoanContractCheck is one step. */
  lemma LoanCheckStep(w: Ledger, applicant: string, businessId: string, credit: real, income: real, currentTime: int, now: int)
    requires Wellformed(w) && LoanCheck(w, applicant, businessId, credit, income, currentTime, now).Ok?
    ensures Step(w, LoanCheck(w, applicant, businessId, credit, income, currentTime, now).value)
    ensures var l := ReadState(w.loans, Key(applicant, businessId)).value;
      l.state == Approved &&
      WritesLoan(w, LoanCheck(w, applicant, businessId, credit, income, currentTime, now).value,
        Key(applicant, businessId), l.(state := Claimed, updatedAt := now))
  {
    var k := Key(applicant, businessId);
    var l := ReadState(w.loans, k).value;
    LoanUnderOwnKey(w.loans, k);
    InsurancesStepSame(w.insurances);
    var v := l.(state := Claimed, updatedAt := now);
    LoanWritten(w, LoanCheck(w, applicant, businessId, credit, income, currentTime, now).value, k, v);
    TransferConserves(w.coins, l.applicant, l.issuer, Repayment(l.amount, l.rate), "Loan", now);
    LoanTablePut(w.loans, v);
    LoansStepPut(w.loans, k, v);
    if LoanCap(w.loans) {
      LoanCapPut(w.loans, k, v);
    }
  }

  /** A successful InsuranceContractCheck is one step. */
  lemma InsuranceCheckStep(w: Ledger, applicant: string, businessId: string, credit: real, income: real, isSudden: bool, now: int)
    requires Wellformed(w) && InsuranceCheck(w, applicant, businessId, credit, income, isSudden, now).Ok?
    ensures Step(w, InsuranceCheck(w, applicant, businessId, credit, income, isSudden, now).value)
    ensures var i := ReadState(w.insurances, Key(applicant, businessId)).value;
      i.state == Approved &&
      WritesInsurance(w, InsuranceCheck(w, applicant, businessId, credit, income, isSudden, now).value,
        Key(applicant, businessId), i.(state := Claimed, updatedAt := now))
  {
    var k := Key(applicant, businessId);
    var i := ReadState(w.insurances, k).value;
    InsuranceUnderOwnKey(w.insurances, k);
    LoansStepSame(w.loans);
    var v := i.(state := Claimed, updatedAt := now);
    InsuranceWritten(w, InsuranceCheck(w, applicant, businessId, credit, income, isSudden, now).value, k, v);
    TransferConserves(w.coins, i.issuer, i.applicant, Repayment(i.amount, i.rate), "Insurance", now);
    InsuranceTablePut(w.insurances, v);
    InsurancesStepPut(w.insurances, k, v);
  }
}
