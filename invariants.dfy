/**
 * The ledger across many transactions. Every state-changing entry point of
 * the chaincode is one Op; a transaction applies one Op at its timestamp,
 * and a failed transaction leaves the world state as it was. Over any run:
 * the tables stay well formed, contracts only move forward through their
 * state machine, value is created only by CreateCurrency, and no owner
 * comes to hold more than four approved loans.
 */
module Invariants {
  import opened Keys
  import opened Outcomes
  import opened Store
  import opened Records
  import opened World
  import opened Coins
  import opened Contracts
  import opened ContractLaws

  /** The state-changing entry points, with the arguments the client passes. */
  datatype Op =
    | CreateCurrencyOp(coin: Coin)
    | TransferCurrencyOp(from: string, to: string, amount: real, reason: string)
    | CreateContractOp(applicant: string, businessId: string, amount: real, issuer: string, rate: real, kind: string, period: int)
    | CreateLoanOp(applicant: string, businessId: string, amount: real, issuer: string, rate: real, period: int)
    | CreateInsuranceOp(applicant: string, businessId: string, amount: real, issuer: string, rate: real)
    | StartLoanOp(applicant: string, businessId: string, credit: real, income: real)
    | StartInsuranceOp(applicant: string, businessId: string, credit: real, income: real)
    | LoanCheckOp(applicant: string, businessId: string, credit: real, income: real, currentTime: int)
    | InsuranceCheckOp(applicant: string, businessId: string, credit: real, income: real, isSudden: bool)

  /** One transaction: an entry point and the transaction timestamp. */
  datatype Call = Call(op: Op, now: int)

  /** The world state one transaction leaves, or the error it fails with. */
  function Apply(w: Ledger, op: Op, now: int): Result<Ledger>
  {
    match op
    case CreateCurrencyOp(c) =>
      (match AddCoin(w.coins, c)
       case Err(e) => Err(e)
       case Ok(coins) => Ok(w.(coins := coins)))
    case TransferCurrencyOp(from, to, amount, reason) =>
      (match Transfer(w.coins, from, to, amount, reason, now)
       case Err(e) => Err(e)
       case Ok(coins) => Ok(w.(coins := coins)))
    case CreateContractOp(applicant, businessId, amount, issuer, rate, kind, period) =>
      CreateContract(w, applicant, businessId, amount, issuer, rate, kind, period, now)
    case CreateLoanOp(applicant, businessId, amount, issuer, rate, period) =>
      CreateLoan(w, applicant, businessId, amount, issuer, rate, period, now)
    case CreateInsuranceOp(applicant, businessId, amount, issuer, rate) =>
      CreateInsurance(w, applicant, businessId, amount, issuer, rate, now)
    case StartLoanOp(applicant, businessId, credit, income) =>
      (match StartLoan(w, applicant, businessId, credit, income, now)
       case Err(e) => Err(e)
       case Ok(res) => Ok(res.1))
    case StartInsuranceOp(applicant, businessId, credit, income) =>
      (match StartInsurance(w, applicant, businessId, credit, income, now)
       case Err(e) => Err(e)
       case Ok(res) => Ok(res.1))
    case LoanCheckOp(applicant, businessId, credit, income, currentTime) =>
      LoanCheck(w, applicant, businessId, credit, income, currentTime, now)
    case InsuranceCheckOp(applicant, businessId, credit, income, isSudden) =>
      InsuranceCheck(w, applicant, businessId, credit, income, isSudden, now)
  }

  /** The value an entry point creates when it succeeds: only CreateCurrency creates any. */
  function Minted(op: Op): real
  {
    if op.CreateCurrencyOp? then op.coin.amount else 0.0
  }

  /** The world state after a sequence of transactions; a failed one changes nothing. */
  function Run(w: Ledger, calls: seq<Call>): Ledger
    decreases |calls|
  {
    if calls == [] then w
    else
      match Apply(w, calls[0].op, calls[0].now)
      case Err(_) => Run(w, calls[1..])
      case Ok(w') => Run(w', calls[1..])
  }

  /** The value the successful CreateCurrency transactions of a run create. */
  function Mints(w: Ledger, calls: seq<Call>): real
    decreases |calls|
  {
    if calls == [] then 0.0
    else
      match Apply(w, calls[0].op, calls[0].now)
      case Err(_) => Mints(w, calls[1..])
      case Ok(w') => Minted(calls[0].op) + Mints(w', calls[1..])
  }

  /**
   * Every successful transaction keeps the tables well formed, moves each
   * stored contract by at most one transition, starts new contracts in
   * Applied, changes the supply only by what it mints, and keeps the cap.
   */
  lemma ApplyStep(w: Ledger, op: Op, now: int)
    requires Wellformed(w) && Apply(w, op, now).Ok?
    ensures var w' := Apply(w, op, now).value;
      Wellformed(w') && LoansStep(w.loans, w'.loans) && InsurancesStep(w.insurances, w'.insurances) &&
      Supply(w'.coins) == Supply(w.coins) + Minted(op) && (LoanCap(w.loans) ==> LoanCap(w'.loans))
  {
    match op
    case CreateCurrencyOp(c) =>
      AddCoinCredits(w.coins, c);
      LoansStepSame(w.loans);
      InsurancesStepSame(w.insurances);
    case TransferCurrencyOp(from, to, amount, reason) =>
      TransferConserves(w.coins, from, to, amount, reason, now);
      LoansStepSame(w.loans);
      InsurancesStepSame(w.insurances);
    case CreateContractOp(applicant, businessId, amount, issuer, rate, kind, period) =>
      CreateContractStep(w, applicant, businessId, amount, issuer, rate, kind, period, now);
    case CreateLoanOp(applicant, businessId, amount, issuer, rate, period) =>
      CreateLoanStep(w, applicant, businessId, amount, issuer, rate, period, now);
    case CreateInsuranceOp(applicant, businessId, amount, issuer, rate) =>
      CreateInsuranceStep(w, applicant, businessId, amount, issuer, rate, now);
    case StartLoanOp(applicant, businessId, credit, income) =>
      StartLoanStep(w, applicant, businessId, credit, income, now);
    case StartInsuranceOp(applicant, businessId, credit, income) =>
      StartInsuranceStep(w, applicant, businessId, credit, income, now);
    case LoanCheckOp(applicant, businessId, credit, income, currentTime) =>
      LoanCheckStep(w, applicant, businessId, credit, income, currentTime, now);
    case InsuranceCheckOp(applicant, businessId, credit, income, isSudden) =>
      InsuranceCheckStep(w, applicant, businessId, credit, income, isSudden, now);
  }

  // ---------------------------------------------------------------------
  // Many transactions

  /** A loan record after any number of steps: its state is reachable from the old one, and only its state and update time changed. */
  predicate LoanEvolved(l: Loan, l': Loan)
  {
    Reaches(l.state, l'.state) && l' == l.(state := l'.state, updatedAt := l'.updatedAt)
  }

  predicate InsuranceEvolved(i: Insurance, i': Insurance)
  {
    Reaches(i.state, i'.state) && i' == i.(state := i'.state, updatedAt := i'.updatedAt)
  }

  /** The loan table after any number of steps, key by key: nothing stored disappears, and what appears was never Expired. */
  ghost predicate LoansEvolve(t: Table<Loan>, t': Table<Loan>)
  {
    forall k :: match Lookup(t, k)
      case Some(l) => Lookup(t', k).Some? && LoanEvolved(l, Lookup(t', k).value)
      case None => Lookup(t', k).None? || Reaches(Applied, Lookup(t', k).value.state)
  }

  ghost predicate InsurancesEvolve(t: Table<Insurance>, t': Table<Insurance>)
  {
    forall k :: match Lookup(t, k)
      case Some(i) => Lookup(t', k).Some? && InsuranceEvolved(i, Lookup(t', k).value)
      case None => Lookup(t', k).None? || Reaches(Applied, Lookup(t', k).value.state)
  }

  /**
   * Over any run from a well-formed ledger: it stays well formed, every
   * contract only moves forward, the supply grows exactly by what
   * successful CreateCurrency transactions mint, and the cap is kept.
   */
  lemma {:induction false} RunKeeps(w: Ledger, calls: seq<Call>)
    requires Wellformed(w)
    ensures var w' := Run(w, calls);
      Wellformed(w') && LoansEvolve(w.loans, w'.loans) && InsurancesEvolve(w.insurances, w'.insurances) &&
      Supply(w'.coins) == Supply(w.coins) + Mints(w, calls) && (LoanCap(w.loans) ==> LoanCap(w'.loans))
    decreases |calls|
  {
    if calls == [] {
      LoansStart(w.loans);
      InsurancesStart(w.insurances);
    } else {
      match Apply(w, calls[0].op, calls[0].now)
      case Err(_) =>
        RunKeeps(w, calls[1..]);
      case Ok(w1) =>
        ApplyStep(w, calls[0].op, calls[0].now);
        RunKeeps(w1, calls[1..]);
        var w' := Run(w1, calls[1..]);
        LoansStepThenEvolve(w.loans, w1.loans, w'.loans);
        InsurancesStepThenEvolve(w.insurances, w1.insurances, w'.insurances);
    }
  }

  lemma LoansStart(t: Table<Loan>)
    ensures LoansEvolve(t, t)
  {
  }

  lemma InsurancesStart(t: Table<Insurance>)
    ensures InsurancesEvolve(t, t)
  {
  }

  /** One step followed by any evolution is an evolution. */
  lemma LoansStepThenEvolve(t0: Table<Loan>, t1: Table<Loan>, t2: Table<Loan>)
    requires LoansStep(t0, t1) && LoansEvolve(t1, t2)
    ensures LoansEvolve(t0, t2)
  {
    forall k
      ensures match Lookup(t0, k)
        case Some(l) => Lookup(t2, k).Some? && LoanEvolved(l, Lookup(t2, k).value)
        case None => Lookup(t2, k).None? || Reaches(Applied, Lookup(t2, k).value.state)
    {
      match Lookup(t1, k)
      case None =>
      case Some(l1) =>
        match Lookup(t0, k)
        case None =>
        case Some(l0) => AdvancesReaches(l0.state, l1.state, Lookup(t2, k).value.state);
    }
  }

  lemma InsurancesStepThenEvolve(t0: Table<Insurance>, t1: Table<Insurance>, t2: Table<Insurance>)
    requires InsurancesStep(t0, t1) && InsurancesEvolve(t1, t2)
    ensures InsurancesEvolve(t0, t2)
  {
    forall k
      ensures match Lookup(t0, k)
        case Some(i) => Lookup(t2, k).Some? && InsuranceEvolved(i, Lookup(t2, k).value)
        case None => Lookup(t2, k).None? || Reaches(Applied, Lookup(t2, k).value.state)
    {
      match Lookup(t1, k)
      case None =>
      case Some(i1) =>
        match Lookup(t0, k)
        case None =>
        case Some(i0) => AdvancesReaches(i0.state, i1.state, Lookup(t2, k).value.state);
    }
  }

  /** One transition followed by a reachable state reaches it. */
  lemma AdvancesReaches(s: ContractState, s': ContractState, s'': ContractState)
    requires Advances(s, s') && Reaches(s', s'')
    ensures Reaches(s, s'')
  {
  }

  // ---------------------------------------------------------------------
  // Consequences

  /**
   * From the empty ledger, whatever transactions run: the tables are well
   * formed, the supply is exactly what was minted, and no owner holds more
   * than four approved loans.
   */
  lemma RunFromEmpty(calls: seq<Call>)
    ensures var w' := Run(Ledger([], [], []), calls);
      Wellformed(w') && Supply(w'.coins) == Mints(Ledger([], [], []), calls) &&
      forall owner :: ApprovedCount(w'.loans, owner) <= 4
  {
    var w := Ledger([], [], []);
    assert LoanCap(w.loans) by {
      forall owner
        ensures ApprovedCount(w.loans, owner) <= 4
      {
        assert Scan(w.loans, owner) == [];
      }
    }
    RunKeeps(w, calls);
  }

  /** A loan that is Rejected or Claimed stays stored and keeps that state through any run. */
  lemma LoanFinalStays(w: Ledger, calls: seq<Call>, k: Key)
    requires Wellformed(w)
    requires Lookup(w.loans, k).Some? && Lookup(w.loans, k).value.state in {Rejected, Claimed}
    ensures Lookup(Run(w, calls).loans, k).Some?
    ensures Lookup(Run(w, calls).loans, k).value.state == Lookup(w.loans, k).value.state
  {
    RunKeeps(w, calls);
    assert LoansEvolve(w.loans, Run(w, calls).loans);
  }

  /** An insurance that is Rejected or Claimed stays stored and keeps that state through any run. */
  lemma InsuranceFinalStays(w: Ledger, calls: seq<Call>, k: Key)
    requires Wellformed(w)
    requires Lookup(w.insurances, k).Some? && Lookup(w.insurances, k).value.state in {Rejected, Claimed}
    ensures Lookup(Run(w, calls).insurances, k).Some?
    ensures Lookup(Run(w, calls).insurances, k).value.state == Lookup(w.insurances, k).value.state
  {
    RunKeeps(w, calls);
    assert InsurancesEvolve(w.insurances, Run(w, calls).insurances);
  }

  /** No transaction ever puts a loan into Expired: a key not Expired before is not Expired after any run. */
  lemma LoanNeverExpires(w: Ledger, calls: seq<Call>, k: Key)
    requires Wellformed(w)
    requires Lookup(w.loans, k).None? || Lookup(w.loans, k).value.state != Expired
    ensures Lookup(Run(w, calls).loans, k).None? || Lookup(Run(w, calls).loans, k).value.state != Expired
  {
    RunKeeps(w, calls);
    assert LoansEvolve(w.loans, Run(w, calls).loans);
  }

  lemma InsuranceNeverExpires(w: Ledger, calls: seq<Call>, k: Key)
    requires Wellformed(w)
    requires Lookup(w.insurances, k).None? || Lookup(w.insurances, k).value.state != Expired
    ensures Lookup(Run(w, calls).insurances, k).None? || Lookup(Run(w, calls).insurances, k).value.state != Expired
  {
    RunKeeps(w, calls);
    assert InsurancesEvolve(w.insurances, Run(w, calls).insurances);
  }
}
