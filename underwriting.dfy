/**
 * The underwriting rules written inline in the contract transitions:
 * origination (accept or reject an application) and claim (force a loan's
 * repayment, pay an insurance out). Thresholds are those of the chaincode:
 * a credit score cutoff of 60, income cutoffs of 5000 and 10000, a
 * principal cap of 10000 and a cap of 3 already-approved loans.
 */
module Underwriting {

  /** Seconds in a day: a loan's period is counted in days. */
  const SecondsPerDay: int := 24 * 60 * 60

  /** StartLoan rejects a poor credit score, a low income, a large principal, or an applicant with more than 3 approved loans. */
  predicate LoanRejected(credit: real, income: real, amount: real, approvedLoans: int)
  {
    credit < 60.0 || income < 5000.0 || amount > 10000.0 || approvedLoans > 3
  }

  /** StartInsurance rejects a poor credit score or a low income. */
  predicate InsuranceRejected(credit: real, income: real)
  {
    credit < 60.0 || income < 5000.0
  }

  /** A loan is overdue once more than its period, in seconds, has passed since its creation. */
  predicate LoanOverdue(currentTime: int, createdAt: int, period: int)
  {
    currentTime - createdAt > period * SecondsPerDay
  }

  /** LoanContractCheck forces repayment on a credit score above 60, a low income, or an overdue loan. */
  predicate LoanClaimable(credit: real, income: real, overdue: bool)
  {
    credit > 60.0 || income < 5000.0 || overdue
  }

  /** InsuranceContractCheck pays out only for a sudden event to an applicant with credit above 60 and income below 10000. */
  predicate InsuranceClaimable(credit: real, income: real, isSudden: bool)
  {
    credit > 60.0 && income < 10000.0 && isSudden
  }

  /** What a claim moves: the principal with its interest. */
  function Repayment(amount: real, rate: real): real
  {
    amount * (1.0 + rate)
  }
}
