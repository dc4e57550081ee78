/**
 * The records the chaincode keeps in the world state: coins ("Currency"),
 * loans and insurances, each stored under the composite key built from its
 * owner (applicant) and its id. Amounts and rates are exact reals and
 * timestamps are whole seconds.
 */
module Records {
  import opened Keys

  /** A coin: an indivisible unit of value owned by one identity (a UTXO). */
  datatype Coin = Coin(
    id: string,
    amount: real,
    owner: string,
    createdAt: int,
    createdVia: string,   // "Loan", "Insurance", "Transfer", "Deposit", "Change", "System"
    updatedAt: int,
    updatedVia: string)

  /** The states a contract record can name. No transition reaches Expired. */
  datatype ContractState = Applied | Approved | Rejected | Expired | Claimed

  datatype Loan = Loan(
    businessId: string,
    amount: real,
    issuer: string,
    state: ContractState,
    period: int,          // term in days
    rate: real,
    applicant: string,
    createdAt: int,
    updatedAt: int)

  datatype Insurance = Insurance(
    businessId: string,
    amount: real,
    issuer: string,
    state: ContractState,
    rate: real,
    applicant: string,
    createdAt: int,
    updatedAt: int)

  /** Composite keys ("Currency", owner, id), ("Loan", applicant, id), ("Insurance", applicant, id). */
  function CoinKey(c: Coin): Key { Key(c.owner, c.id) }
  function LoanKey(l: Loan): Key { Key(l.applicant, l.businessId) }
  function InsuranceKey(i: Insurance): Key { Key(i.applicant, i.businessId) }

  /** The owner fields the listing operations re-check. */
  function CoinOwner(c: Coin): string { c.owner }
  function LoanApplicant(l: Loan): string { l.applicant }
  function InsuranceApplicant(i: Insurance): string { i.applicant }

  /** Decimal rendering of a whole number of seconds, as "%d" prints it. */
  function Decimal(n: int): string
  {
    if n < 0 then "-" + Digits(-n) else Digits(n)
  }

  function Digits(n: nat): string
    decreases n
  {
    if n < 10 then ["0123456789"[n]] else Digits(n / 10) + ["0123456789"[n % 10]]
  }

  /** The id a transfer gives the coin it mints for owner at time now. */
  function MintId(owner: string, now: int): string
  {
    "Currency" + owner + Decimal(now)
  }

  /** The coin a transfer mints: id from owner and time, created and updated "via" the reason. */
  function Mint(owner: string, amount: real, via: string, now: int): Coin
  {
    Coin(MintId(owner, now), amount, owner, now, via, now, via)
  }
}
