/** The records the piggy-bank repository reads: piggy banks, their links to
    accounts, accounts, users and the end-of-life repetition records. */
module Models {
  import opened Wrappers

  /** A decimal amount in units of 10^-scale, where scale is the bcmath scale
      the application configures. All bcmath results are exact at that scale. */
  type Money = int

  /** A calendar day, as an ordinal; only its order matters here. */
  type Date = int

  type AccountId = int

  /** The `current_amount` stored on an account link: a decimal, or the empty
      string (a missing value casts to the empty string). */
  datatype StoredAmount = Blank | Decimal(units: Money)

  /** One row of the piggy bank / account pivot: how much of the piggy bank's
      savings sits in that account. */
  datatype AccountLink = AccountLink(accountId: AccountId, currentAmount: StoredAmount)

  /** A repetition record, the end-of-life predecessor of account links. */
  datatype Repetition = Repetition(id: int, currentAmount: Money)

  /** A piggy bank (savings goal) together with its loaded relations. */
  datatype PiggyBank = PiggyBank(
    id: int,
    name: string,
    targetAmount: Money,
    targetDate: Option<Date>,
    startDate: Option<Date>,
    accounts: seq<AccountLink>,
    repetitions: seq<Repetition>)

  /** An asset account with the piggy banks it funds. */
  datatype Account = Account(id: AccountId, piggyBanks: seq<PiggyBank>)

  /** A user and the piggy banks reachable through the user's accounts. */
  datatype User = User(id: int, piggyBanks: seq<PiggyBank>)

  /** Whatever may be handed to `setUser`: nothing, an authenticated identity
      that is not an application user, or an application user. */
  datatype Principal = Guest | OtherAuthenticatable(id: int) | AppUser(user: User)

  /** A journal, referenced only by the end-of-life exact-amount operation. */
  datatype TransactionJournal = TransactionJournal(id: int)

  /** The exceptions the repository throws. */
  datatype RepoError = RepetitionsEndOfLife

  /** The numeric value of a stored amount; the empty string counts as zero. */
  function StoredValue(s: StoredAmount): (v: Money)
    ensures s.Blank? ==> v == 0
    ensures s.Decimal? ==> v == s.units
  {
    match s
    case Blank => 0
    case Decimal(units) => units
  }
}
