/** The savings arithmetic and lookups of the piggy-bank repository.

    Queries, logging, currency conversion and date arithmetic are outside the
    model: what they return is passed in as parameters. */
module Repository {
  import opened Wrappers
  import opened Sums
  import opened Models

  // ---------------------------------------------------------------------------
  // Current amount

  /** What one account link adds to the current amount when the sum is
      restricted to `filter` (no filter: every link counts). */
  function Contribution(link: AccountLink, filter: Option<AccountId>): (r: Money)
    ensures filter.Some? && filter.value != link.accountId ==> r == 0
    ensures (filter.None? || filter.value == link.accountId) ==> r == StoredValue(link.currentAmount)
  {
    if filter.Some? && filter.value != link.accountId then 0 else StoredValue(link.currentAmount)
  }

  /** The amount saved over `links`, restricted to one account when `filter` is set. */
  function CurrentAmount(links: seq<AccountLink>, filter: Option<AccountId>): (r: Money)
    ensures links == [] ==> r == 0
  {
    SumBy(links, l => Contribution(l, filter))
  }

  /** The links that belong to one account, in their original order. */
  function LinksOf(links: seq<AccountLink>, account: AccountId): (r: seq<AccountLink>)
    ensures forall i :: 0 <= i < |r| ==> r[i].accountId == account
    ensures forall l :: l in links && l.accountId == account ==> l in r
    ensures forall l :: l in r ==> l in links
    ensures forall l :: multiset(r)[l] == if l.accountId == account then multiset(links)[l] else 0
  {
    if links == [] then []
    else
      var init, last := links[..|links| - 1], links[|links| - 1];
      var kept := if last.accountId == account then [last] else [];
      assert links == init + [last];
      assert multiset(LinksOf(init, account) + kept) == multiset(LinksOf(init, account)) + multiset(kept);
      LinksOf(init, account) + kept
  }

  /** Sums the stored amounts of the piggy bank's account links, skipping the
      links of other accounts when `account` is given. */
  method GetCurrentAmount(piggyBank: PiggyBank, account: Option<AccountId>) returns (sum: Money)
    ensures sum == CurrentAmount(piggyBank.accounts, account)
  {
    var links := piggyBank.accounts;
    sum := 0;
    for i := 0 to |links|
      invariant sum == CurrentAmount(links[..i], account)
    {
      assert links[..i + 1][..i] == links[..i];
      var current := links[i];
      if account.Some? && account.value != current.accountId {
        continue;
      }
      sum := sum + StoredValue(current.currentAmount);
    }
    assert links[..|links|] == links;
  }

  /** With no links the amount is exactly zero, whatever the filter. */
  lemma CurrentAmountOfNoLinks(filter: Option<AccountId>)
    ensures CurrentAmount([], filter) == 0
  {
  }

  /** With no link of the filtered account the amount is exactly zero. */
  lemma CurrentAmountWithoutMatchingLink(links: seq<AccountLink>, account: AccountId)
    requires forall i :: 0 <= i < |links| ==> links[i].accountId != account
    ensures CurrentAmount(links, Some(account)) == 0
  {
    SumByAllZero(links, l => Contribution(l, Some(account)));
  }

  /** Under any filter, the amount over two runs of links is the sum of the
      amounts over each run. */
  lemma {:induction false} CurrentAmountAppend(links: seq<AccountLink>, more: seq<AccountLink>, filter: Option<AccountId>)
    ensures CurrentAmount(links + more, filter) == CurrentAmount(links, filter) + CurrentAmount(more, filter)
  {
    SumByAppend(links, more, l => Contribution(l, filter));
  }

  lemma CurrentAmountOfOneLink(link: AccountLink)
    ensures CurrentAmount([link], None) == StoredValue(link.currentAmount)
    ensures CurrentAmount([link], Some(link.accountId)) == StoredValue(link.currentAmount)
  {
    SumBySingleton(link, l => Contribution(l, None));
    SumBySingleton(link, l => Contribution(l, Some(link.accountId)));
  }

  /** The current amount does not depend on the order of the links. */
  lemma CurrentAmountIgnoresOrder(links: seq<AccountLink>, reordered: seq<AccountLink>, filter: Option<AccountId>)
    requires multiset(links) == multiset(reordered)
    ensures CurrentAmount(links, filter) == CurrentAmount(reordered, filter)
  {
    SumByPermutation(links, reordered, l => Contribution(l, filter));
  }

  /** Filtering on an account is the unfiltered sum over that account's links. */
  lemma {:induction false} CurrentAmountOfAccount(links: seq<AccountLink>, account: AccountId)
    ensures CurrentAmount(links, Some(account)) == CurrentAmount(LinksOf(links, account), None)
  {
    if links != [] {
      var init, last := links[..|links| - 1], links[|links| - 1];
      CurrentAmountOfAccount(init, account);
      if last.accountId == account {
        CurrentAmountAppend(LinksOf(init, account), [last], None);
        CurrentAmountOfOneLink(last);
      } else {
        assert LinksOf(links, account) == LinksOf(init, account) + [];
        assert LinksOf(init, account) + [] == LinksOf(init, account);
      }
    }
  }

  // ---------------------------------------------------------------------------
  // Left on account

  /** What the piggy banks in `piggies` have set aside in one account. */
  function Committed(piggies: seq<PiggyBank>, account: AccountId): (r: Money)
    ensures piggies == [] ==> r == 0
  {
    SumBy(piggies, (p: PiggyBank) => CurrentAmount(p.accounts, Some(account)))
  }

  /** The account's balance minus what every piggy bank it funds has saved in
      it. `balance` is the account's balance on the requested day in the piggy
      bank's currency, as the balance provider reports it. */
  method LeftOnAccount(account: Account, balance: Money) returns (left: Money)
    ensures left == balance - Committed(account.piggyBanks, account.id)
    ensures account.piggyBanks == [] ==> left == balance
  {
    var piggies := account.piggyBanks;
    left := balance;
    for i := 0 to |piggies|
      invariant left == balance - Committed(piggies[..i], account.id)
    {
      assert piggies[..i + 1][..i] == piggies[..i];
      var amount := GetCurrentAmount(piggies[i], Some(account.id));
      left := left - amount;
    }
    assert piggies[..|piggies|] == piggies;
  }

  /** The order in which the piggy banks are visited does not change the result. */
  lemma CommittedIgnoresOrder(piggies: seq<PiggyBank>, reordered: seq<PiggyBank>, account: AccountId)
    requires multiset(piggies) == multiset(reordered)
    ensures Committed(piggies, account) == Committed(reordered, account)
  {
    SumByPermutation(piggies, reordered, (p: PiggyBank) => CurrentAmount(p.accounts, Some(account)));
  }

  /** A piggy bank with no link to the account takes nothing from it. */
  lemma {:induction false} CommittedSkipsUnlinkedPiggyBank(piggies: seq<PiggyBank>, p: PiggyBank, account: AccountId)
    requires forall i :: 0 <= i < |p.accounts| ==> p.accounts[i].accountId != account
    ensures Committed(piggies + [p], account) == Committed(piggies, account)
  {
    var f := (q: PiggyBank) => CurrentAmount(q.accounts, Some(account));
    SumByAppend(piggies, [p], f);
    SumBySingleton(p, f);
    CurrentAmountWithoutMatchingLink(p.accounts, account);
  }

  /** An account can be over-committed: what is left may be negative. */
  lemma LeftOnAccountCanBeNegative()
    ensures var p := PiggyBank(1, "car", 100, None, None, [AccountLink(7, Decimal(30))], []);
            0 - Committed([p], 7) == -30
  {
    var p := PiggyBank(1, "car", 100, None, None, [AccountLink(7, Decimal(30))], []);
    CurrentAmountOfOneLink(AccountLink(7, Decimal(30)));
    SumBySingleton(p, (q: PiggyBank) => CurrentAmount(q.accounts, Some(7)));
  }

  // ---------------------------------------------------------------------------
  // Suggested monthly amount

  /** The day saving starts from: the piggy bank's start date when it is set
      and not before today, otherwise today. */
  function StartDate(piggyBank: PiggyBank, today: Date): (d: Date)
    ensures d >= today
    ensures d == today || (piggyBank.startDate.Some? && d == piggyBank.startDate.value)
    ensures piggyBank.startDate.Some? && piggyBank.startDate.value >= today ==> d == piggyBank.startDate.value
  {
    if piggyBank.startDate.Some? && piggyBank.startDate.value >= today then piggyBank.startDate.value else today
  }

  /** The amount to save each month to reach the target by the target date.
      `today` is the current day in the application's time zone and
      `diffInMonths(a, b)` the whole number of months from `a` to `b`, as the
      date library computes and truncates it (negative when `b` is before `a`). */
  function SuggestedMonthlyAmount(piggyBank: PiggyBank, today: Date, diffInMonths: (Date, Date) -> int): (r: Money)
    ensures 0 <= r
    ensures r > 0 ==> piggyBank.targetDate.Some? && CurrentAmount(piggyBank.accounts, None) < piggyBank.targetAmount
    ensures r <= piggyBank.targetAmount - CurrentAmount(piggyBank.accounts, None) || r == 0
  {
    var current := CurrentAmount(piggyBank.accounts, None);
    if piggyBank.targetDate.Some? && current < piggyBank.targetAmount then
      var months := diffInMonths(StartDate(piggyBank, today), piggyBank.targetDate.value);
      var remaining := piggyBank.targetAmount - current;
      if months > 0 && remaining > 0 then
        DivisionBrackets(remaining, months);
        remaining / months
      else if months == 0 && remaining > 0 then
        remaining
      else
        0
    else
      0
  }

  /** The four outcomes of the suggestion, by the months left and the amount
      still to save. */
  lemma SuggestedMonthlyAmountCases(piggyBank: PiggyBank, today: Date, diffInMonths: (Date, Date) -> int)
    requires piggyBank.targetDate.Some?
    requires CurrentAmount(piggyBank.accounts, None) < piggyBank.targetAmount
    ensures var months := diffInMonths(StartDate(piggyBank, today), piggyBank.targetDate.value);
            var remaining := piggyBank.targetAmount - CurrentAmount(piggyBank.accounts, None);
            var r := SuggestedMonthlyAmount(piggyBank, today, diffInMonths);
            && (months > 0 ==> r * months <= remaining < (r + 1) * months)
            && (months == 0 ==> r == remaining)
            && (months < 0 ==> r == 0)
  {
    var months := diffInMonths(StartDate(piggyBank, today), piggyBank.targetDate.value);
    var remaining := piggyBank.targetAmount - CurrentAmount(piggyBank.accounts, None);
    if months > 0 {
      DivisionBrackets(remaining, months);
    }
  }

  /** Saving `q / m` for `m` months stays within `q` and misses it by less than one month's share. */
  lemma DivisionBrackets(q: int, m: int)
    requires q > 0 && m > 0
    ensures 0 <= q / m <= q
    ensures (q / m) * m <= q < (q / m + 1) * m
  {
    var d, rest := q / m, q % m;
    assert q == d * m + rest && 0 <= rest < m;
    assert (d + 1) * m == d * m + m;
    assert d >= 0 by {
      if d < 0 {
        assert d * m <= -1 * m by { MulMonotone(m, d, -1); }
      }
    }
    assert d * m >= d by {
      MulMonotone(d, 1, m);
    }
  }

  lemma MulMonotone(a: int, b: int, c: int)
    requires a >= 0 && b <= c
    ensures b * a <= c * a
  {
  }

  /** No target date, or a target already reached, suggests nothing. */
  lemma SuggestedMonthlyAmountIsZeroWhenNothingToPlan(piggyBank: PiggyBank, today: Date, diffInMonths: (Date, Date) -> int)
    requires piggyBank.targetDate.None? || CurrentAmount(piggyBank.accounts, None) >= piggyBank.targetAmount
    ensures SuggestedMonthlyAmount(piggyBank, today, diffInMonths) == 0
  {
  }

  /** Worked cases, amounts in cents: 1200.00 over twelve months is 100.00 a
      month; a reached target suggests nothing; 50.00 due this month is due whole. */
  lemma SuggestedMonthlyAmountExamples()
    ensures var p := PiggyBank(1, "holiday", 120000, Some(400), None, [AccountLink(7, Decimal(0))], []);
            SuggestedMonthlyAmount(p, 35, (a: Date, b: Date) => 12) == 10000
    ensures var p := PiggyBank(2, "bike", 50000, Some(400), None, [AccountLink(7, Decimal(50000))], []);
            SuggestedMonthlyAmount(p, 35, (a: Date, b: Date) => 12) == 0
    ensures var p := PiggyBank(3, "gift", 5000, Some(40), None, [AccountLink(7, Blank)], []);
            SuggestedMonthlyAmount(p, 35, (a: Date, b: Date) => 0) == 5000
  {
    CurrentAmountOfOneLink(AccountLink(7, Decimal(0)));
    CurrentAmountOfOneLink(AccountLink(7, Decimal(50000)));
    CurrentAmountOfOneLink(AccountLink(7, Blank));
  }

  // ---------------------------------------------------------------------------
  // Lookup

  /** The first piggy bank in `banks` that `matches`, or None. */
  function FirstWhere(banks: seq<PiggyBank>, matches: PiggyBank -> bool): (r: Option<PiggyBank>)
    ensures r.None? <==> forall i :: 0 <= i < |banks| ==> !matches(banks[i])
    ensures r.Some? ==> exists k :: 0 <= k < |banks| && banks[k] == r.value && matches(r.value)
                                    && forall j :: 0 <= j < k ==> !matches(banks[j])
  {
    if banks == [] then None
    else if matches(banks[0]) then Some(banks[0])
    else
      var r := FirstWhere(banks[1..], matches);
      if r.Some? then
        ghost var k :| 0 <= k < |banks[1..]| && banks[1..][k] == r.value && matches(r.value)
                       && forall j :: 0 <= j < k ==> !matches(banks[1..][j]);
        assert banks[k + 1] == r.value;
        r
      else r
  }

  predicate HasId(banks: seq<PiggyBank>, id: int)
  {
    exists i :: 0 <= i < |banks| && banks[i].id == id
  }

  predicate HasName(banks: seq<PiggyBank>, name: string)
  {
    exists i :: 0 <= i < |banks| && banks[i].name == name
  }

  /** The user's piggy bank with this id, or None. */
  function Find(banks: seq<PiggyBank>, id: int): (r: Option<PiggyBank>)
    ensures r.Some? <==> HasId(banks, id)
    ensures r.Some? ==> r.value in banks && r.value.id == id
  {
    FirstWhere(banks, (b: PiggyBank) => b.id == id)
  }

  /** The first of the user's piggy banks with this name, or None. */
  function FindByName(banks: seq<PiggyBank>, name: string): (r: Option<PiggyBank>)
    ensures r.Some? <==> HasName(banks, name)
    ensures r.Some? ==> r.value in banks && r.value.name == name
  {
    FirstWhere(banks, (b: PiggyBank) => b.name == name)
  }

  // ---------------------------------------------------------------------------
  // End-of-life operations

  /** Repetitions are end-of-life: reading one throws unless `overrule` is set,
      in which case the first repetition (if any) is returned. */
  function GetRepetition(piggyBank: PiggyBank, overrule: bool): (r: Result<Option<Repetition>, RepoError>)
    ensures r.Failure? <==> !overrule
    ensures r.Success? ==> (r.value.Some? <==> piggyBank.repetitions != [])
    ensures r.Success? && r.value.Some? ==> r.value.value == piggyBank.repetitions[0]
  {
    if !overrule then Failure(RepetitionsEndOfLife)
    else if piggyBank.repetitions == [] then Success(None)
    else Success(Some(piggyBank.repetitions[0]))
  }

  /** The exact amount of a journal to move into a piggy bank: always throws,
      repetitions being end-of-life. */
  function GetExactAmount(piggyBank: PiggyBank, repetition: Repetition, journal: TransactionJournal): (r: Result<Money, RepoError>)
    ensures r.Failure? && r.error == RepetitionsEndOfLife
  {
    Failure(RepetitionsEndOfLife)
  }

  /** DEAD CODE: the clamp that the exact-amount operation applied after the
      throw that now precedes it. `amount` is the journal's signed amount, as
      the currency selection (also unreachable) would have chosen it. A
      deposit is cut to the room left below the target (the whole amount when
      the target is zero); a withdrawal is cut to what is saved. */
  function ClampToRoom(targetAmount: Money, currentAmount: Money, amount: Money): (r: Money)
    ensures amount > 0 ==> r <= amount
    ensures amount < 0 ==> amount <= r
    ensures amount == 0 ==> r == 0
  {
    var room := if targetAmount == 0 then Abs(amount) else targetAmount - currentAmount;
    var compare := -currentAmount;
    if amount > 0 && room < amount then room
    else if amount < 0 && compare > amount then compare
    else amount
  }

  /** From a consistent state (0 <= current <= target, target set), the
      clamp saturates: a deposit is cut to exactly the room, a withdrawal to
      exactly the saved amount, and anything in between passes. */
  lemma ClampSaturates(targetAmount: Money, currentAmount: Money, amount: Money)
    requires 0 < targetAmount && 0 <= currentAmount <= targetAmount
    ensures ClampToRoom(targetAmount, currentAmount, amount)
            == Max(-currentAmount, Min(amount, targetAmount - currentAmount))
  {
  }

  function Min(a: int, b: int): (r: int)
    ensures r <= a && r <= b && (r == a || r == b)
  {
    if a <= b then a else b
  }

  function Max(a: int, b: int): (r: int)
    ensures r >= a && r >= b && (r == a || r == b)
  {
    if a >= b then a else b
  }

  function Abs(x: int): (r: nat)
    ensures r == x || r == -x
  {
    if x < 0 then -x else x
  }

  /** From a consistent state (0 <= current <= target, target set), the
      clamped amount keeps the saved amount between zero and the target. */
  lemma ClampKeepsSavingsInRange(targetAmount: Money, currentAmount: Money, amount: Money)
    requires 0 < targetAmount && 0 <= currentAmount <= targetAmount
    ensures 0 <= currentAmount + ClampToRoom(targetAmount, currentAmount, amount) <= targetAmount
  {
  }

  /** An amount that already fits is passed through unchanged. */
  lemma ClampPassesFittingAmount(targetAmount: Money, currentAmount: Money, amount: Money)
    requires 0 < targetAmount
    requires 0 <= currentAmount + amount <= targetAmount
    ensures ClampToRoom(targetAmount, currentAmount, amount) == amount
  {
  }

  /** Clamping twice is clamping once. */
  lemma ClampIsIdempotent(targetAmount: Money, currentAmount: Money, amount: Money)
    requires 0 < targetAmount && 0 <= currentAmount <= targetAmount
    ensures var once := ClampToRoom(targetAmount, currentAmount, amount);
            ClampToRoom(targetAmount, currentAmount, once) == once
  {
  }

  /** As written, a deposit into a piggy bank already above its target is
      turned into a withdrawal of the excess, room being negative. */
  lemma ClampOverfullDepositBecomesWithdrawal(targetAmount: Money, currentAmount: Money, amount: Money)
    requires 0 < targetAmount < currentAmount && 0 < amount
    ensures ClampToRoom(targetAmount, currentAmount, amount) == targetAmount - currentAmount < 0
  {
  }

  /** Worked cases: with 80 of 100 saved a deposit of 50 becomes 20; with 30
      saved a withdrawal of 50 becomes 30; a deposit of 10 passes through. */
  lemma ClampExamples()
    ensures ClampToRoom(100, 80, 50) == 20
    ensures ClampToRoom(100, 30, -50) == -30
    ensures ClampToRoom(100, 30, 10) == 10
  {
  }

  /** A piggy bank without a target has as room the magnitude of the amount
      itself, so it accepts every deposit whole. */
  lemma ClampWithoutTarget(currentAmount: Money, amount: Money)
    requires 0 <= amount
    ensures ClampToRoom(0, currentAmount, amount) == amount
  {
  }

  /** For any target and any saved amount, a withdrawal is cut to at most
      what is saved: it becomes -current when it goes deeper. */
  lemma ClampWithdrawal(targetAmount: Money, currentAmount: Money, amount: Money)
    requires amount < 0
    ensures ClampToRoom(targetAmount, currentAmount, amount) == Max(-currentAmount, amount)
  {
  }

  /** For any target and any saved amount, a deposit is cut to the room:
      target - current, or the deposit itself when the target is zero. */
  lemma ClampDeposit(targetAmount: Money, currentAmount: Money, amount: Money)
    requires amount > 0
    ensures ClampToRoom(targetAmount, currentAmount, amount)
            == Min(amount, if targetAmount == 0 then amount else targetAmount - currentAmount)
  {
  }

  // ---------------------------------------------------------------------------
  // The repository object

  /** The repository: it remembers the user whose piggy banks it looks up. */
  class PiggyBankRepository {
    /** None until `SetUser` receives an application user. */
    var user: Option<User>

    constructor ()
      ensures user == None
    {
      user := None;
    }

    /** Keeps `principal` when it is an application user; ignores anything else. */
    method SetUser(principal: Principal)
      modifies this
      ensures principal.AppUser? ==> user == Some(principal.user)
      ensures !principal.AppUser? ==> user == old(user)
    {
      if principal.AppUser? {
        user := Some(principal.user);
      }
    }

    /** Looks a piggy bank up by id first, then by name; None if neither finds one. */
    function FindPiggyBank(id: Option<int>, name: Option<string>): (r: Option<PiggyBank>)
      reads this
      requires user.Some?
      ensures r.Some? ==> r.value in user.value.piggyBanks
      ensures r.Some? ==> (id.Some? && r.value.id == id.value) || (name.Some? && r.value.name == name.value)
      ensures id.Some? && HasId(user.value.piggyBanks, id.value) ==> r.Some? && r.value.id == id.value
      ensures r.None? <==> !(id.Some? && HasId(user.value.piggyBanks, id.value))
                            && !(name.Some? && HasName(user.value.piggyBanks, name.value))
    {
      var banks := user.value.piggyBanks;
      if id.Some? && Find(banks, id.value).Some? then Find(banks, id.value)
      else if name.Some? && FindByName(banks, name.value).Some? then FindByName(banks, name.value)
      else None
    }
  }

  /** Once the id is found, the name is never consulted. */
  lemma FindPiggyBankPrefersId(repo: PiggyBankRepository, id: int, name: Option<string>, otherName: Option<string>)
    requires repo.user.Some? && HasId(repo.user.value.piggyBanks, id)
    ensures repo.FindPiggyBank(Some(id), name) == repo.FindPiggyBank(Some(id), otherName)
            == Find(repo.user.value.piggyBanks, id)
  {
  }

  /** When the id is absent or unknown, the result is the name lookup. */
  lemma FindPiggyBankFallsBackToName(repo: PiggyBankRepository, id: Option<int>, name: string)
    requires repo.user.Some?
    requires id.None? || !HasId(repo.user.value.piggyBanks, id.value)
    ensures repo.FindPiggyBank(id, Some(name)) == FindByName(repo.user.value.piggyBanks, name)
  {
  }
}
