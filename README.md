# Piggy-bank repository: savings arithmetic and lookups

A Dafny model of the savings-goal ("piggy bank") repository of Firefly III,
`app/Repositories/PiggyBank/PiggyBankRepository.php`. Only the repository's own
logic is modelled. The model covers:

- summing what a piggy bank has saved over its account links, optionally for one
  account only (`getCurrentAmount`);
- the amount left in an account after every piggy bank it funds has taken its
  share (`leftOnAccount`);
- the suggested monthly saving (`getSuggestedMonthlyAmount`);
- lookup by id, then by name (`findPiggyBank`, `find`, `findByName`);
- the end-of-life repetition guards (`getRepetition`, `getExactAmount`), and the
  clamp that sits after the throw in `getExactAmount`, modelled as a separate
  function and labelled dead code;
- the repository's `user` field and `setUser`.

Files:

- `wrappers.dfy` (module `Wrappers`): `Option` for PHP's nullable results, and
  `Result` for thrown exceptions.
- `sums.dfy` (module `Sums`): `SumBy`, a left-to-right fold of a sum over a
  sequence. Its lemmas cover concatenation, removal of one element and
  permutation.
- `models.dfy` (module `Models`): the records the repository reads. These are
  piggy banks, account links with their stored `current_amount`, accounts,
  users, repetitions and journals.
- `piggy_bank_repository.dfy` (module `Repository`): the operations, the
  specification functions they are proved against, the lemmas, and the class
  `PiggyBankRepository`, which holds the `user` field.

Representation choices:

- Amounts (`Money`) are integers counted in units of 10^-scale. The scale is the
  bcmath scale the application configures elsewhere. With this representation
  `bcadd` and `bcsub` are exact.
- `bcdiv` truncates to the scale. It is applied only to a positive remainder and
  a positive month count, so it is integer division (`/`).
- Dates are day ordinals; only their order is used.
- Two things the repository gets from library calls are parameters instead:
  - "today" in the application's time zone;
  - the month difference that the date library computes and truncates with
    `(int)`. It is a function `(Date, Date) -> int`, so the choice of start date
    still decides which months are counted.
- The account balance that `leftOnAccount` starts from is a parameter. In the
  source it comes from the balance provider, converted to the piggy bank's
  currency.
- The piggy banks an account funds (`$account->piggyBanks`) are a field of
  `Account`.
- The piggy banks a user owns (`$this->user->piggyBanks()`) are a field of
  `User`.
- The loops of `getCurrentAmount` and `leftOnAccount` are methods with `for`
  loops. Each is proved equal to a `SumBy`-based specification function
  (`CurrentAmount`, `Committed`). The lemmas are stated about those functions.
- The clamp's inputs are the values of the unreachable code:
  - `targetAmount` is the piggy bank's `target_amount`;
  - `currentAmount` is the repetition's `current_amount`;
  - `amount` is the signed journal amount.

## Model

| member | source | states |
|---|---|---|
| `Models.StoredValue` | app/Repositories/PiggyBank/PiggyBankRepository.php:125-126 | a stored `current_amount` that is the empty string reads as 0; any other stored decimal reads as itself |
| `Repository.Contribution` | app/Repositories/PiggyBank/PiggyBankRepository.php:122-127 | one loop step: a link of another account than the filter adds 0; with no filter, or a link of the filtered account, it adds the link's stored value |
| `Repository.CurrentAmount` | app/Repositories/PiggyBank/PiggyBankRepository.php:120-128 | reference definition of the loop: the link-order fold of `Contribution`; its contract states that the fold over no links is exactly 0, and the fold's other properties are the lemmas below |
| `Repository.Committed` | app/Repositories/PiggyBank/PiggyBankRepository.php:338-342 | reference definition of what leftOnAccount subtracts: the fold, in order, of each piggy bank's current amount filtered to this account; its contract states that it is 0 for no piggy banks |
| `Repository.GetCurrentAmount` | app/Repositories/PiggyBank/PiggyBankRepository.php:118-132 | the loop's sum is the link-order fold of every link's stored amount (empty string as 0), skipping links of other accounts when an account is given |
| `Repository.CurrentAmountOfNoLinks` | app/Repositories/PiggyBank/PiggyBankRepository.php:120-131 | a piggy bank with no links has saved exactly 0, with or without an account filter |
| `Repository.CurrentAmountWithoutMatchingLink` | app/Repositories/PiggyBank/PiggyBankRepository.php:121-124 | filtered on an account that no link belongs to, the amount is 0 |
| `Repository.CurrentAmountAppend` | app/Repositories/PiggyBank/PiggyBankRepository.php:121-128 | the amount over two groups of links is the sum of the amounts over each group |
| `Repository.CurrentAmountOfOneLink` | app/Repositories/PiggyBank/PiggyBankRepository.php:125-127 | a single link contributes its stored value, the empty string counting as 0, with no filter and with its own account as filter |
| `Repository.CurrentAmountIgnoresOrder` | app/Repositories/PiggyBank/PiggyBankRepository.php:121-128 | reordering the links does not change the amount |
| `Repository.LinksOf` | app/Repositories/PiggyBank/PiggyBankRepository.php:121-124 | the links kept by the account filter: each link of that account exactly as often as it occurs, and no other link |
| `Repository.CurrentAmountOfAccount` | app/Repositories/PiggyBank/PiggyBankRepository.php:121-124 | the filtered amount equals the unfiltered amount over exactly that account's links |
| `Repository.LeftOnAccount` | app/Repositories/PiggyBank/PiggyBankRepository.php:328-346 | the result is the supplied balance minus every funded piggy bank's current amount in this account; with no piggy banks it is the balance unchanged |
| `Repository.CommittedIgnoresOrder` | app/Repositories/PiggyBank/PiggyBankRepository.php:338-342 | the order in which the account's piggy banks are visited does not change what is subtracted |
| `Repository.CommittedSkipsUnlinkedPiggyBank` | app/Repositories/PiggyBank/PiggyBankRepository.php:338-342 | a piggy bank with no link to the account subtracts nothing |
| `Repository.LeftOnAccountCanBeNegative` | app/Repositories/PiggyBank/PiggyBankRepository.php:338-345 | an over-committed account yields a negative result (balance 0, 30 saved: -30) |
| `Repository.StartDate` | app/Repositories/PiggyBank/PiggyBankRepository.php:306-307 | the start date is never before today; it is the piggy bank's start date exactly when that is set and on or after today, else today |
| `Repository.SuggestedMonthlyAmount` | app/Repositories/PiggyBank/PiggyBankRepository.php:301-323 | the suggestion is never negative, never more than target minus current, and non-zero only with a target date and a current amount below the target |
| `Repository.SuggestedMonthlyAmountIsZeroWhenNothingToPlan` | app/Repositories/PiggyBank/PiggyBankRepository.php:303-305 | no target date, or current amount not below the target, gives 0 |
| `Repository.SuggestedMonthlyAmountCases` | app/Repositories/PiggyBank/PiggyBankRepository.php:308-319 | with months left the suggestion times the months stays within the remainder and misses it by less than one month's share; with 0 months it is the whole remainder; with a negative month difference it stays 0 |
| `Repository.DivisionBrackets` | app/Repositories/PiggyBank/PiggyBankRepository.php:313 | the truncated division of a positive remainder by a positive month count lies between 0 and the remainder and brackets it |
| `Repository.SuggestedMonthlyAmountExamples` | app/Repositories/PiggyBank/PiggyBankRepository.php:303-322 | 1200.00 over 12 months gives 100.00; a reached target gives 0; 50.00 due this month gives 50.00 |
| `Repository.FirstWhere` | app/Repositories/PiggyBank/PiggyBankRepository.php:83-95 | the lookup returns None exactly when nothing matches, else the first matching piggy bank |
| `Repository.Find` | app/Repositories/PiggyBank/PiggyBankRepository.php:83-87 | finds a piggy bank of the user exactly when one has the id, and what it finds has that id |
| `Repository.FindByName` | app/Repositories/PiggyBank/PiggyBankRepository.php:92-95 | finds a piggy bank of the user exactly when one has the name, and what it finds has that name |
| `Repository.PiggyBankRepository.FindPiggyBank` | app/Repositories/PiggyBank/PiggyBankRepository.php:58-81 | the result is one of the user's piggy banks matching the id or the name; a known id always wins; null exactly when neither the id nor the name is found |
| `Repository.FindPiggyBankPrefersId` | app/Repositories/PiggyBank/PiggyBankRepository.php:62-69 | when the id is found, the result is the id lookup whatever name is passed |
| `Repository.FindPiggyBankFallsBackToName` | app/Repositories/PiggyBank/PiggyBankRepository.php:70-77 | when the id is null or not found, the result is the name lookup |
| `Repository.GetRepetition` | app/Repositories/PiggyBank/PiggyBankRepository.php:134-142 | throws exactly when `overrule` is false; otherwise returns the first repetition, or null when there is none |
| `Repository.GetExactAmount` | app/Repositories/PiggyBank/PiggyBankRepository.php:154-156 | always throws the end-of-life exception |
| `Repository.ClampToRoom` | app/Repositories/PiggyBank/PiggyBankRepository.php:217-247 | dead code: a deposit is never increased, a withdrawal never deepened, and a zero amount stays zero |
| `Repository.ClampSaturates` | app/Repositories/PiggyBank/PiggyBankRepository.php:217-247 | dead code: from 0 <= current <= target (target set), the result is exactly the amount cut to at most the room (target - current) and at least -current |
| `Repository.ClampKeepsSavingsInRange` | app/Repositories/PiggyBank/PiggyBankRepository.php:228-245 | dead code: from 0 <= current <= target (target set), current plus the clamped amount stays within 0 and the target |
| `Repository.ClampPassesFittingAmount` | app/Repositories/PiggyBank/PiggyBankRepository.php:247 | dead code: an amount that already keeps the savings within 0 and the target passes through unchanged |
| `Repository.ClampIsIdempotent` | app/Repositories/PiggyBank/PiggyBankRepository.php:217-247 | dead code: clamping a clamped amount changes nothing |
| `Repository.ClampWithdrawal` | app/Repositories/PiggyBank/PiggyBankRepository.php:218-245 | dead code: for every target and saved amount, a withdrawal deeper than -current becomes -current, any other withdrawal passes |
| `Repository.ClampDeposit` | app/Repositories/PiggyBank/PiggyBankRepository.php:217-236 | dead code: for every target and saved amount, a deposit is cut to target - current (to itself when the target is 0) when it exceeds that room |
| `Repository.ClampWithoutTarget` | app/Repositories/PiggyBank/PiggyBankRepository.php:220-224 | dead code: with a zero target the room is the magnitude of the amount (line 222), so any deposit passes whole |
| `Repository.ClampOverfullDepositBecomesWithdrawal` | app/Repositories/PiggyBank/PiggyBankRepository.php:217-236 | dead code, as written: a deposit into a piggy bank above its target becomes the negative room |
| `Repository.ClampExamples` | app/Repositories/PiggyBank/PiggyBankRepository.php:217-247 | 80 of 100 saved and 50 deposited gives 20; 30 saved and 50 withdrawn gives -30; 10 deposited passes |
| `Repository.PiggyBankRepository.SetUser` | app/Repositories/PiggyBank/PiggyBankRepository.php:250-255 | an application user replaces the stored user; anything else leaves it unchanged |
| `Repository.PiggyBankRepository.constructor` | app/Repositories/PiggyBank/PiggyBankRepository.php:50 | a new repository has no user until one is set |
| `Sums.SumByPermutation` | app/Repositories/PiggyBank/PiggyBankRepository.php:121-128 | a fold of a sum gives the same total for any permutation of the sequence |

## Left out

- Persistence and query code: `destroyAll`, `getPiggyBanks`, `searchPiggyBank`, `getEvents`, `purgeAll` and `resetOrder`. They are ORM queries and deletes with no visible semantics of their own. `resetOrder` delegates to a factory that is not part of this model.
- `find` and `findByName` internals: the database query is replaced by the first match in the user's sequence of piggy banks. Which row the database returns first among equal names is not specified, and the model takes sequence order.
- `getAttachments` and `getNoteText`: storage-disk and note I/O.
- `getPiggyBanksWithAmount`: its name rewriting depends on a foreign amount formatter and on the authenticated user.
- Date arithmetic: "today" and the month difference are parameters, not computed.
- The balance lookup and currency conversion are parameters, not computed.
- In the dead part of `getExactAmount`, three things are not modelled: the currency selection, the journal's source/destination matching (with its early returns of "0"), and the dynamic sign dispatch. They sit after the unconditional throw and rely on database and foreign calls. Only the clamp is modelled.
- `getRepetition` with `overrule`: it returns the first repetition in the order the database yields. The model takes the first in sequence order.
- Logging calls are not modelled.
- Accessing the repository's `user` before `setUser` is an uninitialised-property error in PHP. `FindPiggyBank` requires the user to be set instead of modelling that error.
- `Repository.SuggestedMonthlyAmount`: the comparison of the current amount with the target amount uses PHP's `<` on numeric strings. That comparison goes through floating point for non-integers. The model compares exactly, so it may differ when two amounts agree to about 15 significant digits.
- A null `target_amount` is not modelled; targets are integers in the model.
- The model assumes stored amounts carry no more fractional digits than the bcmath scale. Beyond that, bcmath would truncate each sum.
- `app/Transformers/PiggyBankEventTransformer.php` is not part of this model. It shapes API responses, looks up currencies through the ORM and rounds with floating point.
