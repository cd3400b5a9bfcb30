# Expense ledger of the free-social API, in Dafny

This project models the core of a small personal-finance API and proves properties about it.

Users keep one wallet each. Every transaction is an expense that debits the owner's wallet. The three writing operations of the transaction service run inside a database transaction that either commits or aborts:

- `create` debits the wallet with a guarded write (`balance >= amount`), then inserts the record;
- `updateOne` checks the patch against an allow-list, moves the balance by `-(new - old)`, and aborts when the result would be negative;
- `deleteOne` refunds the stored amount and removes the record.

The model makes each of these one all-or-nothing transition of a `Ledger` class. The class holds a wallet collection (`user -> wallet`) and a transaction map (`id -> record`). The main results are proved over that state:

- every user's balance plus the sum of their expenses is conserved, except that deleting an expense of an owner without a wallet loses the refund;
- balances stay non-negative under `create` and `updateOne`;
- owner scoping holds;
- a failed call leaves everything unchanged.

Around the ledger sit the following parts.

**Wallet table.** Create, get, upsert-set and delete, with at most one wallet per user.

**Mongoose schemas.** The models include:
- the closed category enumeration;
- the required and optional paths;
- the `date` default;
- the wallet's `amount` default;
- the user schema's conditional `password` requirement;
- its unique `email` and sparse unique `googleId`.

**Query normalisation.** How the list endpoint turns its query string into filters and the service turns filters into pagination options. How the monthly endpoint reads `month` and `year`.

**User validation.** The Zod user schema:
- the password pattern, proved equal to its plain-language rule, with the documented test vectors;
- the username length;
- the optional fields.

**Single active session.** In the user table, sign-in (`login` and the Google upsert) records the freshly issued token as the user's only active one. Register, the username and avatar updates and `getMe` never change a stored token. The authentication middleware accepts only a `Bearer ` header whose token is exactly the one recorded for the user it decodes to.

JavaScript value semantics the core relies on are modelled in the `Js` module:
- `Number(...)` on strings;
- `parseInt(...)` without a radix;
- `String(n)`;
- truthiness and `||` defaults.

Numbers are integers there, and `None` stands for `NaN`. Mongoose casting of transaction bodies is modelled in `TransactionModel`. `UserModel` models the Zod user schema and the stored user's required and unique paths.

Outside influences are parameters of the model:
- the clock (`now`, the current month and year);
- date-string parsing (`parseDate`);
- the time-zone day and month bounds (`startOfDay`/`endOfDay`, `monthBounds`);
- the e-mail format check (`isEmail`);
- the password-hash functions (`hash`, `compare`) and token functions (`sign`, `verify`), as uninterpreted functions;
- the salt.

The wallet schema names its money field `amount`, while the ledger filters and increments `balance`. The model uses the one integer field `balance` for both.

## Model

| member | source | states |
|---|---|---|
| Js.NumberOfString | src/service/TransactionService.ts:29 | `Number` applied to the decimal printing of any integer gives that integer back |
| Js.ToNumberOfDigits | src/controller/TransactionController.ts:35-36 | `Number` reads a non-empty run of decimal digits as its decimal value |
| Js.ToNumberNotNumeral | src/controller/TransactionController.ts:35-36 | `Number` gives NaN for a string without surrounding white space that has a non-digit after its optional leading sign |
| Js.ParseIntOfString | src/controller/TransactionController.ts:151-156 | `parseInt` applied to the decimal printing of any integer gives that integer back |
| Js.ParseIntStopsAtNonDigit | src/controller/TransactionController.ts:151-156 | a string that starts with a run of decimal digits, and not with `0x` or `0X`, reads as the value of those digits; whatever follows the first non-digit is ignored |
| Js.ParseIntReadsHex | src/controller/TransactionController.ts:151-156 | `0x` or `0X` followed by hexadecimal digits reads as their base-16 value; whatever follows the first non-hexadecimal character is ignored |
| TransactionModel.ParseCategory | src/models/Transaction.ts:5-11 | a string is accepted exactly when it is one of the five category names, and the category accepted has that name |
| TransactionModel.CategoryRoundTrip | src/models/Transaction.ts:5-11 | parsing a category's name gives the category back |
| TransactionModel.CastNumber | src/models/Transaction.ts:33-36 | a value that casts to a number casts to what `Number` gives for it, and the cast fails exactly on the empty string and on what `Number` reads as NaN |
| TransactionModel.CastDate | src/models/Transaction.ts:37-41 | a number is taken as epoch milliseconds, the empty string fails as a missing required date, and any other string is what the date parser makes of it |
| TransactionModel.Cast | src/models/Transaction.ts:25-46 | a new record is refused exactly when a required path (`user`, `amount`, `category`) is missing or a present path does not cast, and the error lists those paths; an accepted record carries the body's values, `description` only when given, and `date` defaults to now |
| TransactionModel.ApplyPatch | src/service/TransactionService.ts:140-144 | a validated patch fails exactly when a present path does not cast; on success the paths it names replace the stored ones and every other path and the owner are kept |
| TransactionModel.RequiredPaths | src/models/Transaction.ts:27-36 | a body missing the owner, the amount or the category is refused |
| TransactionModel.MinimalBodyAccepted | src/models/Transaction.ts:37-45 | an owner, any number and a category name are enough: no description, the date is now |
| TransactionModel.AmountUnconstrained | src/models/Transaction.ts:33-36 | whether a body is accepted does not depend on the amount's value, so negative and zero amounts are accepted |
| TransactionModel.CategoryOutsideEnumRefused | src/models/Transaction.ts:28-32 | a category outside the enumeration is refused on create and on update |
| WalletModel.NewWallet | src/models/Wallet.ts:13-15 | a new wallet belongs to its user, is dated now, and its amount defaults to 0 |
| WalletModel.AtMostOnePerUser | src/models/Wallet.ts:13 | in a collection keyed by owner, two wallets of the same user are the same wallet |
| WalletService.Upsert | src/service/Wallet.ts:47-54 | the user ends up with exactly one wallet holding the amount; an existing wallet keeps its date, a created one is dated now; every other wallet is unchanged |
| WalletService.UpsertIdempotent | src/service/Wallet.ts:47-54 | repeating an upsert with the same amount, at any later time, changes nothing |
| WalletService.UpsertKeepsKeys | src/models/Wallet.ts:13 | an upsert keeps the collection keyed by owner |
| WalletService.WalletCollection.CreateWallet | src/service/Wallet.ts:9-12 | adds the user's new wallet, or fails on the unique `user` index with no change when the user already has one |
| WalletService.WalletCollection.GetWallet | src/service/Wallet.ts:37-40 | returns the user's wallet exactly when there is one, and changes nothing |
| WalletService.WalletCollection.UpdateWallet | src/service/Wallet.ts:47-54 | the collection becomes the upsert of the old one, and the returned wallet is the user's new wallet |
| WalletService.WalletCollection.DeleteWallet | src/service/Wallet.ts:59-63 | removes and returns the user's wallet, or gives "Wallet not found" with no change |
| TransactionService.Inc | src/service/TransactionService.ts:76-80 | `$inc` without upsert moves only the selected user's balance, and does nothing when the user has no wallet |
| TransactionService.RecordConserves | src/service/TransactionService.ts:32-46 | debiting the owner by the amount and inserting the record under a fresh id leaves every user's balance-plus-spending unchanged |
| TransactionService.GuardedDebit | src/service/TransactionService.ts:32-36 | when the guard holds, the debit leaves the owner's balance at the old balance minus the amount, which is not negative, and keeps every balance non-negative |
| TransactionService.InvalidFields | src/service/TransactionService.ts:105-108 | the refused keys are keys of the patch, and there are none exactly when every key of the patch is one of `amount`, `category`, `description`, `date` |
| TransactionService.EditConserves | src/service/TransactionService.ts:119-144 | moving the owner's balance by `-(new - old)` and replacing the record leaves every user's balance-plus-spending unchanged |
| TransactionService.MetadataEditConserves | src/service/TransactionService.ts:139-144 | replacing a record without changing its amount leaves every user's balance-plus-spending unchanged |
| TransactionService.RemoveConserves | src/service/TransactionService.ts:76-83 | refunding the stored amount and removing the record conserves every user's balance-plus-spending, except an owner without a wallet, who loses exactly the refund |
| TransactionService.RemoveUndoesRecord | src/service/TransactionService.ts:76-83 | deleting a record just created restores both the wallets and the transactions |
| TransactionService.EditIsRemoveThenRecord | src/service/TransactionService.ts:119-132 | for the balance, moving by `-(new - old)` is the same as refunding the old amount and debiting the new one |
| TransactionService.NegativeRefundWitness | src/service/TransactionService.ts:76-80 | a refund of a negative stored amount can leave a non-negative collection with a negative balance |
| TransactionService.Options | src/service/TransactionService.ts:164-168 | page and limit default to 1 and 10 when absent or 0; without a sort key the sort is newest first by date; with one, ascending exactly when the order is "asc" |
| TransactionService.QueryIsOwnerScoped | src/service/TransactionService.ts:161-162 | the list query matches only the caller's transactions: without a category all of them, with one exactly those in that category |
| TransactionService.TotalSpentPermutation | src/service/TransactionService.ts:191-194 | the total spent does not depend on the order in which the transactions are returned |
| TransactionService.TotalSpentAppend | src/service/TransactionService.ts:194 | the total of two lists placed one after the other is the sum of their totals |
| TransactionService.Selected | src/service/TransactionService.ts:188-191 | the selection has no more entries than ids scanned, and every entry is the caller's and dated inside the window |
| TransactionService.SelectedExactly | src/service/TransactionService.ts:188-191 | a summary selects exactly the caller's transactions dated inside the window |
| TransactionService.SelectedCoversSpent | src/service/TransactionService.ts:188-194 | when the window holds all of the caller's transactions, the total spent equals what the ledger has debited for them |
| TransactionService.ResolveMonth | src/service/TransactionService.ts:213 | the month is the requested one when it is in 1..12 and the current one otherwise, so always in 1..12 |
| TransactionService.ResolveYear | src/service/TransactionService.ts:214 | the year is the requested one unless it is absent, NaN or 0, then the current one |
| TransactionService.Ledger.Create | src/service/TransactionService.ts:21-57 | succeeds only with a wallet whose balance covers the amount and a valid body; then the record is stored under the next id, which is then advanced, the owner's balance drops by exactly the amount, non-negative balances stay so, and balance-plus-spending is conserved; any failure changes nothing |
| TransactionService.Ledger.DeleteOne | src/service/TransactionService.ts:63-94 | a transaction the caller does not own gives "Transaction not found" with no change; otherwise the stored amount is refunded, exactly that record is removed and returned as it was, and balance-plus-spending is conserved when the wallet exists |
| TransactionService.Ledger.UpdateOne | src/service/TransactionService.ts:100-155 | a key outside the allow-list is refused first, then a transaction not owned; a changed amount the wallet cannot cover is refused; a patch that fails to cast is refused with its validation error; on success the record is patched and the balance moves by `-(new - old)` (untouched when the amount does not change), no balance becomes negative, and balance-plus-spending is conserved; any failure changes nothing |
| TransactionService.Ledger.GetOne | src/service/TransactionService.ts:173-177 | returns a transaction exactly when the caller owns it, otherwise "Transaction not found" |
| TransactionService.Ledger.GetDailyTransactions | src/service/TransactionService.ts:182-201 | returns exactly the caller's transactions dated in the day, their count and the sum of their amounts; when the day holds all of them, that sum is everything the caller has spent |
| TransactionService.Ledger.GetMonthlyTransactions | src/service/TransactionService.ts:210-234 | selects the caller's transactions in the resolved month and year, names the month, and returns their count and the sum of their amounts |
| TransactionController.NumberParam | src/controller/TransactionController.ts:35-36 | a page or limit is the number the query gives when it is given and numeric, and the default otherwise |
| TransactionController.CategoryParam | src/controller/TransactionController.ts:40-45 | the category filter is set exactly when the query gives a single string naming a category, and then names it |
| TransactionController.NormalizeFilters | src/controller/TransactionController.ts:31-51 | page and limit are always set, with defaults 1 and 10; the category only when valid; the sort key only when given as a non-empty string, with the order "asc" exactly when the query says "asc" and "desc" otherwise |
| TransactionController.IntParam | src/controller/TransactionController.ts:151-156 | a month or year is absent when the query gives none, and otherwise what `parseInt` reads from it |
| TransactionController.ListOptions | src/controller/TransactionController.ts:34-51 | after normalisation and service defaulting, page and limit are never 0; the sort is newest first unless a sort key is given as a non-empty string |
| TransactionController.NumeralPage | src/controller/TransactionController.ts:35 | a page given as a run of decimal digits is the value of those digits |
| TransactionController.NonNumericPage | src/controller/TransactionController.ts:35 | a page whose first character after any white space is neither a digit nor a sign is not a number and falls back to 1 |
| TransactionController.ZeroPageExample | src/controller/TransactionController.ts:35 | a page of "0" passes the controller and the service turns it into 1 |
| TransactionController.SingleRepeatedKey | src/controller/TransactionController.ts:35-36 | a non-empty value given once in array form reads like the plain string; the array `[""]` is truthy and reads as 0 |
| TransactionController.RepeatedNumeralsFallBack | src/controller/TransactionController.ts:35-36 | a key repeated with two numerals reads as "a,b", which is not a number, so the default applies |
| TransactionController.CategoryAndSortExamples | src/controller/TransactionController.ts:40-51 | an unknown or repeated category is dropped; only "asc" sorts ascending; an order without a key sets nothing |
| TransactionController.LeadingDigitsParam | src/controller/TransactionController.ts:151-156 | a month or year that starts with a run of decimal digits, and not with `0x` or `0X`, is read up to its first non-digit, so "03" is 3 and "3rd" is 3 |
| TransactionController.HexParam | src/controller/TransactionController.ts:151-156 | a month or year written as `0x` or `0X` and hexadecimal digits is read in base 16, so "0x10" is 16 |
| TransactionController.MonthParamMissing | src/controller/TransactionController.ts:151-156 | an absent, empty or non-numeric month is left to the service's fallback |
| UserModel.ScanFlags | src/models/User.ts:8-14 | the one-pass reading of the pattern records exactly whether each required kind of character occurs and whether every character is allowed |
| UserModel.PasswordPatternMeaning | src/models/User.ts:8-14 | the password pattern accepts exactly the strings of at least 6 allowed characters with a lower-case letter, an upper-case letter, a digit and one of `!@#$%^&*` |
| UserModel.PasswordAccepted | tests/unit/models/User.test.ts:6-15 | 'Password@123' is accepted |
| UserModel.ShortPasswordRefused | tests/unit/models/User.test.ts:20-29 | 'Aa@1' is refused as too short |
| UserModel.PasswordWithoutUpperRefused | tests/unit/models/User.test.ts:31-37 | 'password@123' is refused for want of an upper-case letter |
| UserModel.PasswordWithoutLowerRefused | tests/unit/models/User.test.ts:39-45 | 'PASSWORD@123' is refused for want of a lower-case letter |
| UserModel.PasswordWithoutDigitRefused | tests/unit/models/User.test.ts:47-53 | 'Password@' is refused for want of a digit |
| UserModel.PasswordWithoutSpecialRefused | tests/unit/models/User.test.ts:55-61 | 'Password123' is refused for want of a special character |
| UserModel.ParseUser | src/models/User.ts:5-18 | a body is refused exactly when a path fails (missing or malformed e-mail, a username under 3 characters, a weak password, a value that is not a string), with those paths as the error; an accepted body keeps its values |
| UserModel.OnlyEmailRequired | src/models/User.ts:5-18 | a well-formed e-mail alone is a valid body, and a body without one is refused on `email` only |
| UserModel.UserBodyExamples | tests/unit/models/User.test.ts:6-79 | the valid example body is accepted; a 2-character username or a malformed e-mail is refused |
| UserModel.WeakPasswordRefused | src/models/User.ts:8-14 | a body whose password breaks the rule is refused and `password` is among the failing paths |
| UserModel.StorableHasCredential | src/models/User.ts:33-40 | a stored user has an e-mail and has a password or a Google id, because the password is required exactly when the Google id is unset |
| UserModel.FindByEmail | src/service/UserService.ts:80 | the lookup returns a user with that e-mail, or nothing only when no user has it |
| UserModel.FindByEmailExact | src/models/User.ts:33 | with unique e-mails the lookup finds the one user with that address |
| UserService.WithToken | src/service/UserService.ts:108-111 | recording a token sets that user's `currentToken` and leaves every other user as it was |
| UserService.LatestTokenWins | src/service/UserService.ts:108-111 | recording a later token replaces the earlier one entirely |
| UserService.WithTokenKeepsTable | src/service/UserService.ts:110-111 | recording a token keeps the schema rules and both unique indexes |
| UserService.AddKeepsTable | src/models/User.ts:33-41 | saving a new schema-valid user under the next id whose e-mail and Google id nobody holds keeps both unique indexes and the schema |
| UserService.ReplaceKeepsTable | src/models/User.ts:33-41 | saving a changed schema-valid user with the same e-mail and a Google id nobody else holds keeps both unique indexes and the schema |
| UserService.UserTable.GetMe | src/service/UserService.ts:6-11 | returns the stored user, or "User not found", and changes nothing |
| UserService.UserTable.CreateAvatar | src/service/UserService.ts:13-21 | sets only `avatar` on the user and returns the updated record, or "User not found" with no change |
| UserService.UserTable.UpdateUsername | src/service/UserService.ts:23-31 | sets only `username` on the user and returns the updated record, or "User not found" with no change |
| UserService.UserTable.Register | src/service/UserService.ts:77-89 | a known e-mail gives "Email already exists" and adds nobody; a missing password makes the hash fail; otherwise the new user is saved with `hash(password, salt)`, never the plain password |
| UserService.UserTable.Login | src/service/UserService.ts:91-116 | an unknown e-mail, a user without a password or a failed comparison gives "Invalid email or password" with no change; otherwise the freshly signed token overwrites `currentToken` and is returned with the user without its password |
| UserService.UserTable.UpsertGoogleUser | src/service/UserService.ts:33-75 | an unknown e-mail creates the user; a known one gets the Google id only when it has none, so an existing one is never overwritten; every success records a fresh token as the only active one; a schema or unique-index failure changes nothing |
| AuthMiddleware.Split | src/middleware/AuthMiddleware.ts:20 | splitting on spaces gives at least one piece, and no piece contains a space |
| AuthMiddleware.SplitJoin | src/middleware/AuthMiddleware.ts:20 | joining the pieces with single spaces gives the header back |
| AuthMiddleware.TokenOf | src/middleware/AuthMiddleware.ts:20 | the token is the second space-separated piece: everything after "Bearer " up to the next space |
| AuthMiddleware.BearerPieces | src/middleware/AuthMiddleware.ts:14-20 | a header starting with "Bearer " splits into "Bearer" and at least one more piece |
| AuthMiddleware.BearerRoundTrip | src/middleware/AuthMiddleware.ts:14-20 | a token without spaces sent as "Bearer <token>" is read back unchanged |
| AuthMiddleware.Authenticate | src/middleware/AuthMiddleware.ts:11-40 | a missing or non-"Bearer " header or an unverifiable token gives 401; a token whose user is gone or holds another token gives 401 "Session expired or logged in elsewhere"; a request is accepted exactly when the token verifies to an existing user whose `currentToken` is that token, and then for that user |
| AuthMiddleware.AcceptedAfterSignIn | src/middleware/AuthMiddleware.ts:26-36 | the token a sign-in just recorded is accepted for its user |
| AuthMiddleware.OnlyLatestToken | src/middleware/AuthMiddleware.ts:29 | after a sign-in records a token, a request accepted for that user carries exactly that token |
| AuthMiddleware.EarlierTokenRejected | src/middleware/AuthMiddleware.ts:29 | once a later, different token is recorded, the earlier one is rejected as an expired session |
| AuthMiddleware.Run | src/middleware/AuthMiddleware.ts:34-39 | on acceptance `req.user` is the decoded id, the response is untouched and `next` is called; otherwise the response gets 401 and the message, `req.user` is untouched and `next` is not called |

## Left out

- Database sessions, commit and abort, and concurrency: each service call is one atomic transition. Isolation between concurrent requests is not modelled.
- Object ids: ids are natural numbers, so the cast error a malformed id string raises is not modelled.
- Timestamps (`createdAt`, `updatedAt`) are not modelled.
- TransactionModel.Cast: reads only `amount`, `category`, `description` and `date`. `create` stores the whole body, so a client-supplied `_id` (or `createdAt`/`updatedAt`) is kept by the source. A body whose `_id` is an existing transaction's then fails on the `_id` index after the debit, and the session rolls back. The model ignores such paths: it accepts that body, debits the wallet and stores the record under the next id.
- Floating-point amounts: amounts are integers, standing for minor units.
- Js.ToNumber: accepts only white space around an optionally signed run of decimal digits. Fractions, exponents, `0x`/`0b`/`0o` numerals and `Infinity` read as NaN here. So does a `page` such as "1.5", which falls back to the default instead of becoming a fraction. Only ASCII white space is trimmed (by `Number` and by `parseInt`): U+00A0, U+FEFF, U+2028, U+2029 and the other Unicode space separators are not, so a `page` of U+00A0 followed by "5" falls back to 1 here where it reads as 5 in JavaScript.
- TransactionModel.CastNumber: treats the empty string as a failed cast. Mongoose casts it to `null`, which then fails the required check, so a required path gets the same result. `CastDate` does the same for the required `date` path.
- TransactionModel.ApplyPatch: an update that fails reports the set of every failing path. Mongoose's update casting stops at the first cast error before the validators run, so for `{amount: "abc", category: "xyz"}` the source reports only `amount`.
- Only strings and numbers are modelled as body values. Booleans, `null`, arrays and objects in a transaction or user body are not. On the query side only strings and repeated keys are modelled: a nested key such as `page[a]=1` gives an object, which is truthy, prints as "[object Object]" and reads as NaN, and is not modelled.
- The pagination plugin is not modelled: neither the page it returns nor the sort it applies. `Options` and `QueryMatches` state what it is given.
- TransactionService.Ledger.GetDailyTransactions: returns the selected transactions in id order, not newest first. `TotalSpentPermutation` shows that the total does not depend on the order.
- TransactionService.Ledger.GetMonthlyTransactions: returns the selected transactions in id order, not newest first.
- The `|| 0` fallback in the totals: stored amounts are always numbers here, so it never applies.
- The time-zone day and month boundaries, and the "YYYY-MM-DD" day label, are parameters. So is the current date.
- `getAll`'s and the summaries' error wrapping ("Daily query failed", "Monthly query failed") is not modelled: the modelled reads cannot fail.
- The wallet schema's `amount` and the ledger's `balance` are one field. In the database they are two different paths.
- Password hashing and comparison, and token signing and verification, are uninterpreted functions. Cryptography, salts generated at random and token expiry are not modelled.
- UserModel.ParseUser: the e-mail format check is the parameter `isEmail`. String lengths count characters, not UTF-16 code units.
- HTTP: status codes and response bodies of the controllers are not modelled. Neither are Google sign-in, the avatar upload and the routes.
- The user service's own test file expects the message "Email or password is incorrect". The code throws "Invalid email or password", and the model follows the code.
