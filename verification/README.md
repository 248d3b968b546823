# Gaming spending tracker: ledger and approval lifecycle

The repository holds two small Flask applications that track what a player
spends on games. In both, each user has a data file with a profile, a
balance and an insertion-ordered list of purchases.

- Recording a purchase debits the balance at once and appends the purchase,
  pending or approved.
- Approving sets the flag of the first purchase with the given id.
- Denying credits that purchase's amount back and removes it.

So balance + sum of amounts never moves under these three operations.
Recording a purchase under a fresh id and then denying it restores the ledger
exactly.

- `data/template/simple_tracker.py` adds parent and child accounts. A parent
  with parent mode on may approve or deny purchases in their own ledger and in
  the ledgers of the children they list. Purchases made under parent mode or
  on a child account start pending.
- `data/template/tracker.py` is the single-user variant. Every purchase starts
  pending and the owner approves or denies it.

The model has three modules:

- `Ledger` (`ledger.dfy`): the purchase record and the first-match
  approve/remove/refund functions on which both applications agree, with
  their lemmas.
- `SimpleTracker` (`simple_tracker.dfy`): registration and account links,
  the game-spending, approve, deny, approvals-view and sample-data handlers,
  and the dashboard figures. The users file and the per-user data files are
  the two `map` fields of the class `DataDir`. Its methods read a copy,
  change it in a loop that stops at the first match, and write it back.
- `Tracker` (`tracker.dfy`): the same for `tracker.py`, whose `DataDir` holds
  one map of user files.

Identifiers from `uuid4` and timestamps from the clock are parameters of the
operations. The current month of the dashboard is also a parameter.

## Model

| member | source | states |
|---|---|---|
| Ledger.ApproveFirst | data/template/simple_tracker.py:1176-1181 | approving keeps the length, and each purchase stays as it was apart from its approval flag |
| Ledger.RemoveFirst | data/template/simple_tracker.py:1216-1222 | denying makes the list one purchase shorter when the id is there, keeps its length otherwise, and adds no purchase |
| Ledger.RefundOf | data/template/simple_tracker.py:1216-1219 | the refund is 0 for an absent id, and otherwise the amount of a purchase carrying the id |
| Ledger.Record | data/template/simple_tracker.py:926-930 | recording appends the purchase after the untouched old ones and keeps balance + spending |
| Ledger.Approve | data/template/simple_tracker.py:1174-1181 | approving keeps the balance, the number of purchases and balance + spending |
| Ledger.Deny | data/template/simple_tracker.py:1214-1222 | denying removes one purchase when the id is there and keeps balance + spending |
| Ledger.FirstMatchOf | data/template/simple_tracker.py:1174-1181 | a ledger holding the id has a first position holding it, the one where the handler's scan stops |
| Ledger.ApproveFirstAt | data/template/simple_tracker.py:1174-1181 | approving sets the flag of exactly the first purchase with the id; every other purchase, the length and the order stay |
| Ledger.ApproveFirstAbsent | data/template/tracker.py:599-602 | approving an id the ledger does not hold leaves the list unchanged |
| Ledger.ApproveFirstKeepsSum | data/template/tracker.py:599-602 | approving keeps the number of purchases and the sum of their amounts |
| Ledger.ApproveFirstIdempotent | data/template/simple_tracker.py:1176-1181 | approving an id twice gives the same list as approving it once |
| Ledger.RemoveFirstAt | data/template/simple_tracker.py:1214-1222 | denying removes exactly the first purchase with the id, keeps the others in order, and refunds that purchase's amount |
| Ledger.RemoveFirstAbsent | data/template/tracker.py:618-624 | denying an absent id removes nothing and refunds nothing |
| Ledger.RemoveFirstSum | data/template/tracker.py:618-624 | the sum after removal plus the refund equals the sum before |
| Ledger.RemoveFirstDropsId | data/template/simple_tracker.py:1214-1222 | with unique ids, the denied id is gone afterwards and the ids stay unique |
| Ledger.AppendKeepsUniqueIds | data/template/simple_tracker.py:914-930 | appending a purchase with a fresh id keeps the ids unique |
| Ledger.RemoveAppended | data/template/simple_tracker.py:914-930 | removing the id of a freshly appended purchase gives back the list before it and refunds its amount |
| Ledger.SumConcat | data/template/tracker.py:296 | the spending of a concatenation is the sum of the spending of its parts |
| Ledger.Pending | data/template/tracker.py:514 | the approvals list holds exactly the purchases not yet approved, and is no longer than the ledger |
| Ledger.PendingGamePurchases | data/template/simple_tracker.py:1034-1041 | the approvals view lists exactly the game purchases not yet approved |
| Ledger.TotalSplit | data/template/tracker.py:296-298 | total spending is approved spending plus pending spending, and the pending count is the length of the approvals list |
| Ledger.MonthSumBounded | data/template/simple_tracker.py:578-586 | with positive amounts, the month's spending lies between zero and the total spent |
| Ledger.RecordThenDeny | data/template/simple_tracker.py:926-930 | recording a purchase with a fresh id and then denying it restores balance and ledger exactly |
| Ledger.LifecycleKeepsPositive | data/template/simple_tracker.py:910-912 | only positive amounts are recorded, and approving and denying keep every amount positive |
| Ledger.DenyAbsent | data/template/tracker.py:591-630 | approving or denying an absent id leaves balance and ledger as they were |
| SimpleTracker.DefaultUserData | data/template/simple_tracker.py:44-62 | a user without a data file reads as an empty ledger, balance 0, parent mode off, not a child, no child list |
| SimpleTracker.Purchase | data/template/simple_tracker.py:899-924 | the purchase is a game purchase with the given id and amount, approved exactly when the profile is neither a child account nor in parent mode |
| SimpleTracker.Register | data/template/simple_tracker.py:377-425 | corrected registration: a password mismatch, a taken username and an unknown parent are refused in that order, each leaving both stores unchanged |
| SimpleTracker.RegisterAsWritten | data/template/simple_tracker.py:377-425 | registration as written: the same refusals, except that a child naming itself as parent is never refused for an unknown parent |
| SimpleTracker.AsWrittenAgrees | data/template/simple_tracker.py:386-397 | registration as written equals the corrected registration on every input except a child naming itself as parent |
| SimpleTracker.RegisterCreates | data/template/simple_tracker.py:386-422 | a successful registration adds exactly the new account, which keeps the ledger and balance it loaded (empty and 0 for a fresh name); a child is flagged with its parent; the parent's file changes only by appending the child to its child list; a parent account gets parent mode; no other data file changes |
| SimpleTracker.MayActFor | data/template/simple_tracker.py:1159-1169 | the authorization rule: the approver has parent mode on and is the owner or lists the owner as a child |
| SimpleTracker.RegisterGrantsParent | data/template/simple_tracker.py:397-411 | a child registered under an existing parent with parent mode on falls under that parent's authority |
| SimpleTracker.RegisterRejectsSelfParent | data/template/simple_tracker.py:394-397 | with the corrected lookup, a child naming itself as parent is refused |
| SimpleTracker.RegisterKeepsLinks | data/template/simple_tracker.py:394-411 | with the corrected lookup, every account registered under a parent stays linked both ways, and the new link is complete |
| SimpleTracker.SelfParentAsWritten | data/template/simple_tracker.py:386-397 | as written, "bob" registers as his own parent; his purchases then need approval and no account may approve or deny them |
| SimpleTracker.Tagged | data/template/simple_tracker.py:1034-1041 | the view lines for one ledger pair each of its purchases with its owner, one line per purchase |
| SimpleTracker.ChildEntries | data/template/simple_tracker.py:1043-1058 | the child lines hold exactly the pending game purchases of the listed children |
| SimpleTracker.PendingEntriesActionable | data/template/simple_tracker.py:1020-1058 | every line the approvals view shows is a pending purchase in a ledger holding its id, and the viewer may approve or deny it |
| SimpleTracker.BudgetPercent | data/template/simple_tracker.py:589-591 | the budget percentage is spent / budget × 100 for a positive budget, 0 otherwise, and lies in [0, 100] while spending is within budget |
| SimpleTracker.Dashboard | data/template/simple_tracker.py:577-594 | balance plus total spent is the ledger's worth; with positive amounts the monthly figure lies between zero and the total; within budget the percentage lies in [0, 100] |
| SimpleTracker.TotalSpentIgnoresApproval | data/template/simple_tracker.py:577-578 | the total spent counts pending purchases: approving leaves it, recording raises it by the amount |
| SimpleTracker.SampleTransactionsTotals | data/template/simple_tracker.py:99-150 | the five sample purchases sum to 3895 and only the last is pending |
| SimpleTracker.SampleData | data/template/simple_tracker.py:82-157 | only an empty ledger is seeded; then five purchases, parent mode on, balance + spending 8895, one pending purchase; otherwise nothing changes |
| SimpleTracker.SampleDataResetsAccount | data/template/simple_tracker.py:88-95 | seeding replaces the whole profile: not a child, no children, parent mode on, so the owner may approve their own purchases |
| SimpleTracker.SampleDataUnlinks | data/template/simple_tracker.py:82-157 | for alice and her child bob, seeding bob lets bob approve his own purchases and breaks the link; seeding alice makes her forget bob |
| SimpleTracker.DataDir.CreateAccount | data/template/simple_tracker.py:369-425 | the new stores and outcome are those of the corrected registration |
| SimpleTracker.DataDir.RecordPurchase | data/template/simple_tracker.py:891-938 | a non-positive amount is refused with nothing saved; otherwise the purchase is appended, the balance debited, balance + spending kept |
| SimpleTracker.DataDir.ApproveTransaction | data/template/simple_tracker.py:1150-1188 | refused without parent mode or link; Done exactly when allowed and the id is present, then only the owner's ledger changes, as Approve says; otherwise nothing is saved |
| SimpleTracker.DataDir.DenyTransaction | data/template/simple_tracker.py:1190-1231 | same checks; on Done the first match is removed and refunded, as Deny says, whether or not it was pending; otherwise nothing is saved |
| SimpleTracker.DataDir.PendingApprovals | data/template/simple_tracker.py:1020-1058 | nothing without parent mode; otherwise the viewer's pending game purchases followed by each listed child's, in list order |
| SimpleTracker.DataDir.SampleDataRoute | data/template/simple_tracker.py:1233-1239 | the route as written always fails at the call and writes nothing |
| SimpleTracker.DataDir.AddSampleData | data/template/simple_tracker.py:1233-1244 | the route as intended: SampleAdded exactly when the helper seeds the ledger, and the store changes only then |
| SimpleTracker.BobsPurchases | data/template/simple_tracker.py:891-1231 | a child's approved 400 purchase stays debited; a purchase denied after recording leaves the ledger as it was |
| Tracker.NewUserFile | data/template/tracker.py:19-33 | a new user file holds the password, balance 5000, budget 2000, limit 1000 and no purchases |
| Tracker.Login | data/template/tracker.py:237-249 | login succeeds exactly when the user file exists and its password matches |
| Tracker.LoginAfterRegister | data/template/tracker.py:237-249 | after registering a new user, exactly the chosen password logs in as that user, and no other user's login changes |
| Tracker.NewTransaction | data/template/tracker.py:417-425 | a new purchase carries the given id and amount and starts pending |
| Tracker.Dashboard | data/template/tracker.py:295-298 | total spent is approved spent plus pending spending; the pending count is the size of the approvals list |
| Tracker.SampleTransactionsTotal | data/template/tracker.py:48-85 | the three sample purchases sum to 2497 |
| Tracker.SampleData | data/template/tracker.py:48-85 | only an empty ledger is seeded, with three purchases and the profile untouched; balance + spending rises by 2497 |
| Tracker.DataDir.Register | data/template/tracker.py:189-205 | an empty username or password and a taken username are refused with nothing written; otherwise exactly the new user file is added |
| Tracker.DataDir.AddTransaction | data/template/tracker.py:399-434 | a non-positive amount or an empty field is refused; otherwise a pending purchase is appended and debited, keeping balance + spending |
| Tracker.DataDir.Approve | data/template/tracker.py:591-608 | the first match is approved, as Approve says, and the file is written back; an absent id changes nothing |
| Tracker.DataDir.Deny | data/template/tracker.py:610-630 | the first match is refunded and removed, as Deny says; an absent id changes nothing |
| Tracker.DataDir.AddSampleData | data/template/tracker.py:632-643 | the samples are added exactly when the user file exists with an empty ledger; nothing changes otherwise |

## Left out

- The Flask layer is not modelled: routing, sessions, redirects, flash messages and the HTML pages. Not being logged in redirects to the login page, which changes nothing.
- JSON files become map entries. Each handler's read, change and whole-file write is one step; concurrent requests and lost updates are not modelled.
- Password hashing and the login of `simple_tracker.py` call library code and are not modelled. The `tracker.py` login compares plain text and is modelled.
- `uuid4` identifiers, timestamps and the current month are parameters. Id freshness appears only as the `!HasId` premise of `Ledger.RecordThenDeny`, `Ledger.RemoveAppended` and `Ledger.AppendKeepsUniqueIds`.
- Amounts are integers. `simple_tracker.py` parses amounts with `float()`; the parse error branch and fractional amounts are not modelled. `tracker.py` parses with `int()`, and a non-numeric amount raises an unhandled error there; that is not modelled either.
- In `simple_tracker.py` the form fields are read by key, and a missing field is an error in Flask; the model takes every field as given. There `account_type` defaults to `parent`, and the caller supplies it here.
- In `tracker.py` the fields are read with `.get`: username and password without a default (`data/template/tracker.py:192-193`), the purchase fields with empty defaults and amount 0 (`408-411`). A missing field reads as None or empty and is refused, which the model covers through the empty-string cases of `Tracker.DataDir.Register` and `Tracker.DataDir.AddTransaction`. A missing amount reads as 0 and is refused as non-positive.
- The dashboard's date sort, its ten-row limit, the budget colour bands and `get_gaming_tip` are display only. The profile page, index page and logout are not part of this model.
- SimpleTracker.SampleData: the helper replaces the profile with one lacking the child and link keys, and later reads fall back to defaults for them. The model writes those defaults directly.
- Tracker: a missing user file makes the handlers fail on the result of `load_user`. The model returns `NoUserFile`, `AddWithoutFile` or `SampleWithoutFile` and changes nothing.
- Tracker.NewTransaction: `tracker.py` never writes `is_game_purchase`; the flag is false in the model.
- SimpleTracker.DataDir.DenyTransaction: the handler refunds and removes approved purchases too, since it does not check the flag. The approvals view offers the deny link only for pending game purchases (`data/template/simple_tracker.py:1040-1041`, `1112`), but the handler accepts any id. The model follows the handler.
- SimpleTracker.DataDir.CreateAccount: it looks the parent up among the accounts that existed before the call. The code as written also accepts the new username itself; `SimpleTracker.RegisterAsWritten` models that, see Findings.
- SimpleTracker.DataDir.AddSampleData: it models the intended route, which calls the helper. The route as written is `SimpleTracker.DataDir.SampleDataRoute`, see Findings. The corrected route keeps the helper's behaviour of replacing the whole profile. A linked child with an empty ledger therefore loses its child flag and gains parent mode, and a parent forgets its children; `SimpleTracker.SampleDataUnlinks` shows both. The model does not repair this.
- SimpleTracker.BudgetPercent: computed in exact reals, not floating point.

## Findings

| source | as written | input that shows it | evidently intended | confidence | as-written member | corrected member |
|---|---|---|---|---|---|---|
| data/template/simple_tracker.py:1233-1239 | the route function `add_sample_data` takes the helper's name, so its call `add_sample_data(username)` calls the route itself with an argument it does not accept | any logged-in user opening `/add_sample_data` | call the sample-data helper, seeding an empty ledger | high, not executed | SimpleTracker.DataDir.SampleDataRoute | SimpleTracker.DataDir.AddSampleData |
| data/template/simple_tracker.py:386-397 | the new account is put into `users` before the parent lookup, so a child can name itself as its parent (`SimpleTracker.SelfParentAsWritten`) | register "bob" as a child with parent "bob" on an empty system | the parent must be a different account that already exists (`SimpleTracker.RegisterRejectsSelfParent`, `SimpleTracker.RegisterKeepsLinks`) | medium, not executed | SimpleTracker.SelfParentAsWritten | SimpleTracker.RegisterKeepsLinks |
