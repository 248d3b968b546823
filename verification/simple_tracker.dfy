/**
 * simple_tracker.py: accounts that may be linked as parent and child, a data
 * file per user holding a profile and a ledger, purchases that need a
 * parent's approval, and the approve/deny handlers a parent uses on their
 * own ledger or a listed child's. The users file and the per-user data files
 * are the two maps of `DataDir`; each handler reads what it needs, changes
 * its local copy and writes the copy back, as the source does.
 */
module SimpleTracker {
  import opened Ledger

  datatype Profile = Profile(
    name: string,
    accountBalance: int,
    monthlyBudget: int,
    parentEmail: string,
    parentMode: bool,
    gameSpendingLimit: int,
    childName: string,
    isChildAccount: bool,
    parentAccount: string,
    childAccounts: Option<seq<string>>)  // the key exists only once a child was linked

  /** The contents of one `<username>_data.json`. */
  datatype UserData = UserData(profile: Profile, transactions: seq<Transaction>)

  /** One entry of `users.json` (the password hash and creation time are not modelled). */
  datatype Account = Account(accountType: string, parentUsername: Option<string>)

  /** What `load_user_data` returns for a user without a data file. */
  function DefaultUserData(): (d: UserData)
    ensures d.transactions == [] && d.profile.accountBalance == 0
    ensures !d.profile.parentMode && !d.profile.isChildAccount && d.profile.childAccounts.None?
  {
    UserData(Profile("", 0, 0, "", false, 0, "", false, "", None), [])
  }

  function Load(files: map<string, UserData>, username: string): UserData
  {
    if username in files then files[username] else DefaultUserData()
  }

  function BookOf(d: UserData): Book
  {
    Book(d.profile.accountBalance, d.transactions)
  }

  function WithBook(d: UserData, b: Book): UserData
  {
    UserData(d.profile.(accountBalance := b.balance), b.transactions)
  }

  /** A purchase starts pending on a child account and under parent mode. */
  predicate NeedsApproval(p: Profile)
  {
    p.isChildAccount || p.parentMode
  }

  function Children(p: Profile): seq<string>
  {
    if p.childAccounts.Some? then p.childAccounts.value else []
  }

  /**
   * The authorization rule of the approve and deny handlers: the approver has
   * parent mode on and is the owner or lists the owner as a child.
   */
  predicate MayActFor(p: Profile, approver: string, owner: string)
  {
    p.parentMode && (owner == approver || owner in Children(p))
  }

  /** The purchase the `game_spending` handler creates for a profile. */
  function Purchase(p: Profile, id: string, date: string, amount: int,
                    description: string, platform: string, category: string): (t: Transaction)
    ensures t.id == id && t.amount == amount && t.gamePurchase
    ensures t.approved <==> !p.isChildAccount && !p.parentMode
  {
    Transaction(id, date, amount, description, platform, category, true, !NeedsApproval(p))
  }

  datatype PurchaseOutcome = Recorded(needsApproval: bool) | InvalidAmount

  datatype Verdict = Done | NoParentMode | NotLinked | NotFound

  datatype RegisterOutcome = Registered | PasswordMismatch | DuplicateUsername | ParentNotFound

  datatype Registration = Registration(
    outcome: RegisterOutcome,
    users: map<string, Account>,
    files: map<string, UserData>)

  /** A line of the approvals view: whose ledger, and which purchase. */
  datatype PendingEntry = PendingEntry(owner: string, transaction: Transaction)

  datatype SeedResult = SeedResult(added: bool, data: UserData)

  datatype RouteOutcome = SampleAdded | SampleNotAdded | CallTypeError

  /* ---------------------------------------------------------------------- */
  /* Registration                                                           */
  /* ---------------------------------------------------------------------- */

  /** The last step of registration: reload the new user's data and turn parent mode on for a parent. */
  function InitialData(files: map<string, UserData>, username: string, accountType: string): map<string, UserData>
  {
    var d := Load(files, username);
    files[username := if accountType == "parent" then d.(profile := d.profile.(parentMode := true)) else d]
  }

  /**
   * Registration after the password and duplicate checks; `parentFound` is
   * the outcome of the parent lookup, the one place where the code as
   * written and the corrected registration differ.
   */
  function Enrol(users: map<string, Account>, files: map<string, UserData>, username: string,
                 accountType: string, parent: Option<string>, parentFound: bool): Registration
  {
    if accountType == "child" && parent.Some? then
      if parentFound then
        var p := parent.value;
        var child := Load(files, username);
        var files1 := files[username := child.(profile := child.profile.(isChildAccount := true, parentAccount := p))];
        var parentData := Load(files1, p);
        var files2 := files1[p := parentData.(profile := parentData.profile.(
                                   childAccounts := Some(Children(parentData.profile) + [username])))];
        Registration(Registered, users[username := Account(accountType, Some(p))],
                     InitialData(files2, username, accountType))
      else
        Registration(ParentNotFound, users, files)
    else
      Registration(Registered, users[username := Account(accountType, None)],
                   InitialData(files, username, accountType))
  }

  /**
   * Registration as written: the new user is already in `users` when the
   * parent is looked up, so a child may name itself as its parent.
   */
  function RegisterAsWritten(users: map<string, Account>, files: map<string, UserData>, username: string,
                             password: string, confirm: string, accountType: string,
                             parent: Option<string>): (r: Registration)
    ensures r.outcome != Registered ==> r.users == users && r.files == files
    ensures r.outcome == ParentNotFound <==>
      password == confirm && username !in users && accountType == "child"
      && parent.Some? && parent.value !in users && parent.value != username
  {
    if password != confirm then Registration(PasswordMismatch, users, files)
    else if username in users then Registration(DuplicateUsername, users, files)
    else
      var withNew := users[username := Account(accountType, None)];
      Enrol(users, files, username, accountType, parent, parent.Some? && parent.value in withNew)
  }

  /**
   * Registration with the parent looked up among the accounts that existed
   * before. A password mismatch, a taken username and an unknown parent are
   * refused in that order, each leaving both stores as they were.
   */
  function Register(users: map<string, Account>, files: map<string, UserData>, username: string,
                    password: string, confirm: string, accountType: string,
                    parent: Option<string>): (r: Registration)
    ensures r.outcome != Registered ==> r.users == users && r.files == files
    ensures password != confirm ==> r.outcome == PasswordMismatch
    ensures password == confirm && username in users ==> r.outcome == DuplicateUsername
    ensures r.outcome == ParentNotFound <==>
      password == confirm && username !in users && accountType == "child"
      && parent.Some? && parent.value !in users
  {
    if password != confirm then Registration(PasswordMismatch, users, files)
    else if username in users then Registration(DuplicateUsername, users, files)
    else Enrol(users, files, username, accountType, parent, parent.Some? && parent.value in users)
  }

  /** The parent/child link of `child` to `p` as both data files record it. */
  ghost predicate ParentLink(users: map<string, Account>, files: map<string, UserData>, child: string, p: string)
  {
    && p in users
    && p != child
    && Load(files, child).profile.isChildAccount
    && Load(files, child).profile.parentAccount == p
    && child in Children(Load(files, p).profile)
  }

  /** Every account registered under a parent is linked to it both ways. */
  ghost predicate Linked(users: map<string, Account>, files: map<string, UserData>)
  {
    forall c :: c in users && users[c].parentUsername.Some? ==> ParentLink(users, files, c, users[c].parentUsername.value)
  }

  /**
   * A successful registration adds exactly the new account; a child is
   * flagged and listed by its parent; a parent account gets parent mode.
   */
  lemma RegisterCreates(users: map<string, Account>, files: map<string, UserData>, username: string,
                        password: string, confirm: string, accountType: string, parent: Option<string>)
    requires password == confirm && username !in users
    requires !(accountType == "child" && parent.Some? && parent.value !in users)
    ensures var reg := Register(users, files, username, password, confirm, accountType, parent);
      && reg.outcome == Registered
      && reg.users.Keys == users.Keys + {username}
      && (forall u :: u in users ==> reg.users[u] == users[u])
      && reg.users[username].accountType == accountType
      && (accountType == "parent" ==> Load(reg.files, username).profile.parentMode)
      && (accountType == "child" && parent.Some? ==>
            && reg.users[username].parentUsername == parent
            && Load(reg.files, username).profile.isChildAccount
            && Load(reg.files, username).profile.parentAccount == parent.value
            && Children(Load(reg.files, parent.value).profile)
               == Children(Load(files, parent.value).profile) + [username])
      && (forall u :: u != username && !(accountType == "child" && parent.Some? && u == parent.value) ==>
            Load(reg.files, u) == Load(files, u))
      && Load(reg.files, username).transactions == Load(files, username).transactions
      && Load(reg.files, username).profile.accountBalance == Load(files, username).profile.accountBalance
      && (accountType == "child" && parent.Some? ==>
            var pd := Load(files, parent.value);
            Load(reg.files, parent.value) == pd.(profile := pd.profile.(childAccounts := Some(Children(pd.profile) + [username]))))
  {
  }

  /**
   * Registration as written and the corrected registration agree on every
   * input except a child that names itself as its parent.
   */
  lemma AsWrittenAgrees(users: map<string, Account>, files: map<string, UserData>, username: string,
                        password: string, confirm: string, accountType: string, parent: Option<string>)
    requires parent != Some(username)
    ensures RegisterAsWritten(users, files, username, password, confirm, accountType, parent)
            == Register(users, files, username, password, confirm, accountType, parent)
  {
  }

  /**
   * A child registered under an existing parent account that has parent mode
   * on falls under that parent's authority at once.
   */
  lemma RegisterGrantsParent(users: map<string, Account>, files: map<string, UserData>,
                             child: string, password: string, p: string)
    requires child !in users && p in users && Load(files, p).profile.parentMode
    ensures var reg := Register(users, files, child, password, password, "child", Some(p));
      && reg.outcome == Registered
      && MayActFor(Load(reg.files, p).profile, p, child)
  {
  }

  /** The corrected lookup refuses a child that names itself as parent. */
  lemma RegisterRejectsSelfParent(users: map<string, Account>, files: map<string, UserData>,
                                  username: string, password: string)
    requires username !in users
    ensures Register(users, files, username, password, password, "child", Some(username)).outcome == ParentNotFound
  {
  }

  /** The corrected registration keeps every parent/child link intact and adds the new one. */
  lemma RegisterKeepsLinks(users: map<string, Account>, files: map<string, UserData>, username: string,
                           password: string, confirm: string, accountType: string, parent: Option<string>)
    requires Linked(users, files)
    ensures var reg := Register(users, files, username, password, confirm, accountType, parent);
      Linked(reg.users, reg.files)
  {
  }

  /**
   * Registering "bob" as a child of "bob" on an empty system succeeds as
   * written; bob's purchases then need approval and no account may act on
   * them.
   */
  lemma SelfParentAsWritten()
    ensures var reg := RegisterAsWritten(map[], map[], "bob", "pw", "pw", "child", Some("bob"));
      && reg.outcome == Registered
      && reg.users["bob"].parentUsername == Some("bob")
      && !Linked(reg.users, reg.files)
      && NeedsApproval(Load(reg.files, "bob").profile)
      && (forall a :: !MayActFor(Load(reg.files, a).profile, a, "bob"))
  {
  }

  /* ---------------------------------------------------------------------- */
  /* Approvals view and dashboard                                           */
  /* ---------------------------------------------------------------------- */

  function Tagged(owner: string, ts: seq<Transaction>): (r: seq<PendingEntry>)
    ensures |r| == |ts|
    ensures forall e :: e in r <==> e.owner == owner && e.transaction in ts
  {
    if ts == [] then []
    else
      assert ts == [ts[0]] + ts[1..];
      [PendingEntry(owner, ts[0])] + Tagged(owner, ts[1..])
  }

  /** The pending game purchases of each listed child, in the order the children are listed. */
  function ChildEntries(files: map<string, UserData>, children: seq<string>): (r: seq<PendingEntry>)
    ensures forall e :: e in r <==>
      e.owner in children && e.transaction in PendingGamePurchases(Load(files, e.owner).transactions)
  {
    if children == [] then []
    else
      var last := children[|children| - 1];
      assert children == children[..|children| - 1] + [last];
      ChildEntries(files, children[..|children| - 1])
        + Tagged(last, PendingGamePurchases(Load(files, last).transactions))
  }

  lemma ChildEntriesSnoc(files: map<string, UserData>, children: seq<string>, k: nat)
    requires k < |children|
    ensures ChildEntries(files, children[..k + 1])
            == ChildEntries(files, children[..k]) + Tagged(children[k], PendingGamePurchases(Load(files, children[k]).transactions))
  {
    assert children[..k + 1][..k] == children[..k];
  }

  /**
   * Everything the approvals view lists for a viewer with parent mode on is a
   * pending purchase that the viewer may approve or deny, in a ledger that
   * holds its id.
   */
  lemma PendingEntriesActionable(files: map<string, UserData>, approver: string, e: PendingEntry)
    requires Load(files, approver).profile.parentMode
    requires e in Tagged(approver, PendingGamePurchases(Load(files, approver).transactions))
                  + ChildEntries(files, Children(Load(files, approver).profile))
    ensures MayActFor(Load(files, approver).profile, approver, e.owner)
    ensures e.transaction in Load(files, e.owner).transactions && !e.transaction.approved
    ensures HasId(Load(files, e.owner).transactions, e.transaction.id)
  {
  }

  /** The figures the dashboard shows. */
  datatype Stats = Stats(balance: int, totalSpent: int, monthlySpent: int, budgetPercent: real, gameLimit: int)

  /** The share of the monthly budget spent, in percent and exact arithmetic; 0 without a budget. */
  function BudgetPercent(spent: int, budget: int): (r: real)
    ensures budget > 0 ==> r * (budget as real) == (spent as real) * 100.0
    ensures budget <= 0 ==> r == 0.0
    ensures 0 <= spent <= budget ==> 0.0 <= r <= 100.0
  {
    if budget > 0 then (spent as real) / (budget as real) * 100.0 else 0.0
  }

  /**
   * The dashboard figures: balance plus total spent is the worth of the
   * ledger, the month's spending lies between zero and the total when all
   * amounts are positive, and the budget bar stays within 0-100 percent
   * while the month is within budget.
   */
  function Dashboard(d: UserData, month: string): (s: Stats)
    ensures s.balance + s.totalSpent == Worth(BookOf(d))
    ensures AllPositive(d.transactions) ==> 0 <= s.monthlySpent <= s.totalSpent
    ensures 0 <= s.monthlySpent <= d.profile.monthlyBudget ==> 0.0 <= s.budgetPercent <= 100.0
  {
    var monthly := MonthSum(d.transactions, month);
    MonthSumBounded(d.transactions, month);
    Stats(d.profile.accountBalance, Sum(d.transactions), monthly,
          BudgetPercent(monthly, d.profile.monthlyBudget), d.profile.gameSpendingLimit)
  }

  /**
   * The total spent counts pending purchases as spent: approving one leaves it
   * unchanged, and recording one raises it by the amount.
   */
  lemma TotalSpentIgnoresApproval(d: UserData, month: string, id: string, t: Transaction)
    ensures Dashboard(WithBook(d, Approve(BookOf(d), id)), month).totalSpent == Dashboard(d, month).totalSpent
    ensures Dashboard(WithBook(d, Record(BookOf(d), t)), month).totalSpent == Dashboard(d, month).totalSpent + t.amount
  {
  }

  /* ---------------------------------------------------------------------- */
  /* Sample data                                                            */
  /* ---------------------------------------------------------------------- */

  /** The profile the sample-data helper installs; keys it omits read as their defaults. */
  function SampleProfile(): Profile
  {
    Profile("Sample User", 5000, 10000, "parent@example.com", true, 2000, "", false, "", None)
  }

  function SampleTransactions(ids: seq<string>, dates: seq<string>): seq<Transaction>
    requires |ids| == 5 && |dates| == 5
  {
    [ Transaction(ids[0], dates[0], 299, "Minecraft Subscription", "Minecraft", "Game Subscriptions", true, true),
      Transaction(ids[1], dates[1], 1499, "Call of Duty: Modern Warfare", "PlayStation", "Console Games", true, true),
      Transaction(ids[2], dates[2], 799, "Nintendo Switch Online Subscription", "Nintendo Switch", "Game Subscriptions", true, true),
      Transaction(ids[3], dates[3], 899, "FIFA 2023", "Xbox", "Console Games", true, true),
      Transaction(ids[4], dates[4], 399, "PUBG Mobile Royal Pass", "PUBG Mobile", "In-App Purchases", true, false) ]
  }

  lemma SampleTransactionsTotals(ids: seq<string>, dates: seq<string>)
    requires |ids| == 5 && |dates| == 5
    ensures var ts := SampleTransactions(ids, dates);
      Sum(ts) == 3895 && PendingGamePurchases(ts) == [ts[4]]
  {
    var ts := SampleTransactions(ids, dates);
    var s4 := ts[4..];
    assert s4[1..] == [];
    assert Sum(s4) == 399;
    assert PendingGamePurchases(s4) == [ts[4]];
    var s3 := ts[3..];
    assert s3[1..] == s4;
    assert Sum(s3) == 899 + 399;
    assert PendingGamePurchases(s3) == [ts[4]];
    var s2 := ts[2..];
    assert s2[1..] == s3;
    assert Sum(s2) == 799 + 899 + 399;
    assert PendingGamePurchases(s2) == [ts[4]];
    var s1 := ts[1..];
    assert s1[1..] == s2;
    assert Sum(s1) == 1499 + 799 + 899 + 399;
    assert PendingGamePurchases(s1) == [ts[4]];
    assert ts[1..] == s1;
    assert Sum(ts) == 299 + Sum(s1);
    assert PendingGamePurchases(ts) == [] + PendingGamePurchases(s1);
  }

  /**
   * The sample-data helper: it acts only on an empty ledger, replaces the
   * profile and installs five purchases without debiting anything.
   */
  function SampleData(d: UserData, ids: seq<string>, dates: seq<string>): (r: SeedResult)
    requires |ids| == 5 && |dates| == 5
    ensures r.added <==> d.transactions == []
    ensures !r.added ==> r.data == d
    ensures r.added ==> |r.data.transactions| == 5 && r.data.profile.parentMode
    ensures r.added ==> Worth(BookOf(r.data)) == 5000 + 3895
    ensures r.added ==> PendingGamePurchases(r.data.transactions) == [r.data.transactions[4]]
  {
    if d.transactions == [] then
      var ts := SampleTransactions(ids, dates);
      SampleTransactionsTotals(ids, dates);
      SeedResult(true, UserData(SampleProfile(), ts))
    else
      SeedResult(false, d)
  }

  /**
   * Seeding replaces the whole profile: the result is no child account, lists
   * no children, and has parent mode on, so its owner may approve or deny
   * their own purchases.
   */
  lemma SampleDataResetsAccount(d: UserData, ids: seq<string>, dates: seq<string>)
    requires |ids| == 5 && |dates| == 5 && d.transactions == []
    ensures var p := SampleData(d, ids, dates).data.profile;
      && !p.isChildAccount && p.parentAccount == "" && Children(p) == []
      && forall u :: MayActFor(p, u, u)
  {
  }

  /**
   * alice registers as a parent and bob as her child. Seeding bob's empty
   * ledger lets bob approve his own purchases and breaks the link; seeding
   * alice's makes her forget bob.
   */
  lemma SampleDataUnlinks(ids: seq<string>, dates: seq<string>)
    requires |ids| == 5 && |dates| == 5
    ensures var reg0 := Register(map[], map[], "alice", "pw", "pw", "parent", None);
      var reg := Register(reg0.users, reg0.files, "bob", "pw", "pw", "child", Some("alice"));
      var bob := SampleData(Load(reg.files, "bob"), ids, dates);
      var alice := SampleData(Load(reg.files, "alice"), ids, dates);
      && Linked(reg.users, reg.files)
      && MayActFor(Load(reg.files, "alice").profile, "alice", "bob")
      && !MayActFor(Load(reg.files, "bob").profile, "bob", "bob")
      && bob.added && MayActFor(bob.data.profile, "bob", "bob")
      && !Linked(reg.users, reg.files["bob" := bob.data])
      && alice.added && !MayActFor(alice.data.profile, "alice", "bob")
      && !Linked(reg.users, reg.files["alice" := alice.data])
  {
    var reg0 := Register(map[], map[], "alice", "pw", "pw", "parent", None);
    var reg := Register(reg0.users, reg0.files, "bob", "pw", "pw", "child", Some("alice"));
    assert reg.users.Keys == {"alice", "bob"};
    assert ParentLink(reg.users, reg.files, "bob", "alice");
    SampleDataResetsAccount(Load(reg.files, "bob"), ids, dates);
    SampleDataResetsAccount(Load(reg.files, "alice"), ids, dates);
    var bob := SampleData(Load(reg.files, "bob"), ids, dates);
    var alice := SampleData(Load(reg.files, "alice"), ids, dates);
    assert !ParentLink(reg.users, reg.files["bob" := bob.data], "bob", "alice");
    assert !ParentLink(reg.users, reg.files["alice" := alice.data], "bob", "alice");
  }

  /* ---------------------------------------------------------------------- */
  /* The stores and the handlers that change them                          */
  /* ---------------------------------------------------------------------- */

  class DataDir {
    /** `users.json` */
    var users: map<string, Account>
    /** the per-user `<username>_data.json` files */
    var files: map<string, UserData>

    constructor ()
      ensures users == map[] && files == map[]
    {
      users := map[];
      files := map[];
    }

    /** The POST branch of `register`, with the corrected parent lookup. */
    method CreateAccount(username: string, password: string, confirm: string, accountType: string,
                    parent: Option<string>) returns (r: RegisterOutcome)
      modifies this
      ensures Registration(r, users, files)
              == Register(old(users), old(files), username, password, confirm, accountType, parent)
    {
      if password != confirm {
        return PasswordMismatch;
      }
      if username in users {
        return DuplicateUsername;
      }
      var newUsers := users[username := Account(accountType, None)];
      if accountType == "child" && parent.Some? {
        var p := parent.value;
        if p in users {
          newUsers := newUsers[username := Account(accountType, Some(p))];
          var child := Load(files, username);
          child := child.(profile := child.profile.(isChildAccount := true, parentAccount := p));
          files := files[username := child];
          var parentData := Load(files, p);
          parentData := parentData.(profile := parentData.profile.(
                          childAccounts := Some(Children(parentData.profile) + [username])));
          files := files[p := parentData];
        } else {
          return ParentNotFound;
        }
      }
      users := newUsers;
      var data := Load(files, username);
      if accountType == "parent" {
        data := data.(profile := data.profile.(parentMode := true));
      }
      files := files[username := data];
      r := Registered;
    }

    /**
     * The POST branch of `game_spending`: refuse a non-positive amount,
     * otherwise debit the balance and append the purchase, pending when the
     * profile needs approval.
     */
    method RecordPurchase(username: string, id: string, date: string, amount: int,
                          description: string, platform: string, category: string)
      returns (r: PurchaseOutcome)
      modifies this
      ensures users == old(users)
      ensures amount <= 0 ==> r == InvalidAmount && files == old(files)
      ensures amount > 0 ==>
        var d := Load(old(files), username);
        var t := Purchase(d.profile, id, date, amount, description, platform, category);
        && r == Recorded(NeedsApproval(d.profile))
        && files == old(files)[username := WithBook(d, Record(BookOf(d), t))]
        && Worth(BookOf(Load(files, username))) == Worth(BookOf(d))
    {
      var data := Load(files, username);
      var needsApproval := data.profile.isChildAccount || data.profile.parentMode;
      if amount <= 0 {
        return InvalidAmount;
      }
      var t := Transaction(id, date, amount, description, platform, category, true, !needsApproval);
      data := data.(profile := data.profile.(accountBalance := data.profile.accountBalance - amount));
      data := data.(transactions := data.transactions + [t]);
      files := files[username := data];
      r := Recorded(needsApproval);
    }

    /**
     * `approve_transaction`: check the approver, then set the flag of the
     * first purchase with the id in the owner's ledger; save only if found.
     */
    method ApproveTransaction(approver: string, owner: string, id: string) returns (r: Verdict)
      modifies this
      ensures users == old(users)
      ensures var p := Load(old(files), approver).profile;
        && (r == NoParentMode <==> !p.parentMode)
        && (r == NotLinked <==> p.parentMode && !MayActFor(p, approver, owner))
        && (r == Done <==> MayActFor(p, approver, owner) && HasId(Load(old(files), owner).transactions, id))
      ensures r == Done ==>
        var d := Load(old(files), owner);
        files == old(files)[owner := WithBook(d, Approve(BookOf(d), id))]
      ensures r != Done ==> files == old(files)
    {
      var parentData := Load(files, approver);
      if !parentData.profile.parentMode {
        return NoParentMode;
      }
      if owner != approver && (parentData.profile.childAccounts.None? || owner !in parentData.profile.childAccounts.value) {
        return NotLinked;
      }
      var data := Load(files, owner);
      ghost var loaded := data;
      var found := false;
      var i := 0;
      while i < |data.transactions|
        invariant 0 <= i <= |data.transactions|
        invariant data == loaded && !found
        invariant forall j :: 0 <= j < i ==> data.transactions[j].id != id
      {
        if data.transactions[i].id == id {
          ApproveFirstAt(data.transactions, id, i);
          data := data.(transactions := data.transactions[i := data.transactions[i].(approved := true)]);
          found := true;
          break;
        }
        i := i + 1;
      }
      if !found {
        return NotFound;
      }
      files := files[owner := data];
      r := Done;
    }

    /**
     * `deny_transaction`: check the approver, then credit the first purchase
     * with the id back to the owner's balance and remove it; save only if
     * found. Whether the purchase was still pending is not checked.
     */
    method DenyTransaction(approver: string, owner: string, id: string) returns (r: Verdict)
      modifies this
      ensures users == old(users)
      ensures var p := Load(old(files), approver).profile;
        && (r == NoParentMode <==> !p.parentMode)
        && (r == NotLinked <==> p.parentMode && !MayActFor(p, approver, owner))
        && (r == Done <==> MayActFor(p, approver, owner) && HasId(Load(old(files), owner).transactions, id))
      ensures r == Done ==>
        var d := Load(old(files), owner);
        files == old(files)[owner := WithBook(d, Deny(BookOf(d), id))]
      ensures r != Done ==> files == old(files)
    {
      var parentData := Load(files, approver);
      if !parentData.profile.parentMode {
        return NoParentMode;
      }
      if owner != approver && (parentData.profile.childAccounts.None? || owner !in parentData.profile.childAccounts.value) {
        return NotLinked;
      }
      var data := Load(files, owner);
      ghost var loaded := data;
      var found := false;
      var i := 0;
      while i < |data.transactions|
        invariant 0 <= i <= |data.transactions|
        invariant data == loaded && !found
        invariant forall j :: 0 <= j < i ==> data.transactions[j].id != id
      {
        if data.transactions[i].id == id {
          RemoveFirstAt(data.transactions, id, i);
          data := data.(profile := data.profile.(accountBalance := data.profile.accountBalance + data.transactions[i].amount));
          data := data.(transactions := data.transactions[..i] + data.transactions[i + 1..]);
          found := true;
          break;
        }
        i := i + 1;
      }
      if !found {
        return NotFound;
      }
      files := files[owner := data];
      r := Done;
    }

    /**
     * `parent_approval`: nothing unless the viewer has parent mode on; then
     * the viewer's own pending game purchases followed by those of each
     * listed child.
     */
    method PendingApprovals(approver: string) returns (r: Option<seq<PendingEntry>>)
      ensures var own := Load(files, approver);
        && (r.None? <==> !own.profile.parentMode)
        && (r.Some? ==> r.value == Tagged(approver, PendingGamePurchases(own.transactions))
                                   + ChildEntries(files, Children(own.profile)))
    {
      var own := Load(files, approver);
      if !own.profile.parentMode {
        return None;
      }
      var fromChildren := [];
      if own.profile.childAccounts.Some? {
        var children := own.profile.childAccounts.value;
        var k := 0;
        while k < |children|
          invariant 0 <= k <= |children|
          invariant fromChildren == ChildEntries(files, children[..k])
        {
          var child := children[k];
          ChildEntriesSnoc(files, children, k);
          fromChildren := fromChildren + Tagged(child, PendingGamePurchases(Load(files, child).transactions));
          k := k + 1;
        }
        assert children[..|children|] == children;
      }
      r := Some(Tagged(approver, PendingGamePurchases(own.transactions)) + fromChildren);
    }

    /**
     * The `add_sample_data` route as written: its name shadows the helper it
     * means to call, so the call passes a username to a function taking no
     * arguments and raises before anything is read or written.
     */
    method SampleDataRoute(username: string) returns (r: RouteOutcome)
      ensures r == CallTypeError
    {
      r := CallTypeError;
    }

    /** The route as intended: run the sample-data helper on the user's data file. */
    method AddSampleData(username: string, ids: seq<string>, dates: seq<string>) returns (r: RouteOutcome)
      requires |ids| == 5 && |dates| == 5
      modifies this
      ensures users == old(users)
      ensures var seed := SampleData(Load(old(files), username), ids, dates);
        && (r == SampleAdded <==> seed.added)
        && (r == SampleNotAdded <==> !seed.added)
        && files == if seed.added then old(files)[username := seed.data] else old(files)
    {
      var data := Load(files, username);
      var seed := SampleData(data, ids, dates);
      if seed.added {
        files := files[username := seed.data];
        r := SampleAdded;
      } else {
        r := SampleNotAdded;
      }
    }
  }

  /**
   * A walk-through of the approval flow: alice registers as a parent and bob
   * as her child; bob then makes his purchases.
   */
  method AliceAndBob()
  {
    var dir := new DataDir();
    var r := dir.CreateAccount("alice", "pw", "pw", "parent", None);
    assert r == Registered;
    r := dir.CreateAccount("bob", "pw", "pw", "child", Some("alice"));
    assert r == Registered;
    assert MayActFor(Load(dir.files, "alice").profile, "alice", "bob");
    assert Load(dir.files, "bob").transactions == [] && Load(dir.files, "bob").profile.isChildAccount;
    assert Load(dir.files, "bob").profile.accountBalance == 0;
    BobsPurchases(dir);
    assert Load(dir.files, "bob").profile.accountBalance == -400;
  }

  /**
   * Bob's 400 purchase waits for approval and alice approves it; his 100
   * purchase is denied, which refunds it and leaves the ledger as it was.
   */
  method BobsPurchases(dir: DataDir)
    requires MayActFor(Load(dir.files, "alice").profile, "alice", "bob")
    requires Load(dir.files, "bob").transactions == [] && NeedsApproval(Load(dir.files, "bob").profile)
    modifies dir
    ensures Load(dir.files, "bob").profile.accountBalance == old(Load(dir.files, "bob").profile.accountBalance) - 400
  {
    ghost var start := Load(dir.files, "bob").profile.accountBalance;
    var p := dir.RecordPurchase("bob", "t1", "2024-05-01", 400, "V-Bucks", "Fortnite", "In-App Purchases");
    assert p == Recorded(true);
    var t1 := Load(dir.files, "bob").transactions[0];
    assert Load(dir.files, "bob").transactions == [t1] && t1.id == "t1" && !t1.approved;
    assert Load(dir.files, "bob").profile.accountBalance == start - 400;
    assert HasId(Load(dir.files, "bob").transactions, "t1");
    var v := dir.ApproveTransaction("alice", "bob", "t1");
    assert v == Done;
    assert Load(dir.files, "bob").transactions == [t1.(approved := true)];
    assert Load(dir.files, "bob").profile.accountBalance == start - 400;
    ghost var before := Load(dir.files, "bob");
    assert !HasId(before.transactions, "t2");
    p := dir.RecordPurchase("bob", "t2", "2024-05-02", 100, "Skin", "Roblox", "In-App Purchases");
    assert Load(dir.files, "bob").profile.accountBalance == start - 500;
    var t2 := Load(dir.files, "bob").transactions[1];
    assert Load(dir.files, "bob").transactions == [t1.(approved := true), t2] && t2.id == "t2";
    assert HasId(Load(dir.files, "bob").transactions, "t2");
    RecordThenDeny(BookOf(before), t2);
    v := dir.DenyTransaction("alice", "bob", "t2");
    assert v == Done;
    assert Load(dir.files, "bob") == before;
  }
}
