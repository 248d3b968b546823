/**
 * tracker.py: one data file per user holding the password, a profile and a
 * ledger. Every purchase starts pending; the owner approves or denies their
 * own purchases. A missing data file makes `load_user` return nothing, and
 * the handlers that go on to index into it fail; the model reports that as
 * `NoUserFile` and changes nothing.
 */
module Tracker {
  import opened Ledger

  datatype Profile = Profile(name: string, balance: int, budget: int, limit: int, isParent: bool)

  /** The contents of one `data/<username>.json`. */
  datatype UserFile = UserFile(password: string, profile: Profile, transactions: seq<Transaction>)

  /** What `save_user` writes for a new account. */
  function NewUserFile(username: string, password: string): (f: UserFile)
    ensures f.password == password && f.profile.name == username
    ensures f.profile.balance == 5000 && f.profile.budget == 2000 && f.profile.limit == 1000
    ensures f.transactions == []
  {
    UserFile(password, Profile(username, 5000, 2000, 1000, true), [])
  }

  function BookOf(f: UserFile): Book
  {
    Book(f.profile.balance, f.transactions)
  }

  function WithBook(f: UserFile, b: Book): UserFile
  {
    f.(profile := f.profile.(balance := b.balance), transactions := b.transactions)
  }

  datatype RegisterOutcome = Registered | MissingCredentials | UsernameTaken

  datatype LoginOutcome = LoggedIn | InvalidCredentials

  datatype AddOutcome = Added | InvalidInput | AddWithoutFile

  datatype Outcome = Saved | NoUserFile

  datatype SampleOutcome = SampleAdded | SampleNotAdded | SampleWithoutFile

  datatype SeedResult = SeedResult(added: bool, data: UserFile)

  /**
   * The POST branch of `login`: one failure for an unknown user and for a
   * wrong password alike.
   */
  function Login(files: map<string, UserFile>, username: string, password: string): (r: LoginOutcome)
    ensures r == LoggedIn <==> username in files && files[username].password == password
  {
    if username !in files || files[username].password != password then InvalidCredentials else LoggedIn
  }

  /**
   * Registering a new user lets exactly the chosen password log in as that
   * user, and changes no one else's login.
   */
  lemma LoginAfterRegister(files: map<string, UserFile>, username: string, password: string)
    requires username != "" && password != "" && username !in files
    ensures var after := files[username := NewUserFile(username, password)];
      && (forall q :: Login(after, username, q) == LoggedIn <==> q == password)
      && (forall v, q :: v != username ==> Login(after, v, q) == Login(files, v, q))
  {
  }

  /** The purchase `add_transaction` creates: always pending, never a game purchase by key. */
  function NewTransaction(id: string, date: string, amount: int, description: string,
                          platform: string, category: string): (t: Transaction)
    ensures t.id == id && t.amount == amount && !t.approved
  {
    Transaction(id, date, amount, description, platform, category, false, false)
  }

  /** The figures the dashboard shows. */
  datatype Stats = Stats(totalSpent: int, approvedSpent: int, pendingCount: nat)

  /**
   * The dashboard sums: the total splits into approved and pending spending,
   * and the pending count is the size of the approvals list.
   */
  function Dashboard(f: UserFile): (s: Stats)
    ensures s.totalSpent == s.approvedSpent + Sum(Pending(f.transactions))
    ensures s.pendingCount == |Pending(f.transactions)|
  {
    TotalSplit(f.transactions);
    Stats(Sum(f.transactions), ApprovedSum(f.transactions), PendingCount(f.transactions))
  }

  function SampleTransactions(ids: seq<string>, dates: seq<string>): seq<Transaction>
    requires |ids| == 3 && |dates| == 3
  {
    [ Transaction(ids[0], dates[0], 599, "Minecraft Subscription", "Minecraft", "Game Subscriptions", false, true),
      Transaction(ids[1], dates[1], 1499, "PlayStation Game", "PlayStation", "Console Games", false, true),
      Transaction(ids[2], dates[2], 399, "Fortnite V-Bucks", "Fortnite", "In-App Purchases", false, false) ]
  }

  lemma SampleTransactionsTotal(ids: seq<string>, dates: seq<string>)
    requires |ids| == 3 && |dates| == 3
    ensures Sum(SampleTransactions(ids, dates)) == 2497
  {
    var ts := SampleTransactions(ids, dates);
    assert ts[2..][1..] == [];
    assert Sum(ts[2..]) == 399;
    assert ts[1..][1..] == ts[2..];
    assert Sum(ts[1..]) == 1499 + 399;
    assert Sum(ts) == 599 + Sum(ts[1..]);
  }

  /**
   * `add_sample_data`: only an empty ledger receives the three samples, and
   * nothing is debited for them, so it is the one operation that moves
   * balance + spending.
   */
  function SampleData(f: UserFile, ids: seq<string>, dates: seq<string>): (r: SeedResult)
    requires |ids| == 3 && |dates| == 3
    ensures r.added <==> f.transactions == []
    ensures !r.added ==> r.data == f
    ensures r.added ==> r.data.profile == f.profile && |r.data.transactions| == 3
    ensures r.added ==> Worth(BookOf(r.data)) == Worth(BookOf(f)) + 2497
  {
    if f.transactions == [] then
      SampleTransactionsTotal(ids, dates);
      SeedResult(true, f.(transactions := SampleTransactions(ids, dates)))
    else
      SeedResult(false, f)
  }

  class DataDir {
    /** the `data/<username>.json` files */
    var files: map<string, UserFile>

    constructor ()
      ensures files == map[]
    {
      files := map[];
    }

    /** The POST branch of `register`. */
    method Register(username: string, password: string) returns (r: RegisterOutcome)
      modifies this
      ensures r == MissingCredentials <==> username == "" || password == ""
      ensures r == UsernameTaken <==> username != "" && password != "" && username in old(files)
      ensures r == Registered ==> files == old(files)[username := NewUserFile(username, password)]
      ensures r != Registered ==> files == old(files)
    {
      if username == "" || password == "" {
        return MissingCredentials;
      }
      if username in files {
        return UsernameTaken;
      }
      files := files[username := NewUserFile(username, password)];
      r := Registered;
    }

    /**
     * The POST branch of `add_transaction`: refuse a non-positive amount or an
     * empty field, otherwise append a pending purchase and debit its amount.
     */
    method AddTransaction(username: string, id: string, date: string, amount: int,
                          description: string, platform: string, category: string)
      returns (r: AddOutcome)
      modifies this
      ensures r == InvalidInput <==> amount <= 0 || description == "" || platform == "" || category == ""
      ensures r == AddWithoutFile <==> r != InvalidInput && username !in old(files)
      ensures r != Added ==> files == old(files)
      ensures r == Added ==>
        var f := old(files)[username];
        && files == old(files)[username := WithBook(f, Record(BookOf(f), NewTransaction(id, date, amount, description, platform, category)))]
        && Worth(BookOf(files[username])) == Worth(BookOf(f))
    {
      if amount <= 0 || description == "" || platform == "" || category == "" {
        return InvalidInput;
      }
      if username !in files {
        return AddWithoutFile;
      }
      var data := files[username];
      var t := Transaction(id, date, amount, description, platform, category, false, false);
      data := data.(transactions := data.transactions + [t]);
      data := data.(profile := data.profile.(balance := data.profile.balance - amount));
      files := files[username := data];
      r := Added;
    }

    /**
     * `approve`: set the flag of the first purchase with the id and write the
     * file back, whether or not the id was there.
     */
    method Approve(username: string, id: string) returns (r: Outcome)
      modifies this
      ensures r == NoUserFile <==> username !in old(files)
      ensures r == Saved ==>
        var f := old(files)[username];
        files == old(files)[username := WithBook(f, Ledger.Approve(BookOf(f), id))]
      ensures r == Saved && !HasId(old(files)[username].transactions, id) ==> files == old(files)
      ensures r == NoUserFile ==> files == old(files)
    {
      if username !in files {
        return NoUserFile;
      }
      var data := files[username];
      ghost var loaded := data;
      var i := 0;
      while i < |data.transactions|
        invariant 0 <= i <= |data.transactions|
        invariant data == loaded
        invariant forall j :: 0 <= j < i ==> data.transactions[j].id != id
      {
        if data.transactions[i].id == id {
          ApproveFirstAt(data.transactions, id, i);
          data := data.(transactions := data.transactions[i := data.transactions[i].(approved := true)]);
          break;
        }
        i := i + 1;
      }
      if !HasId(loaded.transactions, id) {
        DenyAbsent(BookOf(loaded), id);
      }
      files := files[username := data];
      r := Saved;
    }

    /**
     * `deny`: credit the first purchase with the id back to the balance,
     * remove it, and write the file back, whether or not the id was there.
     */
    method Deny(username: string, id: string) returns (r: Outcome)
      modifies this
      ensures r == NoUserFile <==> username !in old(files)
      ensures r == Saved ==>
        var f := old(files)[username];
        files == old(files)[username := WithBook(f, Ledger.Deny(BookOf(f), id))]
      ensures r == Saved && !HasId(old(files)[username].transactions, id) ==> files == old(files)
      ensures r == NoUserFile ==> files == old(files)
    {
      if username !in files {
        return NoUserFile;
      }
      var data := files[username];
      ghost var loaded := data;
      var i := 0;
      while i < |data.transactions|
        invariant 0 <= i <= |data.transactions|
        invariant data == loaded
        invariant forall j :: 0 <= j < i ==> data.transactions[j].id != id
      {
        if data.transactions[i].id == id {
          RemoveFirstAt(data.transactions, id, i);
          data := data.(profile := data.profile.(balance := data.profile.balance + data.transactions[i].amount));
          data := data.(transactions := data.transactions[..i] + data.transactions[i + 1..]);
          break;
        }
        i := i + 1;
      }
      if !HasId(loaded.transactions, id) {
        DenyAbsent(BookOf(loaded), id);
      }
      files := files[username := data];
      r := Saved;
    }

    /** The `sample-data` route and its helper. */
    method AddSampleData(username: string, ids: seq<string>, dates: seq<string>) returns (r: SampleOutcome)
      requires |ids| == 3 && |dates| == 3
      modifies this
      ensures r == SampleWithoutFile <==> username !in old(files)
      ensures r == SampleAdded <==> username in old(files) && old(files)[username].transactions == []
      ensures r == SampleAdded ==> files == old(files)[username := SampleData(old(files)[username], ids, dates).data]
      ensures r != SampleAdded ==> files == old(files)
    {
      if username !in files {
        return SampleWithoutFile;
      }
      var seeded := SampleData(files[username], ids, dates);
      if seeded.added {
        files := files[username := seeded.data];
        r := SampleAdded;
      } else {
        r := SampleNotAdded;
      }
    }
  }
}
