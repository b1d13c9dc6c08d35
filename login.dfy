/**
 * The login page (src/pages/Login.tsx): credentials are checked against three
 * fixed demo accounts; a match stores the user with a display name derived from
 * the role and sends the user on to the account's page, a mismatch stores nothing.
 */
module Login {
  import opened Common
  import opened Domain
  import opened Storage
  import StaffDashboard

  datatype Account = Account(email: string, password: string, role: string, redirect: string)

  const DemoAccounts: seq<Account> := [
    Account("customer@demo.com", "password123", "customer", "/hall-menu"),
    Account("staff@demo.com", "password123", "staff", "/staff-dashboard"),
    Account("admin@demo.com", "password123", "admin", "/hall-menu")
  ]

  predicate Matches(account: Account, email: string, password: string) {
    account.email == email && account.password == password
  }

  /** The account `find` returns: the first one whose e-mail and password both match,
      none exactly when no account matches. */
  function FindAccount(accounts: seq<Account>, email: string, password: string): (r: Option<Account>)
    ensures r.None? <==> forall i :: 0 <= i < |accounts| ==> !Matches(accounts[i], email, password)
    ensures r.Some? ==>
      exists i :: 0 <= i < |accounts| && accounts[i] == r.value && Matches(accounts[i], email, password)
                  && forall j :: 0 <= j < i ==> !Matches(accounts[j], email, password)
  {
    if accounts == [] then None
    else if Matches(accounts[0], email, password) then Some(accounts[0])
    else
      var r := FindAccount(accounts[1..], email, password);
      assert forall i :: 1 <= i < |accounts| ==> accounts[i] == accounts[1..][i - 1];
      r
  }

  /** The stored user's name: the role with its first letter capitalised, then " User";
      for an empty role just " User". */
  function DisplayName(role: string): (name: string)
    ensures |name| == |role| + 5
    ensures name[|role|..] == " User"
    ensures |role| > 0 ==> name[0] == ToUpperAscii(role[0]) && name[1..|role|] == role[1..]
  {
    var first := if |role| > 0 then [ToUpperAscii(role[0])] else [];
    var rest := if |role| > 0 then role[1..] else [];
    first + rest + " User"
  }

  /** The record written under the `user` key for a matched account. */
  function SessionFor(account: Account): (u: SessionUser)
    ensures u.email == account.email && u.role == account.role
    ensures u.name == DisplayName(account.role)
  {
    SessionUser(account.email, account.role, DisplayName(account.role))
  }

  /** The demo accounts' display names. */
  lemma DemoDisplayNames()
    ensures DisplayName("customer") == "Customer User"
    ensures DisplayName("staff") == "Staff User"
    ensures DisplayName("admin") == "Admin User"
  {
  }

  /** Each demo account's own credentials log in as that account (the quick-login buttons). */
  lemma DemoCredentialsLogIn(i: int)
    requires 0 <= i < |DemoAccounts|
    ensures FindAccount(DemoAccounts, DemoAccounts[i].email, DemoAccounts[i].password) == Some(DemoAccounts[i])
  {
  }

  /** Staff land on the staff dashboard, customers and admins on the snack menu; only a
      role the dashboard admits is ever sent to it. */
  lemma RedirectByRole(account: Account)
    requires account in DemoAccounts
    ensures account.redirect == (if account.role == "staff" then "/staff-dashboard" else "/hall-menu")
    ensures account.redirect == "/staff-dashboard" ==> StaffDashboard.IsStaffRole(account.role)
  {
  }

  class LoginPage {
    var email: string
    var password: string
    var isLoading: bool

    constructor ()
      ensures email == "" && password == "" && !isLoading
    {
      email := "";
      password := "";
      isLoading := false;
    }

    /** quickLogin: fills in an account's credentials. */
    method QuickLogin(account: Account)
      modifies this`email, this`password
      ensures email == account.email && password == account.password
    {
      email := account.email;
      password := account.password;
    }

    /** handleLogin: with matching credentials the user is stored and the page moves to
        the account's page; otherwise the `user` key is left as it was and the page stays. */
    method HandleLogin(store: LocalStorage) returns (redirect: Option<string>)
      modifies store`user, this`isLoading
      ensures !isLoading
      ensures FindAccount(DemoAccounts, email, password).None? ==>
        redirect == None && store.user == old(store.user)
      ensures FindAccount(DemoAccounts, email, password).Some? ==>
        var account := FindAccount(DemoAccounts, email, password).value;
        redirect == Some(account.redirect) && store.user == Some(SessionFor(account))
    {
      isLoading := true;
      var account := FindAccount(DemoAccounts, email, password);
      redirect := None;
      if account.Some? {
        store.user := Some(SessionFor(account.value));
        redirect := Some(account.value.redirect);
      }
      isLoading := false;
    }
  }
}
