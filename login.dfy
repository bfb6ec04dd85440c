/** js/login.js: the sign-in page. Its state is the string key-value store
    `localStorage`; the submit handler and the social buttons write login flags
    into it, and the header, the checkout button and the form read them back. */
module Login {
  import opened Basics
  import opened Text

  const AdminEmail: string := "admin@store.com"
  const AdminPassword: string := "admin123"

  /** `localStorage.getItem(key)`, with `None` for `null`. */
  function Get(storage: map<string, string>, key: string): Option<string> {
    if key in storage then Some(storage[key]) else None
  }

  /** Which branch of the submit handler runs. */
  datatype Outcome = AdminLogin | UserLogin | MissingFields

  /** `if (email && password)`, then the exact admin credentials. */
  function Classify(email: string, password: string): (r: Outcome)
    ensures r == MissingFields <==> email == "" || password == ""
    ensures r == AdminLogin <==> email == AdminEmail && password == AdminPassword
  {
    if email != "" && password != "" then
      if email == AdminEmail && password == AdminPassword then AdminLogin else UserLogin
    else MissingFields
  }

  /** The store after a submission, key by key in the handler's order. */
  function AfterSubmit(storage: map<string, string>, email: string, password: string, remember: bool): map<string, string> {
    match Classify(email, password)
    case AdminLogin => storage["isAdmin" := "true"]["isLoggedIn" := "true"]["userEmail" := email]
    case UserLogin =>
      var s := storage["isLoggedIn" := "true"]["userEmail" := email]["isAdmin" := "false"];
      if remember then s["rememberMe" := "true"] else s
    case MissingFields => storage
  }

  /** The store after `socialLogin(provider)`. */
  function AfterSocial(storage: map<string, string>, provider: string): map<string, string> {
    storage["isLoggedIn" := "true"]["userEmail" := "user@" + provider + ".com"]["loginMethod" := provider]
  }

  /** `proceedToCheckout()`: the page it sends the visitor to. */
  function CheckoutTarget(storage: map<string, string>): (r: string)
    ensures r == "checkout.html" <==> Get(storage, "isLoggedIn") == Some("true")
    ensures r != "checkout.html" ==> r == "login.html"
  {
    if Get(storage, "isLoggedIn") == Some("true") then "checkout.html" else "login.html"
  }

  /** The header's `userStatus` text. */
  function HeaderStatus(storage: map<string, string>): string {
    if Get(storage, "isLoggedIn") == Some("true") then
      var email := Get(storage, "userEmail");
      if email.Some? && email.value != "" then BeforeFirst(email.value, '@') else "Account"
    else "Login"
  }

  /** The email the form is pre-filled with (and `remember` ticked), if any. */
  function RememberedEmail(storage: map<string, string>): Option<string> {
    if Get(storage, "rememberMe") == Some("true") then
      var saved := Get(storage, "userEmail");
      if saved.Some? && saved.value != "" then saved else None
    else None
  }

  /** The icon `showToast` picks for a message type. */
  function ToastIcon(kind: string): string {
    if kind == "success" then "check-circle"
    else if kind == "error" then "exclamation-circle"
    else if kind == "warning" then "exclamation-triangle"
    else "info-circle"
  }

  /** `provider.charAt(0).toUpperCase() + provider.slice(1)`. */
  function Capitalize(provider: string): (r: string)
    ensures |r| == |provider|
    ensures |r| > 0 ==> r[0] == UpperChar(provider[0]) && r[1..] == provider[1..]
  {
    if |provider| == 0 then "" else [UpperChar(provider[0])] + provider[1..]
  }

  // ---------------------------------------------------------------------------

  /** An admin submission sets the three flags and leaves every other key, and
      `rememberMe` in particular, as it was. */
  lemma AdminSubmitWrites(storage: map<string, string>, remember: bool)
    ensures var s := AfterSubmit(storage, AdminEmail, AdminPassword, remember);
            && s["isAdmin"] == "true" && s["isLoggedIn"] == "true" && s["userEmail"] == AdminEmail
            && Get(s, "rememberMe") == Get(storage, "rememberMe")
            && s.Keys == storage.Keys + {"isAdmin", "isLoggedIn", "userEmail"}
            && forall k :: k in storage && k !in {"isAdmin", "isLoggedIn", "userEmail"} ==> s[k] == storage[k]
  {
  }

  /** Any other complete submission logs in a regular user; `rememberMe` is
      written only when the box is ticked, and is never cleared. */
  lemma UserSubmitWrites(storage: map<string, string>, email: string, password: string, remember: bool)
    requires Classify(email, password) == UserLogin
    ensures var s := AfterSubmit(storage, email, password, remember);
            && s["isLoggedIn"] == "true" && s["userEmail"] == email && s["isAdmin"] == "false"
            && (remember ==> s["rememberMe"] == "true")
            && (!remember ==> Get(s, "rememberMe") == Get(storage, "rememberMe"))
            && (Get(storage, "rememberMe") == Some("true") ==> Get(s, "rememberMe") == Some("true"))
            && forall k :: k in storage && k !in {"isAdmin", "isLoggedIn", "userEmail", "rememberMe"} ==> k in s && s[k] == storage[k]
  {
  }

  /** A submission with an empty field writes nothing. */
  lemma MissingFieldsWriteNothing(storage: map<string, string>, email: string, password: string, remember: bool)
    requires email == "" || password == ""
    ensures AfterSubmit(storage, email, password, remember) == storage
  {
  }

  /** After a successful sign-in, checkout opens, and the header shows the part
      of the email before the first '@'. */
  lemma LoginUnlocksCheckout(storage: map<string, string>, email: string, password: string, remember: bool)
    requires Classify(email, password) != MissingFields
    ensures var s := AfterSubmit(storage, email, password, remember);
            && CheckoutTarget(s) == "checkout.html"
            && HeaderStatus(s) == BeforeFirst(email, '@')
            && '@' !in HeaderStatus(s)
  {
  }

  /** A regular sign-in with `remember` ticked pre-fills that email next time. */
  lemma RememberRoundTrip(storage: map<string, string>, email: string, password: string)
    requires Classify(email, password) == UserLogin
    ensures RememberedEmail(AfterSubmit(storage, email, password, true)) == Some(email)
  {
  }

  /** A social sign-in opens checkout, shows "user" in the header, and writes
      only its three keys. */
  lemma SocialLoginEffect(storage: map<string, string>, provider: string)
    ensures var s := AfterSocial(storage, provider);
            && s.Keys == storage.Keys + {"isLoggedIn", "userEmail", "loginMethod"}
            && s["isLoggedIn"] == "true"
            && CheckoutTarget(s) == "checkout.html"
            && HeaderStatus(s) == "user"
            && s["loginMethod"] == provider
            && s["userEmail"] == "user@" + provider + ".com"
            && forall k :: k in storage && k !in {"isLoggedIn", "userEmail", "loginMethod"} ==> k in s && s[k] == storage[k]
  {
    assert "user@" + provider + ".com" == "user" + ['@'] + (provider + ".com");
    BeforeFirstStops("user", '@', provider + ".com");
  }

  /** Without the login flag the header reads "Login" and checkout sends the
      visitor to the login page. */
  lemma LoggedOutGates(storage: map<string, string>)
    requires Get(storage, "isLoggedIn") != Some("true")
    ensures HeaderStatus(storage) == "Login" && CheckoutTarget(storage) == "login.html"
  {
  }

  /** A logged-in store without an email shows "Account". */
  lemma AccountFallback(storage: map<string, string>)
    requires Get(storage, "isLoggedIn") == Some("true")
    requires Get(storage, "userEmail") == None || Get(storage, "userEmail") == Some("")
    ensures HeaderStatus(storage) == "Account"
  {
  }

  /** The four known message types get their own icons; every other type
      shares the 'info' icon. */
  lemma ToastIconMapping(kind: string)
    ensures ToastIcon("success") == "check-circle"
    ensures ToastIcon("error") == "exclamation-circle"
    ensures ToastIcon("warning") == "exclamation-triangle"
    ensures ToastIcon("info") == "info-circle"
    ensures kind !in {"success", "error", "warning"} ==> ToastIcon(kind) == "info-circle"
  {
  }

  /** Only the first character changes, so capitalising twice is capitalising
      once, and the label of "google" is "Google". */
  lemma CapitalizeFacts(provider: string)
    ensures Capitalize(Capitalize(provider)) == Capitalize(provider)
    ensures |provider| > 1 ==> Capitalize(provider)[1..] == provider[1..]
    ensures Capitalize("google") == "Google"
  {
    if |provider| > 0 {
      var c := provider[0];
      assert UpperChar(UpperChar(c)) == UpperChar(c);
    }
    assert Capitalize("google") == [UpperChar('g')] + "oogle";
  }

  // ---------------------------------------------------------------------------

  /** The page's view of `localStorage`. */
  class LoginPage {
    var storage: map<string, string>

    constructor (stored: map<string, string>)
      ensures storage == stored
    {
      storage := stored;
    }

    /** The submit handler once its delay has run. */
    method Submit(email: string, password: string, remember: bool) returns (outcome: Outcome)
      modifies this
      ensures outcome == Classify(email, password)
      ensures storage == AfterSubmit(old(storage), email, password, remember)
    {
      if email != "" && password != "" {
        if email == AdminEmail && password == AdminPassword {
          storage := storage["isAdmin" := "true"];
          storage := storage["isLoggedIn" := "true"];
          storage := storage["userEmail" := email];
          outcome := AdminLogin;
        } else {
          storage := storage["isLoggedIn" := "true"];
          storage := storage["userEmail" := email];
          storage := storage["isAdmin" := "false"];
          if remember {
            storage := storage["rememberMe" := "true"];
          }
          outcome := UserLogin;
        }
      } else {
        outcome := MissingFields;
      }
    }

    /** `socialLogin(provider)` once its delay has run; also returns the
        provider label of its toasts. */
    method SocialLogin(provider: string) returns (providerLabel: string)
      modifies this
      ensures storage == AfterSocial(old(storage), provider)
      ensures providerLabel == Capitalize(provider)
    {
      providerLabel := Capitalize(provider);
      storage := storage["isLoggedIn" := "true"];
      storage := storage["userEmail" := "user@" + provider + ".com"];
      storage := storage["loginMethod" := provider];
    }
  }
}
