/** The login form. Submitting clears the error and shows the spinner at once; half a
    second later a callback checks the credentials the submission captured. Success
    writes the session flag and the user name and pushes "/dashboard"; failure shows
    "Invalid username or password" and hides the spinner. On mount, a browser that is
    already signed in is sent on to "/dashboard" in place of the login page. */
module Login {
  import opened Optional
  import opened Session

  /** The one accepted user name, which is also the one accepted password. */
  const DemoCredential := "ocemtechies"

  const InvalidMessage := "Invalid username or password"

  /** The user name and password that the delayed callback closes over: the values in the
      form when it was submitted. */
  datatype Attempt = Attempt(username: string, password: string)

  /** The callback's check: both fields exactly equal to the demo credential, with case
      and surrounding spaces significant. */
  predicate Accepted(a: Attempt)
  {
    a.username == DemoCredential && a.password == DemoCredential
  }

  /** Where the mount effect sends the browser: "/dashboard" when the stored flag is
      "true", nowhere otherwise. */
  function MountTarget(storage: map<string, string>): (r: Option<string>)
    ensures r.Some? <==> Authenticated(storage)
    ensures r.Some? ==> r.value == "/dashboard"
  {
    if GetItem(storage, AuthKey) == Some("true") then Some("/dashboard") else None
  }

  class LoginForm {
    var username: string
    var password: string
    var error: string
    var isLoading: bool
    const browser: Browser

    constructor (b: Browser)
      ensures username == "" && password == "" && error == "" && !isLoading
      ensures browser == b
    {
      username, password, error, isLoading := "", "", "", false;
      browser := b;
    }

    /** The user name field's `onChange`. */
    method ChangeUsername(value: string)
      modifies this
      ensures username == value
      ensures password == old(password) && error == old(error) && isLoading == old(isLoading)
    {
      username := value;
    }

    /** The password field's `onChange`. */
    method ChangePassword(value: string)
      modifies this
      ensures password == value
      ensures username == old(username) && error == old(error) && isLoading == old(isLoading)
    {
      password := value;
    }

    /** The synchronous part of `handleSubmit`: clear the error, show the spinner, and
        schedule the check on the current field values. Both fields are `required`, so the
        browser submits only when neither is empty, and the submit button is disabled
        while the spinner shows. */
    method Submit() returns (attempt: Attempt)
      requires username != "" && password != "" && !isLoading
      modifies this
      ensures error == "" && isLoading
      ensures username == old(username) && password == old(password)
      ensures attempt == Attempt(username, password)
    {
      error := "";
      isLoading := true;
      attempt := Attempt(username, password);
    }

    /** The delayed callback of `handleSubmit`. */
    method CheckCredentials(attempt: Attempt)
      requires browser.Valid()
      modifies this, browser
      ensures browser.Valid()
      ensures username == old(username) && password == old(password)
      ensures Accepted(attempt) ==>
        && browser.storage == SignIn(old(browser.storage), attempt.username)
        && browser.history == old(browser.history) + ["/dashboard"]
        && error == old(error) && isLoading == old(isLoading)
      ensures !Accepted(attempt) ==>
        && browser.storage == old(browser.storage)
        && browser.history == old(browser.history)
        && error == InvalidMessage && !isLoading
    {
      if attempt.username == DemoCredential && attempt.password == DemoCredential {
        browser.SetItem(AuthKey, "true");
        browser.SetItem(UserKey, attempt.username);
        browser.Navigate("/dashboard", false);
      } else {
        error := InvalidMessage;
        isLoading := false;
      }
    }

    /** A submission followed by its callback, with no other event in between. Success
        leaves the spinner showing (the page is left), failure shows the message. */
    method HandleSubmit()
      requires browser.Valid()
      requires username != "" && password != "" && !isLoading
      modifies this, browser
      ensures browser.Valid()
      ensures username == old(username) && password == old(password)
      ensures Accepted(Attempt(username, password)) ==>
        && browser.storage == SignIn(old(browser.storage), username)
        && Authenticated(browser.storage)
        && browser.history == old(browser.history) + ["/dashboard"]
        && error == "" && isLoading
      ensures !Accepted(Attempt(username, password)) ==>
        && browser.storage == old(browser.storage)
        && browser.history == old(browser.history)
        && error == InvalidMessage && !isLoading
    {
      var attempt := Submit();
      CheckCredentials(attempt);
    }

    /** The mount effect: a signed-in browser replaces the login page by "/dashboard". */
    method OnMount()
      requires browser.Valid()
      modifies browser
      ensures browser.Valid() && browser.storage == old(browser.storage)
      ensures MountTarget(browser.storage).Some? ==>
        browser.history == old(browser.history)[..|old(browser.history)| - 1] + ["/dashboard"]
      ensures MountTarget(browser.storage).None? ==> browser.history == old(browser.history)
    {
      if GetItem(browser.storage, AuthKey) == Some("true") {
        browser.Navigate("/dashboard", true);
      }
    }
  }
}
