/**
 * The login form: both fields are required and the email must contain an
 * '@'; a valid submission logs in and goes to the dashboard, and an already
 * authenticated visitor is sent there straight away.
 */
module Login {
  import opened Wrappers
  import opened Storage
  import opened Auth

  datatype LoginVerdict = MissingFields | InvalidEmail | LoginOk

  /** The two checks of `handleSubmit`, in order. */
  function CheckLogin(username: string, email: string): (v: LoginVerdict)
    ensures v == MissingFields <==> username == "" || email == ""
    ensures v == InvalidEmail <==> username != "" && email != "" && '@' !in email
    ensures v == LoginOk <==> username != "" && '@' in email
  {
    if username == "" || email == "" then MissingFields
    else if '@' !in email then InvalidEmail
    else LoginOk
  }

  const DashboardRoute: string := "/dashboard"

  class LoginForm {
    var username: string
    var email: string
    /** The route passed to `navigate`, if any. */
    var navigatedTo: Option<string>
    const auth: AuthProvider

    constructor (auth: AuthProvider)
      ensures this.auth == auth && username == "" && email == "" && navigatedTo == None
    {
      this.auth := auth;
      username, email := "", "";
      navigatedTo := None;
    }

    /** Rendering: an authenticated visitor is sent to the dashboard and the form is not shown. */
    method Render() returns (shown: bool)
      modifies this`navigatedTo
      ensures shown == !auth.IsAuthenticated()
      ensures navigatedTo == if shown then old(navigatedTo) else Some(DashboardRoute)
    {
      if auth.IsAuthenticated() {
        navigatedTo := Some(DashboardRoute);
        return false;
      }
      return true;
    }

    method SetUsername(value: string)
      modifies this`username
      ensures username == value
    {
      username := value;
    }

    method SetEmail(value: string)
      modifies this`email
      ensures email == value
    {
      email := value;
    }

    /**
     * `handleSubmit`: a rejected form changes nothing; an accepted one logs
     * in with the clock reading `now` and navigates whether or not the login
     * found a readable document.
     */
    method Submit(now: int) returns (v: LoginVerdict)
      modifies this`navigatedTo, auth, auth.storage
      ensures v == CheckLogin(username, email)
      ensures v != LoginOk ==>
        navigatedTo == old(navigatedTo) && auth.userData == old(auth.userData)
        && auth.storage.slot == old(auth.storage.slot)
      ensures v == LoginOk ==> navigatedTo == Some(DashboardRoute)
      ensures v == LoginOk && old(auth.storage.slot).Stored? ==>
        auth.userData == Some(old(auth.storage.slot).data) && auth.storage.slot == old(auth.storage.slot)
      ensures v == LoginOk && old(auth.storage.slot) == Empty ==>
        var d := NewUserData(username, email, now, auth.storage.sample);
        auth.userData == Some(d) && auth.storage.slot == Stored(d)
      ensures v == LoginOk && old(auth.storage.slot) == Corrupt ==>
        auth.userData == old(auth.userData) && auth.storage.slot == Corrupt
    {
      v := CheckLogin(username, email);
      if v != LoginOk {
        return;
      }
      auth.Login(username, email, now);
      navigatedTo := Some(DashboardRoute);
    }
  }
}
