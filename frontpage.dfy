/** The login check of the Etsin front page (`components/frontpage/index.jsx`):
    after the login status is fetched, a logged-in user without a CSC
    account, or with an account but no home organization, is shown an error
    modal; closing a modal logs the user out. The login fetch itself is a
    parameter: its settled result is passed in. */
module FrontPage {
  import opened Wrappers

  /** `Stores.Auth.user` once `checkLogin()` has settled; `None` is an
      `undefined` property. */
  datatype User = User(loggedIn: bool, name: Option<string>, homeOrganizationName: Option<string>)

  datatype Modal = NoModal | PermissionError | HomeOrganizationError

  /** Which modal the `then` callback opens. */
  function ModalToOpen(user: User): (m: Modal)
    ensures m == PermissionError <==> user.loggedIn && user.name.None?
    ensures m == HomeOrganizationError <==>
      !(user.loggedIn && user.name.None?) && user.name.Some? && user.homeOrganizationName.None?
    ensures m == NoModal <==>
      !(user.loggedIn && user.name.None?) && !(user.name.Some? && user.homeOrganizationName.None?)
  {
    if user.loggedIn && user.name.None? then PermissionError
    else if user.name.Some? && user.homeOrganizationName.None? then HomeOrganizationError
    else NoModal
  }

  /** A user with a name and a home organization sees no modal. */
  lemma CompleteUserSeesNoModal(user: User)
    requires user.name.Some? && user.homeOrganizationName.Some?
    ensures ModalToOpen(user) == NoModal
  {
  }

  /** The second test does not look at the login flag: a user reported as
      logged out but with a name and no home organization still gets the
      home-organization modal. */
  lemma HomeOrganizationIgnoresLogin(name: string)
    ensures ModalToOpen(User(false, Some(name), None)) == HomeOrganizationError
    ensures ModalToOpen(User(true, Some(name), None)) == HomeOrganizationError
  {
  }

  /** The front page's modal flags, and the number of `Auth.logout()` calls
      made by closing them. */
  class FrontPageState {
    var userPermissionErrorModalIsOpen: bool
    var userHomeOrganizationErrorModalIsOpen: bool
    var logouts: nat

    constructor ()
      ensures !userPermissionErrorModalIsOpen && !userHomeOrganizationErrorModalIsOpen && logouts == 0
    {
      userPermissionErrorModalIsOpen := false;
      userHomeOrganizationErrorModalIsOpen := false;
      logouts := 0;
    }

    /** `checkUserLoginStatus()` once `checkLogin()` has settled: `Fail` is a
        rejected check, which is only logged. At most one flag is set, and
        nothing is ever cleared here. */
    method CheckUserLoginStatus(login: Result<User>)
      modifies this
      ensures login.Fail? ==>
        userPermissionErrorModalIsOpen == old(userPermissionErrorModalIsOpen)
        && userHomeOrganizationErrorModalIsOpen == old(userHomeOrganizationErrorModalIsOpen)
      ensures login.Ok? ==>
        userPermissionErrorModalIsOpen ==
          (old(userPermissionErrorModalIsOpen) || ModalToOpen(login.value) == PermissionError)
      ensures login.Ok? ==>
        userHomeOrganizationErrorModalIsOpen ==
          (old(userHomeOrganizationErrorModalIsOpen) || ModalToOpen(login.value) == HomeOrganizationError)
      ensures logouts == old(logouts)
    {
      if login.Ok? {
        var user := login.value;
        if user.loggedIn && user.name.None? {
          userPermissionErrorModalIsOpen := true;
        } else if user.name.Some? && user.homeOrganizationName.None? {
          userHomeOrganizationErrorModalIsOpen := true;
        }
      }
    }

    /** `closeUserPermissionErrorModal()`. */
    method CloseUserPermissionErrorModal()
      modifies this
      ensures !userPermissionErrorModalIsOpen
      ensures userHomeOrganizationErrorModalIsOpen == old(userHomeOrganizationErrorModalIsOpen)
      ensures logouts == old(logouts) + 1
    {
      userPermissionErrorModalIsOpen := false;
      logouts := logouts + 1;
    }

    /** `closeUserHomeOrganizationErrorModal()`. */
    method CloseUserHomeOrganizationErrorModal()
      modifies this
      ensures !userHomeOrganizationErrorModalIsOpen
      ensures userPermissionErrorModalIsOpen == old(userPermissionErrorModalIsOpen)
      ensures logouts == old(logouts) + 1
    {
      userHomeOrganizationErrorModalIsOpen := false;
      logouts := logouts + 1;
    }
  }

  /** On a fresh page, one check opens at most one modal. */
  method FreshPageCheck(login: Result<User>) returns (permission: bool, homeOrganization: bool)
    ensures !(permission && homeOrganization)
    ensures permission <==> login.Ok? && login.value.loggedIn && login.value.name.None?
    ensures login.Ok? && login.value.name.Some? && login.value.homeOrganizationName.Some? ==>
      !permission && !homeOrganization
  {
    var page := new FrontPageState();
    page.CheckUserLoginStatus(login);
    permission := page.userPermissionErrorModalIsOpen;
    homeOrganization := page.userHomeOrganizationErrorModalIsOpen;
  }
}
