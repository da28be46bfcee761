/** The dataset access state of the dataset page: an access-type code, an
    embargo date, the permit status and the login status decide which parts of
    the data view are enabled (`stores/view/access.js`). */
module Access {
  import opened Wrappers

  const OPEN_CODE := "http://uri.suomi.fi/codelist/fairdata/access_type/code/open"
  const LOGIN_CODE := "http://uri.suomi.fi/codelist/fairdata/access_type/code/login"
  const EMBARGO_CODE := "http://uri.suomi.fi/codelist/fairdata/access_type/code/embargo"
  const PERMIT_CODE := "http://uri.suomi.fi/codelist/fairdata/access_type/code/permit"
  const RESTRICTED_CODE := "http://uri.suomi.fi/codelist/fairdata/access_type/code/restricted"

  /** The five codes of `accessTypes`. */
  const ACCESS_TYPE_CODES: set<string> := {OPEN_CODE, LOGIN_CODE, EMBARGO_CODE, PERMIT_CODE, RESTRICTED_CODE}

  datatype AccessType = OpenType | LoginType | EmbargoType | PermitType | RestrictedType | UnknownType

  /** The `case` of `updateAccess`'s switch that an identifier selects. */
  function AccessTypeOf(identifier: string): (t: AccessType)
    ensures t == UnknownType <==> identifier !in ACCESS_TYPE_CODES
  {
    if identifier == OPEN_CODE then OpenType
    else if identifier == EMBARGO_CODE then EmbargoType
    else if identifier == RESTRICTED_CODE then RestrictedType
    else if identifier == PERMIT_CODE then PermitType
    else if identifier == LOGIN_CODE then LoginType
    else UnknownType
  }

  /** The `restrictions` record. `applicationState` is the REMS application
      state, `None` for `null`. */
  datatype Restrictions = Restrictions(
    open: bool,
    allowDataRemote: bool,
    allowDataIda: bool,
    allowDataIdaInfoButton: bool,
    allowDataIdaDownloadButton: bool,
    showREMSbutton: bool,
    applicationState: Option<string>)

  /** The record written by `open()`. */
  function OpenRestrictions(): Restrictions {
    Restrictions(true, true, true, true, true, false, None)
  }

  /** The record written by `restrictedAccess()`. */
  function RestrictedRestrictions(): Restrictions {
    Restrictions(false, true, true, false, false, false, None)
  }

  /** `embargoAccess(av)`: `available` and `now` are milliseconds since the
      epoch; `None` is an `undefined` or unparseable date, whose `getTime()`
      is `NaN`, and `NaN < now` is false. A `null` date is `Some(0)`:
      `new Date(null)` is the epoch itself, which lifts the embargo. */
  function EmbargoRestrictions(available: Option<int>, now: int): (r: Restrictions)
    ensures r == OpenRestrictions() <==> available.Some? && available.value < now
    ensures r == RestrictedRestrictions() <==> !(available.Some? && available.value < now)
  {
    if available.Some? && available.value < now then
      Restrictions(true, true, true, true, true, false, None)
    else
      Restrictions(false, true, true, false, false, false, None)
  }

  /** `permitAccess(hasPermit, state)`. */
  function PermitRestrictions(hasPermit: bool, state: Option<string>): (r: Restrictions)
    ensures !r.open && r.showREMSbutton && r.applicationState == state
    ensures r.allowDataIdaInfoButton == hasPermit && r.allowDataIdaDownloadButton == hasPermit
    ensures r.allowDataRemote && r.allowDataIda
  {
    if hasPermit then
      Restrictions(false, true, true, true, true, true, state)
    else
      Restrictions(false, true, true, false, false, true, state)
  }

  /** `loginAccess()`, with `auth.userLogged` passed in. */
  function LoginRestrictions(userLogged: bool): (r: Restrictions)
    ensures r == (if userLogged then OpenRestrictions() else RestrictedRestrictions())
    ensures !r.showREMSbutton
  {
    if userLogged then
      Restrictions(true, true, true, true, true, false, None)
    else
      Restrictions(false, true, true, false, false, false, None)
  }

  /** The part of a dataset's `access_rights` that `updateAccess` reads:
      `access_type.identifier` and the embargo date `available`. */
  datatype AccessRights = AccessRights(accessTypeIdentifier: string, available: Option<int>)

  /** The record `updateAccess` leaves behind. It depends on its inputs only,
      never on the previous record. */
  function ComputeRestrictions(access: AccessRights, hasPermit: bool, state: Option<string>,
                               now: int, userLogged: bool): (r: Restrictions)
    ensures r.allowDataRemote && r.allowDataIda
    ensures r.allowDataIdaInfoButton == r.allowDataIdaDownloadButton
    ensures r.open ==> r.allowDataIdaDownloadButton && !r.showREMSbutton
    ensures AccessTypeOf(access.accessTypeIdentifier) != PermitType ==> r.applicationState.None? && !r.showREMSbutton
    ensures AccessTypeOf(access.accessTypeIdentifier) == PermitType ==> r.applicationState == state && r.showREMSbutton
    ensures access.accessTypeIdentifier !in ACCESS_TYPE_CODES ==> r == RestrictedRestrictions()
  {
    match AccessTypeOf(access.accessTypeIdentifier)
    case OpenType => OpenRestrictions()
    case EmbargoType => EmbargoRestrictions(access.available, now)
    case RestrictedType => RestrictedRestrictions()
    case PermitType => PermitRestrictions(hasPermit, state)
    case LoginType => LoginRestrictions(userLogged)
    case UnknownType => RestrictedRestrictions()
  }

  /** Each of the five codes selects its own branch. */
  lemma DispatchByCode(access: AccessRights, hasPermit: bool, state: Option<string>, now: int, userLogged: bool)
    ensures access.accessTypeIdentifier == OPEN_CODE ==>
      ComputeRestrictions(access, hasPermit, state, now, userLogged) == OpenRestrictions()
    ensures access.accessTypeIdentifier == EMBARGO_CODE ==>
      ComputeRestrictions(access, hasPermit, state, now, userLogged) == EmbargoRestrictions(access.available, now)
    ensures access.accessTypeIdentifier == RESTRICTED_CODE ==>
      ComputeRestrictions(access, hasPermit, state, now, userLogged) == RestrictedRestrictions()
    ensures access.accessTypeIdentifier == PERMIT_CODE ==>
      ComputeRestrictions(access, hasPermit, state, now, userLogged) == PermitRestrictions(hasPermit, state)
    ensures access.accessTypeIdentifier == LOGIN_CODE ==>
      ComputeRestrictions(access, hasPermit, state, now, userLogged) == LoginRestrictions(userLogged)
  {
  }

  /** Only the open outcome opens the content: the branch outputs are either
      the open record, the restricted record, or a permit record. */
  lemma OutcomeShapes(access: AccessRights, hasPermit: bool, state: Option<string>, now: int, userLogged: bool)
    ensures var r := ComputeRestrictions(access, hasPermit, state, now, userLogged);
      r == OpenRestrictions() || r == RestrictedRestrictions() || r == PermitRestrictions(hasPermit, state)
  {
  }

  /** The embargo boundary: one millisecond before `now` opens, `now` itself
      and any later date restrict. */
  lemma EmbargoBoundary(now: int)
    ensures EmbargoRestrictions(Some(now - 1), now) == OpenRestrictions()
    ensures EmbargoRestrictions(Some(now), now) == RestrictedRestrictions()
    ensures EmbargoRestrictions(Some(now + 1), now) == RestrictedRestrictions()
    ensures EmbargoRestrictions(None, now) == RestrictedRestrictions()
  {
  }

  /** The embargo only ever lifts as time passes. */
  lemma EmbargoMonotone(available: Option<int>, now: int, later: int)
    requires now <= later
    requires EmbargoRestrictions(available, now) == OpenRestrictions()
    ensures EmbargoRestrictions(available, later) == OpenRestrictions()
  {
  }

  /** A permit dataset without a permit and with a draft application. */
  lemma PermitDraftScenario(now: int, userLogged: bool)
    ensures ComputeRestrictions(AccessRights(PERMIT_CODE, None), false, Some("draft"), now, userLogged)
         == Restrictions(false, true, true, false, false, true, Some("draft"))
  {
  }

  /** A login dataset seen by a logged-out user is treated as restricted. */
  lemma LoginLoggedOutIsRestricted(available: Option<int>, hasPermit: bool, state: Option<string>, now: int)
    ensures ComputeRestrictions(AccessRights(LOGIN_CODE, available), hasPermit, state, now, false)
         == ComputeRestrictions(AccessRights(RESTRICTED_CODE, available), hasPermit, state, now, false)
  {
  }

  /** The `Access` store: one `restrictions` record, overwritten as a whole by
      every action. */
  class AccessStore {
    var restrictions: Restrictions

    constructor ()
      ensures !restrictions.open && !restrictions.allowDataRemote && !restrictions.allowDataIda
      ensures !restrictions.allowDataIdaInfoButton && !restrictions.allowDataIdaDownloadButton
      ensures !restrictions.showREMSbutton && restrictions.applicationState.None?
    {
      restrictions := Restrictions(false, false, false, false, false, false, None);
    }

    method Open()
      modifies this
      ensures restrictions == OpenRestrictions()
    {
      restrictions := Restrictions(true, true, true, true, true, false, None);
    }

    method EmbargoAccess(available: Option<int>, now: int)
      modifies this
      ensures restrictions == EmbargoRestrictions(available, now)
    {
      if available.Some? && available.value < now {
        restrictions := Restrictions(true, true, true, true, true, false, None);
      } else {
        restrictions := Restrictions(false, true, true, false, false, false, None);
      }
    }

    method RestrictedAccess()
      modifies this
      ensures restrictions == RestrictedRestrictions()
    {
      restrictions := Restrictions(false, true, true, false, false, false, None);
    }

    method PermitAccess(hasPermit: bool, state: Option<string>)
      modifies this
      ensures restrictions == PermitRestrictions(hasPermit, state)
    {
      if hasPermit {
        restrictions := Restrictions(false, true, true, true, true, true, state);
      } else {
        restrictions := Restrictions(false, true, true, false, false, true, state);
      }
    }

    method LoginAccess(userLogged: bool)
      modifies this
      ensures restrictions == LoginRestrictions(userLogged)
    {
      if userLogged {
        restrictions := Restrictions(true, true, true, true, true, false, None);
      } else {
        restrictions := Restrictions(false, true, true, false, false, false, None);
      }
    }

    /** `updateAccess(access, hasPermit, state)`; `now` is the clock reading of
      the embargo branch and `userLogged` is `auth.userLogged`. */
    method UpdateAccess(access: AccessRights, hasPermit: bool, state: Option<string>, now: int, userLogged: bool)
      modifies this
      ensures restrictions == ComputeRestrictions(access, hasPermit, state, now, userLogged)
    {
      var code := access.accessTypeIdentifier;
      if code == OPEN_CODE {
        Open();
      } else if code == EMBARGO_CODE {
        EmbargoAccess(access.available, now);
      } else if code == RESTRICTED_CODE {
        RestrictedAccess();
      } else if code == PERMIT_CODE {
        PermitAccess(hasPermit, state);
      } else if code == LOGIN_CODE {
        LoginAccess(userLogged);
      } else {
        RestrictedAccess();
      }
    }
  }
}
