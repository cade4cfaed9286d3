/**
 * The owner's dashboard: the badge colour of a listing's status, and the
 * effect that sends a signed-out visitor to the login page and otherwise
 * loads the businesses the user owns.
 */
module DashboardPage {
  import opened Wrappers
  import opened Strings
  import Auth

  /** A listing as the businesses endpoint returns it; `id` is the record's `_id`. */
  datatype Business = Business(
    id: string,
    name: string,
    category: string,
    status: string,
    rating: real,
    reviews: seq<string>,
    createdAt: string)

  const LoginRoute := "/login"
  const OwnerQueryPath := "/api/businesses?owner="
  const FetchFailedMessage := "Failed to fetch businesses"

  const Approved := "bg-green-100 text-green-800"
  const Pending := "bg-yellow-100 text-yellow-800"
  const Rejected := "bg-red-100 text-red-800"
  const Neutral := "bg-gray-100 text-gray-800"

  /** `getStatusBadgeColor`: one colour per known status, grey for any other string. */
  function StatusBadgeColor(status: string): (c: string)
    ensures status == "approved" ==> c == Approved
    ensures status == "pending" ==> c == Pending
    ensures status == "rejected" ==> c == Rejected
    ensures c == Neutral <==> status !in {"approved", "pending", "rejected"}
    ensures c in {Approved, Pending, Rejected, Neutral}
  {
    match status
    case "approved" => Approved
    case "pending" => Pending
    case "rejected" => Rejected
    case _ => Neutral
  }

  /** What the page's effect does for the current user. */
  datatype GuardAction = RedirectTo(route: string) | FetchOwnedBy(ownerId: string)

  /** The effect's guard: no user means a redirect to the login page and no fetch. */
  function Guard(user: Option<Auth.User>): (a: GuardAction)
    ensures a.RedirectTo? <==> user.None?
    ensures a.RedirectTo? ==> a.route == LoginRoute
    ensures a.FetchOwnedBy? ==> a.ownerId == user.value.id
  {
    match user
    case None => RedirectTo(LoginRoute)
    case Some(u) => FetchOwnedBy(u.id)
  }

  /** The URL of the owner's listings: the businesses endpoint with the `owner` parameter set to the id. */
  function OwnedBusinessesUrl(apiUrl: string, ownerId: string): (url: string)
    ensures StartsWith(url, apiUrl + OwnerQueryPath)
    ensures url[|apiUrl + OwnerQueryPath|..] == ownerId
  {
    apiUrl + OwnerQueryPath + ownerId
  }

  /**
   * The guard reads only `user`, not the session's boot flag: evaluated on the
   * freshly mounted session it redirects to the login page even when the
   * stored token would restore a user once the provider has booted.
   */
  lemma GuardIgnoresBoot(persisted: Option<string>, decode: string -> Option<Auth.User>)
    requires Auth.HasToken(persisted) && decode(persisted.value).Some?
    ensures Guard(Auth.Mounted(persisted).user) == RedirectTo(LoginRoute)
    ensures Guard(Auth.Bootstrapped(Auth.Mounted(persisted), decode).user) == FetchOwnedBy(decode(persisted.value).value.id)
  {
  }

  /** The `Dashboard` page's state. */
  class Dashboard {
    var businesses: seq<Business>
    var loading: bool
    var lastNav: Option<string>
    /** Every URL fetched, oldest first. */
    var requests: seq<string>
    var toasts: seq<string>

    constructor ()
      ensures businesses == [] && loading && lastNav.None? && requests == [] && toasts == []
    {
      businesses := [];
      loading := true;
      lastNav := None;
      requests := [];
      toasts := [];
    }

    /**
     * The effect on `user`: redirect when signed out, otherwise fetch the
     * user's businesses; `response` is the fetched list, or `None` when the
     * request fails.
     */
    method OnUserChange(user: Option<Auth.User>, apiUrl: string, response: Option<seq<Business>>)
      modifies this`businesses, this`loading, this`lastNav, this`requests, this`toasts
      ensures user.None? ==>
        && lastNav == Some(LoginRoute)
        && requests == old(requests) && businesses == old(businesses)
        && loading == old(loading) && toasts == old(toasts)
      ensures user.Some? ==>
        && lastNav == old(lastNav)
        && requests == old(requests) + [OwnedBusinessesUrl(apiUrl, user.value.id)]
        && !loading
        && businesses == (if response.Some? then response.value else old(businesses))
        && toasts == (if response.Some? then old(toasts) else old(toasts) + [FetchFailedMessage])
    {
      match Guard(user)
      case RedirectTo(route) =>
        lastNav := Some(route);
      case FetchOwnedBy(ownerId) =>
        FetchUserBusinesses(apiUrl, ownerId, response);
    }

    /** `fetchUserBusinesses`: one GET; `loading` ends false whether it succeeds or fails. */
    method FetchUserBusinesses(apiUrl: string, ownerId: string, response: Option<seq<Business>>)
      modifies this`businesses, this`loading, this`requests, this`toasts
      ensures requests == old(requests) + [OwnedBusinessesUrl(apiUrl, ownerId)]
      ensures !loading
      ensures businesses == if response.Some? then response.value else old(businesses)
      ensures toasts == if response.Some? then old(toasts) else old(toasts) + [FetchFailedMessage]
    {
      requests := requests + [OwnedBusinessesUrl(apiUrl, ownerId)];
      if response.Some? {
        businesses := response.value;
        loading := false;
      } else {
        toasts := toasts + [FetchFailedMessage];
        loading := false;
      }
    }
  }
}
