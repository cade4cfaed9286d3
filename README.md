# Session, business form and dashboard logic of the business-directory web client

This project models the client side of the business directory in Dafny:

- **`Auth`** (`auth.dfy`) is the session kept by `AuthProvider`. It holds the signed-in user, the boot flag `loading`, the token persisted in local storage, the `Authorization` default header of the shared HTTP client, and the last route handed to the router. Its four transitions are the mount-time bootstrap, login, register and logout. The class `AuthProvider` carries these fields. Each method is tied to a pure function on a `Session` value (`Bootstrapped`, `AuthResponded`, `LoggedOut`), and the properties are proved about those functions. The central invariant `Coupled` says: a user is present exactly when the header is set, and a set header is the Bearer header (section 2.1 of RFC 6750) of the stored token. Every transition preserves it.
- **`Forms`** (`business_form.dfy`) is the `BusinessForm` component. Its state is a map of top-level fields plus a map of opening hours by day. `Changed` is the change handler's record update with frame. `HandleSubmit` is the save: PUT or POST, the `loading` bracket, the toast and the navigation.
- **`Strings`** (`strings.dfy`) holds JavaScript's `startsWith` and `split` for a one-character separator. `split` is proved against `join` (a round trip). The change handler relies on it to find the day in `hours.<day>`.
- **`DashboardPage`** (`dashboard.dfy`) covers the status badge colours, the signed-out redirect guard, and the owner-scoped fetch.

Collaborators the model cannot see are parameters:
- the token decoder `jwt_decode` is a function `decode: string -> Option<User>`;
- the result of the remote login/register call is a `Result` carrying either the response body or the server's optional `message`;
- the result of the save and list requests is a `bool` or an `Option`.

Local storage, the header, the router and toasts are fields that record their last value or every call.

JavaScript truthiness is modelled explicitly:
- `if (token)` treats an empty stored token as no token (`HasToken`), and that empty string stays in storage;
- `if (businessId)` treats an empty id as "create" (`HasId`);
- `message || 'An error occurred'` falls back to the generic message for an empty server message.

The effect that runs bootstrap fires once, on mount, while nobody is signed in and no header is set. `Bootstrap` and `Bootstrapped` therefore require that mount state.

Three behaviours of the code are modelled as written:
- the dashboard's guard looks only at `user`, never at the boot flag. `GuardIgnoresBoot` shows that on a freshly mounted session it redirects to `/login` even when the stored token would restore a user;
- nothing checks token expiry beyond what the decoder returns;
- the form's save requests use the relative path `/api/businesses`, while the session and dashboard calls prefix the API base URL.

`Auth.SessionWalkthrough` is a usage example, not a model of a source function. It drives one provider through a failed boot, a rejected login, a successful login and two logouts. Its assertions are proved from the methods' contracts alone.

## Model

| member | source | states |
|---|---|---|
| `Strings.StartsWith` | frontend/src/components/BusinessForm.tsx:64 | `startsWith`: the prefix is no longer than the string and the string begins with it |
| `Strings.Split` | frontend/src/components/BusinessForm.tsx:65 | `split` yields at least one part, no part contains the separator, and joining the parts with the separator gives back the input |
| `Strings.Segment` | frontend/src/components/BusinessForm.tsx:65 | the result is the longest separator-free prefix of the input: a prefix, without the separator, and followed by the separator when shorter than the input |
| `Strings.SplitHead` | frontend/src/components/BusinessForm.tsx:65 | the first part of a split is the segment before the first separator |
| `Strings.SplitAfterPrefix` | frontend/src/components/BusinessForm.tsx:65 | splitting `p + sep + q` with `p` separator-free gives `p` followed by the split of `q` |
| `Strings.SegmentWithoutSeparator` | frontend/src/components/BusinessForm.tsx:245-256 | a day name without a dot is its own first segment |
| `Auth.BearerHeader` | frontend/src/utils/auth.tsx:36 | the header value starts with `Bearer ` and the rest is exactly the token |
| `Auth.HasToken` | frontend/src/utils/auth.tsx:30-31 | the truthiness test `if (token)`: a stored token counts only when present and not the empty string |
| `Auth.Coupled` | frontend/src/utils/auth.tsx:32-39 | the session invariant: a user is present exactly when the header is set, and a set header is the Bearer header of the stored token |
| `Auth.Mounted` | frontend/src/utils/auth.tsx:24-25 | a mounted provider has no user, is loading, has no header, no navigation, keeps whatever storage holds, and satisfies the session invariant |
| `Auth.Bootstrapped` | frontend/src/utils/auth.tsx:28-42 | after boot `loading` is false and the invariant holds; a user is present iff a non-empty stored token decodes, and then it is the decoded user and the token is kept; storage is emptied exactly when it was empty or held a non-empty token that does not decode; a kept token is unchanged; navigation untouched |
| `Auth.AuthResponded` | frontend/src/utils/auth.tsx:44-77 | a failed remote call leaves the session unchanged; a success stores the returned token, sets the header to its Bearer value and the user to the returned user, and navigates to `/dashboard`; `loading` is never written; the invariant is preserved |
| `Auth.ErrorMessage` | frontend/src/utils/auth.tsx:56-58 | the error message is the server's message when present and non-empty, otherwise exactly `An error occurred`, and is never empty |
| `Auth.LoggedOut` | frontend/src/utils/auth.tsx:79-84 | logout clears storage, header and user and navigates to `/`, keeps `loading`, and leaves a session satisfying the invariant |
| `Auth.LogoutIdempotent` | frontend/src/utils/auth.tsx:79-84 | logging out twice gives the same state as once |
| `Auth.LogoutUnconditional` | frontend/src/utils/auth.tsx:79-84 | the state after logout does not depend on the state before it, apart from the boot flag |
| `Auth.ReloadAfterLogin` | frontend/src/utils/auth.tsx:30-55 | when the server's token decodes to the user it sent, a reload after a successful login restores the same user, header and stored token |
| `Auth.BootstrapStable` | frontend/src/utils/auth.tsx:28-42 | booting again from what the first boot left in storage ends in the same session, so a dropped bad token behaves like no token |
| `Auth.UseAuth` | frontend/src/utils/auth.tsx:93-98 | `useAuth` returns the provider when there is one, and otherwise fails with `useAuth must be used within an AuthProvider` |
| `Auth.AuthProvider.constructor` | frontend/src/utils/auth.tsx:23-26 | the provider mounts in the `Mounted` state over the persisted token, with the invariant established |
| `Auth.AuthProvider.Bootstrap` | frontend/src/utils/auth.tsx:28-42 | the mount effect leaves the state `Bootstrapped(old state)`, writes only user, loading, storage and header, and keeps the invariant |
| `Auth.AuthProvider.Login` | frontend/src/utils/auth.tsx:44-59 | login leaves the state `AuthResponded(old state)`, never writes `loading`, keeps the invariant, and raises an error exactly on failure, with `ErrorMessage` of the server message |
| `Auth.AuthProvider.Register` | frontend/src/utils/auth.tsx:61-77 | register has the same contract as login, for the register endpoint's outcome |
| `Auth.AuthProvider.Logout` | frontend/src/utils/auth.tsx:79-84 | logout leaves the state `LoggedOut(old state)`, never writes `loading`, and establishes the invariant from any state |
| `Forms.IsInputName` | frontend/src/components/BusinessForm.tsx:104-258 | the names the rendered inputs carry: the ten top-level field names, and `hours.<day>` for each of the seven days |
| `Forms.InitialForm` | frontend/src/components/BusinessForm.tsx:34-54 | the initial form has exactly the ten top-level fields and the seven days, all empty strings |
| `Forms.DayOf` | frontend/src/components/BusinessForm.tsx:64-65 | for a name starting `hours.`, the day is the text after the first dot up to the next dot, and contains no dot |
| `Forms.Changed` | frontend/src/components/BusinessForm.tsx:62-79 | a name starting `hours.` sets only that day and leaves the top-level fields and the other days unchanged; any other name sets only that top-level field and leaves the hours unchanged |
| `Forms.DayOfInput` | frontend/src/components/BusinessForm.tsx:245-256 | the input named `hours.<day>` routes its changes to exactly that day |
| `Forms.ChangeKeepsShape` | frontend/src/components/BusinessForm.tsx:62-79 | a change from any rendered input keeps the form's set of fields and days |
| `Forms.LastChangeWins` | frontend/src/components/BusinessForm.tsx:62-79 | two changes to the same input leave the second value |
| `Forms.HasId` | frontend/src/components/BusinessForm.tsx:86 | the truthiness test `if (businessId)`, also used by the label at line 275: an id counts only when given and not the empty string |
| `Forms.SaveRequest` | frontend/src/components/BusinessForm.tsx:86-92 | the request is a PUT to `/api/businesses/<id>` iff a non-empty id is given, otherwise a POST to `/api/businesses`, with the form as body |
| `Forms.SubmitToast` | frontend/src/components/BusinessForm.tsx:85-96 | a success toast exactly when the request succeeds: "updated" when editing, "created" otherwise; `Error saving business` on failure |
| `Forms.SubmitLabel` | frontend/src/components/BusinessForm.tsx:275 | the button reads `Saving...` while loading, else `Update Business` with an id, else `Create Business` |
| `Forms.BusinessForm.constructor` | frontend/src/components/BusinessForm.tsx:31-54 | the form starts as `InitialForm()`, not loading, with no request, toast or navigation |
| `Forms.BusinessForm.ReceiveInitialData` | frontend/src/components/BusinessForm.tsx:56-60 | given initial data replaces the whole form; otherwise the form is unchanged |
| `Forms.BusinessForm.HandleChange` | frontend/src/components/BusinessForm.tsx:62-79 | the form becomes `Changed(old form, name, value)` and nothing else is written |
| `Forms.BusinessForm.HandleSubmit` | frontend/src/components/BusinessForm.tsx:81-100 | exactly one request, `SaveRequest` of the current form, is added; `loading` is written true and then false; one toast is shown; navigation to `/dashboard` happens only on success |
| `DashboardPage.StatusBadgeColor` | frontend/src/pages/dashboard.tsx:47-58 | `approved`, `pending` and `rejected` map to green, yellow and red; the result is grey exactly for every other status, and always one of the four classes |
| `DashboardPage.Guard` | frontend/src/pages/dashboard.tsx:25-32 | the effect redirects, to `/login`, exactly when there is no user, and otherwise fetches for the user's id |
| `DashboardPage.OwnedBusinessesUrl` | frontend/src/pages/dashboard.tsx:36-38 | the URL is the API base with `/api/businesses?owner=` and then exactly the owner id |
| `DashboardPage.GuardIgnoresBoot` | frontend/src/pages/dashboard.tsx:22-32 | on a freshly mounted session whose stored token decodes, the guard redirects to `/login`, although the booted session would fetch that user's businesses |
| `DashboardPage.Dashboard.constructor` | frontend/src/pages/dashboard.tsx:20-21 | the page starts with no businesses, loading, and no request, toast or navigation |
| `DashboardPage.Dashboard.OnUserChange` | frontend/src/pages/dashboard.tsx:25-32 | with no user: navigate to `/login` and change nothing else, with no fetch; with a user: exactly one fetch for that user's id, loading false, businesses replaced only on success, and a toast only on failure |
| `DashboardPage.Dashboard.FetchUserBusinesses` | frontend/src/pages/dashboard.tsx:34-45 | one GET of the owner URL; `loading` false on success and on failure; the list replaced on success and a failure toast otherwise |

## Left out

- Local storage, the HTTP client's default headers, the router and toasts are fields for their current value or a log of calls. Their libraries are not modelled.
- `jwt_decode` is not modelled; it is the parameter `decode`. Nothing checks token expiry or claim shape.
- The login and register requests themselves are not modelled: the base URL from the environment, the endpoint path and the `{email, password}` or `{name, email, password}` body. Each method takes the call's outcome instead.
- A throw from `localStorage.setItem` after a successful remote call is not modelled. It happens before any write, so the `catch` turns it into the generic error with nothing changed.
- A rejected `router.push` promise is not modelled. The push is not awaited, so the rejection is not caught and `login`/`register` raise no error.
- A response body without a `token` field is not modelled. JavaScript would store it as the text `undefined`.
- React scheduling is not modelled: effect timing, re-renders, promise interleaving, context subscription by consumers, and concurrent logins. Each transition is one atomic method.
- Auth.AuthProvider.Bootstrap: requires the mount state (booting, no user, no header), because the source runs it once on mount; re-running it later is not modelled.
- Forms.Changed: a name exactly `hours`, with no dot, would in JavaScript replace the nested hours object by a string. The model treats it as one more top-level key. No rendered input carries that name.
- Forms.BusinessForm.HandleSubmit: states the writes to `loading` as the sequence true, then false. It does not state that the request is issued between them. `e.preventDefault()` and the `console.error` log are not modelled.
- Rendering is not modelled: markup, the order in which days are shown (`Object.entries`), the disabled state of the button, and the rating's `toFixed(1)` formatting.
- The dashboard's list response is taken as already extracted from `response.data.data`.
- The layout, index, listings, business detail and app composition pages are not part of this model.
