# foodzippy-admin: a Dafny model of the record and request shaping

The admin single-page application of the vendor-onboarding platform is mostly
React views over REST calls. Its statable logic is the record and request
shaping in three files, and this project models that logic:

- `src/lib/api.ts` (module `Api`, file `api.dfy`). `normalizeVendor` picks the
  canonical `id` and flattens `restaurantImage`. `normalizeVendors` maps it over
  a list. `getVendors` assembles its query string. `request` merges the headers
  and settles a reply. The endpoint paths are built here too.
- `src/pages/Agents.tsx` (module `Agents`, file `agents.dfy`). This covers the
  search filter, the validation and request bodies of create and edit, and the
  capitalised role label. The page's component state is a class, `AgentsPage`.
  Its handlers update the state step by step, as the React handlers do.
- `src/pages/VendorDetail.tsx` (module `VendorDetail`, file `vendor_detail.dfy`).
  This covers what the detail screen derives from a loaded record: the masked
  account number, the 'Not provided' fallbacks, the fixed or dynamic charge,
  the category and service chips and the optional blocks. It also covers the
  state that `loadVendor` sets.

Two support modules hold shared definitions:

- `Wrappers` (`wrappers.dfy`) defines `Option` and `Result`.
- `JsValue` (`js_value.dfy`) defines the JavaScript semantics the code relies
  on. That covers a JSON-like `Value` (`Undefined | Null | Str | Num | Bool |
  Arr | Obj`), truthiness, `||`, `typeof` (with `typeof null === 'object'`),
  property reads, object spread, `String(...)` and ASCII case mapping. A
  property read on `null` or `undefined` throws a `TypeError`.

Every exception is an `Err` outcome. Nothing is a precondition. A `null`
`restaurantImage` makes `normalizeVendor` throw, and the model returns
`Err(TypeError)` for it. `loadVendor` catches every exception and stores `null`,
and the page then shows "Vendor not found".

The HTTP exchange is never performed. A reply is a parameter:
`Option<HttpReply>`, where `None` means `fetch` or `response.json()` rejected.
The Agents handlers take a flag that says whether the API call succeeded.

`src/pages/Agents.tsx` calls `api.getUsers`, `api.createUser`,
`api.updateUserById` and `api.deleteUserById`. The `ApiClient` in
`src/lib/api.ts` defines none of them; it has `getAgents`, `createAgent`,
`updateAgent` and `deleteAgent`. As shipped, each such call would throw inside
the handler's `try` and take the failure path. Because the call's outcome is a
parameter, the model covers both the success path and that failure path.
Schema-driven form configuration and an edit-request approval workflow have no
code in these files, so they are not part of this model.

## Model

| member | source | states |
|---|---|---|
| `Api.NormalizeImage` | src/lib/api.ts:171-173 | An image whose `typeof` is not "object" passes through unchanged. An object image yields its `secure_url`, and an array image yields `undefined`. A `null` image, and only that, throws a TypeError. |
| `Api.NormalizeVendor` | src/lib/api.ts:167-175 | A null or undefined record, or a null image, throws a TypeError, and nothing else does. The result is an object whose keys are the record's own keys plus `id` and `restaurantImage`. `id` is `_id` when `_id` is truthy and the incoming `id` otherwise. The image is flattened as `NormalizeImage` says. Every other key, `_id` included, is copied unchanged. |
| `Api.NormalizeVendors` | src/lib/api.ts:177-179 | The list succeeds exactly when every record normalises. It then has the same length, and element i is the normalisation of record i. A failure is the TypeError of the failing record. |
| `Api.NormalizeVendorIdempotent` | src/lib/api.ts:167-175 | Normalising a normalised record changes nothing, provided `secure_url` was not itself an object. |
| `Api.IdSourcesKept` | src/lib/api.ts:168-170 | The normalised record still reads the original `_id`, and its `id` is the canonical identifier. |
| `Api.ImageBareAfterNormalize` | src/lib/api.ts:171-173 | When `secure_url` is not an object, the normalised image is not an object either. |
| `Api.NestedImageIsNotIdempotent` | src/lib/api.ts:171-173 | Counterexample for the idempotence condition: a `secure_url` that is itself an image object is unwrapped again by a second pass. |
| `Api.NullImageThrows` | src/lib/api.ts:171-172 | Any object record whose `restaurantImage` is `null` makes normalisation throw a TypeError. |
| `Api.CanonicalIdTruthy` | src/lib/api.ts:170 | The canonical `id` is truthy exactly when `_id` or `id` is truthy, and `_id` is kept. |
| `Api.MergeHeaders` | src/lib/api.ts:30-39 | The headers are the caller's headers plus `Content-Type`, plus `Authorization` only when the token is non-empty. A caller's `Content-Type` overrides `application/json`. A non-empty token sets `Authorization` to `Bearer <token>`, overriding any caller value. Every other caller header is kept unchanged. |
| `Api.BaseUrl` | src/lib/api.ts:1 | The configured URL when it is non-empty, and `http://localhost:5000` otherwise. |
| `Api.RequestUrl` | src/lib/api.ts:41 | The fetched URL splits into the base URL followed by the endpoint. |
| `Api.Settle` | src/lib/api.ts:46-52 | A reply resolves exactly when it is ok, and then to its body unchanged. A failed reply throws the body's `message` when that is truthy and 'Request failed' otherwise. A failed reply whose body is `null` throws a TypeError. |
| `Api.Outcome` | src/lib/api.ts:41-46 | A rejected exchange is a network failure. A completed exchange is settled as `Settle` says. |
| `Api.StringMessageVerbatim` | src/lib/api.ts:48-49 | A failed reply carrying a non-empty string message throws exactly that message. |
| `Api.QueryEntries` | src/lib/api.ts:75-82 | The appended entries number at most the given parameters. Their other properties are proved in the three lemmas below. |
| `Api.QueryEntriesConcat` | src/lib/api.ts:77-81 | The query of concatenated parameter lists is the concatenation of their queries, so the order of the parameters is kept. |
| `Api.QueryEntriesMembership` | src/lib/api.ts:77-81 | `(k, v)` is in the query exactly when some parameter named `k` has a defined value whose `toString()` is `v`. |
| `Api.QueryEmptyIffAllUndefined` | src/lib/api.ts:78 | The query is empty exactly when every parameter is `undefined`. |
| `Api.SerializeQuery` | src/lib/api.ts:83 | The serialised query is empty exactly when there are no entries. |
| `Api.VendorsEndpoint` | src/lib/api.ts:68-87 | The loop appends exactly `QueryEntries` of the parameters. The endpoint is the bare vendors path when that query is empty, and otherwise the path, `?` and the serialised query. |
| `Api.VendorPath` | src/lib/api.ts:97-98 | The path splits into `/api/admin/vendors/` followed by the identifier. |
| `Api.VendorsByAgentPath` | src/lib/api.ts:89-94 | The path splits into `/api/admin/vendors?agentId=` followed by the unencoded agent identifier. |
| `Api.AgentPath` | src/lib/api.ts:143-158 | The path splits into `/api/agents/` followed by the identifier. |
| `Api.PathsInjective` | src/lib/api.ts:94-158 | Distinct identifiers give distinct vendor, agent-vendor and agent paths. |
| `Agents.Capitalize` | src/pages/Agents.tsx:114 | Capitalising keeps the length. |
| `Agents.CapitalizeOnlyChangesCase` | src/pages/Agents.tsx:114 | Only the first character changes, and it is upper-cased. The lower-cased label equals the lower-cased input. Capitalising twice is the same as capitalising once. |
| `Agents.RoleLabels` | src/pages/Agents.tsx:114 | The two tabs are labelled "Agent" and "Employee". |
| `Agents.Filtered` | src/pages/Agents.tsx:266-270 | The filtered list is no longer than the agent list. |
| `Agents.FilteredIsSubsequence` | src/pages/Agents.tsx:266-270 | The filtered list is a subsequence of the agents, in their original order. |
| `Agents.FilteredMembership` | src/pages/Agents.tsx:266-270 | An agent is kept exactly when it is listed and its lower-cased name or username includes the lower-cased search. |
| `Agents.FilteredConcat` | src/pages/Agents.tsx:266-270 | Filtering a concatenation is the concatenation of the filtered parts, so every matching occurrence is kept in place. |
| `Agents.FilteredSingleton` | src/pages/Agents.tsx:266-270 | A one-agent list keeps its agent exactly when it matches. |
| `Agents.FilteredOccurrences` | src/pages/Agents.tsx:266-270 | A matching agent occurs in the result as many times as in the list, and a non-matching one never does. |
| `Agents.FilteredMembershipAll` | src/pages/Agents.tsx:266-270 | The same membership, stated for every agent at once. |
| `Agents.EmptySearchKeepsAll` | src/pages/Agents.tsx:267-269 | An empty search keeps every agent, in order. |
| `Agents.FilterIgnoresSearchCase` | src/pages/Agents.tsx:267-269 | Lower-casing or upper-casing the search does not change the filtered list. |
| `Agents.CreateBody` | src/pages/Agents.tsx:105-110 | The create body has exactly the keys name, username, password and role. They hold the form strings and the active tab's role. |
| `Agents.CreateRequest` | src/pages/Agents.tsx:94-110 | No request is made exactly when the name, username or password is empty. Otherwise the request is the create body. |
| `Agents.UpdateBody` | src/pages/Agents.tsx:141-150 | The update body always holds name, username and isActive from the form. It holds `password` exactly when the form password is non-empty, and then holds that password. |
| `Agents.BuildUpdateData` | src/pages/Agents.tsx:141-150 | Building `updateData` and then assigning the password in place yields `UpdateBody` of the form. |
| `Agents.EditForm` | src/pages/Agents.tsx:217-222 | A form prefilled from an agent has a blank password. |
| `Agents.UntouchedEditKeepsPassword` | src/pages/Agents.tsx:141-150 | Submitting a freshly opened edit form sends the agent's own name, username and status and no password. It is accepted exactly when the name and username are non-empty. |
| `Agents.BlankFormRejected` | src/pages/Agents.tsx:94-137 | A reset form fails the create validation and the edit validation. |
| `Agents.AgentsPage.constructor` | src/pages/Agents.tsx:53-70 | The initial state: an empty search and list, loading, the agent tab, closed dialogs, no selection, a blank form and no submission in progress. |
| `Agents.AgentsPage.Visible` | src/pages/Agents.tsx:266-270 | The visible agents are exactly the listed agents that match the current search. |
| `Agents.AgentsPage.SetSearch` | src/pages/Agents.tsx:327 | Typing sets the search, and nothing else changes. |
| `Agents.AgentsPage.FinishLoadAgents` | src/pages/Agents.tsx:76-91 | The list becomes the received users, or the empty list when there were none or the call failed. Loading ends. |
| `Agents.AgentsPage.ResetForm` | src/pages/Agents.tsx:257-264 | The form becomes `{'', '', '', true}`, and nothing else changes. |
| `Agents.AgentsPage.OpenCreateDialog` | src/pages/Agents.tsx:197-200 | The form is blank and the create dialog is open. |
| `Agents.AgentsPage.CloseCreateDialog` | src/pages/Agents.tsx:202-206 | The create dialog is closed, submission is cleared and the form is blank. |
| `Agents.AgentsPage.OpenEditDialog` | src/pages/Agents.tsx:215-224 | The agent is selected, and its name, username and isActive prefill the form with a blank password. The edit dialog is open. |
| `Agents.AgentsPage.CloseEditDialog` | src/pages/Agents.tsx:208-213 | The edit dialog is closed, submission is cleared, there is no selection and the form is blank. |
| `Agents.AgentsPage.OpenDeleteDialog` | src/pages/Agents.tsx:226-229 | The agent is selected and the delete dialog is open. |
| `Agents.AgentsPage.HandleCreateAgent` | src/pages/Agents.tsx:93-127 | A rejected form sends nothing and changes nothing. Otherwise the create body is sent. A success then closes the dialog, blanks the form and clears submission. A failure only clears submission. |
| `Agents.AgentsPage.HandleEditAgent` | src/pages/Agents.tsx:129-169 | With no selection, or an empty name or username, nothing is sent and nothing changes. Otherwise the selected identifier and the update body are sent. A success then closes the dialog, clears the selection, blanks the form and clears submission. A failure only clears submission. |
| `Agents.AgentsPage.HandleDeleteAgent` | src/pages/Agents.tsx:171-195 | With no selection nothing is sent and nothing changes. Otherwise the selected identifier is sent. A success closes the dialog and clears the selection. Submission ends either way. |
| `Agents.EditRoundTrip` | src/pages/Agents.tsx:215-224 | Opening the edit dialog and submitting it unchanged and successfully sends no password. It leaves a blank form, no selection, a closed edit dialog and no submission in progress. The search, tab, list, loading flag and the other dialogs are untouched. |
| `VendorDetail.BankFieldText` | src/pages/VendorDetail.tsx:256-264 | A shown bank field is always truthy. It is the value itself when that is truthy, and 'Not provided' otherwise. |
| `VendorDetail.LastFour` | src/pages/VendorDetail.tsx:269 | `slice(-4)` gives the last min(4, length) elements. |
| `VendorDetail.MaskedAccountNumber` | src/pages/VendorDetail.tsx:268-270 | A falsy account number shows 'Not provided'. A string shows `****` followed by its last four characters. An array shows `****` followed by `String` of its last four elements. Any other truthy value throws a TypeError, and nothing else does. |
| `VendorDetail.MaskRevealsOnlyLastFour` | src/pages/VendorDetail.tsx:268-270 | The mask is four asterisks followed by a suffix of at most four characters of the number. Two numbers with the same last four characters look alike. A mask never reads as 'Not provided'. |
| `VendorDetail.OptionalBlock` | src/pages/VendorDetail.tsx:272-311 | The UPI, PayPal and agent blocks appear exactly when their value is truthy, and show that value. Among falsy values, only the number 0 renders, as the text "0". |
| `VendorDetail.YesNo` | src/pages/VendorDetail.tsx:111-115 | Shows "Yes" exactly for a truthy value and "No" otherwise. |
| `VendorDetail.DeliveryCharge` | src/pages/VendorDetail.tsx:170-175 | The caption is 'Fixed Charge' exactly when `deliveryChargeType === 'fixed'`, and 'Dynamic Charge' otherwise. The amount is always the charge the caption names. |
| `VendorDetail.ChargeTypeIsCaseSensitive` | src/pages/VendorDetail.tsx:171 | A type spelled 'Fixed' is shown as a dynamic charge. |
| `VendorDetail.ListSection` | src/pages/VendorDetail.tsx:122-144 | Chips are shown exactly for a non-empty array, one per element. A non-empty string, or an object whose `length` compares greater than 0, throws at `.map`. That covers a positive number, `true`, a positive decimal numeral and an array whose `String` is one. Every other value shows the placeholder. |
| `JsValue.PositiveRendersPositive` | src/pages/VendorDetail.tsx:122 | `String(n)` of a positive integer is a decimal numeral with a non-zero digit, so `Number` of it is positive. |
| `VendorDetail.SingletonArrayIsPositive` | src/pages/VendorDetail.tsx:122 | `[n] > 0` and `String(n) > 0` hold for every positive `n`. |
| `VendorDetail.ArrayLengthReachesMap` | src/pages/VendorDetail.tsx:122-125 | An object whose `length` is `[n]`, with `n` positive, passes the guard and throws at `.map`. |
| `VendorDetail.AbsentListShowsPlaceholder` | src/pages/VendorDetail.tsx:122-144 | A missing, null or empty categories or services list shows its placeholder text. |
| `VendorDetail.FetchVendor` | src/pages/VendorDetail.tsx:24-25 | A loaded vendor is always an object. |
| `VendorDetail.LoadedVendor` | src/pages/VendorDetail.tsx:21-32 | The stored vendor is `null` exactly when the request, the `data` read or the normalisation threw. Otherwise it is the normalised object. |
| `VendorDetail.ScreenAfterLoad` | src/pages/VendorDetail.tsx:34-56 | After a load, the details of the normalised record are shown when fetching succeeded. "Vendor not found" is shown otherwise. |
| `VendorDetail.SuccessfulLoadShowsNormalized` | src/pages/VendorDetail.tsx:21-32 | An ok reply shows exactly `normalizeVendor(response.data)`. |
| `VendorDetail.FailedLoadShowsNotFound` | src/pages/VendorDetail.tsx:26-28 | A failed reply, a network failure, or an ok reply without `data` shows "Vendor not found". |
| `VendorDetail.NormalizationKeepsShownFields` | src/pages/VendorDetail.tsx:25 | Normalisation leaves unchanged every field other than `id` and `restaurantImage`, together with the bank, account, charge, category and service lines derived from them. |
| `VendorDetail.VendorDetailPage.constructor` | src/pages/VendorDetail.tsx:12-13 | The page starts with a `null` vendor and in the loading state. |
| `VendorDetail.VendorDetailPage.LoadVendor` | src/pages/VendorDetail.tsx:21-32 | The vendor path is requested, the stored vendor becomes `LoadedVendor` of the reply, and loading ends. The page then shows the normalised record's details when fetching succeeded and "Vendor not found" otherwise. |
| `VendorDetail.VendorDetailPage.Mount` | src/pages/VendorDetail.tsx:15-19 | A route without an identifier loads nothing and the page stays as it was. With an identifier, the page loads. |

## Left out

- `fetch`, `response.json()`, `localStorage.getItem` and the backend are I/O. The reply, the stored token and the API call's success are parameters.
- React rendering, JSX, hooks, dialogs, toasts and navigation are left out. The toast texts are not modelled; the role label they use is.
- `loadAgents` re-running on a tab change, and any concurrent loads, are left out because they depend on async ordering. `FinishLoadAgents` models one load's end. After a successful create, edit or delete, the model does not reload the list.
- `openVendorsDialog` and `handleViewVendor` in `src/pages/Agents.tsx` are left out. They are navigation, and a vendor list loaded through `NormalizeVendors`, which is modelled.
- `login`, `getAnalytics`, `getAgents` and `createAgent` request fixed paths. `getAnalytics` and `getAgents` send no body. `login` and `createAgent` send `JSON.stringify` of their arguments. None of them adds shaping beyond `Api.MergeHeaders` and `Api.Settle`.
- `AgentsPage` has no methods for the tab switch (`setActiveTab`) or for typing into the form (`setFormData({...formData, ...})`). Those are single field assignments of `activeTab` or `formData`, with no logic of their own. The `console.error` call in `loadVendor` is logging and is not modelled either.
- `toLocaleDateString`, in `formatDate` and in the submitted-date line, is locale-dependent library behaviour and is left out.
- `src/App.tsx`, `src/components/AdminLayout.tsx`, `src/components/AdminSidebar.tsx` and `src/components/StatCard.tsx` are routing and layout wiring with no statable logic.
- Numbers are unbounded integers. NaN, -0 and fractional numbers are not modelled.
- Object key order is not modelled, because objects are maps. Query parameters are an ordered list, because their order matters.
- Inherited (prototype) properties are not modelled. Property reads see own properties, plus `length` of strings and arrays.
- `Agents.Matches`, `JsValue.Lower` and `JsValue.Upper` case-map ASCII letters only, not Unicode.
- `Api.SerializeQuery` takes the percent-encoder of `URLSearchParams` as an abstract function. The form-encoding rules are not modelled.
- `Api.MergeHeaders` treats caller headers as a plain record. `Headers` instances and header arrays are not modelled, and neither is case-insensitive header merging by `fetch`.
- `VendorDetail.ListSection` compares a string `length`, or an array `length` through its `String`, with 0 only when that string is plain decimal digits. A string with whitespace, a sign, a fraction, an exponent or a hex prefix (`' 5'`, `'+5'`, `'0.5'`, `'1e3'`, `'0x5'`) counts as not positive, so the model shows the placeholder where JavaScript would reach `.map` and throw. Only a plain object record can carry such a `length`.
- `VendorDetail.LastFour` and `Agents.Capitalize` count Unicode scalar values, while JavaScript's `slice(-4)` and `charAt(0)` count UTF-16 code units. The two differ on characters outside the Basic Multilingual Plane. `'12😀😀'.slice(-4)` is `'😀😀'`, while `LastFour` keeps all four characters. For `Capitalize`, `charAt(0)` would split a surrogate pair that `slice(1)` then rejoins. Only ASCII letters change case, so the text comes out the same, but the model does not represent the split.
- `Api.Settle` converts a thrown message with `String(...)`. An object's own `toString` is not consulted.
