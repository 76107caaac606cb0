# Bounce Mobile: a verified model of the app's session, request gateway and contact workflow

Bounce Mobile is an Ionic/React app that helps a party-rental business work through its booking
contacts. This project models in Dafny the parts of the app that carry logic:

- **The session** (`Auth`, `AuthFacts`). The signed-in user is held in memory, and three keys
  are persisted in the device store. The model covers login, logout and token refresh, plus the
  authorised request that refreshes once and retries once on a 401. Each operation is a
  specification function over a `World`, which holds the user, the store, the ordered trace of
  store reads/writes, user publications and requests, and the fetch log. The `AuthService`
  class performs each operation step by step and is proved equal to its function.
- **The request gateway** (`Gateway`).
  - On a native device it posts an opaque `no-cors` form and answers with a synthesised success.
  - In a browser it forwards to `fetch` with a JSON content type.
  - The network is a `Network` object that logs every call. It answers each call through a
    scripted function of the call's index and request, so proofs can fix any sequence of
    server behaviour.
- **The contacts API** (`ContactsService`, `FormUrl`).
  - The listing call builds a query string the way `URLSearchParams` does, and paginates on
    the client side.
  - It also covers the single-contact calls and their `result.contact || result` unwrapping.
  - `FormUrl` shows that a server reading the query string gets back exactly the pairs that
    were appended.
- **The contacts hook** (`UseContacts`). This is the rendered state, the filters and the page
  size, with fetch, page change, filter merge and status update, plus the derived views: by
  status, and the parties of the coming week.
- **The screens' logic.**
  - `ContactsList`: the pagination row with its buttons, and the status menu.
  - `ContactsFilter`: the filter form.
  - `StatusBadge`: the colour of a status badge.
  - `Menu`: the menu's page sets and logout.
  - `Dashboard`: the dashboard's summary counts and its Confirm button.
- **The JavaScript semantics the code relies on** (`Json`, `Js`).
  - JSON text is written as `JSON.stringify` writes it. It is proved to parse back
    (`JSON.parse`).
  - The model also covers truthiness, `String()`, property reads that throw on null,
    optional chaining and `Object.keys`.

The logout operation is modelled as written. It removes the refresh token and only then reads
it, so the stored token can never be present at that read. `AuthFacts.LogoutClears` proves the
consequence: logout never contacts the logout endpoint.

## Model

| member | source | states |
|---|---|---|
| Json.ParseOfSerialize | src/services/auth.service.ts:72 | JSON.parse of the text JSON.stringify writes gives back the very value, for every value |
| Json.SerializeInjective | src/services/contacts.service.ts:76 | two values with the same JSON text are equal, so a request body determines the value sent |
| Json.ParseValueOfSerialize | src/services/auth.service.ts:28 | a value's text followed by the end of the text, ',', ']' or '}' parses to that value and leaves exactly that continuation |
| Json.ParseCharsOfEscape | src/services/auth.service.ts:72 | an escaped string's characters, through the closing quote, parse back to the original string |
| Json.ParseNatOfNatToString | src/services/contacts.service.ts:22-23 | the decimal text of a number parses back to that number and leaves what follows it |
| Json.NatToStringInjective | src/services/contacts.service.ts:22-23 | different numbers have different decimal texts |
| Json.NatToStringLeadingZero | src/services/contacts.service.ts:22 | a decimal text starts with '0' only for zero itself |
| Json.DigitsValueOfNatToString | src/services/contacts.service.ts:22 | the digits of a number's text denote that number |
| Json.ParseItemsOfSerialize | src/services/auth.service.ts:28 | the items of a non-empty array's text parse back to those items |
| Json.ParseMembersOfSerialize | src/services/auth.service.ts:28 | the members of a non-empty object's text parse back to those members, keys and values in order |
| Js.ParseJson | src/services/auth.service.ts:28 | JSON.parse returns a value exactly when the text is JSON, and otherwise throws a SyntaxError |
| Js.ParseJsonOfSerialize | src/services/auth.service.ts:72 | JSON.parse(JSON.stringify(v)) does not throw and returns v |
| Js.Or | src/services/auth.service.ts:62 | `a \|\| b` is a when a is truthy, and b otherwise |
| Js.ToStrOfScalar | src/services/proxy.service.ts:75 | String() of a string is the string itself; for null, booleans and numbers String() and JSON.stringify agree |
| Js.IndexOf | src/services/proxy.service.ts:75 | a key names an array index only when it is that index's canonical decimal text |
| Js.IndexOfNatToString | src/services/proxy.service.ts:74-75 | every index's own text names that index |
| Js.NatToStringOfDigits | src/services/proxy.service.ts:74-75 | a digit text without a leading zero is the text of the number it denotes |
| Js.LastValue | src/services/auth.service.ts:65 | the value read for a key is that of the last member with the key, and there is none exactly when no member has the key |
| Js.Get | src/services/auth.service.ts:70-72 | reading a key of an object is undefined exactly when no member has that key; a number, boolean or null has no members |
| Js.Prop | src/services/auth.service.ts:62 | `v.key` throws exactly on null and undefined, and otherwise reads the member |
| Js.OptionalMember | src/services/proxy.service.ts:98 | `v?.key` never throws: it is undefined on null and undefined, and agrees with `v.key` otherwise |
| Js.Dedup | src/services/proxy.service.ts:74 | the distinct keys: the same key set, each key once |
| Js.DedupKeepsFirstOccurrenceOrder | src/services/proxy.service.ts:74 | the distinct keys of every prefix of the list are a prefix of the distinct keys of the whole list, so each key keeps the place of its first occurrence |
| Js.MemberKeys | src/services/proxy.service.ts:74 | one key per member, in member order |
| Js.Indices | src/services/proxy.service.ts:74 | an array's keys are the texts of its indices, in order |
| Js.KeysAreDefined | src/services/proxy.service.ts:74-75 | every key Object.keys lists reads back a defined value |
| Js.KeysOfObject | src/services/proxy.service.ts:74 | Object.keys of an object lists exactly its member names, each once |
| Gateway.BaseUrl | src/services/proxy.service.ts:25-32 | the base URL is empty exactly for a browser development build, and the site's address otherwise |
| Gateway.JsonOptions | src/services/proxy.service.ts:161-166 | a request with the given method, no headers, and a body that parses back to the data given |
| Gateway.PostOptions | src/services/proxy.service.ts:161-166 | post sends a POST with no headers, whose body parses back to the data given |
| Gateway.GetOptions | src/services/proxy.service.ts:174-179 | get sends a GET with exactly the given headers and no body |
| Gateway.NativeData | src/services/proxy.service.ts:53-65 | on native, the data is defined only when the body is non-empty JSON, and is then the parsed body |
| Gateway.FormFields | src/services/proxy.service.ts:70-77 | the form holds one field per key of Object.keys(data), in that order, each with String(data[key]) |
| Gateway.Request | src/services/proxy.service.ts:40-136 | the request fetched: the base URL then the endpoint; on native a no-cors request without headers, a POST carrying the form and any other method (GET when none or empty) carrying no body; in a browser the caller's method, and the body as text when there is one |
| Gateway.Respond | src/services/proxy.service.ts:82-152 | the call throws exactly when fetch rejects, with fetch's error; on native the answer is ok with status 200 and text `{"success": true}`, and a non-POST answers `{success: true}`; in a browser the answer is fetch's ok and status, with json() and text() read from its body |
| Gateway.MockEmail | src/services/proxy.service.ts:98 | the mock login answer's email is data?.email when that is truthy, and the placeholder address otherwise |
| Gateway.Send | src/services/proxy.service.ts:40-153 | each call appends exactly the one request it makes to the fetch log |
| Gateway.SendFetchesOnce | src/services/proxy.service.ts:82-86 | every call fetches exactly once, at the base URL followed by the endpoint, keeping the earlier log |
| Gateway.NativeAlwaysOk | src/services/proxy.service.ts:88-127 | on native, an answer is always ok with status 200, and the call throws exactly when fetch rejects |
| Gateway.NativeOtherAnswer | src/services/proxy.service.ts:110-127 | on native, a non-POST request answers `{success: true}` and sends no body, whatever fetch returned |
| Gateway.NativeBadBodySwallowed | src/services/proxy.service.ts:55-65 | on native, a POST body that is not JSON is swallowed: the data is undefined and the form is empty |
| Gateway.NativePostFormFields | src/services/proxy.service.ts:68-86 | a native post of an object sends a no-cors POST, with no headers, of a form whose field names are exactly the object's keys, each once |
| Gateway.NativePostEchoesEmail | src/services/proxy.service.ts:90-103 | a native post answers the mock login body, echoing the posted email when truthy |
| Gateway.WebHeaders | src/services/proxy.service.ts:130-136 | in a browser, the caller's headers pass through and Content-Type is application/json unless the caller set it |
| Gateway.WebPassThrough | src/services/proxy.service.ts:138-143 | in a browser, ok and status are fetch's own, and json()/text() read the body fetch returned |
| Gateway.RejectionRethrown | src/services/proxy.service.ts:145-152 | a rejected fetch is rethrown unchanged on every path |
| Gateway.Network.constructor | src/services/proxy.service.ts:82 | a new network has made no calls |
| Gateway.Network.Fetch | src/services/proxy.service.ts:82-86 | a fetch is answered by the script for its index and is appended to the log |
| Gateway.ProxyService.constructor | src/services/proxy.service.ts:17-18 | the service keeps its platform flags and network |
| Gateway.ProxyService.BuildForm | src/services/proxy.service.ts:73-77 | the append loop builds exactly the form fields of the data |
| Gateway.ProxyService.SendRequest | src/services/proxy.service.ts:40-153 | the result and the new fetch log are those of the sendRequest specification |
| Gateway.ProxyService.Post | src/services/proxy.service.ts:161-166 | post is sendRequest with the POST options of the data |
| Gateway.ProxyService.Get | src/services/proxy.service.ts:174-179 | get is sendRequest with the GET options of the headers |
| Auth.StoreGet | src/services/auth.service.ts:25-26 | a store read finds a value exactly when the key is stored, and then it is the stored value |
| Auth.TokenOr | src/services/auth.service.ts:164-165 | `result?.value \|\| ''` is the stored token when present and non-empty, and the empty text otherwise |
| Auth.PersistedText | src/services/auth.service.ts:72 | the text stored for a user parses back to that user; an undefined user is stored as text that does not parse |
| Auth.LoginError | src/services/auth.service.ts:59-63 | a rejected login throws `error.error` when truthy and "Login failed" otherwise; a null body throws on the property read |
| Auth.Authorized | src/services/auth.service.ts:168-171 | the request's headers are the caller's with Authorization set to `Bearer <token>`; method and body are kept |
| Auth.LoadStoredUserSpec | src/services/auth.service.ts:23-37 | loading the stored user changes neither the store nor the fetch log, and the user either stays or becomes the value the stored text parses to |
| Auth.LoginSpec | src/services/auth.service.ts:47-87 | login posts the credentials to the login endpoint once; a failure keeps the user and the store; a success makes the returned user current and stores its JSON text |
| Auth.NotifySpec | src/services/auth.service.ts:103-117 | notifying the server keeps the user and the store, and fetches once exactly when the token is present |
| Auth.LogoutSpec | src/services/auth.service.ts:89-126 | after logout the user is null, and the trace and the fetch log only grow |
| Auth.RefreshSpec | src/services/auth.service.ts:128-160 | refresh keeps the user and fetches at most once; a false answer leaves the store alone, and after a true one the stored keys are the old ones plus the two token keys |
| Auth.RetrySpec | src/services/auth.service.ts:182-201 | the retry fetches at most twice, and exactly twice unless it throws "Session expired" |
| Auth.ApiRequestSpec | src/services/auth.service.ts:162-212 | apiRequest fetches one to three times, and the trace and the log only grow |
| Auth.AuthService.constructor | src/services/auth.service.ts:17-21 | a new service starts with a null user, and then loads the stored user |
| Auth.AuthService.IsAuthenticated | src/services/auth.service.ts:43-45 | authenticated exactly when the user is not null |
| Auth.AuthService.ReadKey | src/services/auth.service.ts:25 | a store read returns the stored value and records the read |
| Auth.AuthService.WriteKey | src/services/auth.service.ts:70-72 | a store write sets the key and records the write |
| Auth.AuthService.RemoveKey | src/services/auth.service.ts:95-97 | a store removal drops the key and records the removal |
| Auth.AuthService.Next | src/services/auth.service.ts:75 | publishing a user sets it and records the publication |
| Auth.AuthService.Call | src/services/auth.service.ts:52-55 | a proxy call is the gateway's sendRequest, recorded in the trace |
| Auth.AuthService.LoadStoredUser | src/services/auth.service.ts:23-37 | the new session is that of the loadStoredUser specification |
| Auth.AuthService.Login | src/services/auth.service.ts:47-87 | the result and the new session are those of the login specification |
| Auth.AuthService.NotifyLogout | src/services/auth.service.ts:103-117 | the logout endpoint is posted only with a present token, and its outcome is ignored |
| Auth.AuthService.Logout | src/services/auth.service.ts:89-126 | the new session is that of the logout specification |
| Auth.AuthService.RefreshToken | src/services/auth.service.ts:128-160 | the result and the new session are those of the refresh specification |
| Auth.AuthService.Retry | src/services/auth.service.ts:182-201 | the 401 branch behaves as the retry specification |
| Auth.AuthService.ApiRequest | src/services/auth.service.ts:162-212 | the result and the new session are those of the apiRequest specification |
| AuthFacts.LoadStoredUserOutcome | src/services/auth.service.ts:23-37 | a stored user that parses becomes the in-memory user; otherwise the user is left alone; the store never changes |
| AuthFacts.LoginSucceeds | src/services/auth.service.ts:65-78 | an accepted login writes the access token, the refresh token and the user, in that order, then publishes and returns the user |
| AuthFacts.LoginThenReload | src/services/auth.service.ts:72 | a user that login stored is what loadStoredUser brings back in a fresh session |
| AuthFacts.LoginRejected | src/services/auth.service.ts:59-63 | a non-ok login throws `error.error` or "Login failed", and writes nothing |
| AuthFacts.LoginFailureChangesNothing | src/services/auth.service.ts:79-86 | whatever the network does, a failed login leaves the user and the store as they were |
| AuthFacts.LogoutClears | src/services/auth.service.ts:89-101 | after logout the user is null, the three keys are gone, other keys are kept, and nothing is fetched |
| AuthFacts.NotifyOnlyWithToken | src/services/auth.service.ts:103-117 | the logout endpoint is contacted exactly when the token read is present, and never changes the user or the store |
| AuthFacts.RefreshWithoutToken | src/services/auth.service.ts:130-134 | without a stored refresh token, refresh answers false and calls nothing |
| AuthFacts.RefreshOutcome | src/services/auth.service.ts:136-159 | refresh answers true exactly when the call got an ok, non-null JSON answer; it then overwrites both tokens, and otherwise leaves the store alone |
| AuthFacts.ApiRequestAuthorizes | src/services/auth.service.ts:164-179 | the first request carries `Bearer <stored access token or "">`, replacing the caller's Authorization header |
| AuthFacts.ApiRequestPassesThrough | src/services/auth.service.ts:176-203 | any answer but a 401, and any thrown error, is handed back unchanged after exactly one call |
| AuthFacts.ApiRequestRetriesOnce | src/services/auth.service.ts:183-195 | on a 401 with a successful refresh, the request is retried once with the renewed token, and that answer, 401 or not, is returned |
| AuthFacts.ApiRequestExpires | src/services/auth.service.ts:196-200 | on a 401 whose refresh fails, the session is logged out and "Session expired" is thrown |
| AuthFacts.ApiRequestCalls | src/services/auth.service.ts:162-212 | apiRequest makes one, two or three fetch calls, appended to the log in order |
| AuthFacts.NativeNeverRetries | src/services/proxy.service.ts:88-127 | on a native device no answer is a 401, so apiRequest never refreshes or retries |
| AuthFacts.RenewedTokens | src/services/auth.service.ts:148-149 | the refresh answer's two members read back as the two new tokens |
| AuthFacts.FirstCallOfScenario | src/services/auth.service.ts:176-182 | in the scripted run, the first call carries the old access token and receives a 401 |
| AuthFacts.ScenarioRefreshCall | src/services/auth.service.ts:139 | in the scripted run, the refresh call receives the renewed tokens |
| AuthFacts.ScenarioRefreshes | src/services/auth.service.ts:128-151 | in the scripted run, refresh succeeds and stores the renewed tokens |
| AuthFacts.RefreshScenario | src/services/auth.service.ts:162-203 | with two stored tokens, a 401 then a renewal: three fetches, the retry carries the new access token, and its answer is returned |
| ContactTypes.FromLabel | src/types/contact.ts:2-7 | a label names a status only when it is that status's own label |
| ContactTypes.FromLabelOfLabel | src/types/contact.ts:2-7 | every status's label names that status |
| ContactTypes.FiveStatuses | src/types/contact.ts:2-7 | there are exactly five statuses, each listed once, with five different labels |
| ContactTypes.PhoneAcceptedMatches | src/types/contact.ts:101 | the phone check accepts exactly what the pattern matches, `\s` being JavaScript's white-space and line-terminator set |
| ContactTypes.LastDot | src/types/contact.ts:100 | the position found is a '.', and no '.' comes after it |
| ContactTypes.FirstAt | src/types/contact.ts:100 | the position found is an '@', and no '@' comes before it |
| ContactTypes.DottedLabelsAreGroups | src/types/contact.ts:100 | a domain split at its dots matches `([\w-]+\.)+` |
| ContactTypes.GroupsAreDottedLabels | src/types/contact.ts:100 | a text matching `([\w-]+\.)+` is a run of non-empty labels, each followed by a dot |
| ContactTypes.FirstAtAfterLocal | src/types/contact.ts:100 | an '@' right after a local part is the first '@' |
| ContactTypes.LastDotBeforeTail | src/types/contact.ts:100 | a '.' followed only by label characters is the last '.' |
| ContactTypes.EmailAcceptedIsMatch | src/types/contact.ts:100 | every address the check accepts matches the e-mail pattern |
| ContactTypes.EmailMatchIsAccepted | src/types/contact.ts:100 | every address matching the e-mail pattern is accepted |
| ContactTypes.EmailAcceptedMatches | src/types/contact.ts:100 | the e-mail check accepts exactly what the pattern matches |
| ContactTypes.EmailShape | src/types/contact.ts:100 | an accepted non-empty address has exactly one '@', and 2 to 4 characters after its last '.' |
| StatusBadge.BadgeColor | src/components/ContactStatusBadge.tsx:13-28 | Confirmed is success, Pending warning, Called / Texted tertiary, Declined danger |
| StatusBadge.RenderBadge | src/components/ContactStatusBadge.tsx:30-37 | the badge shows the status text itself |
| StatusBadge.MediumMeansCancelledOrUnknown | src/components/ContactStatusBadge.tsx:23-26 | the grey badge means exactly cancelled, or no known status |
| StatusBadge.ColorsTellStatusesApart | src/components/ContactStatusBadge.tsx:13-28 | two known statuses share a colour exactly when they are the same status |
| StatusBadge.BadgeColorInTheme | src/components/ContactStatusBadge.tsx:13-28 | every colour is one of the theme's five |
| FormUrl.Utf8 | src/services/contacts.service.ts:29 | a character's UTF-8 encoding is 1 to 4 bytes, and a single byte, equal to the character, exactly for ASCII |
| FormUrl.UpperHexValue | src/services/contacts.service.ts:29 | a hex digit read back is one whose upper-case digit is that character |
| FormUrl.UpperHexValueOf | src/services/contacts.service.ts:29 | every upper-case hex digit reads back as its value |
| FormUrl.EncodeBytesInAlphabet | src/services/contacts.service.ts:29 | encoded bytes use only unreserved characters, '+', '%' and hex digits |
| FormUrl.EncodeHasNoDelimiters | src/services/contacts.service.ts:29-30 | encoded text never holds '&', '=', a space, '?' or '#' |
| FormUrl.PercentDecodeOfEncodeByte | src/services/contacts.service.ts:29 | decoding one written byte gives the byte back, then decodes the rest |
| FormUrl.PercentDecodeOfEncodeBytes | src/services/contacts.service.ts:29 | decoding written bytes gives the bytes back |
| FormUrl.PercentDecodeOfEncode | src/services/contacts.service.ts:29 | decoding an encoded text gives exactly the text's UTF-8 bytes |
| FormUrl.EncodePlain | src/services/contacts.service.ts:22-27 | text of digits, ASCII letters and `-._*` (page numbers, ISO dates) is written unchanged |
| FormUrl.QueryString | src/services/contacts.service.ts:29-30 | the query string is empty exactly when no pair was appended |
| FormUrl.JoinAmpEmpty | src/services/contacts.service.ts:29-30 | non-empty pieces join to the empty text only when there are none |
| FormUrl.SplitAmpPlain | src/services/contacts.service.ts:29 | a piece without '&' splits to itself |
| FormUrl.SplitAmpStep | src/services/contacts.service.ts:29 | splitting `p&q` gives p followed by the pieces of q |
| FormUrl.FirstEquals | src/services/contacts.service.ts:29 | the position found is the first '=' |
| FormUrl.PairBytes | src/services/contacts.service.ts:29 | the bytes a server should see: each pair's name and value as UTF-8, in order |
| FormUrl.ParsePairOfPairText | src/services/contacts.service.ts:29 | one pair's text has no '&' and reads back as that pair's bytes |
| FormUrl.ParseJoinedPairs | src/services/contacts.service.ts:29 | the pieces of joined pair texts read back as the pairs' bytes |
| FormUrl.ParseQueryOfQueryString | src/services/contacts.service.ts:20-29 | a server reading the query gets back exactly the appended pairs, as UTF-8 bytes, in order |
| ContactsService.NumberParam | src/services/contacts.service.ts:22-23 | a numeric parameter is appended exactly when it is present and not 0, as its decimal text |
| ContactsService.TextParam | src/services/contacts.service.ts:24-27 | a text parameter is appended exactly when it is present and not empty, as itself |
| ContactsService.TruthyKeys | src/services/contacts.service.ts:22-27 | the parameters kept are exactly the truthy ones among those given |
| ContactsService.PairsOf | src/services/contacts.service.ts:22-27 | each kept parameter gives one pair: its name with its text |
| ContactsService.ContactsUrl | src/services/contacts.service.ts:29-30 | the URL is `/api/v1/contacts`, with `?` and the query only when the query is not empty |
| ContactsService.QueryStep | src/services/contacts.service.ts:22-27 | one more conditional append extends the pairs by that parameter's pair, if it is truthy |
| ContactsService.QueryPairsAreTheAppends | src/services/contacts.service.ts:20-27 | the query pairs are the six conditional appends, one after another in the source's order |
| ContactsService.TruthyKeysInOrder | src/services/contacts.service.ts:22-27 | the kept parameters keep the fixed order |
| ContactsService.QueryPairsShape | src/services/contacts.service.ts:22-27 | the query lists exactly the truthy parameters, each once with its text, in the order page, limit, startDate, endDate, deliveryDay, confirmed |
| ContactsService.KeyNameInjective | src/services/contacts.service.ts:22-27 | different parameters are appended under different names |
| ContactsService.ContactsUrlQueryReadsBack | src/services/contacts.service.ts:29-32 | a server reading the listing URL's query gets back exactly the appended pairs |
| ContactsService.SliceBound | src/services/contacts.service.ts:49 | a slice bound lies within the list, and an in-range bound is kept |
| ContactsService.SliceLength | src/services/contacts.service.ts:49 | a slice is never longer than end minus start |
| ContactsService.CeilDiv | src/services/contacts.service.ts:50 | Math.ceil(n / d) is the least whole count of d-sized pages covering n |
| ContactsService.PageOrDefault | src/services/contacts.service.ts:45 | `page \|\| 1`: the given page when it is present and not 0, and 1 otherwise |
| ContactsService.LimitOrDefault | src/services/contacts.service.ts:46 | `limit \|\| 10`: the given limit when it is present and not 0, and 10 otherwise |
| ContactsService.Paginate | src/services/contacts.service.ts:43-59 | the total count is the length of the whole list, the current page is `page \|\| 1`, and with a positive limit the page count is the least number of limit-sized pages holding every contact (mirrored for a negative limit) |
| ContactsService.PageSizeBound | src/services/contacts.service.ts:46-49 | with a positive limit, whatever the page, a page never holds more contacts than the limit; 10 when the limit is falsy |
| ContactsService.PageIsWindow | src/services/contacts.service.ts:47-49 | for a positive page and limit, the page is exactly those contacts, in order, of the window starting at (page-1)*limit |
| ContactsService.PageFlags | src/services/contacts.service.ts:50-58 | there is a next page exactly when contacts remain after this one, and a previous page exactly when this one starts after the first contact |
| ContactsService.EveryContactOnAPage | src/services/contacts.service.ts:47-49 | every contact is on page i/limit + 1 at slot i%limit, and that page is in range |
| ContactsService.DivisionSlot | src/services/contacts.service.ts:47-49 | the contact at q*limit + m is at slot m of page q+1 |
| ContactsService.ContactList | src/services/contacts.service.ts:43-49 | the list is `result.contacts` when it is an array, the result when it is a bare array, empty when neither is truthy; a truthy value that is neither an array nor a string throws in slice, and null throws |
| ContactsService.Unwrap | src/services/contacts.service.ts:85 | `result.contact \|\| result`: the member when truthy, the whole result otherwise; null throws |
| ContactsService.ListingOutcome | src/services/contacts.service.ts:32-59 | a thrown call is rethrown, a non-ok answer throws with its status, and an ok answer succeeds exactly when its body is JSON from which the list is read without throwing, giving the page cut from that list |
| ContactsService.SingleOutcome | src/services/contacts.service.ts:79-85 | a thrown call is rethrown, a non-ok answer throws with its status, and a success is an ok JSON answer unwrapped with `result.contact \|\| result` |
| ContactsService.ContactPath | src/services/contacts.service.ts:74 | a contact's endpoint is `/api/v1/contacts/<id>` |
| ContactsService.StatusPatch | src/services/contacts.service.ts:74-77 | a PATCH with no headers whose body parses to `{"confirmed": <label>}` |
| ContactsService.ListingRequestAndError | src/services/contacts.service.ts:29-36 | the listing makes one GET to the listing URL, and a non-ok answer throws with its status |
| ContactsService.ListingPagesTheServerList | src/services/contacts.service.ts:38-59 | on a web answer of `{"contacts": [...]}` or a bare array, the page is cut from that list |
| ContactsService.NativeListingIsEmpty | src/services/contacts.service.ts:43 | on native, the proxy's placeholder answer holds no list, so every listing is empty, with no pages |
| ContactsService.StatusUpdateRequest | src/services/contacts.service.ts:74-77 | setting a status sends one PATCH to the contact's endpoint, whose body reads back as `{"confirmed": <label>}` |
| ContactsService.StatusUpdateResult | src/services/contacts.service.ts:79-85 | an ok answer to the status PATCH that is JSON is parsed and unwrapped with `result.contact \|\| result` |
| ContactsService.SingleCallErrors | src/services/contacts.service.ts:79-81 | the single-contact calls throw the right text with the status of a non-ok answer |
| ContactsService.UnwrapCases | src/services/contacts.service.ts:84-85 | the real API's `{"contact": c}` yields c; the proxy's `{"success": true}` is returned whole |
| ContactsService.ContactsApi.constructor | src/services/contacts.service.ts:2 | the API object keeps its gateway |
| ContactsService.ContactsApi.AppendParam | src/services/contacts.service.ts:22-27 | one conditional append adds exactly that parameter's pair, if any |
| ContactsService.ContactsApi.BuildQuery | src/services/contacts.service.ts:20-27 | the appends build exactly the query pairs |
| ContactsService.ContactsApi.FetchContacts | src/services/contacts.service.ts:10-64 | the result and the fetch log are those of the listing specification |
| ContactsService.ContactsApi.UpdateContactStatus | src/services/contacts.service.ts:69-90 | the result and the fetch log are those of the status-update specification |
| ContactsService.ContactsApi.GetContactById | src/services/contacts.service.ts:95-110 | the result and the fetch log are those of the single-contact fetch specification |
| ContactsService.ContactsApi.UpdateContact | src/services/contacts.service.ts:115-136 | the result and the fetch log are those of the contact-update specification |
| UseContacts.FilterValue | src/hooks/useContacts.ts:18-23 | a filter absent from the object is undefined |
| UseContacts.ParamsFor | src/hooks/useContacts.ts:47-51 | the listing parameters are the page, the page size and the four filters |
| UseContacts.Merge | src/hooks/useContacts.ts:81 | every key of the new filters wins, and the other old keys stay |
| UseContacts.Started | src/hooks/useContacts.ts:44 | loading starts with no error, keeping the list and the pagination |
| UseContacts.Loaded | src/hooks/useContacts.ts:53-64 | the state installed from an answer is its page and its pagination, not loading, without error |
| UseContacts.Failed | src/hooks/useContacts.ts:65-71 | a failure stops loading and shows the message, keeping the list and the pagination |
| UseContacts.FetchSpec | src/hooks/useContacts.ts:43-72 | a fetch sets two states, first a loading one and last the final one, which is not loading, and adds exactly one request to the log |
| UseContacts.UpdateStatusSpec | src/hooks/useContacts.ts:91-106 | a status update first shows the old state loading, ends on the last state it sets, and extends the fetch log |
| UseContacts.AfterStatusRequest | src/hooks/useContacts.ts:95-105 | once the status request has settled, at least one more state is set, the last being the final one, and the log only grows |
| UseContacts.FetchShowsLoadingThenSettles | src/hooks/useContacts.ts:43-72 | a fetch first shows loading with the old list and no error, then settles with either the answer's page or the old list and the error's message |
| UseContacts.FetchSendsTheFilters | src/hooks/useContacts.ts:47-51 | a fetch is one GET of the listing URL built from the page, the page size and the current filters |
| UseContacts.FetchQueryNamesTheFilters | src/hooks/useContacts.ts:47-51 | the query names the page and the page size when they are not 0, and a filter exactly when its value is non-empty text |
| UseContacts.MergeEmptyAndTwice | src/hooks/useContacts.ts:81 | merging an empty object changes nothing, and merging the same object twice is merging it once |
| UseContacts.MergeUndefinedClears | src/hooks/useContacts.ts:81 | a key given undefined drops the old value from every later query and leaves the other keys alone |
| UseContacts.UpdateStatusFailureStops | src/hooks/useContacts.ts:99-105 | a failed status update shows its error, keeps the list and makes no second request |
| UseContacts.UpdateStatusRefetchesTheCurrentPage | src/hooks/useContacts.ts:95-98 | a successful status update is followed by a fetch of the page that was current when it began |
| UseContacts.Filter | src/hooks/useContacts.ts:114-122 | filtering keeps exactly the elements that pass the test, and never lengthens the list |
| UseContacts.FilterAppend | src/hooks/useContacts.ts:122 | filtering a concatenation filters each part, keeping the parts in order |
| UseContacts.FilterCount | src/hooks/useContacts.ts:122 | filtering keeps every copy of a kept element and drops every copy of the others |
| UseContacts.FilterDisjointLengths | src/pages/Dashboard.tsx:82-83 | two filters that never keep the same element keep, together, at most the whole list |
| UseContacts.TryFilter | src/hooks/useContacts.ts:114-122 | a filter whose test may throw succeeds exactly when the test succeeds on every element, and then keeps exactly the elements that pass; otherwise it throws the error of the first element whose test throws |
| UseContacts.TryFilterIsFilter | src/hooks/useContacts.ts:114-122 | a filter that does not throw keeps, in order, what the plain filter keeps |
| UseContacts.HasStatus | src/hooks/useContacts.ts:122 | a contact has a status only when it is an object whose `confirmed` text names that status |
| UseContacts.StatusTest | src/hooks/useContacts.ts:122 | `contact.confirmed === status` throws exactly on a null contact, and otherwise is true exactly when the contact has the status |
| UseContacts.PartyTime | src/hooks/useContacts.ts:115 | a missing party date is an invalid date, a text is read by the date parser, and a number is a time already |
| UseContacts.UpcomingTest | src/hooks/useContacts.ts:114-117 | the upcoming test throws exactly on a null contact, and otherwise is true exactly when its party is in the coming week |
| UseContacts.ContactsByStatus | src/hooks/useContacts.ts:121-123 | the status view throws exactly when a loaded element is null; otherwise it keeps, in order, exactly the loaded contacts whose status is the given one |
| UseContacts.UpcomingContacts | src/hooks/useContacts.ts:109-118 | the upcoming view throws exactly when a loaded element is null; otherwise it is the ordered sub-list of the loaded contacts whose party is between now and a week from now, every copy kept |
| UseContacts.StatusViewsAreDisjoint | src/hooks/useContacts.ts:121-123 | when the views do not throw, a contact is in at most one status view |
| UseContacts.StatusViewCounts | src/hooks/useContacts.ts:121-123 | when the view does not throw, a status view keeps every copy of a contact with that status |
| UseContacts.ContactsHook.constructor | src/hooks/useContacts.ts:25-40 | the hook starts with no contacts, not loading, no error, page 1 of 0, and the given filters and page size |
| UseContacts.ContactsHook.FetchContacts | src/hooks/useContacts.ts:43-72 | the states set and the fetch log are those of the fetch specification; the filters and the page size are kept |
| UseContacts.ContactsHook.SetState | src/hooks/useContacts.ts:44 | setState installs the new state and records it |
| UseContacts.ContactsHook.GoToPage | src/hooks/useContacts.ts:86-88 | a page change is a fetch of that page |
| UseContacts.ContactsHook.UpdateFilters | src/hooks/useContacts.ts:74-83 | the filters become the merge of old and new, and the effect then fetches page 1 with them |
| UseContacts.ContactsHook.UpdateContactStatus | src/hooks/useContacts.ts:91-106 | the states set and the fetch log are those of the status-update specification |
| UseContacts.ContactsHook.Settle | src/hooks/useContacts.ts:95-105 | the states set and the fetch log after the status request are those of its specification: the error shown, or the page refetched |
| ContactsFilter.BeforeT | src/components/ContactsFilter.tsx:52 | the text before the first 'T': a prefix without 'T', ended by a 'T' or by the end |
| ContactsFilter.FormatDateForApi | src/components/ContactsFilter.tsx:50-53 | the date part of an ISO date-time: a prefix without 'T' that stops at the first 'T'; empty stays empty |
| ContactsFilter.BeforeTOfPlain | src/components/ContactsFilter.tsx:52 | a text without 'T' is its own date part |
| ContactsFilter.FormatDateIsFirstSegment | src/components/ContactsFilter.tsx:50-53 | the date part of `date T rest` is the date, and a bare date is kept |
| ContactsFilter.FormatDateIdempotent | src/components/ContactsFilter.tsx:50-53 | formatting a date part again changes nothing |
| ContactsFilter.FieldValue | src/components/ContactsFilter.tsx:58-60 | an empty field sends undefined; any other sends its (formatted) text |
| ContactsFilter.Applied | src/components/ContactsFilter.tsx:56-62 | the applied object always carries the two dates and the status, and never a delivery day |
| ContactsFilter.ApplyReplacesTheFormFilters | src/components/ContactsFilter.tsx:56-62 | applying the form replaces the three filters it owns, clearing the empty ones, and keeps the hook's delivery day |
| ContactsFilter.ResetKeepsTheHookFilters | src/components/ContactsFilter.tsx:65-71 | a reset emits `{}`, which merges as no change: the filters applied before stay in force |
| ContactsFilter.ApplyingAnEmptyFormClears | src/components/ContactsFilter.tsx:56-62 | applying an empty form is what clears the form's filters |
| ContactsFilter.FilterForm.constructor | src/components/ContactsFilter.tsx:32-34 | the form starts with three empty fields and has emitted nothing |
| ContactsFilter.FilterForm.SetStartDate | src/components/ContactsFilter.tsx:93-96 | the start-date picker writes only its own field |
| ContactsFilter.FilterForm.SetEndDate | src/components/ContactsFilter.tsx:117-120 | the end-date picker writes only its own field |
| ContactsFilter.FilterForm.SetStatus | src/components/ContactsFilter.tsx:131 | the status select writes only its own field |
| ContactsFilter.FilterForm.ApplyFilters | src/components/ContactsFilter.tsx:56-62 | applying emits the mapped fields and leaves the fields as they are; while loading the disabled button does nothing |
| ContactsFilter.FilterForm.ResetFilters | src/components/ContactsFilter.tsx:65-71 | a reset clears the three fields, then emits `{}`; while loading the disabled button does nothing |
| ContactsList.AllPages | src/components/ContactsList.tsx:92 | the pages 1 to n, none for a count below 1 |
| ContactsList.FewPagesShowAll | src/components/ContactsList.tsx:90-92 | with seven pages or fewer, the row is every page from 1 to the count |
| ContactsList.ManyPagesShape | src/components/ContactsList.tsx:93-109 | with more than seven pages, the row has at most seven entries, runs from page 1 to the last page, increases, and every ellipsis hides a page |
| ContactsList.PageListInRange | src/components/ContactsList.tsx:88-109 | every row's numbers increase and lie between 1 and the count |
| ContactsList.CurrentPageListed | src/components/ContactsList.tsx:88-109 | a current page in range is always in the row |
| ContactsList.PagesListedOnce | src/components/ContactsList.tsx:121-124 | each page is in the row at most once, so at most one button is drawn solid |
| ContactsList.Click | src/components/ContactsList.tsx:125-126 | a disabled button requests nothing |
| ContactsList.PrevNextFollowTheFlags | src/components/ContactsList.tsx:113-138 | the back and forward buttons move one page exactly when the flags allow |
| ContactsList.ItemClicks | src/components/ContactsList.tsx:121-130 | an ellipsis is disabled and changes no page; a number requests its own page and is solid exactly when current |
| ContactsList.RenderPages | src/components/ContactsList.tsx:84-109 | the pushes build exactly the page row |
| ContactsList.RenderPagination | src/components/ContactsList.tsx:111-140 | back, then one button per row entry, then forward |
| ContactsList.PaginationShownForLongLists | src/components/ContactsList.tsx:143-244 | once a listing page is installed, the row is drawn exactly when the page has contacts and the list holds more contacts than one page |
| ContactsList.OnlyTheCurrentStatusIsDisabled | src/components/ContactsList.tsx:268 | exactly the contact's current status is disabled; with no contact none is |
| ContactsList.HasContactExactlyForTruthy | src/components/ContactsList.tsx:267 | `popoverState.contact && …` acts on every stored value except a missing contact, null, false, 0 and "" |
| ContactsList.StatusPopover.constructor | src/components/ContactsList.tsx:56-64 | the menu starts closed without a contact |
| ContactsList.StatusPopover.OpenFor | src/components/ContactsList.tsx:200-206 | a contact's menu button opens the menu for that contact |
| ContactsList.StatusPopover.Dismiss | src/components/ContactsList.tsx:250-252 | dismissing closes the menu and forgets the contact |
| ContactsList.StatusPopover.Choose | src/components/ContactsList.tsx:267 | a disabled entry, or a menu whose contact is missing or falsy, changes nothing; otherwise the hook updates the status of the contact's `_id` and the menu closes |
| Menu.AppPages | src/components/Menu.tsx:37-69 | an authenticated user gets the signed-in pages, anyone else the login page |
| Menu.PageSetsShareNoUrl | src/components/Menu.tsx:38-66 | no route is in both page sets |
| Menu.MenuPages | src/components/Menu.tsx:38-66 | signed in: dashboard, contacts, calendar in that order; signed out: login only |
| Menu.LogoutShown | src/components/Menu.tsx:108-114 | the logout button is drawn exactly for an authenticated user |
| Menu.LogoutShownWithAuthPages | src/components/Menu.tsx:108-114 | the logout button is drawn exactly when the signed-in pages are listed, and hidden exactly when the login page is |
| Menu.ContextAuthenticated | src/context/AuthContext.tsx:47 | `!!user`: null and undefined are not signed in, any object is, and a boolean is itself |
| Menu.MenuView.constructor | src/components/Menu.tsx:75 | the indicator starts hidden |
| Menu.MenuView.Pages | src/components/Menu.tsx:76 | the menu lists the page set for the context's `!!user`; the signed-in pages imply the service's user is not null |
| Menu.MenuView.HandleLogout | src/components/Menu.tsx:78-87 | the indicator is shown then hidden, the session is logged out, and the menu then offers only the login page and no logout button |
| Dashboard.SummaryOf | src/pages/Dashboard.tsx:81-83 | the summary throws exactly when a loaded element is null; otherwise the total is the server's count, the pending count is the number of page contacts with status Pending and the confirmed count the number with status Confirmed, and the two together count at most the page on show |
| Dashboard.ConfirmedCountIsExact | src/pages/Dashboard.tsx:83 | when the summary does not throw, the confirmed count counts every copy of every confirmed contact on the page, and nothing else |
| Dashboard.PendingCountIsExact | src/pages/Dashboard.tsx:82 | when the summary does not throw, the pending count counts every copy of every pending contact on the page, and nothing else |
| Dashboard.ConfirmAction | src/pages/Dashboard.tsx:200-204 | the Confirm button is there exactly for a pending contact, and asks for Confirmed on its id |
| Dashboard.ConfirmOnlyForPending | src/pages/Dashboard.tsx:200 | a contact with the Confirm button has no other known status |
| Dashboard.DashboardPage.constructor | src/pages/Dashboard.tsx:53 | the dashboard's hook has no filters and a page size of 5 |
| Dashboard.DashboardPage.Refresh | src/pages/Dashboard.tsx:56-62 | pull to refresh fetches the first page again |
| Dashboard.DashboardPage.Confirm | src/pages/Dashboard.tsx:76-78 | Confirm sets Confirmed on a pending contact and does nothing otherwise |

## Left out

- Asynchrony is not modelled. Every `await` completes before the next step, and nothing
  interleaves. Two operations racing, and React's stale closures, are therefore not captured.
- `apiRequest` does not await its `this.logout()` before throwing "Session expired". The model
  runs the logout to completion before the throw.
- The device store is a map. Reads, writes and removals are recorded in the trace. Preferences
  stores text only, and `Preferences.set` of an undefined token is modelled as the text
  "undefined".
- The user subject (`BehaviorSubject`) is the `user` field, and each `next` is recorded. The
  subscribers, and the `user` observable getter, are not part of this model.
- Console logging is left out throughout.
- JSON is the compact form `JSON.stringify` writes: no whitespace between tokens, and integer
  numbers only. The app exchanges no fractions. `JSON.parse` of other valid text (with spaces,
  fractions or exponents) is modelled as throwing.
- Lone surrogate code units in strings are not represented: a Dafny `char` is a Unicode scalar
  value.
- Engine error messages (a property read of null, `JSON.parse` failures) are fixed placeholder
  texts. Real engines word them differently.
- `Object.keys` orders an object's integer-like keys first. The model keeps the members' first
  occurrence order.
- The `Headers` object is not modelled: headers are a string map. `options.body` values that
  are not strings are not modelled.
- Each fetch gets one reply. That reply is either delivered with an ok flag, a status and a body
  text, or it is a rejection. The body texts a native no-cors answer would carry are unreadable,
  and the model ignores them.
- The native HTTP plugin and its web fallback are not part of this model. The gateway uses
  `fetch` directly.
- `getUpcomingContacts` takes the clock and `new Date(text)` as parameters (`now`,
  `parseDate`). "A week from now" is a fixed 7×24 h in milliseconds, with no daylight-saving
  shift.
- React effects are folded into the operations. The mount effect, which fetches page 1, is not
  a member of its own: it is the `UseContacts.ContactsHook.FetchContacts` call of page 1 after
  the constructor. The effect that re-runs after a filter change is part of
  `UseContacts.ContactsHook.UpdateFilters`. The `limit` setter is never called by the app, and
  is left out.
- The "An unknown error occurred" branch is left out, because every error these calls throw is
  an `Error`.
- Rendering is left out: JSX layout, date display formatting, the menu's selected-route class,
  the e-mail note, equipment chips, the loading and empty-list messages, and
  `formatDateForDisplay`.
- The popover's position event is not modelled.
- UseContacts.UpcomingContacts: a party date that is an array or an object, which JavaScript
  would convert through its text, is treated as an invalid date. Texts, numbers, null and
  booleans convert as JavaScript converts them, except that a number beyond ±8.64e15 ms, which
  `new Date` makes an Invalid Date, is kept as a time (`UseContacts.PartyTime`).
- ContactsService.ContactList: a non-empty text `contacts` member is refused as if it had no
  `slice`. JavaScript slices it as a string, and the listing returns a page whose data is that
  text (the contact list and the dashboard would then throw on `map` and `filter`). The model's
  contact list holds JSON values only.
- Gateway.Respond: a browser's `fetch` refuses `mode: 'no-cors'` with any method other than
  GET, HEAD and POST, so on a native device the PATCH of a status or contact update always
  rejects. The scripted transport may still deliver an answer to such a request; the model
  allows the native PATCH successes that cannot happen, and no stated property depends on them.
- The default arguments of `useContacts` (`{}` and a page size of 10) are the caller's: the
  hook's constructor takes both. The contacts page, which relies on them, is not part of this
  model.
- Json.Serialize: numbers are unbounded integers. A JavaScript number is a double, so integers
  beyond 2^53 lose precision and values from 1e21 up are written in exponent form; the app's
  page numbers, counts and statuses stay far below both.
- Auth.PersistedText: the text stored for a user keeps every member of the reply's object, repeated
  keys included. `JSON.parse` keeps one member per key, so the app would store the text without
  the repeats. Every read sees the last value for a key either way.
- ContactsService.Paginate: page numbers and limits are integers. Fractional values, which
  would reach `slice` and `Math.ceil` as fractions, are not modelled.
