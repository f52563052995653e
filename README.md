# A verified model of the appdevfinal Next.js client

The client is a small Next.js application that talks to a public demo
directory of users, posts and comments. This project models the logic of its
page components in Dafny and proves what the pages promise:

- the **dashboard** (`Home`, src/app/page.tsx): the all-or-nothing initial
  load, user and post clicks, the chart counts, which screen is rendered, and
  logout;
- the **user page** (`UserPage`, src/app/user/page.tsx): the session gate, the
  join that keeps the signed-in user's posts and the comments on them, and
  logout;
- the **login page** (`LoginPage`, src/app/login/page.tsx): the lookup by
  e-mail, the placeholder credential check (the password must equal the
  user's `username`), the session write and the two error messages;
- the **admin gate** (`AdminPage`, src/app/admin/page.tsx): the trimmed,
  lower-cased e-mail compared with the administrator's address;
- the **registration form component** (components/UserRegistrationForm.tsx):
  its schema, including a recogniser for the phone regular expression that is
  proved equal to the expression read as a specification, the simulated
  address suggestions, and the address-input handlers;
- the **registration page** (src/app/UserRegistrationForm/page.tsx), a second,
  different form: its own schema, the one-field change handler, and the
  submit handler whose loop builds the field-to-message error map.

Each page is a `class` whose fields are the component's `useState` values;
in the registration form component, the `values` field stands for the
`useForm` state (its `defaultValues` and `setValue` writes) rather than a
`useState`.
The handlers are methods that change those fields, and the browser is a
shared `Browser` object. Its `storedUser` field is the `user` key of local
storage. Its `route` field is the target of the last `router.push`. A remote
request is a given outcome, `Ok(data)` or `Fail` (`Common.Fetch`). The pure
parts are functions with lemmas: the filters, `find`, the admin test, the
schemas and the suggestions. The dashboard's transitions are also functions
on a `DashState` value. Its class methods are proved to perform exactly those
transitions.

Modules, one per file:

- `Records`: the directory's records.
- `Common`: options, fetch outcomes, routes, schema issues, subsequences, and the browser.
- `Text`: ASCII `trim`, `toLowerCase` and `includes`.
- `Phone`: the phone pattern.
- One module per page: `Dashboard`, `UserPage`, `Login`, `Admin`,
  `RegistrationForm` and `RegistrationPage`.

Facts about the code that a reader might not expect:

- `handlePostClick` shows whichever per-post response settles last. Nothing
  compares the response with the post selected at that moment
  (`Dashboard.StaleResponseWins`).
- The dashboard never reads the stored session.
- The phone pattern accepts strings of 7 to 13 characters. The longest is
  `+ddd-ddd-dddd` (`Phone.PhoneAlphabet`).
- The registration page's phone rule counts characters, not digits, although
  its message says "digits" (`RegistrationPage.PhoneCountsCharacters`).

## Model

| member | source | states |
|---|---|---|
| Dashboard.Load | src/app/page.tsx:57-85 | models the mount effect as a transition on the component state; its properties are proved in LoadFailure, LoadSuccess and InitialLoadAllOrNothing |
| Dashboard.ClickUser | src/app/page.tsx:87-89 | models `handleUserClick`; its properties are proved in ClickUserOnlySelects and ClickUserLastWins |
| Dashboard.SelectPost | src/app/page.tsx:91-92 | models the synchronous half of `handlePostClick`; its properties are proved in ClickPostSelects and StaleResponseWins |
| Dashboard.ReceivePostComments | src/app/page.tsx:93-101 | models the half of `handlePostClick` that runs when the request settles; its properties are proved in ClickPostOverwrites and StaleResponseWins |
| Dashboard.ClickPost | src/app/page.tsx:91-102 | models `handlePostClick` with no event in between; its properties are proved in ClickPostSelects, ClickPostOverwrites and CommentCountAfterClick |
| Dashboard.CountSeries | src/app/page.tsx:135-137 | models the three chart series; its property is proved in CommentCountAfterClick |
| Dashboard.ScreenOf | src/app/page.tsx:139-140 | models the early returns of the render; its properties are proved in LoadingFirst and InitialLoadAllOrNothing |
| Dashboard.LoadFailure | src/app/page.tsx:59-81 | when any of the three responses fails, the lists are left as they were, the error is "Failed to fetch data.", loading ends and the selections are untouched |
| Dashboard.LoadSuccess | src/app/page.tsx:69-76 | when all three responses are ok, users, posts and comments are exactly the fetched arrays, loading ends and the error is left as it was |
| Dashboard.InitialLoadAllOrNothing | src/app/page.tsx:49-85 | from the initial state the load is all or nothing: either every list is filled and the main screen shows, or every list stays empty and the error screen shows the failure message |
| Dashboard.ClickUserOnlySelects | src/app/page.tsx:87-89 | a user click sets the selected user and changes no other field |
| Dashboard.ClickUserLastWins | src/app/page.tsx:87-89 | clicking A, B, then A again leaves the state clicking A alone would |
| Dashboard.ClickPostSelects | src/app/page.tsx:91-92 | a post click selects the post whatever the request's outcome and leaves the selected user, users, posts, loading and error alone |
| Dashboard.ClickPostOverwrites | src/app/page.tsx:94-100 | after a post click the comments are the response's data, or empty on failure, and do not depend on the comments shown before (never merged) |
| Dashboard.CommentCountAfterClick | src/app/page.tsx:135-137 | after a post click the "Total Comments" series counts that post's comments only |
| Dashboard.StaleResponseWins | src/app/page.tsx:91-101 | when the response for post P1 settles after the one for P2, P2 stays selected and P1's comments are shown |
| Dashboard.LoadingFirst | src/app/page.tsx:139-140 | the loading screen takes precedence, and the error screen shows exactly when not loading and the error is a non-empty string |
| Dashboard.Home.constructor | src/app/page.tsx:49-55 | the component starts in the initial state: empty lists, nothing selected, loading, no error |
| Dashboard.Home.FetchData | src/app/page.tsx:57-85 | the mount effect performs the load transition on the component's fields |
| Dashboard.Home.HandleUserClick | src/app/page.tsx:87-89 | performs the user-click transition |
| Dashboard.Home.HandlePostClick | src/app/page.tsx:91-102 | performs the post-click transition: select, then replace the comments by the response or by the empty list |
| Dashboard.Home.HandleLogout | src/app/page.tsx:104-106 | logout only navigates to the login route; neither the component state nor the stored session changes |
| UserPage.OwnPosts | src/app/user/page.tsx:57 | models the posts filter; its properties are proved in OwnPostsSpec, OwnPostsIdempotent and OwnResultsDistinct |
| UserPage.HasOwnPost | src/app/user/page.tsx:59 | models the `some` test; its property is proved in HasOwnPostExists |
| UserPage.OwnComments | src/app/user/page.tsx:58-60 | models the comments filter; its properties are proved in OwnCommentsSpec, OwnCommentsOnOwnPosts and OwnResultsDistinct |
| UserPage.HasOwnPostExists | src/app/user/page.tsx:59 | the `some` test holds exactly when a post with that id is written by the user |
| UserPage.OwnPostsSpec | src/app/user/page.tsx:57 | the kept posts are an order-preserving subsequence of the fetched posts, a post is kept exactly when the user wrote it, and each kept post occurs as many times as it was fetched (so the result is exactly the filter's) |
| UserPage.OwnCommentsSpec | src/app/user/page.tsx:58-60 | the kept comments are an order-preserving subsequence of the fetched comments, a comment is kept exactly when some fetched post by the user has its post id, and each kept comment occurs as many times as it was fetched |
| UserPage.OwnCommentsOnOwnPosts | src/app/user/page.tsx:57-60 | every kept comment belongs to one of the kept posts |
| UserPage.OwnPostsIdempotent | src/app/user/page.tsx:57 | filtering the kept posts again changes nothing |
| UserPage.OwnResultsDistinct | src/app/user/page.tsx:57-60 | fetched lists without duplicates give kept posts and comments without duplicates |
| UserPage.UserPage.constructor | src/app/user/page.tsx:29-31 | no user, no posts, no comments |
| UserPage.UserPage.CheckSession | src/app/user/page.tsx:34-41 | without a stored session the page goes to the login route and `user` stays as it was; with one, `user` becomes the stored record and there is no navigation |
| UserPage.UserPage.FetchData | src/app/user/page.tsx:43-68 | a fetch happens only with a user; when both responses are ok the lists become the user's posts and the comments on them, otherwise both lists are unchanged |
| UserPage.UserPage.HandleLogout | src/app/user/page.tsx:70-73 | the stored session is absent afterwards, whether or not it was present, and the route is the login route |
| Login.FindByEmail | src/app/login/page.tsx:27 | models `users.find` by e-mail; its properties are proved in FindByEmailFirst |
| Login.Authenticate | src/app/login/page.tsx:27-32 | models the lookup and the credential check; its properties are proved in SignInIff and OnlyFirstMatchChecked |
| Login.LoginOutcome | src/app/login/page.tsx:20-40 | models the outcome of one submit, including the failed request; LoginPage.HandleLogin is proved to act on it |
| Login.FindByEmailFirst | src/app/login/page.tsx:27 | the lookup returns the first user whose e-mail equals the input exactly, and nothing exactly when no user has that e-mail |
| Login.SignInIff | src/app/login/page.tsx:27-29 | sign-in succeeds exactly when the first user with that e-mail has the password as username, and it signs in that user |
| Login.OnlyFirstMatchChecked | src/app/login/page.tsx:27-29 | when the first match's username differs from the password the credentials are rejected, even if a later user with the same e-mail would match |
| Login.LoginPage.constructor | src/app/login/page.tsx:15-17 | empty e-mail and password, no error |
| Login.LoginPage.SetEmail | src/app/login/page.tsx:58 | the e-mail field becomes the typed value |
| Login.LoginPage.SetPassword | src/app/login/page.tsx:71 | the password field becomes the typed value |
| Login.LoginPage.HandleLogin | src/app/login/page.tsx:20-40 | on success the matched user is stored and the route is the user page, error unchanged; on a credential mismatch the error is "Invalid email or password."; on a failed request it is "An error occurred. Please try again."; in both failure cases storage and route are untouched |
| Admin.IsAdmin | src/app/admin/page.tsx:12 | models the admin test; its properties are proved in AdminIff, AdminIgnoresPadding, AdminIgnoresCase and AdminExample |
| Admin.AdminIff | src/app/admin/page.tsx:12 | access is granted exactly when the entry is whitespace, then a text that lower-cases to "admin@example.com", then whitespace |
| Admin.AdminIgnoresPadding | src/app/admin/page.tsx:12 | whitespace around the entry does not change the outcome |
| Admin.AdminIgnoresCase | src/app/admin/page.tsx:12 | entries that lower-case alike are decided alike |
| Admin.AdminExample | src/app/admin/page.tsx:12 | "  ADMIN@Example.COM " is granted |
| Admin.AdminPage.constructor | src/app/admin/page.tsx:7-8 | empty e-mail, no error |
| Admin.AdminPage.SetEmail | src/app/admin/page.tsx:38 | the e-mail field becomes the typed value |
| Admin.AdminPage.HandleAdminAccess | src/app/admin/page.tsx:11-19 | granted: the route is home and any earlier error stays; denied: the error is the access-denied message and there is no navigation; storage is never touched |
| Admin.AdminPage.HandleBackToLogin | src/app/admin/page.tsx:21-23 | navigates to the login route and changes neither the e-mail nor the error |
| Text.Trim | src/app/admin/page.tsx:12 | models `trim` over ASCII whitespace; its properties are proved in TrimPadding, TrimSlice and TrimLower |
| Text.ToLower | src/app/admin/page.tsx:12 | models `toLowerCase` over ASCII letters; its properties are proved in TrimLower and ToLowerAppend |
| Text.Contains | components/UserRegistrationForm.tsx:105 | models `includes`; its properties are proved in ContainsAt and ContainsInfix |
| Text.TrimStart | src/app/admin/page.tsx:12 | what is left is a suffix of the input, what was dropped is all whitespace, and what is left does not start with whitespace |
| Text.TrimEnd | src/app/admin/page.tsx:12 | what is left is a prefix of the input, what was dropped is all whitespace, and what is left does not end with whitespace |
| Text.TrimPadding | src/app/admin/page.tsx:12 | whitespace added around a text never changes its trim |
| Text.TrimSlice | src/app/admin/page.tsx:12 | the trim is the slice between a whitespace prefix and a whitespace suffix |
| Text.TrimLower | src/app/admin/page.tsx:12 | trimming and lower-casing commute |
| Text.ContainsAt | components/UserRegistrationForm.tsx:105 | `includes` holds exactly when the query occurs at some index |
| Text.ContainsInfix | components/UserRegistrationForm.tsx:105 | a text built around the query contains it |
| Phone.PhoneShape | components/UserRegistrationForm.tsx:33 | states the regular expression as a specification, with existential choices |
| Phone.IsPhone | components/UserRegistrationForm.tsx:33 | models the phone check as a deterministic recogniser; it is proved equal to PhoneShape in IsPhoneCorrect |
| Phone.CountryCodeCorrect | components/UserRegistrationForm.tsx:33 | the country-code recogniser accepts exactly what `\+?\d{1,3}[- ]?` matches |
| Phone.IsPhoneCorrect | components/UserRegistrationForm.tsx:33 | the phone recogniser accepts exactly the strings the whole anchored pattern matches |
| Phone.IsPhoneSound | components/UserRegistrationForm.tsx:33 | every accepted string splits into an optional country code and a local number |
| Phone.IsPhoneComplete | components/UserRegistrationForm.tsx:33 | every string that splits that way is accepted |
| Phone.PhoneAlphabet | components/UserRegistrationForm.tsx:33 | accepted strings are 7 to 13 characters of digits, '-' and ' ', with '+' only at the first position |
| Phone.PhoneExamples | components/UserRegistrationForm.tsx:33 | "555-1234", "5551234" and "+1 555-1234" are accepted; "123" and "++1 555-1234" are rejected |
| RegistrationForm.Passes | components/UserRegistrationForm.tsx:30-37 | models each field's check; SchemaIssuesIff states them one by one |
| RegistrationForm.IssuesOf | components/UserRegistrationForm.tsx:29-45 | models collecting one issue per failing field; its properties are proved in IssuesOfFields, IssuesOfMessages and IssuesOfDistinct |
| RegistrationForm.SchemaIssues | components/UserRegistrationForm.tsx:29-45 | models the issues of `formSchema`; its properties are proved in SchemaIssuesIff, LabelIssuePath and AddressPartsOptional |
| RegistrationForm.IssuesOfFields | components/UserRegistrationForm.tsx:29-45 | a field is reported exactly when it is checked and fails its own check |
| RegistrationForm.IssuesOfMessages | components/UserRegistrationForm.tsx:29-45 | every reported issue carries its own field's message |
| RegistrationForm.IssuesOfDistinct | components/UserRegistrationForm.tsx:29-45 | no field is reported twice |
| RegistrationForm.SchemaIssuesIff | components/UserRegistrationForm.tsx:29-45 | names fail under 2 characters, the e-mail fails the e-mail check, the phone fails the pattern, the label fails when empty; each failing field is reported once with its message |
| RegistrationForm.LabelIssuePath | components/UserRegistrationForm.tsx:36-37 | the label's issue is reported under the path ["address", "label"], exactly when the label is empty |
| RegistrationForm.AddressPartsOptional | components/UserRegistrationForm.tsx:36-44 | only the address label is checked: changing the other address parts changes no issue |
| RegistrationForm.SchemaRejectsExample | components/UserRegistrationForm.tsx:29-45 | first name "A", last name "Bo", e-mail "x" (failing the e-mail check), phone "123" and an empty label fail on exactly first name, e-mail, phone and label, in that order |
| RegistrationForm.SchemaAcceptsExample | components/UserRegistrationForm.tsx:29-45 | a well-formed record has no issue |
| RegistrationForm.Candidates | components/UserRegistrationForm.tsx:77-104 | models the three generated candidates; their property is proved in CandidatesMatch |
| RegistrationForm.MatchingLabels | components/UserRegistrationForm.tsx:105 | models the case-insensitive filter; its properties are proved in MatchingLabelsSpec and MatchingLabelsKeepsAll |
| RegistrationForm.Suggestions | components/UserRegistrationForm.tsx:70-109 | models `fetchAddressSuggestions`; its properties are proved in SuggestionsOfEmpty and SuggestionsOfQuery |
| RegistrationForm.MatchingLabelsSpec | components/UserRegistrationForm.tsx:105 | the result is an order-preserving subsequence of the candidates, keeps exactly the candidates whose label contains the query, ignoring case, each as many times as it occurs, and never grows the list |
| RegistrationForm.CandidatesMatch | components/UserRegistrationForm.tsx:77-105 | every generated label embeds the query, so it contains it ignoring case |
| RegistrationForm.MatchingLabelsKeepsAll | components/UserRegistrationForm.tsx:105 | when every candidate matches, the filter returns the list unchanged |
| RegistrationForm.SuggestionsOfEmpty | components/UserRegistrationForm.tsx:73-76 | an empty query yields no suggestion |
| RegistrationForm.SuggestionsOfQuery | components/UserRegistrationForm.tsx:77-106 | a non-empty query yields all three candidates in the order Anytown, Somecity, Othertown, each label containing the query ignoring case |
| RegistrationForm.UserRegistrationForm.constructor | components/UserRegistrationForm.tsx:48-60 | nothing selected, empty input text, the default values |
| RegistrationForm.UserRegistrationForm.HandleAddressSelect | components/UserRegistrationForm.tsx:63-67 | the selection, the form's address and the input text (the label) are set together |
| RegistrationForm.UserRegistrationForm.HandleAddressInputChange | components/UserRegistrationForm.tsx:111-121 | the input text is always the typed value; suggestions are requested exactly when it is longer than 2 and change no state; empty input clears the selection and resets the address to an empty label; other input leaves both alone |
| RegistrationForm.UserRegistrationForm.SyncSelectedAddress | components/UserRegistrationForm.tsx:129-133 | one run of the effect, which happens when the selection changes: with an address selected the input text becomes its label, otherwise it is unchanged |
| RegistrationPage.With | src/app/UserRegistrationForm/page.tsx:30 | models the record update of `handleChange`; its property is proved in WithGet |
| RegistrationPage.Passes | src/app/UserRegistrationForm/page.tsx:8-12 | models each field's check; PhoneCountsCharacters and SubmitErrorsByField state it field by field |
| RegistrationPage.SchemaIssues | src/app/UserRegistrationForm/page.tsx:7-13 | models the issues of `registrationSchema`; its properties are proved in IssuesOfSpec and SubmitErrors |
| RegistrationPage.FieldErrors | src/app/UserRegistrationForm/page.tsx:42-47 | models the error map issue by issue; its properties are proved in FieldErrorsKeys and FieldErrorsLastWins |
| RegistrationPage.WithGet | src/app/UserRegistrationForm/page.tsx:28-31 | a change writes the named field and leaves every other field as it was |
| RegistrationPage.IssuesOfSpec | src/app/UserRegistrationForm/page.tsx:7-13 | each issue is a failing field's key and message, and every failing field has its issue |
| RegistrationPage.PhoneCountsCharacters | src/app/UserRegistrationForm/page.tsx:11 | the phone rule counts characters: "(555) 123-" passes and "555123456" fails |
| RegistrationPage.FieldErrorsKeys | src/app/UserRegistrationForm/page.tsx:42-47 | the error map has an entry for exactly the keys that some issue names as its first path element |
| RegistrationPage.FieldErrorsLastWins | src/app/UserRegistrationForm/page.tsx:42-47 | each entry holds the message of the last issue naming that key |
| RegistrationPage.CollectFieldErrors | src/app/UserRegistrationForm/page.tsx:42-47 | the `forEach` loop builds exactly the issue-by-issue error map |
| RegistrationPage.SubmitErrors | src/app/UserRegistrationForm/page.tsx:36-48 | after a failed parse the map has one entry per failing field, under its key, with its message, and no other entry |
| RegistrationPage.SubmitErrorsByField | src/app/UserRegistrationForm/page.tsx:8-12 | after a submit, the map has an entry for a first or last name or an address exactly when it is empty, for the e-mail exactly when the e-mail check rejects it, and for the phone exactly when it is shorter than ten characters, with the phone's "digits" message |
| RegistrationPage.UserRegistrationForm.constructor | src/app/UserRegistrationForm/page.tsx:17-26 | empty record, no errors, map hidden |
| RegistrationPage.UserRegistrationForm.HandleChange | src/app/UserRegistrationForm/page.tsx:28-31 | the record becomes the old record with the named field replaced |
| RegistrationPage.UserRegistrationForm.HandleSubmit | src/app/UserRegistrationForm/page.tsx:33-51 | a valid record clears the errors and shows the map; an invalid one replaces the errors wholesale with those of this parse and leaves the map flag; the record never changes |
| RegistrationPage.UserRegistrationForm.HandleBack | src/app/UserRegistrationForm/page.tsx:53-55 | navigates to the login route and leaves storage alone |

## Left out

- Requests, HTTP status and JSON: each response is a given `Ok(data)` or
  `Fail`. A response whose body does not parse counts as `Fail`. The JSON
  round-trip of the stored session is not modelled: the record is stored as
  it is.
- Asynchrony: every handler runs to completion in one step. The dashboard's
  three initial requests are made one after the other, so one step is
  faithful for them. For the per-post request, `Dashboard.SelectPost` and
  `Dashboard.ReceivePostComments` are the two halves a later event can
  separate. `Dashboard.StaleResponseWins` states what such an interleaving
  shows.
- Dashboard.Home.HandlePostClick: performs both halves at once, as when no
  other event intervenes.
- The 500 ms delay in the address suggestions: they are computed at once.
- The e-mail check of the validation library: a parameter `isEmail` of the
  schemas, with no assumption about it. react-hook-form and its resolver are
  not part of this model either. The form's submit callback only logs and
  alerts, so it is left out.
- Console logging and `alert`. The suggestions `handleAddressInputChange`
  logs are returned as its `logged` result.
- Unicode: `trim` uses the ASCII whitespace set (space, tab, line feed,
  carriage return, vertical tab, form feed), and `toLowerCase` maps only
  'A'..'Z'. Lengths count characters, not UTF-16 code units.
- Coordinates are carried as values and never computed with.
- JSX markup, styling, the chart options and the map iframe are presentation
  only. So are the wrappers in src/components/ui/Form.tsx and
  src/components/ui/Input.tsx, which are not part of this model.
- The dashboard's selected-user and selected-post panels only render state
  the model already holds.
