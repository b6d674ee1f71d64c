# Blog front end: API dispatch layer, form handlers and route guard

A Dafny model of the core of a React blogging client. The model covers:

- **The API dispatch layer** (`src/service/api.js`).
  - `processResponse` turns a transport response into `{isSuccess, data}` or `{isFailure, status, msg, code}`.
  - `ProcessError` turns a transport failure into `{isError, msg, code}`, trying three causes in order: a response, then a request with no response, then neither.
  - A 403 response clears the whole session store.
  - The request interceptor either copies `TYPE.params` into the query parameters or appends `/<TYPE.query>` to the URL.
  - Each call wrapper builds one request. A generated wrapper sends an empty body for `DELETE` and always sets the `authorization` header.
  - The registration loop adds one generated wrapper per service key not yet defined on `API`. So it never replaces the explicit `userSignup`/`userLogin` wrappers, and it skips the names every object inherits.
- **Two form pages as state machines.**
  - The login/signup page (`Login.jsx`) writes the `Bearer `-prefixed tokens to the session store.
  - The create-post page (`CreatePost.jsx`) validates the title, then the description, and manages the `loading` flag.
  - Each handler is a method of a class whose fields are the page's state.
  - The awaited API call is a parameter of type `Awaited`: either `Returned(result)` or `Threw(value)`.
- **The post card helpers** (`Post.jsx`): `addEllipsis`, `getCategories` and the picture fallback.
- **The application shell** (`App.js`): the `PrivateRoute` guard and the route table it wraps.

These parts connect. A successful login stores the token. A 403 from any call clears it. The guard reads it. `App.LoginThenSessionExpiry` proves that after a 403 the guard redirects, even though `isAuthenticated` is still true.

## Modelling choices

- **JavaScript values** are modelled by `Js.JsValue`: `undefined`, `null`, strings, arrays and plain objects. Numbers and booleans never reach the code modelled here as values it inspects; HTTP statuses are plain integers.
  - Truthiness, `a || b`, property reads and string coercion are written out in `Js`.
  - So are the string methods used here: `trim` (the full ECMAScript whitespace set), `split` on one character, and `includes`.
- **Strings** are sequences of Unicode scalar values. JavaScript measures `length` and `substring` in UTF-16 code units, so the two differ only for characters outside the Basic Multilingual Plane.
- **Session storage** is the class `Session.SessionStore`, a `map<string, string>`. It is shared by the API layer, the login page and the guard.
- **Transport outcomes are inputs.**
  - `Api.Outcome` is a resolved response or a rejected one.
  - `Api.TransportError` records whether a response exists and whether a request was sent.
  - With the transport's default status check, only 2xx responses resolve. So the failure branch of `processResponse` is reached by 2xx statuses other than 200, such as 201 or 204.
- **Values defined outside the core are parameters.**
  - The notification table is `Api.Notices`.
  - The token that `getAccessToken()` returns and the `TYPE` that `getType(...)` returns are passed in.
  - The service table is a sequence of `(key, descriptor)` pairs with distinct keys, in the order that `Object.entries` yields them.
- **Login handlers.**
  - `loginUser` reads `response.data.accessToken`. When the body is `undefined`/`null` that read throws, and the page shows the failed-credentials message. `Login.LoginThrows` covers this case.
  - `API.userLogin` returns the classified error rather than throwing (`Api.CallExplicit`). So a rejected login reaches `LoginUser` as `Returned(Error(...))`, which changes nothing but the store on a 403 (`App.RejectedLogin`). The failed-credentials message is never shown for a wrong password.
  - A generated wrapper returns the transport's promise, so a rejected call throws (`Api.CallGenerated`); `App.RejectedCreatePost` runs that into `savePost`.
  - The signup confirmation is set by `SignupUser`. The effect that clears the error (`FormsChanged`) runs after the form reset, so the model does not claim that the confirmation stays visible.
- **`savePost`** is split at its `await`. `SavePost` validates and hands the post over with `loading` on. `SavePostSettled` applies the outcome and turns `loading` off.

## Model

| member | source | states |
|---|---|---|
| `Js.Truthy` | src/service/api.js:18-21 | `undefined`, `null` and `''` are falsy; every other string, every array and every object is truthy |
| `Js.Or` | src/service/api.js:52 | `a \|\| b` is `a` when `a` is truthy, else `b`; the result is truthy iff either operand is |
| `Js.Prop` | src/service/api.js:77 | optional-chained property read: an object's entry under the key; `undefined` for an object without the key and for any value that is not an object |
| `Js.ToText` | src/components/account/Login.jsx:117 | string coercion: a string is itself, `undefined` gives `"undefined"`, `null` gives `"null"`, a plain object gives `"[object Object]"`, an empty array gives `""` |
| `Js.SkipLeading` | src/components/create/CreatePost.jsx:72 | the start of the trimmed text: every character before it is whitespace, and the character at it is not |
| `Js.SkipTrailing` | src/components/create/CreatePost.jsx:72 | the end of the trimmed text: every character from it on is whitespace, and the one before it is not |
| `Js.Trim` | src/components/create/CreatePost.jsx:72 | `trim` returns a contiguous slice of its input. Only whitespace comes before and after the slice, and the slice neither starts nor ends with whitespace |
| `Js.TrimEmptyIffBlank` | src/components/create/CreatePost.jsx:72-79 | `s.trim()` is empty iff `s` is empty or whitespace only (both directions) |
| `Js.TrimIdempotent` | src/components/home/post/Post.jsx:49 | trimming a trimmed string changes nothing |
| `Js.TrimKeepsCharacters` | src/components/home/post/Post.jsx:49 | every character of `s.trim()` occurs in `s` |
| `Js.Split` | src/components/home/post/Post.jsx:49 | `split` on one character always yields at least one piece, even for the empty string |
| `Js.SplitPiecesOmitSeparator` | src/components/home/post/Post.jsx:49 | no piece of a split contains the separator |
| `Js.JoinPrepend` | src/components/home/post/Post.jsx:49 | joining after prefixing the first piece equals prefixing the join |
| `Js.JoinSplit` | src/components/home/post/Post.jsx:49 | round trip: joining the pieces of `s.split(sep)` with `sep` gives `s` back |
| `Js.SplitFreePrefix` | src/components/create/CreatePost.jsx:62 | a separator-free prefix fuses with the first piece of the rest of the string |
| `Js.SplitJoin` | src/components/create/CreatePost.jsx:62 | round trip: splitting a join of separator-free pieces gives the pieces back |
| `Js.Contains` | src/components/account/Login.jsx:170 | `s.includes(t)`: the empty text is always included, a text longer than `s` never |
| `Js.ContainsAt` | src/components/account/Login.jsx:170 | `s.includes(t)` holds iff `t` occurs in `s` at some index (both directions) |
| `Js.MissingCharacterExcludes` | src/components/account/Login.jsx:170 | `s` cannot include `t` when `t` has a character that `s` lacks |
| `Session.SessionStore.GetItem` | src/App.js:112 | `getItem` gives the stored value iff the key was set, and nothing (`null`) otherwise |
| `Session.SessionStore.SetItem` | src/components/account/Login.jsx:117-118 | `setItem` replaces or adds exactly one entry |
| `Session.SessionStore.Clear` | src/service/api.js:67 | `clear` leaves the store empty |
| `Api.ProcessResponse` | src/service/api.js:45-56 | success iff the status is exactly 200, with the body unchanged; any other status (201, 204 included) is a failure that carries that status, `data.msg \|\| response.msg` and `response.code`; never an error |
| `Api.Classify` | src/service/api.js:62-98 | every result is an error. With a response, the code is its status. Without one, the code is `""`. The code is 403 iff the response status is 403, and then the message is the session-expired text. Any other response uses `data.msg \|\| responseFailure`. A request with no response gives `requestFailure`; a request never sent gives `networkError` |
| `Api.ClassificationOrder` | src/service/api.js:63-97 | a present response decides the result whatever the request says; a sent request without response gives the request-failure message |
| `Api.ProcessError` | src/service/api.js:62-98 | returns the classification; the session store is cleared iff the response status is 403, and is otherwise unchanged |
| `Api.Settle` | src/service/api.js:30-39 | resolved responses are normalised, rejected ones classified; only a 403 rejection clears the store |
| `Api.CallExplicit` | src/service/api.js:101-116 | `await API.userSignup/userLogin(...)` always returns: the normalised result for a resolved response, the classified error for a rejected one, with the 403 store clearing |
| `Api.CallGenerated` | src/service/api.js:122-131 | `await` of a generated wrapper returns the normalised result for a resolved response and throws the interceptor's rejection reason (a promise, with no `msg`) for a rejected one |
| `Api.ShapeRequest` | src/service/api.js:16-24 | only `url` and `params` can change. Truthy `TYPE.params` become `params` and leave the URL alone. Otherwise a truthy `TYPE.query` makes the URL `url + '/' + query`. Otherwise the config passes through unchanged |
| `Api.ParamsWinOverQuery` | src/service/api.js:18-22 | with both `params` and `query` present, `params` wins and the URL is unchanged |
| `Api.PendingRequest.Intercept` | src/service/api.js:17-24 | the in-place update of the config object yields exactly `ShapeRequest` of the old config |
| `Api.GeneratedRequest` | src/service/api.js:122-131 | the body is `''` for `DELETE` and the payload verbatim otherwise; `authorization` is always the access token; method, URL, response type and `TYPE` come from the descriptor and the call |
| `Api.ExplicitPostRequest` | src/service/api.js:101-116 | `userSignup`/`userLogin` POST the form to their URL with no `authorization` header and no `TYPE`, so the interceptor leaves the request unchanged |
| `Api.WrapperRequest` | src/service/api.js:100-131 | a generated wrapper sends its generated request; an explicit wrapper sends its POST iff its service entry exists |
| `Api.ApiTable.constructor` | src/service/api.js:100-118 | the `API` object starts with exactly the explicit signup and login wrappers |
| `Api.ApiTable.RegisterServices` | src/service/api.js:120-146 | the keys become the old keys plus every service key that is not an inherited `Object.prototype` member (for those `!API[key]` is false); existing wrappers are never overwritten; each key that was not yet truthy gets the generated wrapper for its own descriptor |
| `Api.InitApi` | src/service/api.js:100-146 | after initialisation, `userSignup`/`userLogin` are still the explicit POST wrappers and every other service key, apart from the inherited member names, has its generated wrapper |
| `Login.TokensWritten` | src/components/account/Login.jsx:117-118 | exactly the two token entries are added or replaced, both start with `Bearer `; for each of the access and refresh tokens, a string is appended as is, a `null` one gives `Bearer null`, a missing one `Bearer undefined` |
| `Login.AlertSeverity` | src/components/account/Login.jsx:170 | severity is `success` iff the message includes `successfully` |
| `Login.AlertFor` | src/components/account/Login.jsx:168-175 | an alert is shown iff the error is truthy, and a string error gets `AlertSeverity` of its text |
| `Login.SignupConfirmationIsSuccess` | src/components/account/Login.jsx:140 | the signup confirmation is shown with `success` severity |
| `Login.MissingFieldsIsError` | src/components/account/Login.jsx:130 | the missing-fields message is shown with `error` severity |
| `Login.SignupFailedIsError` | src/components/account/Login.jsx:144 | the generic signup failure is shown with `error` severity |
| `Login.InvalidCredentialsIsError` | src/components/account/Login.jsx:124 | the failed-login message is shown with `error` severity |
| `Login.LoginPage.constructor` | src/components/account/Login.jsx:84-95 | initially the mode is login, both forms have empty fields, the error is `''` and the password is hidden |
| `Login.LoginPage.HandleChange` | src/components/account/Login.jsx:101-107 | only the named field of the current mode's form changes; the other form and all other state are unchanged |
| `Login.LoginPage.FormsChanged` | src/components/account/Login.jsx:97-99 | the effect after a form change clears the error and changes nothing else |
| `Login.LoginPage.ClickShowPassword` | src/components/account/Login.jsx:109-111 | password visibility flips; nothing else changes |
| `Login.LoginPage.LoginUser` | src/components/account/Login.jsx:113-126 | a readable success stores `'Bearer ' + accessToken` and `'Bearer ' + refreshToken`, sets the account to `{name, username}`, authenticates and navigates to `/`. A throw (including an `undefined`/`null` body) sets only the failed-login message. Any other result changes nothing |
| `Login.LoginPage.SignupUser` | src/components/account/Login.jsx:128-150 | a call is made iff name, username and password are all non-empty; otherwise the error is the missing-fields message. On success the signup form is cleared, the mode becomes login and the error is the confirmation. An error result sets its `msg`; a failure sets the generic message; a thrown object or string sets `error.msg \|\| generic`; a thrown `undefined`/`null` makes the `catch` throw and the error stays as it was |
| `Login.LoginPage.ToggleSignup` | src/components/account/Login.jsx:152-161 | the mode flips between login and signup, the error is cleared, and only the form being left is emptied |
| `CreatePost.CategoryFromSearch` | src/components/create/CreatePost.jsx:62 | the category is never empty; with no query string it is `All` |
| `CreatePost.CategoryFromLink` | src/components/create/CreatePost.jsx:62 | for the search string `?category=X` with no `=` in X, the page picks X when X is non-empty and `All` when it is empty |
| `CreatePost.CreatePostPage.constructor` | src/components/create/CreatePost.jsx:42-57 | the post starts with empty title, description, username and categories; not loading; no error |
| `CreatePost.CreatePostPage.PublishDisabled` | src/components/create/CreatePost.jsx:139 | the publish button is disabled exactly while `loading` is on; `SavePost` leaves it disabled when it sends and `SavePostSettled` always enables it |
| `CreatePost.CreatePostPage.SyncFromContext` | src/components/create/CreatePost.jsx:59-65 | the effect sets `categories` from the query string and `username` from the account, and keeps every other field |
| `CreatePost.CreatePostPage.HandleChange` | src/components/create/CreatePost.jsx:67-69 | only the named field of the post changes |
| `CreatePost.CreatePostPage.SavePost` | src/components/create/CreatePost.jsx:71-84 | a blank (empty or whitespace-only) title is rejected first, then a blank description; in either case nothing is sent and `loading` is untouched. Otherwise the post goes out untrimmed and unchanged, `loading` is on (the publish button is disabled) and the error is cleared |
| `CreatePost.CreatePostPage.SavePostSettled` | src/components/create/CreatePost.jsx:84-95 | `loading` is off whatever the outcome. Success navigates to `/`; any other result sets the failed-to-create message; a throw sets the error-creating message |
| `PostCard.PictureUrl` | src/components/home/post/Post.jsx:31 | the picture is the post's own when truthy, the fixed default URL otherwise; always truthy |
| `PostCard.SubstringEnd` | src/components/home/post/Post.jsx:35 | `substring(0, limit)` ends at `limit` when it lies within the string, at 0 for a negative limit and at the length for a larger one |
| `PostCard.AddEllipsis` | src/components/home/post/Post.jsx:33-36 | a missing or empty string gives `''` for any limit. A string no longer than the limit is returned unchanged. A longer one gives its first `limit` characters followed by `...`, exactly `limit + 3` long |
| `PostCard.AddEllipsisKeepsPrefix` | src/components/home/post/Post.jsx:35 | the output begins with the input's first `min(length, limit)` characters; applying it again to a short text changes nothing |
| `PostCard.CardTitle` | src/components/home/post/Post.jsx:83 | the card title is at most 53 characters, and a title of at most 50 is shown whole |
| `PostCard.CardExcerpt` | src/components/home/post/Post.jsx:94 | the card excerpt is at most 123 characters, and a description of at most 120 is shown whole |
| `PostCard.TrimAll` | src/components/home/post/Post.jsx:49 | `.map(cat => cat.trim())` trims each piece in place |
| `PostCard.NonEmpty` | src/components/home/post/Post.jsx:49 | `.filter(Boolean)` keeps exactly the non-empty strings, each as often as it occurs (the same multiset without `''`), in their original order (a subsequence) |
| `PostCard.CategoryNames` | src/components/home/post/Post.jsx:49 | the names of a string are its trimmed comma-separated pieces without the empty ones, each kept as often as it occurs |
| `PostCard.GetCategories` | src/components/home/post/Post.jsx:46-55 | a falsy value or a plain object gives `[]`; an array is returned unchanged; a string gives its category names |
| `PostCard.TrimmedPieceWellFormed` | src/components/home/post/Post.jsx:49 | a non-blank comma-free piece trims to a non-empty, comma-free, already trimmed name |
| `PostCard.CategoryNamesWellFormed` | src/components/home/post/Post.jsx:49 | every category name is non-empty, contains no `,`, and is trimmed |
| `PostCard.CategoryNamesKeepOrder` | src/components/home/post/Post.jsx:49 | the names are a subsequence of the trimmed pieces; every non-empty trimmed piece occurs among the names exactly as often as among the pieces, so `"Tech,Tech"` gives two names |
| `PostCard.NonEmptyKeepsAll` | src/components/home/post/Post.jsx:49 | filtering a list with no empty string returns it unchanged |
| `PostCard.CategoryNamesRoundTrip` | src/components/home/post/Post.jsx:49 | comma-joining non-empty, comma-free, trimmed names and reading them back yields the same names |
| `App.PrivateRoute` | src/App.js:111-126 | protected content iff authenticated and a non-empty access token is stored; otherwise a replace-redirect to `/account` |
| `App.Render` | src/App.js:136-161 | an unguarded route shows its screen; a guarded one shows it iff the guard lets it through, and otherwise redirects to `/account` |
| `App.OnlyAccountIsPublic` | src/App.js:137-161 | every route except `/account` is wrapped in the guard, and `/account` always shows the login page |
| `App.BeforeLoginEverythingRedirects` | src/App.js:129 | with `isAuthenticated` at its initial `false`, every route except `/account` redirects, whatever the token |
| `App.LoginTokenOpensGuard` | src/components/account/Login.jsx:117 | the stored `Bearer `-prefixed token is always non-empty, so an authenticated user gets through the guard |
| `App.LoginThenSessionExpiry` | src/App.js:112-113 | after a 200 login response passes through `API.userLogin`, the guard lets the user in; after a 403 clears the store it redirects, although `isAuthenticated` is still true |
| `App.RejectedLogin` | src/components/account/Login.jsx:113-126 | a login the server rejects leaves the page's error, account, authentication, navigation, mode and forms as they were; the store changes only on a 403 |
| `App.RejectedCreatePost` | src/components/create/CreatePost.jsx:84-95 | a post the server rejects shows the error-creating message, ends with `loading` off and keeps the post; the store changes only on a 403 |

## Left out

- The transport is not modelled: the axios instance, the network, the base URL, the 10-second timeout and the default `content-type` header. What the server or the network did is the input `Api.Outcome`.
- Promise scheduling is not modelled. What each wrapper's `await` produces is stated by `Api.CallExplicit` and `Api.CallGenerated`; the components receive it as `Awaited`.
- The upload and download progress callbacks are not modelled. They use floating-point division and `Math.round`, and an event's `total` may be 0 or missing.
- Logging (`console.log`, `console.error`, `error.toJSON()`) is not modelled; it does not affect any result.
- `getAccessToken`, `getType`, the service table and the notification messages are not part of this model. The model takes their values as parameters.
- Date handling is not modelled: the post's `createdDate` and the card's date formatting depend on the clock and a date library.
- Rendering and effect timing are not modelled. Handlers and the error-clearing effect are separate steps. React's batching and stale closures are not represented.
- `PostCard.AddEllipsis`: only takes a string or a missing value. A title or description of another type is not modelled, because the backend stores them as strings.
- `Login.AlertFor`: a non-string truthy error is shown as an `error` alert. The source would call `includes` on it, which an array supports and a plain object does not.
- `Login.LoginPage.LoginUser`: treats a string body like an object with no token fields. Reading a property of a string gives `undefined` in JavaScript as well.
- `PostCard.AddEllipsis`: measures and cuts strings in Unicode scalar values, not UTF-16 code units. For text outside the Basic Multilingual Plane the source's `length` and `substring` differ: 30 emoji are 60 code units, so the source cuts them at 50 units while the model keeps them whole.
- `Js.JsValue`: has no numbers or booleans. No value the modelled code inspects for truthiness, coercion or property reads is one of those; HTTP statuses are `int` fields.
- `CreatePost.CategoryFromLink`: is stated for the search string `?category=X`. The category list's link yields that string only when X consists of characters a URL query keeps as written (ASCII letters, digits, `-`, `.`, `_`, `~`). Other characters are percent-encoded, so "Web Dev" arrives as `Web%20Dev`, and a `#` starts the fragment. URL encoding is not modelled.
- The purely presentational pages and the theme are not part of this model: the contact, banner, header, about, home, list and detail views.
