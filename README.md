# scrollstack.client in Dafny

A Dafny model of the decision logic in the scrollstack blogging client. The client
is a React/Redux single-page app. Network outcomes, the browser's key-value store,
the clipboard and the file reader become inputs of the model. Every handler is one
sequential run against a scripted server answer.

The model covers five groups.

- **The re-authenticating base query.** `prepareHeaders` attaches `Bearer <token>`
  when a non-empty token is stored. `baseQueryWithReauth` answers a 401
  `InvalidAccessToken` with one `/refresh`, stores the new token and retries once.
  This is `EntryApi`, a class over a `Browser.LocalStorage` and a transport that
  answers the k-th request with `server(k)`. Both logout branches are TODOs in the
  code and are no-ops here.
- **The session.** The `auth` slice reducers (`AuthSlice.AuthState`) and the login,
  logout, sign-up and OTP-confirmation hooks that drive them and write
  `localStorage`. Sign-up stores a `JSON.stringify` snapshot of the user, and OTP
  confirmation parses it back (`Json`).
- **The like button.** The card's `handleLike` composed with the like and unlike
  hooks' rollbacks (`ArticleCard`, `LikeArticleHook`, `DisLikeArticleHook`), and the
  per-article loading map of the delete hook (`DeleteArticleHook`).
- **Validators.**
  - The zod schemas of registration, login, e-mail and new password
    (`UserRegistration`).
  - The schemas of the login and sign-up pages, and the loop that turns zod issues
    into an error record (`LoginPage`, `SignupPage`, `Zod`).
  - The hand-written checks of the login, sign-up and OTP forms and of the password
    change (`LoginForm`, `SignupForm`, `OtpForm`, `ProfilePage`).
  - The e-mail regex `/\S+@\S+\.\S+/` (`EmailPattern`).
  - The article schema (`ArticleSchema`).
- **The dashboard and the OTP page.**
  - Dashboard handlers (`Dashboard.DashboardPage`).
  - Comma-separated tag parsing (`DashboardTags`).
  - Pagination arithmetic (`Pagination`).
  - The six-cell OTP entry with typing, paste and submit (`OtpPage`).

JavaScript semantics are written out where they matter:

- `trim()` and `\s` use JavaScript's whitespace set.
- `.length` and zod's `min`/`max` count UTF-16 code units (`Text.Length`).
- `split`/`join` behave as in JavaScript, and `\d` means ASCII digits.
- A truthy string is a present, non-empty one.
- `err.data.message` read without `?.` throws a `TypeError` when the error has no
  body (`Api.Completion.Threw`). The `?.` form does not throw.

Zod issues are taken in schema order: fields in declaration order, each field's
checks in chain order, and a `.refine` last. The refine also runs when fields have
already failed, because string checks are not fatal. The error record keeps, for
each key, the last message written to it.

Points where the code behaves differently from what its own comments or UI suggest:

- The logouts after a failed refresh and for a suspended account are commented out
  under TODOs (`src/redux/api/entryApi.ts:44-50`), so both are no-ops. Nothing
  guards against two calls refreshing at once either: each call refreshes on its own.
- The like and unlike hooks' `catch` blocks "roll back" the count and the flag
  (`src/hooks/useLikeArticles.ts:17`, `src/hooks/useDisLikeArticle.ts:16`). But the
  card changes its count only after the awaited call, so there is nothing to roll
  back. See "## Findings".
- The registration schema caps passwords at 30 characters, but its message says 25.
  `UserRegistration.RegisterShown` states exactly that.
- The dashboard counts pages from the length of the list the server returned for the
  current page. `Pagination.OnePageOfData` states the consequence when the server
  honours the page limit.
- Changing the items per page keeps the current page.

## Model

| member | source | states |
|---|---|---|
| Api.ServerMessage | src/hooks/useHandleOtp.ts:29-30 | `err.data?.message` as a condition: present iff the error has a body with a non-empty message, and then it is that message |
| Api.CatchMessage | src/hooks/useLoginHook.ts:24-31 | a `catch` reading `err.data.message`: throws when there is no body; otherwise an error toast exactly when the message is non-empty, carrying that message |
| Api.CatchMessageOrGeneric | src/hooks/useLogoutHook.ts:16-23 | the same, with the generic text when the body has no message; throws when there is no body |
| Browser.LocalStorage.GetItem | src/hooks/useHandleOtp.ts:12 | `getItem` gives a value iff the key is stored, and then the stored value |
| Browser.LocalStorage.SetItem | src/hooks/useLoginHook.ts:19 | `setItem` updates one key and keeps all others |
| Browser.LocalStorage.RemoveItem | src/hooks/useLogoutHook.ts:14 | `removeItem` drops one key and keeps all others |
| EntryApi.AuthHeader | src/redux/api/entryApi.ts:21-27 | a header is attached iff a non-empty token is stored, and it is `Bearer ` followed by that token |
| EntryApi.ApiClient.BaseQuery | src/redux/api/entryApi.ts:18-28 | one request, with headers from the current store, is appended to the log; the result is the transport's answer to it |
| EntryApi.ApiClient.BaseQueryWithReauth | src/redux/api/entryApi.ts:29-54 | the result, the new store and the requests issued are those of the decision procedure `Reauth`, where only a refresh whose `data` is non-null stores a token and retries |
| EntryApi.RefreshIffInvalidToken | src/redux/api/entryApi.ts:37-38 | a refresh is issued iff the first result is a 401 with code `InvalidAccessToken`, and it carries the same header as the first request |
| EntryApi.AtMostThreeRequests | src/redux/api/entryApi.ts:34-47 | 1 to 3 requests per call: the original first, and any third is a retry of the same arguments |
| EntryApi.PassThrough | src/redux/api/entryApi.ts:34-37 | any other first result is returned unchanged after exactly one request, and the store is untouched |
| EntryApi.RefreshSuccessRetriesWithNewToken | src/redux/api/entryApi.ts:39-42 | after a refresh whose `data` is non-null, the stored token is the refreshed one, the retry carries it, and the retry's result is returned |
| EntryApi.RefreshFailureKeepsOriginal | src/redux/api/entryApi.ts:39-46 | a refresh that fails, or succeeds with `null` data, returns the original failure after two requests, and the store is unchanged |
| EntryApi.SuspendedBypassesRefresh | src/redux/api/entryApi.ts:48-53 | a 401 `AccountSuspended` starts no refresh: one request, result returned as is, store unchanged |
| AuthSlice.AuthState.constructor | src/redux/slice/userSlice.ts:5-9 | no user, not logged in, OTP modal closed |
| AuthSlice.AuthState.SetCredentials | src/redux/slice/userSlice.ts:16-18 | replaces the current user and nothing else |
| AuthSlice.AuthState.SetUserLoggedIn | src/redux/slice/userSlice.ts:19-21 | sets the logged-in flag and nothing else |
| AuthSlice.AuthState.SetIsSetOtpModelOpen | src/redux/slice/userSlice.ts:22-24 | sets the OTP-modal flag and nothing else |
| AuthSlice.AuthState.SetLogout | src/redux/slice/userSlice.ts:25-29 | from any state, back to the initial state, so a second logout changes nothing |
| AuthSlice.AuthState.SetProfilePicture | src/redux/slice/userSlice.ts:30-34 | without a user, a no-op; with one, changes only that user's picture; a logged-in session keeps its user |
| LoginHook.HandleLogin | src/hooks/useLoginHook.ts:14-32 | success: the user is set, the session is logged in, the token is stored, a success toast shows and the app navigates to "/". Failure: the hook changes neither auth nor storage, there is no navigation, and the toast or throw is `CatchMessage` |
| LogoutHook.HandleLogout | src/hooks/useLogoutHook.ts:10-24 | success: the slice is back to its initial state and only "accessToken" is removed, so "user" stays. Failure: the hook changes neither auth nor storage, and the message is the server's or the generic one |
| LogoutHook.LogoutThroughWrapper | src/hooks/useLogoutHook.ts:10-24 | the logout sent through `baseQueryWithReauth` (src/redux/api/entryApi.ts:29-54): the requests are the wrapper's. On success the store is the wrapper's store without "accessToken" and the slice is initial. On failure the slice is untouched and the store is exactly what the wrapper left, including a token stored by a successful refresh |
| LogoutHook.FailedLogoutKeepsRefreshedToken | src/redux/api/entryApi.ts:38-41 | an expired-token logout whose refresh succeeds and whose retry fails with 500 leaves the refreshed token stored and the user logged in |
| SignUpHook.HandleSignUp | src/hooks/useSignUpHook.ts:10-27 | success: "user" holds the serialised user and the app navigates to "/otp". Failure: the hook writes no storage and the message is the server's or the fallback. It has no access to the auth slice |
| OtpHook.HandleOtpVerification | src/hooks/useHandleOtp.ts:11-34 | no stored user: the error toast, no request and no change. An unparsable snapshot throws. Otherwise the request carries the code and the snapshot's `_id`; success logs in that user; failure changes no auth state. The hook never writes storage |
| OtpHook.SignUpThenConfirm | src/hooks/useHandleOtp.ts:12-23 | registering and then confirming logs in exactly the user the server registered, with that user's id in the request |
| Json.ReadEscaped | src/hooks/useHandleOtp.ts:18 | any text escaped as `JSON.stringify` writes it, with its closing quote, is read back as itself by the string-literal reader |
| Json.DecodeEncode | src/hooks/useSignUpHook.ts:16 | `JSON.parse` of the stored snapshot gives back the user that was stored |
| LikeArticleHook.GuardedToast | src/hooks/useLikeArticles.ts:21-24 | a toast appears iff the error carries a non-empty `data.message`, and it shows that message |
| LikeArticleHook.HandleLikeArticle | src/hooks/useLikeArticles.ts:9-26 | the request is `{articleId: id}`. Success touches neither cell. Failure gives one like fewer and `isLiked` false. It never throws |
| DisLikeArticleHook.HandleDisLikeArticle | src/hooks/useDisLikeArticle.ts:8-25 | the request is `{articleId: id}`. Success touches neither cell. Failure gives one like more and `isLiked` true. It never throws |
| DeleteArticleHook.DeleteArticle.constructor | src/hooks/useDeleteArticle.ts:8 | the loading map starts empty |
| DeleteArticleHook.DeleteArticle.HandleDeleteArticle | src/hooks/useDeleteArticle.ts:9-25 | the id is marked loading when the request goes out and is not loading afterwards, in every case; other ids are kept. Success toasts the server message; failure is `CatchMessage` |
| ArticleCard.Mount | src/components/ArticleCard.tsx:15-16 | the card starts with the article's count and not liked |
| ArticleCard.SyncLikedBy | src/components/ArticleCard.tsx:24-28 | the effect sets the flag iff a user is present and in `likedBy`, and never clears it |
| ArticleCard.HandleLike | src/components/ArticleCard.tsx:30-46 | logged out: no request and no change. Logged in: the like or unlike request matches the old flag, and the flag ends negated whatever the server says. The count moves by one on success and is back where it was on failure. On failure the toast is the hook's guarded one; on success there is none |
| ArticleCard.FailedLikeFlipsFlag | src/components/ArticleCard.tsx:36-45 | a failed like on (not liked, 5) ends at (liked, 5) |
| ArticleCard.HandleLikeOptimistic | src/components/ArticleCard.tsx:36-45 | with the card's update applied before the call: success flips the flag and moves the count, and failure restores both. On failure the toast is the hook's guarded one; on success there is none |
| ArticleCard.FailedLikeRestoresCard | src/components/ArticleCard.tsx:36-45 | with that order, the same failed like ends at (not liked, 5) |
| Text.Length | src/components/LoginForm.tsx:28 | `.length` lies between the number of characters and twice that, and is 0 only for the empty string |
| Text.Trim | src/components/DashboardPage.tsx:116 | the result has no whitespace at either end |
| Text.TrimInfix | src/components/DashboardPage.tsx:116 | the trimmed text is the infix that starts after the leading whitespace, and only whitespace follows it |
| Text.TrimEmpty | src/components/SignupForm.tsx:41 | the trimmed text is empty iff the text is all whitespace |
| Text.TrimKeepsOut | src/components/DashboardPage.tsx:116 | trimming adds no character, so a trimmed piece of a split has no separator in it |
| Text.TrimSpacePrefix | src/components/DashboardPage.tsx:116 | trimming a text without surrounding whitespace, with whitespace put in front, gives the text |
| Text.Split | src/components/DashboardPage.tsx:115 | `split` gives at least one piece, and no piece contains the separator |
| Text.JoinSplit | src/components/DashboardPage.tsx:115 | joining the pieces of a split with the separator gives back the text |
| Text.SplitJoin | src/components/DashboardPage.tsx:616 | splitting a join of separator-free pieces gives back the pieces |
| Text.SplitTrailingSep | src/components/DashboardPage.tsx:115 | a separator at the end adds exactly one empty piece |
| EmailPattern.LooksLikeEmail | src/components/LoginForm.tsx:22 | decides exactly whether `/\S+@\S+\.\S+/` matches anywhere in the text |
| Zod.Check | src/utils/dashBoard.ts:20 | one check raises no issue iff it passes |
| Zod.FormatErrors | src/components/DashboardPage.tsx:167-171 | the record has one key per issue path, holding the message of the last issue on that path |
| Zod.ErrorMapUnique | src/components/DashboardPage.tsx:167-171 | that record is determined by the issues |
| Zod.NoIssuesNoErrors | src/pages/LoginPage.tsx:32-37 | the record is empty iff there are no issues |
| Zod.MessageForAppend | src/pages/LoginPage.tsx:33-36 | issues raised later override earlier ones on the same path |
| Zod.ErrorMapMessages | src/pages/LoginPage.tsx:32-37 | a key is in the record iff some issue has that path, and its value is the last such message |
| UserRegistration.BoundedShown | src/zod/user-registration.ts:21-25 | the last issue a min/max/nonempty chain raises on its path: "required" when empty, then the max message, then the min message; no issue on other paths |
| UserRegistration.EmailShown | src/zod/user-registration.ts:27 | the last issue the e-mail chain raises: "Email is required" when empty, else "Enter a valid email address" when the format check fails |
| UserRegistration.RegisterIssues | src/zod/user-registration.ts:19-44 | no issues iff the name has 3..30 units, the e-mail is non-empty and valid, both passwords have 6..30 units and they match |
| UserRegistration.RegisterShown | src/zod/user-registration.ts:19-44 | the last issue raised on each path. The password bound is 30 while the message names 25. The mismatch issue is raised last under `confirmPassword`, after that field's own issues |
| UserRegistration.LoginIssues | src/zod/user-registration.ts:46-54 | no issues iff the e-mail is non-empty and valid and the password has 6..30 units |
| UserRegistration.LoginShown | src/zod/user-registration.ts:46-54 | the last issue raised on each login path, in the same order |
| UserRegistration.EmailSchemeIssues | src/zod/user-registration.ts:56-58 | no issues iff the e-mail is non-empty and valid; every issue is on `email` |
| UserRegistration.SetNewPasswordIssues | src/zod/user-registration.ts:60-76 | no issues iff both passwords have 6..30 units and they match |
| UserRegistration.SetNewPasswordShown | src/zod/user-registration.ts:60-76 | the last issue raised on each path: the mismatch comes after `confirmPassword`'s own issues; `password` gets only its own checks |
| LoginPage.SchemaIssues | src/pages/LoginPage.tsx:8-11 | no issues iff the e-mail passes the format check and the password has at least 6 units |
| LoginPage.SchemaShown | src/pages/LoginPage.tsx:8-11 | each field shows its own failing check's message and nothing else |
| LoginPage.LoginPage.HandleSubmit | src/pages/LoginPage.tsx:23-40 | valid: errors cleared and one login with the two fields. Invalid: no login, and a key for each failing field with its message |
| SignupPage.SchemaIssues | src/pages/SignupPage.tsx:8-18 | no issues iff the name is non-empty, the e-mail is valid, the password has 8+ units and a digit, the confirmation is non-empty and the two match |
| SignupPage.SchemaShown | src/pages/SignupPage.tsx:8-18 | each field's message: a digitless password reads "must contain at least one number" even when short, and a mismatch overrides the confirmation's own message |
| SignupPage.SignupPage.HandleSubmit | src/pages/SignupPage.tsx:34-51 | valid: errors cleared and one sign-up with all four fields. Invalid: no sign-up, and the record shows exactly the schema's last message per field |
| LoginForm.EmailError | src/components/LoginForm.tsx:20-24 | "Email is required" iff empty; "Email is invalid" iff non-empty and not matching the pattern; no message otherwise |
| LoginForm.PasswordError | src/components/LoginForm.tsx:26-30 | "Password is required" iff empty; the length message iff non-empty and under 6 units; no message otherwise |
| LoginForm.ValidIff | src/components/LoginForm.tsx:17-34 | no message is recorded iff the e-mail is non-empty and matches and the password has 6+ units |
| LoginForm.LoginForm.ValidateForm | src/components/LoginForm.tsx:17-34 | the record is the two checks' messages, and it returns true iff the record is empty |
| LoginForm.LoginForm.HandleSubmit | src/components/LoginForm.tsx:36-43 | `handleLogin` with the two fields, and `onLogin`, both happen iff the form is valid |
| SignupForm.WithField | src/components/SignupForm.tsx:25-31 | only the named field changes |
| SignupForm.NameError | src/components/SignupForm.tsx:41-43 | "Name is required" iff the name is all whitespace |
| SignupForm.ConfirmError | src/components/SignupForm.tsx:57-61 | "Please confirm your password" iff empty; "Passwords do not match" iff non-empty and different; no message otherwise |
| SignupForm.ValidIff | src/components/SignupForm.tsx:33-65 | the record is empty iff every rule holds |
| SignupForm.SignupForm.HandleChange | src/components/SignupForm.tsx:25-31 | only the named field changes |
| SignupForm.SignupForm.ValidateForm | src/components/SignupForm.tsx:33-65 | the record is the four checks' messages, and it returns true iff the record is empty |
| SignupForm.SignupForm.HandleSubmit | src/components/SignupForm.tsx:67-75 | `handleSignUp` with the form data happens iff the form is valid |
| OtpForm.OtpError | src/components/OtpForm.tsx:17-27 | "OTP code is required" iff empty; "OTP must be 6 digits" iff non-empty with a length other than 6; cleared otherwise |
| OtpForm.LettersPass | src/components/OtpForm.tsx:21-23 | six letters pass, because digits are never checked |
| OtpForm.OtpForm.ValidateForm | src/components/OtpForm.tsx:17-27 | the error is `OtpError`, and it returns true iff there is none |
| OtpForm.OtpForm.HandleSubmit | src/components/OtpForm.tsx:29-35 | verification is called, with the code, iff its length is 6 |
| OtpPage.Initial | src/pages/OtpPage.tsx:7 | six empty cells |
| OtpPage.FirstEmpty | src/pages/OtpPage.tsx:46 | the first empty cell, or -1 iff there is none |
| OtpPage.PasteDigits | src/pages/OtpPage.tsx:39-44 | the first min(6, k) cells take the pasted digits in order; the others keep their value |
| OtpPage.CompleteCode | src/pages/OtpPage.tsx:60 | joining one-digit cells gives their digits in order |
| OtpPage.OtpPage.HandleChange | src/pages/OtpPage.tsx:16-26 | a value with a non-digit changes nothing. Otherwise only cell `index` changes, to the value's first character or "". Focus moves to the next cell for a non-empty value before the last cell. Well-formed cells stay well formed |
| OtpPage.OtpPage.HandlePaste | src/pages/OtpPage.tsx:34-52 | a trimmed paste that is empty or has a non-digit changes nothing. Otherwise the leading cells take the digits and the rest are kept. Focus goes to the first empty cell, or to cell 5 if there is none |
| OtpPage.OtpPage.HandleSubmit | src/pages/OtpPage.tsx:54-63 | any empty cell: the error, and no verification. Otherwise verification of the joined cells |
| OtpPage.SubmittedCodeIsSixDigits | src/pages/OtpPage.tsx:54-60 | well-formed, complete cells submit a code of exactly six digits |
| ProfilePage.PasswordChangeError | src/pages/ProfilePage.tsx:26-34 | "All fields are required" iff a field is empty, which takes precedence; "New passwords do not match" iff all are filled and the new ones differ; no error otherwise |
| ProfilePage.ProfilePage.HandlePasswordChange | src/pages/ProfilePage.tsx:22-36 | the old error is replaced by `PasswordChangeError`. The update `{newPassword, oldPassword: current}` is made iff there is no error |
| ArticleSchema.Issues | src/utils/dashBoard.ts:19-27 | no issues iff the title has 1+, the description 10+, the content 50+ and the category 1+ units and there is at least one tag; the image fields are never checked |
| ArticleSchema.Shown | src/utils/dashBoard.ts:19-27 | each field shows its own rule's message exactly when it breaks that rule |
| DashboardTags.ParsedAreTags | src/components/DashboardPage.tsx:113-118 | every parsed tag is non-empty, has no whitespace at either end and has no comma |
| DashboardTags.ParseDisplayed | src/components/DashboardPage.tsx:614-617 | parsing what the field shows, `tags.join(", ")`, gives back the tags |
| DashboardTags.ParseCommaList | src/components/DashboardPage.tsx:113-118 | parsing tags joined with bare commas gives back the tags |
| DashboardTags.TrailingCommaIgnored | src/components/DashboardPage.tsx:113-118 | a comma at the end of the text adds no tag |
| DashboardTags.TypedCommaVanishes | src/components/DashboardPage.tsx:614-617 | typing a comma into the field as wired leaves the tags as they were |
| DashboardTags.CommaLost | src/components/DashboardPage.tsx:614-617 | typing "a,b" into the empty field gives the single tag "ab", where the text "a,b" parses to "a" and "b" |
| DashboardTags.TypingKeepsText | src/components/DashboardPage.tsx:113-118 | a field that keeps the typed text and parses it: after any keys, its text is what was typed and its tags are the parse of that text |
| DashboardTags.TypedCommaListKept | src/components/DashboardPage.tsx:113-118 | typing a comma-separated list of tags key by key into that field, starting empty, gives back exactly those tags |
| Pagination.PageCount | src/components/DashboardPage.tsx:440 | `Math.ceil(n / k)`: the least page count whose pages hold `n` items, 0 only for no items |
| Pagination.RangeWithin | src/components/DashboardPage.tsx:428-429 | on every offered page, "Showing a to b of n" has 1 ≤ a ≤ b ≤ n and at most `k` items |
| Pagination.RangesAdjoin | src/components/DashboardPage.tsx:428-429 | each page's range starts right after the previous one's |
| Pagination.Previous | src/components/DashboardPage.tsx:434 | `Math.max(page - 1, 1)`: never below 1 |
| Pagination.OnePageOfData | src/components/DashboardPage.tsx:440-452 | with 1 to `k` items there is one page button, and "Next" is disabled |
| Dashboard.WithField | src/components/DashboardPage.tsx:105-107 | only the named field changes; the image and tags are kept |
| Dashboard.ClearError | src/components/DashboardPage.tsx:108-110 | afterwards the field shows no message |
| Dashboard.ClearErrorKeepsOthers | src/components/DashboardPage.tsx:108-110 | every other field's message is kept |
| Dashboard.Payload | src/components/DashboardPage.tsx:184-188 | a non-empty upload replaces `imageUrl` and its own key is dropped; otherwise the payload is the form; the other fields are always the form's |
| Dashboard.PayloadStable | src/components/DashboardPage.tsx:184-188 | shaping twice changes nothing more, and shaping never changes whether the schema accepts the form |
| Dashboard.FindArticle | src/components/DashboardPage.tsx:220 | `find`: nothing iff no article has the id; otherwise the first article with it |
| Dashboard.DashboardPage.constructor | src/components/DashboardPage.tsx:21-69 | the initial state: no search or category, page 1, 10 per page, closed modals and an empty form |
| Dashboard.DashboardPage.ResetForm | src/components/DashboardPage.tsx:90-103 | empty form, no errors, no article being edited, no preview; the rest is kept |
| Dashboard.DashboardPage.HandleInputChange | src/components/DashboardPage.tsx:105-111 | the named field takes the value and its message is cleared; the rest is kept |
| Dashboard.DashboardPage.HandleTagsChange | src/components/DashboardPage.tsx:113-122 | the tags become the parse of the text and the tags message is cleared; the rest is kept |
| Dashboard.DashboardPage.HandleImageUpload | src/components/DashboardPage.tsx:124-153 | no file: no change. Over 5 MiB: the size message, form unchanged. Loaded: the data URL becomes `imageBase64` and the preview, `imageUrl` is emptied, and the image message is cleared. Read error: the read message, form unchanged. The listing, the view modal and the edit modal's open flag are kept |
| Dashboard.DashboardPage.ClearImageUpload | src/components/DashboardPage.tsx:155-158 | both image fields are emptied and the preview is removed; the listing and the view modal are kept |
| Dashboard.DashboardPage.ValidateForm | src/components/DashboardPage.tsx:160-176 | returns true iff the schema accepts the form. The errors are then empty, and otherwise they are the record built from the issues |
| Dashboard.DashboardPage.HandleSubmit | src/components/DashboardPage.tsx:178-202 | invalid: nothing is sent. Valid: an edit of the article being edited or a create, carrying the shaped payload. The modal closes and the form resets, unless the edit hook threw on an error without a body. The listing and the view modal are kept |
| Dashboard.DashboardPage.OpenEditModal | src/components/DashboardPage.tsx:71-88 | the modal opens on the article. If another article (or none) was being edited, the form and preview are loaded from it, with an absent image as "". If the same article still is, after a Cancel, the form and preview are kept. The errors, the listing and the view modal are kept |
| Dashboard.DashboardPage.CloseModal | src/components/DashboardPage.tsx:627 | Cancel closes the modal and changes nothing else, so the article being edited, the form and the errors stay |
| Dashboard.ReopenAfterCancel | src/components/DashboardPage.tsx:71-88 | editing an article's title, cancelling and reopening the same article shows the edited title, not the article's |
| Dashboard.DashboardPage.OpenAddModal | src/components/DashboardPage.tsx:214-217 | the modal opens on an empty form; the listing and the view modal are kept |
| Dashboard.DashboardPage.ViewArticle | src/components/DashboardPage.tsx:219-225 | an unknown id changes nothing; otherwise the first listed article with the id is shown. The listing and the editor are kept |
| Dashboard.DashboardPage.SetSearchTerm | src/components/DashboardPage.tsx:227-229 | a changed search term returns to page 1; an unchanged one keeps the page. The category, page size, editor and view modal are kept |
| Dashboard.DashboardPage.SetSelectedCategory | src/components/DashboardPage.tsx:227-229 | a changed category returns to page 1; an unchanged one keeps the page. The search term, page size, editor and view modal are kept |
| Dashboard.DashboardPage.SetItemsPerPage | src/components/DashboardPage.tsx:297-307 | the chosen size is stored and the page is kept, as are the filters, the editor and the view modal |
| Dashboard.DashboardPage.PreviousPage | src/components/DashboardPage.tsx:433-435 | disabled on page 1; otherwise one page back, never below 1. Only the page changes |
| Dashboard.DashboardPage.NextPage | src/components/DashboardPage.tsx:450-452 | disabled from the last page on; otherwise one page forward, staying within the page count. Only the page changes |
| Dashboard.DashboardPage.GoToPage | src/components/DashboardPage.tsx:440-449 | button `i + 1` goes to that page, which lies within the page count. Only the page changes |

## Left out

- JSX rendering, CSS, icons, modals as markup, routing and route guards: only what
  the handlers compute is modelled.
- The RTK Query endpoint tables and the store and persistence configuration: they are
  declarative library setup.
- The create, edit and change-password hooks and the profile-picture upload: they
  only toast or forward. The one behaviour the dashboard depends on is kept, namely
  that an edit error without a body throws.
- zod's `.email()` regex is a library internal. It is the parameter
  `isEmail: string -> bool`.
- zod's issue order is assumed to be declaration order, as stated above.
- `toast`, `navigate`, `console.log`, DOM focus calls and `toLocaleDateString` are
  not modelled. Toasts, navigation targets and the next-focus index are returned as
  values.
- FileReader and base64 conversion: the reader's outcome is an input
  (`Dashboard.ReadResult`). It is taken to arrive before any other event, so the
  `errors` the `onload` closure reads is the current one.
- LoginHook.HandleLogin, LogoutHook.HandleLogout, SignUpHook.HandleSignUp,
  OtpHook.HandleOtpVerification, OtpHook.SignUpThenConfirm: `reply` is the
  re-authenticating base query's final answer, and their storage clauses speak only
  of what the hook itself writes. A token the base query stores during a refresh is
  outside these contracts. `LogoutHook.LogoutThroughWrapper` composes the two for
  logout; the other hooks compose the same way.
- Concurrency is not modelled: parallel requests, refresh races, double clicks and
  answers arriving after unmount. Each handler is one sequential run.
- Json.DecodeUser: `JSON.parse` is modelled only on texts of the stored snapshot's
  shape, with fields in the server's order. Any other text is treated as one that
  throws.
- An error key set to `undefined` is modelled as an absent key.
- Article: the author, status, like and date fields are not carried, because no
  modelled handler reads them.
- The dashboard's `refetch` after a submit or delete, `confirmDelete`, and the OTP
  page's `handleKeyDown` are not modelled. They only trigger a reload or move focus.
- Dashboard.DashboardPage.NextPage, Dashboard.DashboardPage.GoToPage: they require
  a page size of at least 1. In the code the size always comes from the select
  (5, 10, 20 or 50) or the initial 10.
- OtpPage.OtpPage.HandleChange: it requires an index below 6, because the page
  renders exactly six inputs.
- Dashboard.DashboardPage.OpenEditModal: React re-runs the `[editingArticle]` effect
  when the object reference changes. The model compares article values instead. A
  refetched list with an identical copy of the article reloads the form in the code
  but not in the model.
- UserRegistration.BoundedShown, UserRegistration.EmailShown,
  UserRegistration.RegisterShown, UserRegistration.LoginShown,
  UserRegistration.SetNewPasswordShown: these state the last issue raised on each
  path. No code in the client parses these schemas, so no consumer decides which
  message a form would display. A resolver that keeps the first issue per path would
  show different messages.

## Findings

| source | as written | input that shows it | evidently intended | confidence | as-written member | corrected member |
|---|---|---|---|---|---|---|
| src/components/ArticleCard.tsx:36-45 | the count change and the flag negation run after the awaited hook, whose failure path has already rolled the count back and set the flag | a logged-in click on a card showing (not liked, 5) whose like request fails | the card is restored to (not liked, 5) | not executed | ArticleCard.FailedLikeFlipsFlag | ArticleCard.FailedLikeRestoresCard |
| src/components/DashboardPage.tsx:614-617 | the field shows `tags.join(", ")` and every change re-parses it, so a comma typed at the end disappears before the next key | typing "a,b" key by key into the empty tags field | the tags "a" and "b", which the text "a,b" parses to | not executed | DashboardTags.CommaLost | DashboardTags.TypedCommaListKept |

For the like button, `ArticleCard.HandleLikeOptimistic` applies the card's update
before the call. With that order the hooks' rollbacks restore the card exactly. For
the tags field, `DashboardTags.TypedKeepingText` keeps the typed text and parses it
on each change. `DashboardTags.TypingKeepsText` proves that the tags then always
equal the parse of what was typed.
`Dashboard.DashboardPage.HandleTagsChange` still models the page as written.
