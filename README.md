# rentify-native: KYC status sync and navigation core, in Dafny

This project models the client-side core of the rentify-native mobile app:
- the Redux slices that hold the session (`auth`) and the KYC verification state (`kyc`);
- the KYC enforcer in `App.tsx`, which polls the status endpoint, merges the reading into the store and redirects the user to the screen for their status;
- the password-reset deep link;
- the KYC form, with its draft persistence and its two submission channels;
- the sign-in, registration, OTP, password-reset and logout flows.

Each asynchronous handler is split at its `await` into two steps:
- a *begin* step: the guards, the loading flag and the request it would send;
- a *completion* step: it takes the server's outcome and returns the effects the screen produces.

Effects are alerts, navigations, navigation resets and requests, emitted as values. A React effect's dependency array is modelled by a field that remembers the last dependencies: the effect body runs only when they change.

Modules, one per file:
- `JsonValues` (json.dfy): a JSON value type with JavaScript's truthiness, `||`, `&&`, `??`, property access and `ToString`.
- `Text` (text.dfy): ASCII case mapping and the keyword search behind case-insensitive regular expressions.
- `KycSlice`, `AuthSlice`, `ProfileSlice`: the reducers, as pure functions.
- `Store` (store.dfy): the store object with its dispatch methods.
- `DeviceStorage` (storage.dfy): the key/value storage.
- `AuthApi`: response handling and the normalisation of the KYC status payload.
- `Credentials`: the credential extraction shared by the two OTP screens.
- `DeepLink`: token extraction from a reset link.
- `KycEnforcement`: the polling effect and the redirect effect.
- `KycFormRules` and `KycFormScreen`: the KYC form.
- `HomeLogout`, `LoginScreen`, `OtpScreen`, `LoginOtpScreen`, `RegisterScreen`, `ResetPasswordScreen`, `ForgotPasswordScreen`: the remaining screens.

Points where the model shows behaviour the code has, stated as proved facts:
- **First poll on re-login.** `firstFetchedRef` is never reset. After a sign-out and a new sign-in, the redirect effect navigates on the stale store status before the first poll of the new session (`KycEnforcement.ReloginRedirectsBeforeFirstPoll`).
- **Top-level status words.** A top-level status `"NOT_SUBMITTED"` contains `submitted` and reads as PENDING (`AuthApi.NotSubmittedWordReadsPending`). The word `complete` means VERIFIED only at top level (`AuthApi.CompleteVerifiedAtTopLevel`, `AuthApi.CompleteUnknownWhenNested`).
- **Clear Draft.** The debounced save re-creates the draft after "Clear Draft" removes it (`KycFormScreen.ClearedDraftComesBack`).
- **Login error text.** When a refused login's body is not JSON, the code reads `response.text()` after `json()` has already consumed the body. That read always fails, so the status line is shown, never the server's text (`LoginScreen.UnparsedBodyShowsStatus`).
- **Unloggable access tokens.** On the OTP screens, a truthy access token that is neither a string nor an array makes the logging `slice` call throw. The user then sees the network-error alert, although the session is already stored.

## Model

| member | source | states |
|---|---|---|
| KycSlice.SetKycStatus | src/store/kycSlice.ts:23-25 | each field of the result is the payload's field when present, else the state's |
| KycSlice.ResetKyc | src/store/kycSlice.ts:26-28 | the result is the initial state whatever the input |
| KycSlice.InitialIsNotSubmitted | src/store/kycSlice.ts:12-17 | the initial status is NOT_SUBMITTED and the three timestamps/reason are null |
| KycSlice.SetKycStatusIdentityAndIdempotent | src/store/kycSlice.ts:23-25 | an empty payload changes nothing; applying a payload twice equals applying it once |
| KycSlice.SetKycStatusComposes | src/store/kycSlice.ts:23-25 | two successive merges equal one merge of the overlaid payloads |
| KycSlice.FullPayloadReplaces | src/store/kycSlice.ts:23-25 | a payload with every field present makes the result independent of the old state |
| AuthSlice.SetAuth | src/store/authSlice.ts:26 | fields merge from the payload; isAuthenticated is the payload's flag, defaulting to true |
| AuthSlice.ClearAuth | src/store/authSlice.ts:29-31 | the result is the signed-out initial state |
| AuthSlice.InitialIsSignedOut | src/store/authSlice.ts:12-19 | the initial state is signed out with every credential null |
| AuthSlice.SetAuthDefaultsToSignedIn | src/store/authSlice.ts:26 | any payload without the flag signs in; the empty payload only sets the flag; the merge is idempotent |
| AuthSlice.SignOutFlagKeepsTokens | src/store/authSlice.ts:26 | setting isAuthenticated to false keeps every stored credential |
| ProfileSlice.SetProfile | src/store/profileSlice.ts:29-31 | each profile field is the payload's when present, else the state's |
| ProfileSlice.ClearProfile | src/store/profileSlice.ts:32-34 | the result is the blank initial profile |
| ProfileSlice.InitialIsBlank | src/store/profileSlice.ts:14-23 | every initial string is empty and the preference list is empty |
| ProfileSlice.SetProfileIdentityAndIdempotent | src/store/profileSlice.ts:29-31 | an empty payload changes nothing; the merge is idempotent |
| Store.AppStore.constructor | src/store/index.ts:5-10 | the store starts with the initial auth and kyc states |
| Store.AppStore.DispatchSetAuth | src/store/authSlice.ts:26 | the auth state becomes the reducer's result; kyc is untouched |
| Store.AppStore.DispatchClearAuth | src/store/authSlice.ts:29-31 | the auth state is reset; kyc is untouched |
| Store.AppStore.DispatchSetKycStatus | src/store/kycSlice.ts:23-25 | the kyc state becomes the reducer's result; auth is untouched |
| Store.AppStore.DispatchResetKyc | src/store/kycSlice.ts:26-28 | the kyc state is reset; auth is untouched |
| DeviceStorage.Storage.constructor | src/screens/KycFormScreen.tsx:31-33 | storage starts empty |
| DeviceStorage.Storage.SetItem | src/screens/KycFormScreen.tsx:66 | the key maps to the value and every other key is unchanged |
| DeviceStorage.Storage.RemoveItem | src/screens/KycFormScreen.tsx:223 | the key is gone and every other key is unchanged |
| JsonValues.Truthy | src/screens/OtpScreen.tsx:93 | a value is truthy exactly when it is none of null/undefined, false, 0 and "" |
| JsonValues.Coalesce | src/screens/OtpScreen.tsx:80-82 | `a ?? b` is `a` unless it is null/undefined, else `b`; null only when both are |
| JsonValues.CoalesceAssociative | src/services/authApi.ts:44-46 | a chain of `??` gives the same value however it is grouped |
| JsonValues.Get | src/services/authApi.ts:44-46 | a property read gives the object's field, and null/undefined for a missing key or a non-object |
| JsonValues.ToText | src/services/authApi.ts:51 | a string converts to itself, an empty array to "", and every other non-array value to non-empty text |
| JsonValues.StrOrNull | src/screens/LoginOtpScreen.tsx:71 | `text \|\| null` is truthy exactly when the text is non-empty, and then it is that string |
| JsonValues.NatText | src/screens/LoginScreen.tsx:55 | a number's decimal text is non-empty digits without a leading zero, and the digits spell the number |
| JsonValues.IntText | src/screens/LoginScreen.tsx:55 | the text starts with a minus sign iff the number is negative, and the digits after it spell the number's magnitude |
| Text.Lower | src/services/authApi.ts:40-42 | lower-casing keeps the length and maps each character |
| Text.Upper | src/screens/KycFormScreen.tsx:250 | upper-casing keeps the length and maps each character |
| Text.Take | src/screens/KycFormScreen.tsx:246 | the result is the input's prefix of length at most n, and the whole input if it is short enough |
| Text.LowerOfUpper | src/services/authApi.ts:40-42 | lower-casing after upper-casing equals lower-casing, so upper-case input matches the `i` flag |
| Text.LowerWithoutCapitals | src/services/authApi.ts:40-42 | text without capitals is its own lower case |
| Text.Scan | src/services/authApi.ts:40 | returns the first position at or after the start where some keyword occurs, or none if there is no such position |
| Text.TestIffMentions | src/services/authApi.ts:40 | the executable regex test holds exactly when some keyword occurs somewhere in the text |
| Effects.Data | src/screens/KycFormScreen.tsx:188-189 | a parsed body is the data; a body that is not JSON reads as null, so truthy data always comes from a parsed body |
| Effects.BodyMessage | src/screens/OtpScreen.tsx:96 | a string body is shown as plain text, any other body as its JSON serialisation |
| AuthApi.Classify | src/services/authApi.ts:40-42 | PENDING iff a pending word occurs; VERIFIED iff none does and a verified word does; REJECTED likewise; otherwise NOT_SUBMITTED |
| AuthApi.Normalize | src/services/authApi.ts:22-60 | raw is the body; a falsy body gives the defaults; an object under kyc_status/kycStatus is read alone; otherwise the top-level fields are read |
| AuthApi.FetchKycStatus | src/services/authApi.ts:12-21 | a network failure is a failure; a non-ok status is a failure carrying the status and body; an ok response succeeds with exactly `Normalize` of the parsed body, and only an ok response succeeds |
| AuthApi.ResendPayload | src/services/authApi.ts:92-95 | the payload always has the purpose, has the email exactly when it is non-empty, and nothing else |
| AuthApi.FalsyBodyIsInitial | src/services/authApi.ts:34 | a falsy body reads as the initial KYC state |
| AuthApi.UnknownTokenIsNotSubmitted | src/services/authApi.ts:26-27 | a status mentioning no known keyword stays NOT_SUBMITTED |
| AuthApi.ClassifyIgnoresCase | src/services/authApi.ts:40-42 | classification does not depend on letter case |
| AuthApi.NestedObjectAlone | src/services/authApi.ts:37-48 | when a nested status object exists, top-level fields have no influence |
| AuthApi.StringKycStatusIgnored | src/services/authApi.ts:37-38 | a string-valued kyc_status is not an object and does not change the reading |
| AuthApi.Field | src/services/authApi.ts:44-46 | the snake_case field wins unless null/undefined, then the camelCase one; null only if both are |
| AuthApi.FromNested | src/services/authApi.ts:38-47 | raw is the body; a truthy `status` is classified (as text) with the nested words, else a truthy `state` is; neither gives NOT_SUBMITTED; the other fields come from the nested object's snake/camel pairs |
| AuthApi.FromTop | src/services/authApi.ts:50-60 | raw is the body; a truthy `status` is classified (as text) with the top-level words, else a truthy `kycStatus` is; neither gives NOT_SUBMITTED; the other fields come from the top-level snake/camel pairs |
| AuthApi.TopLevelStatusFallback | src/services/authApi.ts:51 | without status/kyc_status, a top-level kycStatus string is classified with the top-level keywords |
| AuthApi.NotSubmittedWordReadsPending | src/services/authApi.ts:52 | a top-level "NOT_SUBMITTED" reads as PENDING |
| AuthApi.CompleteVerifiedAtTopLevel | src/services/authApi.ts:53 | a top-level "complete" reads as VERIFIED |
| AuthApi.CompleteUnknownWhenNested | src/services/authApi.ts:41 | a nested "complete" is not a verified word and reads as NOT_SUBMITTED |
| AuthApi.ClassifyStatusWord | src/services/authApi.ts:40-42 | each status has a nested status word that classifies back to it |
| AuthApi.StatusObjectFields | src/services/authApi.ts:44-46 | the nested fields of a state's encoding read back to its fields |
| AuthApi.StatusPayloadRoundTrip | src/services/authApi.ts:22-60 | normalising the encoding of any KYC state gives that state back |
| Credentials.FirstTruthy | src/screens/OtpScreen.tsx:80-82 | the result is truthy iff some value is, and is then the first truthy value |
| Credentials.UserIdOf | src/screens/OtpScreen.tsx:80 | the user id is truthy iff one of userId, id, user.id is, and is then the first truthy one; a non-object body gives none |
| Credentials.AccessOf | src/screens/OtpScreen.tsx:81 | the access token is truthy iff one of access, accessToken, token, authToken is, and is then the first truthy one; a non-object body gives none |
| Credentials.RefreshOf | src/screens/OtpScreen.tsx:82 | the refresh token is truthy iff refresh or refreshToken is, and is then the first truthy one; a non-object body gives none |
| Credentials.SignInPatch | src/screens/OtpScreen.tsx:83 | the patch signs in and sets every session field: the extracted user id, access and refresh tokens, the given mobile number, and the email when one was entered, else null |
| Credentials.TokenLoggable | src/screens/OtpScreen.tsx:85-86 | strings, arrays and null can be sliced for logging; objects cannot; a number or boolean only when falsy |
| Credentials.SignInReplacesSession | src/screens/OtpScreen.tsx:83 | the stored session after sign-in does not depend on the prior session, is authenticated and carries the extracted values |
| Credentials.VerifyRejection | src/screens/OtpScreen.tsx:93-98 | an array under otp_code gives an inline error, exactly when it is one, whose text is the array's items joined with "\n"; otherwise an alert with the body, or a status line when the body is falsy |
| Credentials.RejectionExamples | src/screens/OtpScreen.tsx:93-98 | otp_code messages are shown one per line; a string body is shown as is |
| DeepLink.FindMatch | App.tsx:73 | the first position at or after the start that begins `?token=` or `&token=` with a non-empty value |
| DeepLink.RunEnd | App.tsx:73 | the captured value ends at the next `&` or at the end of the link |
| DeepLink.HexDigit | App.tsx:74 | each hex digit encodes its value |
| DeepLink.PercentDecode | App.tsx:74 | decoding never lengthens the text and keeps it non-empty |
| DeepLink.PercentEncode | App.tsx:74 | encoding never shortens the text and produces no `&` |
| DeepLink.DecodeEncode | App.tsx:74 | decoding the encoding of ASCII text gives the text back |
| DeepLink.ExtractToken | App.tsx:69-79 | a missing or empty link gives no token; a token found is non-empty |
| DeepLink.ExtractsEncodedToken | App.tsx:69-79 | a link with `?token=` or `&token=` followed by an encoded token, with no earlier match and the rest empty or a new parameter, yields exactly that token |
| DeepLink.FirstParameterToken | App.tsx:69-79 | a token that is the first query parameter is found |
| DeepLink.LaterParameterToken | App.tsx:73 | a token after another parameter (`?lang=en&token=…`) is found through the `&token=` branch |
| DeepLink.RunEndIsFirstAmpersand | App.tsx:73 | the end of the value is the first `&` after its start |
| DeepLink.NoTokenParameter | App.tsx:69-79 | a link without a token parameter yields nothing |
| DeepLink.ExampleLink | App.tsx:67 | `myapp://reset?token=abc%20123` yields `abc 123` |
| DeepLink.OpenUrl | App.tsx:81-88 | navigates to ResetPassword with the token exactly when a token is found and the navigator is ready |
| KycEnforcement.PollPayload | App.tsx:47-52 | the payload sets every field: the fetched status, and each other field the fetched value unless null/undefined, else the render-time one |
| KycEnforcement.PollMerge | App.tsx:47-52 | after a poll the status is the fetched one; other fields are the fetched value, else the render-time one, else null |
| KycEnforcement.Redirect | App.tsx:94-125 | the status is remembered except when signed in before the first poll; at most three effects; a navigation only when signed in, after the first poll, and not VERIFIED |
| KycEnforcement.VerifiedNoticeOnEdge | App.tsx:99-102 | the verified alert is emitted iff the status is VERIFIED and the remembered status was not, signed in or not; the reset to Home additionally needs a ready navigator |
| KycEnforcement.NoRedirectBeforeFirstPoll | App.tsx:104-110 | signed in before the first poll: no navigation (only the verified notice can fire) and the remembered status is kept |
| KycEnforcement.SignedOutOnlyRemembers | App.tsx:104-110 | signed out: no navigation, and the status is remembered |
| KycEnforcement.StatusNavigation | App.tsx:112-121 | after the first poll each status navigates to its screen unless already there |
| KycEnforcement.Feed | App.tsx:94-125 | a run of renders produces one effect list per status |
| KycEnforcement.NoticeAtEntry | App.tsx:99-102 | over a run of statuses, the verified alert fires exactly at the renders that enter VERIFIED |
| KycEnforcement.NoticeOnceExample | App.tsx:99-102 | the status run NOT_SUBMITTED, PENDING, VERIFIED, VERIFIED, REJECTED alerts only at the first VERIFIED |
| KycEnforcement.KycEnforcer.constructor | App.tsx:32-34 | nothing is remembered, no poll has arrived and no interval runs |
| KycEnforcement.KycEnforcer.SyncPolling | App.tsx:37-65 | re-runs only when isAuthenticated changes; then the old run is torn down and a status request is issued iff signed in |
| KycEnforcement.KycEnforcer.Tick | App.tsx:58-62 | the interval issues a status request with the render-time token iff it runs for a signed-in user |
| KycEnforcement.KycEnforcer.Unmount | App.tsx:64 | the component is unmounted and the interval is cleared |
| KycEnforcement.KycEnforcer.Deliver | App.tsx:41-53 | a successful reading for the live run while mounted is merged and marks the first poll; anything else changes nothing |
| KycEnforcement.KycEnforcer.OnRender | App.tsx:94-125 | runs only when status or isAuthenticated changed, and then emits exactly the redirect decision |
| KycEnforcement.ReloginRedirectsBeforeFirstPoll | App.tsx:34 | after sign-out and a new sign-in, the stale status redirects before the new session's first poll |
| KycFormRules.AadhaarValid | src/screens/KycFormScreen.tsx:12 | valid iff twelve characters that are all digits |
| KycFormRules.PanValid | src/screens/KycFormScreen.tsx:13 | a valid PAN has ten alphanumeric characters and is its own upper case |
| KycFormRules.DigitsOnly | src/screens/KycFormScreen.tsx:246 | the result is all digits, no longer than the input, and the input itself if it was all digits |
| KycFormRules.DigitsOnlyCounts | src/screens/KycFormScreen.tsx:246 | every digit of the input is kept as often as it occurs, and no other character is |
| KycFormRules.DigitsOnlyAppend | src/screens/KycFormScreen.tsx:246 | filtering a concatenation concatenates the filtered parts, so the digits keep their order |
| KycFormRules.SanitiseAadhaar | src/screens/KycFormScreen.tsx:246 | the stored Aadhaar is at most twelve digits with exactly the digits of the first twelve characters typed; valid iff it has twelve, and a valid input is stored unchanged |
| KycFormRules.SanitisePan | src/screens/KycFormScreen.tsx:250 | the stored PAN has the length of the input capped at ten, each character is the input's character upper-cased, and a valid input is stored unchanged |
| KycFormRules.SanitisedAadhaar | src/screens/KycFormScreen.tsx:246 | the typed Aadhaar is at most 12 digits, and a valid Aadhaar is kept as is |
| KycFormRules.SanitisedPan | src/screens/KycFormScreen.tsx:250 | the typed PAN is at most 10 characters with no lower case, and a valid PAN typed in any case becomes itself |
| KycFormRules.LiveErrors | src/screens/KycFormScreen.tsx:49-54 | a field is flagged iff it is non-empty and invalid, with the live message; the file is never flagged |
| KycFormRules.SubmitErrors | src/screens/KycFormScreen.tsx:73-77 | a field is flagged iff it is invalid, with the submit message; nothing is flagged iff both are valid |
| KycFormRules.LiveVersusSubmit | src/screens/KycFormScreen.tsx:49-59 | live checks leave empty fields unmarked where submit checks flag them; both agree on which non-empty fields are wrong |
| KycFormRules.ServerFieldErrors | src/screens/KycFormScreen.tsx:198-203 | a field error exists iff the body holds an array under its key (the document key only for uploads), and is that array joined by line breaks |
| KycFormRules.MergeErrors | src/screens/KycFormScreen.tsx:204 | each field the server names takes the server's message, every other keeps the current one; no server errors leaves the map unchanged |
| KycFormRules.MergeServerErrors | src/screens/KycFormScreen.tsx:129-136 | server field messages override the current ones, others are kept; manual submit never sets a file error |
| KycFormRules.FailureMessage | src/screens/KycFormScreen.tsx:205 | the server's field messages joined by line breaks when there are any; else the body as JSON when truthy; else "<fallback> (<status>)" |
| KycFormRules.FailureMessageChoice | src/screens/KycFormScreen.tsx:129-136 | the alert lists the server field messages when there are any, else shows the detail or the status |
| KycFormRules.SingleFieldMessage | src/screens/KycFormScreen.tsx:132-136 | a single PAN message from the server is the whole alert text |
| KycFormRules.LastSegment | src/screens/KycFormScreen.tsx:170 | the result is the longest suffix without `/` |
| KycFormRules.FileName | src/screens/KycFormScreen.tsx:170 | the name is the last path segment when non-empty, else "document.jpg" (so for a URI ending in `/`); a URI without `/` is its own name; the result is non-empty and has no `/` |
| KycFormRules.AlnumSuffix | src/screens/KycFormScreen.tsx:171 | the result is the longest alphanumeric suffix |
| KycFormRules.Extension | src/screens/KycFormScreen.tsx:171-172 | the extension is non-empty, alphanumeric and lower case; anything but "jpg" is the lower-cased non-empty alphanumeric tail that follows a '.' at the end of the name |
| KycFormRules.TrailingSymbolIsJpeg | src/screens/KycFormScreen.tsx:171-173 | a name ending in a character that is not a letter or digit, such as `photo.`, falls back to "jpg" and is sent as image/jpeg |
| KycFormRules.Mime | src/screens/KycFormScreen.tsx:173 | the type is image/png or image/jpeg, and PNG exactly when the extension is "png" |
| KycFormRules.FileNameAfterSlash | src/screens/KycFormScreen.tsx:170 | a URI ending in `/name` uploads as `name` |
| KycFormRules.ExtensionAfterDot | src/screens/KycFormScreen.tsx:171 | a name ending in `.ext` has the lower-cased extension |
| KycFormRules.NoDotIsJpeg | src/screens/KycFormScreen.tsx:171-173 | a name without a dot is sent as image/jpeg |
| KycFormRules.UpperCasePngIsPng | src/screens/KycFormScreen.tsx:170-173 | `photo.PNG` is sent as image/png |
| KycFormRules.DraftJson | src/screens/KycFormScreen.tsx:63-64 | the saved record is an object with exactly the keys mode, aadhaar, pan, fileUri, savedAt, each a string |
| KycFormRules.LoadDraft | src/screens/KycFormScreen.tsx:31-47 | no draft is loaded iff the key is missing or holds null |
| KycFormRules.DraftRoundTrip | src/screens/KycFormScreen.tsx:31-47 | loading a saved draft gives back its fields and timestamp |
| KycFormRules.MissingFieldsLoadBlank | src/screens/KycFormScreen.tsx:36-40 | a stored object without the fields loads as the blank draft |
| KycFormScreen.FormScreen.constructor | src/screens/KycFormScreen.tsx:20-28 | the form starts blank, idle and without errors, with a save pending |
| KycFormScreen.FormScreen.Revalidate | src/screens/KycFormScreen.tsx:49-59 | the live errors are recomputed and a debounced save is scheduled when a field changed |
| KycFormScreen.FormScreen.EditAadhaar | src/screens/KycFormScreen.tsx:246 | the field holds the sanitised input and the form is revalidated |
| KycFormScreen.FormScreen.EditPan | src/screens/KycFormScreen.tsx:250 | the field holds the sanitised input and the form is revalidated |
| KycFormScreen.FormScreen.EditFileUri | src/screens/KycFormScreen.tsx:23 | the field holds the input and the form is revalidated |
| KycFormScreen.FormScreen.SelectMode | src/screens/KycFormScreen.tsx:20 | the mode is set and the form is revalidated |
| KycFormScreen.FormScreen.Load | src/screens/KycFormScreen.tsx:31-47 | a stored draft fills the fields and timestamp; nothing stored leaves the form as it was |
| KycFormScreen.FormScreen.Flush | src/screens/KycFormScreen.tsx:61-69 | a pending save writes the draft with its timestamp; without one, storage is unchanged |
| KycFormScreen.FormScreen.SavePartial | src/screens/KycFormScreen.tsx:216-219 | the current draft is written under the draft key and the saved alert shown |
| KycFormScreen.FormScreen.ClearDraft | src/screens/KycFormScreen.tsx:221-228 | the key is removed, the fields are emptied except the mode, and the cleared alert shown |
| KycFormScreen.FormScreen.BeginManualSubmit | src/screens/KycFormScreen.tsx:71-105 | a request is sent iff both fields are valid and there is a token or the session probe passes |
| KycFormScreen.FormScreen.BeginUpload | src/screens/KycFormScreen.tsx:146-176 | without a file, a file error and no request; without a token, the login alert; otherwise the upload request |
| KycFormScreen.FormScreen.Complete | src/screens/KycFormScreen.tsx:106-144 | success marks the status PENDING and clears the draft; refusal merges server errors and alerts; the busy flag is cleared |
| KycFormScreen.BurstThenPause | src/screens/KycFormScreen.tsx:61-69 | a burst of edits followed by a pause stores only the last draft |
| KycFormScreen.ClearedDraftComesBack | src/screens/KycFormScreen.tsx:221-228 | clearing a draft with content leads the debounced save to store the blank draft again |
| HomeLogout.ServerLogout | src/screens/HomeScreen.tsx:27-42 | the server logout request is sent iff both the refresh and the access token are truthy |
| HomeLogout.LocalLogout | src/screens/HomeScreen.tsx:44-51 | the store is cleared; if draft removal fails, the failure alert and storage unchanged; else the draft is removed and the stack reset to Login |
| HomeLogout.ServerLogoutNeedsBothTokens | src/screens/HomeScreen.tsx:29 | with both tokens the request is sent; with only one or none it is not |
| LoginScreen.ErrorMessage | src/screens/LoginScreen.tsx:34-56 | a truthy parsed body is shown (a string as is, anything else as JSON); otherwise the status line |
| LoginScreen.UnparsedBodyShowsStatus | src/screens/LoginScreen.tsx:36-46 | a body that is not JSON always yields "Request failed (<status> <statusText>)": the text read after a failed `json()` never succeeds |
| LoginScreen.ErrorMessageExamples | src/screens/LoginScreen.tsx:53-55 | a 502 gateway page reads "Request failed (502 Bad Gateway)"; a string body is shown as is |
| LoginScreen.LoginForm.constructor | src/screens/LoginScreen.tsx:14 | the screen starts idle |
| LoginScreen.LoginForm.BeginRequest | src/screens/LoginScreen.tsx:16-32 | blocked with an alert iff both email and phone are empty; else the OTP request is sent |
| LoginScreen.LoginForm.CompleteRequest | src/screens/LoginScreen.tsx:47-63 | success navigates to LoginOtp with the email and phone; failure alerts the error message |
| OtpScreen.ResendRefusal | src/screens/OtpScreen.tsx:40-42 | the refusal shows the body when truthy, else the status line |
| OtpScreen.OtpForm.constructor | src/screens/OtpScreen.tsx:19-21 | the screen starts with an empty code, idle and without an error |
| OtpScreen.OtpForm.EditOtp | src/screens/OtpScreen.tsx:118-120 | the code holds the first six characters typed and the inline error is cleared |
| OtpScreen.OtpForm.BeginVerify | src/screens/OtpScreen.tsx:53-68 | a verify request is sent iff the code has 6 characters; otherwise the inline length error |
| OtpScreen.OtpForm.CompleteVerify | src/screens/OtpScreen.tsx:70-106 | success stores the session and reaches Home; refusal is inline or an alert; failures alert |
| OtpScreen.OtpForm.BeginResend | src/screens/OtpScreen.tsx:23-33 | the registration resend request is sent and the error cleared |
| OtpScreen.OtpForm.CompleteResend | src/screens/OtpScreen.tsx:35-50 | success, refusal and network failure each give their alert, and loading ends |
| LoginOtpScreen.ResendRefusal | src/screens/LoginOtpScreen.tsx:31-32 | the refusal shows the body when truthy, else "Could not resend OTP." |
| LoginOtpScreen.LoginOtpForm.constructor | src/screens/LoginOtpScreen.tsx:17-21 | the screen keeps the route's email and phone and starts idle |
| LoginOtpScreen.LoginOtpForm.EditOtp | src/screens/LoginOtpScreen.tsx:101 | the code holds the first six characters typed and the inline error is cleared |
| LoginOtpScreen.LoginOtpForm.BeginVerify | src/screens/LoginOtpScreen.tsx:41-55 | a verify request is sent iff the code has 6 characters; otherwise the length alert |
| LoginOtpScreen.LoginOtpForm.CompleteVerify | src/screens/LoginOtpScreen.tsx:57-94 | success stores the session with the phone or null and reaches Home; refusal is inline or an alert |
| LoginOtpScreen.LoginOtpForm.BeginResend | src/screens/LoginOtpScreen.tsx:23-27 | the resend request carries purpose "login" and the email |
| LoginOtpScreen.LoginOtpForm.CompleteResend | src/screens/LoginOtpScreen.tsx:28-39 | success, refusal and network failure each give their alert, and loading ends |
| RegisterScreen.EmailValid | src/screens/RegisterScreen.tsx:53 | a valid address has at least five characters, contains '@' and '.', and neither starts nor ends with '@' |
| RegisterScreen.EmailValidIffPattern | src/screens/RegisterScreen.tsx:53 | the executable e-mail check holds exactly when the regular expression matches |
| RegisterScreen.EmailExamples | src/screens/RegisterScreen.tsx:53 | a plain address passes; two `@`, a space, a dot right after `@` or a trailing dot fail |
| RegisterScreen.Validate | src/screens/RegisterScreen.tsx:39-73 | each field error is set iff its rule fails, with the required message for an empty field; valid iff no errors |
| RegisterScreen.RegisterForm.constructor | src/screens/RegisterScreen.tsx:35-36 | the form starts without errors and idle |
| RegisterScreen.RegisterForm.BeginRegister | src/screens/RegisterScreen.tsx:75-94 | the request is sent iff the phone has 10 characters, the e-mail matches and the password has 6 or more |
| RegisterScreen.RegisterForm.CompleteRegister | src/screens/RegisterScreen.tsx:96-114 | success navigates to Otp with the email; refusal alerts the body as JSON; a body that does not parse alerts as a network error |
| ResetPasswordScreen.ValidatePassword | src/screens/ResetPasswordScreen.tsx:34-39 | a valid password has at least eight characters and a letter (so its upper and lower case differ) |
| ResetPasswordScreen.PasswordExamples | src/screens/ResetPasswordScreen.tsx:34-39 | eight or more characters with a letter and a digit are required |
| ResetPasswordScreen.RefusalMessage | src/screens/ResetPasswordScreen.tsx:68 | a string body is shown as is, another truthy body as JSON, otherwise "Invalid or expired OTP" |
| ResetPasswordScreen.ResetForm.constructor | src/screens/ResetPasswordScreen.tsx:17-23 | the email comes from the route; the other fields start empty and idle |
| ResetPasswordScreen.ResetForm.Edit | src/screens/ResetPasswordScreen.tsx:20-22 | the fields hold the inputs |
| ResetPasswordScreen.ResetForm.BeginSubmit | src/screens/ResetPasswordScreen.tsx:41-62 | the first failing guard gives its alert; the request is sent iff all guards pass |
| ResetPasswordScreen.ResetForm.CompleteSubmit | src/screens/ResetPasswordScreen.tsx:63-77 | success signs out and resets to Login; refusal and failure alert with the session unchanged |
| ForgotPasswordScreen.ForgotForm.constructor | src/screens/ForgotPasswordScreen.tsx:13 | the screen starts idle |
| ForgotPasswordScreen.ForgotForm.BeginRequest | src/screens/ForgotPasswordScreen.tsx:15-21 | blocked with an alert iff the email is empty; else the reset request is sent |
| ForgotPasswordScreen.ForgotForm.CompleteRequest | src/screens/ForgotPasswordScreen.tsx:22-33 | every outcome gives the same generic alert and navigates to ResetPassword with the email |

## Left out

- Network I/O, timers, the JSON parser and serialiser, and console logging. Requests are emitted as values, and outcomes are parameters of the completion steps. `JSON.stringify` is kept abstract as a `JsonOf` message.
- The KYC form's session-cookie probe. Only its result reaches the model, as the `sessionAccepted` parameter of `KycFormScreen.FormScreen.BeginManualSubmit`. The probe request itself is not emitted.
- Alert buttons and their callbacks: the "Login" and "Cancel" buttons of the KYC form's "Authentication required" alert (src/screens/KycFormScreen.tsx:91-94 and 99-102, where "Login" navigates to Login), "Request new reset" after a failed reset, and the logout confirmation dialog. The alerts themselves are modelled; the model starts at the confirmed logout.
- JSON numbers are modelled as integers (`JNum(n: int)`). A fractional value such as 0.5, truthy in JavaScript and printed as "0.5", cannot be represented.
- The ResetPassword screen's 500 ms timer effect for a missing e-mail (src/screens/ResetPasswordScreen.tsx:25-32). The same alert and navigation are modelled on submit.
- The KYC form reads the clock twice (the status patch and the draft timestamp). The model uses one `now` value for both.
- KycFormRules.LoadDraft: the app keeps a stored non-string field as it is (`parsed.aadhaar ?? ''`, src/screens/KycFormScreen.tsx:37-40), so a stored number `0` stays the falsy number and skips the live check. The model keeps the form's fields as strings and turns such a value into its text ("0"), which the live check then flags.
- Text.Lower: case mapping covers ASCII letters only, not the full Unicode tables.
- Text.Upper: `toUpperCase()` is modelled on ASCII letters only. JavaScript also maps other characters, and some change length: 'ß' becomes "SS", 'ſ' becomes 'S' and 'ı' becomes 'I'.
- KycFormRules.SanitisePan: inherits the ASCII-only upper-casing of Text.Upper, so it does not show that 'ß' typed into the PAN field lengthens the text.
- KycFormRules.SanitisedPan: states the PAN facts for the ASCII-only upper-casing, for the same reason.
- String lengths count characters, not UTF-16 code units. This affects the OTP length checks (OtpScreen.OtpForm.BeginVerify, LoginOtpScreen.LoginOtpForm.BeginVerify), the phone and password checks (RegisterScreen.Validate, ResetPasswordScreen.ValidatePassword) and the `maxLength` truncation (Text.Take).
- DeepLink.PercentDecode: only ASCII `%XX` escapes are decoded. An escape above `%7F` is treated as malformed, where the runtime would decode UTF-8 sequences.
- Storage failures in the KYC form are not modelled. Storage always succeeds in the model. With a failing storage, the code behaves as follows:
  - On mount, a failing `getItem` or `JSON.parse` is caught and the form stays as it was.
  - A failing `setItem` in the draft save is caught, and the save time is not updated.
  - In "Clear Draft" (src/screens/KycFormScreen.tsx:221-228), `removeItem` is not guarded. Its failure rejects the handler before the fields are emptied and before the "Cleared" alert.
  - After an accepted submission or upload, `removeItem` (lines 123 and 193) runs inside the request's `try`. PENDING has already been dispatched. Its failure then shows "Submission failed (network)" or the upload-failed alert instead of the success alert and the navigation to Home.
- The logout's removal failure is modelled, as `removalFails`.
- JsonValues.ToText: an object with its own `toString` or `valueOf` key (`{"status": {"toString": "x"}}`) makes JavaScript's conversion throw. This happens at src/services/authApi.ts:40 and :51, in the joins at src/screens/KycFormScreen.tsx:131 and 200-202, and in the join at src/screens/OtpScreen.tsx:94. The model renders every object as "[object Object]" and never throws, so AuthApi.FetchKycStatus returns a reading where the app's fetch rejects.
- The profile reducer is modelled, but src/store/index.ts does not register it. No screen in this core dispatches to it.
- Concurrency between overlapping requests is not modelled. Each completion is applied to the state it finds, and stale poll readings are told apart by their run number.
- The screens' rendering, styles and the navigators' stack definitions are not part of this model.
