# PickMeFront core, modelled in Dafny

PickMeFront is a React Native client for a social photo app: people sign
up and sign in, fill in a profile, search for other users, manage friends
and post photos. The app itself is mostly screens. Its logic sits in a set
of small, deterministic rules spread across its services, hooks and
overlays. This project models those rules and proves what they promise.

- **Validators.** The email, password and alias rules of `app/types/auth.ts`
  are modelled, including the email regular expression as a character-level
  shape. So are the mode-dependent field rules and the submit flow of the
  sign-in/sign-up form, the profile form's rules (alias, birth date,
  description, avatar URL), the profile overlay's rules and the
  completed-years age check of the date picker. Dates are integer
  (year, month, day) triples.
- **Service envelopes.** Every call of `apiService`, `authService`,
  `friendsService`, `usersService`, `profileService` and `imagesService`
  maps a reply to the `{success, data?, message?}` envelope or its own
  result. The reply is given as a value: either a status with a JSON body,
  or a transport or JSON failure. The model proves the message preference
  (`message`, then `error`, then the operation's default), the keyword
  classification of sign-up errors, the flattening of nested friend
  records and the request each call sends (method, URL with its query
  defaults, headers, body).
- **State.** The token store is a class over a key-value map. The session
  context (`AuthContext`) is a class over that store, the user and the
  loading flag. Friends-list pagination, the user-search and image hooks,
  the friends hook, the date picker and the profile forms are also classes,
  with `modifies` on the methods that change them. Each method states its
  whole new state.
- **Helpers.** The photo grid's row loop is a method proved to cut the
  photos into rows of three, in order. The profile form's language toggle,
  join and split, and its country and language display lookups are
  modelled. So are the profile overlay's "changed fields only" diff and
  three-way merge, and the bottom bar's tab matching.

JavaScript's own semantics are modelled where the code relies on them: a
small JSON value type, truthiness, `a || b`, property reads, `includes`,
`trim`, `split`/`join`, `toUpperCase`/`toLowerCase` and
`encodeURIComponent` (module `Common` and module `Uri`).

## Model

| member | source | states |
|---|---|---|
| ApiService.GetAuthHeaders | app/services/apiService.tsx:14-20 | the headers carry a JSON content type, and a bearer authorization exactly when a non-empty token is stored under "authToken" |
| ApiService.AuthedGet | app/services/apiService.tsx:133-139 | the token check and the profile fetch are GET requests to the server's path, carrying those headers and no body |
| ApiService.Login | app/services/apiService.tsx:22-58 | sign-in succeeds exactly on a 2xx reply whose `data` and `data.token` are truthy, and returns both; otherwise the server's message or "Erreur de connexion"; an unreadable reply gives "Erreur de réseau" |
| ApiService.KeywordMessage | app/services/apiService.tsx:99-108 | a 400 message is reported by its first keyword, looked for in the order email, alias, password, and otherwise shown as it is or replaced by the default |
| ApiService.BadRequestMessage | app/services/apiService.tsx:99-108 | the 400 branch: a text message gives the keyword message; whatever is chosen is truthy |
| ApiService.Registered | app/services/apiService.tsx:87 | sign-up is accepted exactly on a 2xx reply with an object body whose `success` is truthy |
| ApiService.Register | app/services/apiService.tsx:60-129 | sign-up succeeds exactly on a 2xx reply with a truthy `success`, returning `data` and the message or "Inscription réussie"; a 422 or 5xx reply gets its fixed message, a 400 reply the message chosen by keyword, any other failing status the server's `message` or the sign-up default; a failed request, an unreadable body or a `null` body (read for the log at any status) gives the network message; the result always carries a truthy message and no token |
| ApiService.RegisterAliasTaken | app/services/apiService.tsx:102-103 | a 400 reply "alias already used" is reported as "Cet alias est déjà pris" |
| ApiService.VerifyToken | app/services/apiService.tsx:131-153 | the token is valid exactly when the reply had a 2xx status; a failed request gives false |
| ApiService.Combine | app/services/apiService.tsx:173-184 | the combined user takes id and email from `data.user` and each of alias, birthdate, pays, langue, description, avatar, pronous and is_public from the same-named field of `data.profile` |
| ApiService.GetProfile | app/services/apiService.tsx:155-200 | a non-2xx reply gives `null`; with truthy `success` and `data`, the combined user, or `null` when `data.user` or `data.profile` cannot be read; otherwise `data.data \|\| data` |
| AuthContext.AuthProvider.constructor | app/context/AuthContext.tsx:36-37 | a provider starts signed out and loading |
| AuthContext.AuthProvider.CheckAuthStatus | app/context/AuthContext.tsx:43-73 | the token check is sent exactly when a non-empty token is stored; an invalid token or a failed read removes it; a valid one keeps it and sets the user when the profile is usable; loading ends on every path |
| AuthContext.AuthProvider.IsAuthenticated | app/context/AuthContext.tsx:135 | signed in exactly when a user is held |
| AuthContext.AuthProvider.Login | app/context/AuthContext.tsx:75-104 | true exactly when sign-in gave a token that was stored and a usable profile came back, which becomes the user; the token is stored under "authToken" whether or not the profile comes |
| AuthContext.AuthProvider.Register | app/context/AuthContext.tsx:106-118 | true exactly when the sign-up succeeded |
| AuthContext.AuthProvider.Logout | app/context/AuthContext.tsx:120-127 | the token is removed and the user signed out; a failed removal changes nothing |
| AuthContext.TokenKeysDiffer | app/services/tokenStorage.ts:3 | the key of the token store ("auth_token") differs from the session's key ("authToken"), so a write under one leaves a read under the other unchanged |
| AuthContext.FreshStart | app/context/AuthContext.tsx:39-73 | starting with an empty store sends no token check, stays signed out and stops loading |
| AuthContext.TokenStorageSessionIsInvisible | app/context/AuthContext.tsx:46-49 | a token saved through the token store does not sign the user in at the next start |
| AuthForm.Set | app/hooks/auth/useAuthForm.ts:94-96 | updating a field changes that field and no other |
| AuthForm.FieldError | app/hooks/auth/useAuthForm.ts:46-92 | email and password follow the shared validators; the confirmation is valid exactly in sign-in mode or when it is non-empty and equals the password; the alias is checked only in sign-up mode |
| AuthForm.FieldsToValidate | app/hooks/auth/useAuthForm.ts:111-113 | sign-in checks email and password; sign-up checks all four fields |
| AuthForm.SubmitAcceptance | app/hooks/auth/useAuthForm.ts:109-125 | a submit passes exactly when the email has the address shape and the password a JavaScript length (UTF-16 code units) of at least 6, plus, when signing up, a matching confirmation and an alias of at least 3 word characters |
| AuthForm.RegisterFeedbackAsWritten | app/hooks/auth/useAuthForm.ts:141-164 | the sign-up branch as written reports success exactly when the value it reads has a truthy `success` property |
| AuthForm.RegisterSuccessReportedAsFailure | app/hooks/auth/useAuthForm.ts:146 | given the boolean the session's `register` returns, the branch as written always shows "Erreur lors de l'inscription", and it differs from the intended feedback exactly when the sign-up succeeded |
| AuthForm.RegisterFeedback | app/hooks/auth/useAuthForm.ts:146-164 | the corrected feedback: the success alert exactly when the session reports that the sign-up succeeded |
| AuthForm.AuthFormState.constructor | app/hooks/auth/useAuthForm.ts:34-44 | the form starts in sign-in mode, with empty fields, no messages and not loading |
| AuthForm.AuthFormState.SetIsLogin | app/hooks/auth/useAuthForm.ts:34 | switching mode changes nothing else |
| AuthForm.AuthFormState.ValidateField | app/hooks/auth/useAuthForm.ts:46-92 | the field's message is stored and no other changes; the result is true exactly when the message is empty |
| AuthForm.AuthFormState.UpdateFormData | app/hooks/auth/useAuthForm.ts:94-97 | the field is set and validated against the password from before the call |
| AuthForm.AuthFormState.ResetForm | app/hooks/auth/useAuthForm.ts:99-107 | every field is emptied and every message cleared |
| AuthForm.AuthFormState.ValidateFields | app/hooks/auth/useAuthForm.ts:115-120 | each listed field gets its message stored and every other field keeps its own; the result says whether any listed field failed |
| AuthForm.AuthFormState.HandleSubmit | app/hooks/auth/useAuthForm.ts:109-173 | the session is called exactly when every field of the mode is valid; each checked field holds its message and the others keep theirs; a refused form leaves loading alone; otherwise loading ends, a sign-in follows the session's answer, and a sign-up, as written, always ends in "Erreur lors de l'inscription" (see Findings) |
| AuthForm.AuthFormState.ConfirmRegistration | app/hooks/auth/useAuthForm.ts:151-157 | the alert's button returns to sign-in mode with an empty form and no messages |
| AuthRules.MatchesEmailPattern | app/types/auth.ts:62 | a matching address has at least 5 characters and starts and ends with a character other than white space and '@' |
| AuthRules.PatternGivesShape | app/types/auth.ts:62 | a match of the email regular expression has the address shape: no white space, one '@' with text before it, a '.' inside the domain |
| AuthRules.ShapeGivesPattern | app/types/auth.ts:62 | every address of that shape matches the regular expression |
| AuthRules.EmailPatternIffShape | app/types/auth.ts:62 | the regular expression accepts exactly the addresses of that shape |
| AuthRules.ValidateEmail | app/types/auth.ts:61-66 | "" exactly for an address of that shape, "Email requis" exactly for the empty text, and otherwise "Format d'email invalide" |
| AuthRules.ValidatePassword | app/types/auth.ts:68-72 | "" exactly for a JavaScript length of 6 or more UTF-16 code units, so always for 6 characters and never for fewer than 3; "Mot de passe requis" exactly for the empty text; otherwise the length message |
| AuthRules.ValidateAlias | app/types/auth.ts:74-80 | "" exactly for a JavaScript length of 3 or more and only characters from [a-zA-Z0-9_], so an accepted alias has at least 3 characters; each other message exactly when its rule, measured in UTF-16 code units, is the first to fail |
| AuthRules.AcceptedAliasIsTrimmed | app/types/auth.ts:77 | an accepted alias has no surrounding white space |
| AuthRules.ValidateRegisterData | app/types/auth.ts:82-88 | one message per field, all empty exactly when every field is accepted |
| AuthRules.EmailExamples | app/types/auth.ts:62 | "a@b.co" is accepted and "a@.co" is refused |
| AuthService.RegisterRequest | app/services/authService.ts:41-47 | sign-up is a POST of the email, password and alias as JSON to the main server |
| AuthService.Register | app/services/authService.ts:38-68 | success exactly on a 2xx reply, carrying `data`; otherwise `message \|\| error \|\|` the sign-up error; an unreadable reply gives the connection error |
| AuthService.LoginRequest | app/services/authService.ts:73-79 | sign-in is a POST of the email and password as JSON, with the JSON content type as its only header |
| AuthService.Login | app/services/authService.ts:70-100 | success exactly on a 2xx reply, carrying `data`; otherwise `message \|\| error \|\|` the sign-in error; an unreadable reply gives the connection error |
| AuthService.VerifyRequest | app/services/authService.ts:104-109 | the token check is a GET whose only header is the bearer authorization |
| AuthService.VerifyToken | app/services/authService.ts:102-130 | success exactly on a 2xx reply; otherwise `message \|\|` "Token invalide", without reading `error` |
| BottomNav.IsTabActive | app/components/BottomNavBar.tsx:48-50 | a tab is active exactly when the path starts with its route; the equality test adds nothing |
| BottomNav.TabsTable | app/components/BottomNavBar.tsx:14-43 | four tabs with distinct names and routes, every route under "/main/" |
| BottomNav.OwnRouteActive | app/components/BottomNavBar.tsx:49 | a tab's own route makes it active |
| BottomNav.PrefixActivates | app/components/BottomNavBar.tsx:49 | "/main/home/photo" and also "/main/homework" activate the "/main/home" tab; "/main" does not |
| BottomNav.PrefixesNest | app/components/BottomNavBar.tsx:49 | two routes that both start a path are prefixes of one another |
| BottomNav.RoutesUnnested | app/components/BottomNavBar.tsx:14-43 | no tab's route is a prefix of another tab's route |
| BottomNav.AtMostOneActive | app/components/BottomNavBar.tsx:67-68 | whatever the path, at most one tab is active |
| BottomNav.TabIcon | app/components/BottomNavBar.tsx:79-83 | a tab shows its focused icon in white exactly when it is active, its plain icon in grey otherwise |
| BottomNav.OwnScreenFocusesOneTab | app/components/BottomNavBar.tsx:67-83 | on a tab's own route that tab alone shows its focused icon |
| Common.Prop | app/services/apiService.tsx:37 | a property read on a non-null value gives the object's field when it exists and `undefined` otherwise |
| Common.Truthy | app/services/apiService.tsx:87 | the falsy values are exactly `null`, `false`, `0` and `""` |
| Common.Or | app/services/friendsService.ts:96-99 | `a \|\| b` is the left operand exactly when it is truthy, else the right one |
| Common.JsIncludes | app/hooks/ui/useUserSearch.ts:64-65 | `includes` on text is substring presence, on a list membership; on any other value it throws |
| Common.UpperAscii | app/home.tsx:102 | upper-casing keeps the length, turns each of `a`-`z` into its capital and leaves every other character as it is (ASCII letters only) |
| Common.LowerAscii | app/hooks/profile/useProfileForm.ts:147 | lower-casing keeps the length, turns each of `A`-`Z` into its small letter and leaves every other character as it is (ASCII letters only) |
| Common.Trim | app/hooks/ui/useUserSearch.ts:36 | the trimmed text is no longer than the input, neither starts nor ends with white space, and is empty (so `!query.trim()` holds) exactly when every character of the input is white space |
| Common.TrimShape | app/hooks/profile/useProfileForm.ts:236-245 | the trimmed text is a piece of the input |
| Common.TrimmedAlready | app/hooks/profile/useProfileForm.ts:236 | a text without surrounding white space is its own trimmed form |
| Common.FindFirst | app/hooks/profile/useProfileForm.ts:108 | the position found is the leftmost occurrence of the separator, and none is found exactly when it does not occur |
| Common.JsLength | app/types/auth.ts:70 | `.length` counts UTF-16 code units: at least the number of characters and at most twice it |
| Common.JsLengthCountsAstral | app/types/auth.ts:70 | `.length` is the number of characters exactly when no character lies outside the Basic Multilingual Plane |
| Common.UnitPrefix | app/home.tsx:102 | the kept prefix fits in the given number of code units, and the next character would not |
| Common.Join | app/hooks/profile/useProfileForm.ts:175 | `join` of no parts is ""; otherwise the result starts with the first part and ends with the last |
| Common.Split | app/hooks/profile/useProfileForm.ts:108 | `split` always gives at least one part |
| Common.NonEmpty | app/hooks/profile/useProfileForm.ts:108 | `filter(Boolean)` keeps only non-empty parts taken from the input |
| Common.SplitJoin | app/hooks/profile/useProfileForm.ts:108 | splitting a join on a one- or two-character separator gives back the parts, when none contains the separator |
| Common.NonEmptyKeeps | app/hooks/profile/useProfileForm.ts:108 | filtering a list without empty texts leaves it unchanged |
| Common.NatToString | app/services/friendsService.ts:57 | a number in a template literal is a non-empty string of decimal digits |
| Common.NatToStringRoundTrip | app/services/friendsService.ts:57 | reading the digits back gives the number |
| Common.NatToStringInjective | app/components/ProfileEditOverlay.tsx:471 | different numbers are written differently, so the index keys of a spread value are distinct |
| Http.Preferred | app/services/friendsService.ts:94-100 | the failure message is the body's truthy `message`, else its truthy `error` (where the call reads it), else the default; it is always truthy |
| Http.Standard | app/services/imagesService.ts:23-52 | the envelope shared by the services: success exactly on a readable 2xx reply, carrying the payload; otherwise the preferred message; a thrown request or unreadable body gives "Erreur de connexion au serveur"; success never carries a message, failure always a truthy one and no data |
| Http.OrEmptyListPayload | app/services/imagesService.ts:38 | with `data \|\| []`, a 2xx reply without data gives the empty list |
| Http.ParamLacksAmpersand | app/services/friendsService.ts:57 | a parameter made of a name and value without '&' holds no '&' |
| Http.NumberLacksAmpersand | app/services/friendsService.ts:57 | a decimal number holds no '&' |
| Http.ThreeParameters | app/services/friendsService.ts:57 | a query of three parameters without '&' splits back into those three |
| FriendsService.FlattenOne | app/services/friendsService.ts:79-86 | a flattened friend takes its id from `friend_user_id`, alias and avatar from `profile`, status and date from the entry, and is always public |
| FriendsService.FriendsOf | app/services/friendsService.ts:79 | `result.data?.friends \|\| []` is always truthy: the friends when `data` holds a truthy `friends`, otherwise the empty list |
| FriendsService.Flatten | app/services/friendsService.ts:79-86 | the map succeeds exactly when every entry has a readable profile, and then gives one flattened friend per entry, in order |
| FriendsService.GetFriendsList | app/services/friendsService.ts:50-109 | success exactly on a readable 2xx reply whose `data?.friends \|\| []` is a list of flattenable entries, carrying them flattened; a non-2xx reply gives `message \|\| error \|\|` the list error; anything that throws gives the connection error |
| FriendsService.TopLevelFriendsIgnored | app/services/friendsService.ts:79 | friends sent at the top level of the body, not under `data`, give an empty list |
| FriendsService.GetFriendsListRequest | app/services/friendsService.ts:57-70 | the list is a GET with the bearer header alone, to `/friends?status=..&page=..&limit=..` |
| FriendsService.FriendsListQueryParameters | app/services/friendsService.ts:57 | the status is put in unencoded: the query keeps exactly its three parameters when the status holds no '&', and page and limit read back as the numbers |
| FriendsService.DefaultFriendsListUrl | app/services/friendsService.ts:52-57 | the defaults give `/friends?status=accepted&page=1&limit=20` |
| FriendsService.DefaultFriendsListQuery | app/services/friendsService.ts:50-57 | the default query is `status=accepted&page=1&limit=20` |
| FriendsService.AddFriendRequest | app/services/friendsService.ts:114-121 | adding a friend is a POST of `{friend_id}` as JSON with the bearer header |
| FriendsService.AddFriend | app/services/friendsService.ts:111-143 | success exactly on a readable 2xx reply, carrying `data`; otherwise `message \|\| error \|\|` the add error, or the connection error |
| FriendsService.GetFriendRequestsRequest | app/services/friendsService.ts:150-155 | the pending requests are a GET of `/friends/requests` with the bearer header and no body |
| FriendsService.GetFriendRequests | app/services/friendsService.ts:145-180 | success exactly on a readable 2xx reply, carrying `data \|\| []`; otherwise `message \|\| error \|\|` the requests error, or the connection error |
| FriendsService.RespondRequest | app/services/friendsService.ts:188-198 | the answer is a PUT to `/friends/<id>/respond` of `{status}` set to "accepted" or "declined" |
| FriendsService.RespondToFriendRequest | app/services/friendsService.ts:182-222 | success exactly on a readable 2xx reply, carrying `data`; otherwise `message \|\| error \|\|` the respond error, or the connection error |
| ImagesService.MyImagesRequest | app/services/imagesService.ts:23-31 | the own images are a GET of `/images/me?page=..&limit=..` with the bearer header and no body |
| ImagesService.GetMyImages | app/services/imagesService.ts:23-52 | success exactly on a readable 2xx reply, carrying `data \|\| []`; otherwise `message \|\| error \|\|` the images error, or the connection error |
| ImagesService.AddImageRequest | app/services/imagesService.ts:54-64 | adding an image is a POST of `{image_link, is_pinned}` as JSON with the bearer header |
| ImagesService.AddImage | app/services/imagesService.ts:54-85 | success exactly on a readable 2xx reply, carrying `data`; otherwise `message \|\| error \|\|` the add-image error, or the connection error |
| ImagesService.UserImagesRequest | app/services/imagesService.ts:87-94 | another user's images are a GET of `/images/user/<id>` with the bearer header and no body |
| ImagesService.GetUserImages | app/services/imagesService.ts:87-117 | success exactly on a readable 2xx reply, carrying `data \|\| []`; otherwise `message \|\| error \|\|` the user-images error, or the connection error |
| UsersService.SearchRequest | app/services/usersService.ts:42-50 | the search is a GET of `/users/search?q=<encoded>&page=..&limit=..` with the bearer header and no body |
| UsersService.SearchQueryParameters | app/services/usersService.ts:43 | whatever is typed, the query holds exactly three parameters, `q` decodes to the UTF-8 bytes of the text, and page and limit read back as the numbers |
| UsersService.SearchUsers | app/services/usersService.ts:29-81 | success exactly on a readable 2xx reply, carrying `data \|\| []`; otherwise `message \|\| error \|\|` the search error, or the connection error |
| UsersService.StatsRequest | app/services/usersService.ts:90-96 | the statistics are a GET of `/users/<id>/stats` with the bearer header and no body |
| UsersService.GetUserStats | app/services/usersService.ts:83-122 | success exactly on a readable 2xx reply, carrying `data`; otherwise `message \|\| error \|\|` the statistics error, or the connection error |
| ProfileService.UpdateBody | app/services/profileService.ts:73 | the update body has a key exactly for each field given, holding its value |
| ProfileService.UpdateRequest | app/services/profileService.ts:64-74 | the update is a PUT of `/profile/me` with the JSON and bearer headers, carrying exactly the fields given |
| ProfileService.MyProfileRequest | app/services/profileService.ts:36-41 | the own profile is a GET of `/profile/me` with the bearer header and no body |
| ProfileService.GetMyProfile | app/services/profileService.ts:33-62 | success exactly on a readable 2xx reply, carrying `data`; otherwise `message \|\| error \|\|` the profile error, or the connection error |
| ProfileService.UpdateMyProfile | app/services/profileService.ts:64-95 | success exactly on a readable 2xx reply, carrying `data`; otherwise `message \|\| error \|\|` the update error, or the connection error |
| ProfileService.UserProfileRequest | app/services/profileService.ts:100-105 | another user's profile is a GET of `/profile/<id>` with the bearer header and no body |
| ProfileService.GetUserProfile | app/services/profileService.ts:97-126 | success exactly on a readable 2xx reply, carrying `data`; otherwise `message \|\| error \|\|` the user-profile error, or the connection error |
| TokenStorage.Lookup | app/services/tokenStorage.ts:14-20 | a read gives the stored value exactly when the key is present, and `null` otherwise |
| TokenStorage.KeyValueStore.constructor | app/services/tokenStorage.ts:1 | the device store starts empty |
| TokenStorage.KeyValueStore.SetItem | app/services/tokenStorage.ts:8 | a write sets that key and leaves the others |
| TokenStorage.KeyValueStore.RemoveItem | app/services/tokenStorage.ts:24 | a removal deletes that key and leaves the others |
| TokenStorage.SaveToken | app/services/tokenStorage.ts:6-12 | the token is written under "auth_token"; a failed write throws "Impossible de sauvegarder le token" and changes nothing |
| TokenStorage.GetToken | app/services/tokenStorage.ts:14-20 | the stored token, or `null` when none is stored or the read fails |
| TokenStorage.RemoveToken | app/services/tokenStorage.ts:22-28 | the key is deleted; a failed delete throws "Impossible de supprimer le token" and changes nothing |
| TokenStorage.HasToken | app/services/tokenStorage.ts:30-37 | true exactly when the read succeeds and a value is stored |
| TokenStorage.SaveGetRemove | app/services/tokenStorage.ts:6-37 | a saved token is read back, after removal nothing is read and `hasToken` is false, and other keys are untouched |
| Dates.CompletedYears | app/hooks/ui/useDatePicker.ts:43-50 | the age the picker computes is the number of the last anniversary on or before today: that one has passed and the next has not |
| Dates.CompletedYearsUnique | app/hooks/ui/useDatePicker.ts:43-50 | no other number of years has both properties |
| Dates.YearDifference | app/components/ProfileEditOverlay.tsx:402 | the plain year difference is the age in completed years or one more, the age exactly when this year's birthday has come |
| Dates.YearDifferenceOvercounts | app/hooks/profile/useProfileForm.ts:130 | someone born on 31 December 2008 is 17 on 11 October 2026, while the year difference says 18 |
| Dates.YearsEarlier | app/hooks/ui/useDatePicker.ts:24-25 | `setFullYear(year - n)` gives a calendar date `n` years earlier on the same month and day, or 1 March after a 29 February |
| Dates.YearsEarlierAge | app/hooks/ui/useDatePicker.ts:23-26 | that date is exactly `n` years old today, or `n - 1` after a 29 February rollover |
| Dates.DigitCount | app/hooks/ui/useDatePicker.ts:68 | numbers below 10, 100, 1000 and 10000 take one to four decimal digits |
| Dates.ZeroPad | app/hooks/ui/useDatePicker.ts:68 | padding with zeros keeps only digits and keeps the value |
| Dates.Year4 | app/hooks/ui/useDatePicker.ts:68 | a year from 0 to 9999 is written with four digits that read back as the year |
| Dates.Two | app/hooks/ui/useDatePicker.ts:68 | a month or day is written with two digits that read back as the number |
| Dates.IsoDate | app/hooks/ui/useDatePicker.ts:68 | `toISOString().split("T")[0]` gives ten characters |
| Dates.IsoDateRoundTrip | app/hooks/ui/useDatePicker.ts:68 | the `YYYY-MM-DD` text handed on reads back as the same date |
| Dates.FrenchDate | app/hooks/ui/useDatePicker.ts:80 | `toLocaleDateString("fr-FR")` gives `DD/MM/YYYY` |
| Dates.FrenchDateFields | app/hooks/ui/useDatePicker.ts:80 | the French form holds the day, the month and the year, in that order |
| Dates.FormatDateForDisplay | app/hooks/ui/useDatePicker.ts:77-81 | the placeholder for empty text, "Invalid Date" for an unreadable one, otherwise the French form of the date |
| DatePicker.ReadDate | app/hooks/ui/useDatePicker.ts:21 | `new Date(text)` is a calendar date or an invalid date, and it is the parsed date whenever that is a calendar date |
| DatePicker.GetSelectedDate | app/hooks/ui/useDatePicker.ts:19-27 | the date of the given text, or today 25 years earlier when there is none |
| DatePicker.DefaultDateAccepted | app/hooks/ui/useDatePicker.ts:23-26 | the default date passes the 18-to-120 rule: it is 25 years old, or 24 after a 29 February rollover |
| DatePicker.DatePickerState.constructor | app/hooks/ui/useDatePicker.ts:16-17 | the picker starts hidden on today |
| DatePicker.DatePickerState.OpenDatePicker | app/hooks/ui/useDatePicker.ts:29-33 | the picker opens on the given date, or on the default date |
| DatePicker.DatePickerState.OnDateChange | app/hooks/ui/useDatePicker.ts:35-39 | a chosen date replaces the held one; no date changes nothing |
| DatePicker.DatePickerState.ConfirmDateSelection | app/hooks/ui/useDatePicker.ts:41-71 | under 18 completed years gives the first alert, over 120 the second, and otherwise the date goes on as `YYYY-MM-DD`, reading back as the held date, and the picker closes; an invalid date throws; a refused date keeps the picker open |
| DatePicker.DatePickerState.CancelDateSelection | app/hooks/ui/useDatePicker.ts:73-75 | the picker closes and keeps its date |
| DatePicker.OpenThenConfirm | app/hooks/ui/useDatePicker.ts:29-71 | opening the picker without a date and confirming at once is accepted and hands on the default date |
| ProfileEdit.Picked | app/components/ProfileEditOverlay.tsx:294-298 | button 0 ("Annuler") keeps the value; button `i` picks the `i`-th entry; the result is the old value or an entry of the list |
| ProfileEdit.Set | app/components/ProfileEditOverlay.tsx:363-371 | updating a text field changes that field alone |
| ProfileEdit.Field | app/components/ProfileEditOverlay.tsx:437 | `profile?.k` is defined exactly when there is a profile holding the key |
| ProfileEdit.PublicValue | app/components/ProfileEditOverlay.tsx:455 | the form's `is_public` written as a value reads back as the same flag |
| ProfileEdit.FutureBirthdateIsUnderThirteen | app/components/ProfileEditOverlay.tsx:402-411 | a birthdate in the future always fails the plain-year age rule as well, so the future message replaces the age message |
| ProfileEdit.EmptyAliasIsShort | app/components/ProfileEditOverlay.tsx:386 | an empty alias also has a trimmed length under 2 |
| ProfileEdit.BirthdateMessage | app/components/ProfileEditOverlay.tsx:399-412 | a non-empty readable birthdate gets a message exactly when it is in the future or less than 13 years back by year difference; the future message wins |
| ProfileEdit.AliasMessage | app/components/ProfileEditOverlay.tsx:386-392 | the alias gets a message exactly when its trimmed JavaScript length is under 2 or its JavaScript length over 30 (UTF-16 code units), so always for more than 30 characters; the too-long message wins |
| ProfileEdit.FormErrors | app/components/ProfileEditOverlay.tsx:383-413 | the messages cover only the alias, the description and the birthdate, each present exactly when that field's rule fails; the description's exactly over a JavaScript length of 500, so always over 500 characters |
| ProfileEdit.Diff | app/components/ProfileEditOverlay.tsx:434-457 | alias, birthdate, country, language and pronouns are sent exactly when non-empty and different from the profile; the description and `is_public` exactly when different, even when cleared; each carries the form value; the avatar is never sent |
| ProfileEdit.DiffOnlyChanges | app/components/ProfileEditOverlay.tsx:437-457 | every key sent carries a value the profile does not already hold |
| ProfileEdit.OwnEntries | app/components/ProfileEditOverlay.tsx:471 | spreading copies an object's fields, an array's elements or a string's characters under index keys, and nothing from a number or a boolean |
| ProfileEdit.Indexed | app/components/ProfileEditOverlay.tsx:471 | element `i` sits under the key written `i`, and every key is such an index |
| ProfileEdit.OnlyObjectsNameFields | app/components/ProfileEditOverlay.tsx:471 | a value other than an object only brings keys that start with a digit, so never a named profile field |
| ProfileEdit.Spread | app/components/ProfileEditOverlay.tsx:469-473 | `{...a, ...b}` has the keys of both, each key of `b` taking its value from `b`; `undefined` adds nothing |
| ProfileEdit.Merge | app/components/ProfileEditOverlay.tsx:469-473 | the merged profile has a key exactly when the old profile, the spread of the server's data or the sent fields have it |
| ProfileEdit.MergePrecedence | app/components/ProfileEditOverlay.tsx:469-473 | sent fields win over the server's data, which wins over the old profile |
| ProfileEdit.MergeShowsForm | app/components/ProfileEditOverlay.tsx:434-473 | unless the server's data overrides it, the merged profile shows each non-empty alias and country of the form, its description even when empty, and its `is_public` |
| ProfileEdit.SentFieldsSurvive | app/components/ProfileEditOverlay.tsx:469-473 | every field sent reaches the merged profile, whatever the server answers |
| ProfileEdit.ClearingRules | app/components/ProfileEditOverlay.tsx:437-451 | a cleared alias or country is not sent, while a cleared description is sent as "" |
| ProfileEdit.UnchangedFormSendsNothing | app/components/ProfileEditOverlay.tsx:459-463 | a form filled from the profile and left unchanged sends nothing |
| ProfileEdit.SaveResult | app/components/ProfileEditOverlay.tsx:425-486 | no token means an expired session; no change closes without a request; otherwise exactly the changed fields are sent, a 2xx reply with truthy data gives the merged profile, and a failure gives the server's message, the connection error or the update error |
| ProfileEdit.ProfileEditOverlay.constructor | app/components/ProfileEditOverlay.tsx:249-262 | the overlay starts with empty text fields, public, no errors, not loading, the picker closed on today |
| ProfileEdit.ProfileEditOverlay.Load | app/components/ProfileEditOverlay.tsx:264-283 | with a profile and the overlay visible, the form is filled from the profile, the errors cleared and the picker set to its birthdate; otherwise nothing changes |
| ProfileEdit.ProfileEditOverlay.UpdateText | app/components/ProfileEditOverlay.tsx:363-381 | the field is set and nothing else changes |
| ProfileEdit.ProfileEditOverlay.UpdateVisibility | app/components/ProfileEditOverlay.tsx:363-371 | the flag is set and nothing else changes |
| ProfileEdit.ProfileEditOverlay.PickCountry | app/components/ProfileEditOverlay.tsx:286-307 | the country becomes the picked entry, or stays on "Annuler" |
| ProfileEdit.ProfileEditOverlay.PickLanguage | app/components/ProfileEditOverlay.tsx:309-329 | the language becomes the picked entry, or stays on "Annuler" |
| ProfileEdit.ProfileEditOverlay.PickPronouns | app/components/ProfileEditOverlay.tsx:331-351 | the pronouns become the picked entry, or stay on "Annuler" |
| ProfileEdit.ProfileEditOverlay.OpenDatePicker | app/components/ProfileEditOverlay.tsx:261 | the date picker is shown and nothing else changes |
| ProfileEdit.ProfileEditOverlay.HandleDateChange | app/components/ProfileEditOverlay.tsx:353-360 | the picker closes; a chosen date is kept and stored as `YYYY-MM-DD`, which reads back as that date |
| ProfileEdit.ProfileEditOverlay.ValidateForm | app/components/ProfileEditOverlay.tsx:383-416 | the errors become exactly the form's messages, and the form is valid exactly when there is none |
| ProfileEdit.CheckAlias | app/components/ProfileEditOverlay.tsx:386-392 | the two alias writes leave the alias message, too long winning over too short |
| ProfileEdit.CheckBirthdate | app/components/ProfileEditOverlay.tsx:399-412 | the two birthdate writes leave the birthdate message, a future date winning over an age under 13 |
| ProfileEdit.ProfileEditOverlay.HandleSave | app/components/ProfileEditOverlay.tsx:418-490 | the errors become those of the form's validation; nothing else happens past a failed one; otherwise the outcome is the save result and loading ends false; the form and the date picker are untouched |
| Uri.Utf8 | app/services/usersService.ts:43 | a character takes one to four UTF-8 bytes, one exactly for ASCII, which is its own code |
| Uri.HexDigit | app/services/usersService.ts:43 | a hexadecimal digit of an escape is an unreserved character |
| Uri.HexValue | app/services/usersService.ts:43 | a hexadecimal digit has a value below 16 |
| Uri.HexDigitValue | app/services/usersService.ts:43 | reading a written hexadecimal digit gives back its value |
| Uri.EscapeBytes | app/services/usersService.ts:43 | each byte becomes three characters, a '%' and two unreserved digits |
| Uri.EncodeChar | app/services/usersService.ts:43 | an encoded character consists only of '%' and unreserved characters |
| Uri.EncodeURIComponent | app/services/usersService.ts:43 | the encoding consists only of '%' and unreserved characters, and leaves a text of unreserved characters unchanged |
| Uri.DecodeEscapes | app/services/usersService.ts:43 | percent-decoding escaped bytes gives those bytes in front of whatever follows |
| Uri.DecodeChar | app/services/usersService.ts:43 | decoding an encoded character gives its UTF-8 bytes in front of whatever follows |
| Uri.EncodeDecodeRoundTrip | app/services/usersService.ts:43 | decoding the encoding of any text gives its UTF-8 bytes |
| Uri.EncodedHasNoDelimiters | app/services/usersService.ts:43 | the encoding holds no '&', '=', '#' or space |
| ProfileForm.Flag | app/hooks/profile/useProfileForm.ts:7-28 | the flag of a two-letter region is two regional indicator symbols |
| ProfileForm.Find | app/hooks/profile/useProfileForm.ts:186-188 | `find` gives the first matching row, and nothing exactly when no row matches |
| ProfileForm.GetCountryDisplay | app/hooks/profile/useProfileForm.ts:184-190 | the placeholder for "", the flag and name of the first country whose code or name is the input, otherwise the input itself |
| ProfileForm.LanguageLabel | app/hooks/profile/useProfileForm.ts:195-198 | a known code shows the flag and name of its first row; an unknown code shows itself |
| ProfileForm.LanguageLabels | app/hooks/profile/useProfileForm.ts:194-198 | one label per selected code, in order |
| ProfileForm.GetLanguagesDisplay | app/hooks/profile/useProfileForm.ts:192-200 | the placeholder for no selection, else the labels joined by ", " |
| ProfileForm.CountryDisplayKnownCode | app/hooks/profile/useProfileForm.ts:8 | "FR" shows the French flag and "France" |
| ProfileForm.Without | app/hooks/profile/useProfileForm.ts:173 | the filter removes every copy of the code and keeps every other element |
| ProfileForm.WithoutAbsent | app/hooks/profile/useProfileForm.ts:173 | removing an absent code changes nothing |
| ProfileForm.WithoutAppend | app/hooks/profile/useProfileForm.ts:173 | the filter distributes over concatenation |
| ProfileForm.Toggle | app/hooks/profile/useProfileForm.ts:172-174 | the code is in the new list exactly when it was not in the old one, and apart from it the list is unchanged, order included |
| ProfileForm.ToggleTwice | app/hooks/profile/useProfileForm.ts:170-178 | selecting a language and selecting it again restores the selection |
| ProfileForm.LanguagesRoundTrip | app/hooks/profile/useProfileForm.ts:104-110 | the ", "-joined `langue` splits back into the selection when the form is loaded again, provided no code is empty or holds ", " |
| ProfileForm.LowerAsciiAppend | app/hooks/profile/useProfileForm.ts:147 | lower-casing distributes over concatenation |
| ProfileForm.LowerAsciiKeepsLowerCase | app/hooks/profile/useProfileForm.ts:147 | a text without capitals is its own lower-case form |
| ProfileForm.AvatarPatternIgnoresCase | app/hooks/profile/useProfileForm.ts:147 | with the `i` flag, a URL matches exactly when its lower-case form does |
| ProfileForm.SchemeIsLowerCase | app/hooks/profile/useProfileForm.ts:147 | the schemes of the pattern are lower-case |
| ProfileForm.ExtensionIsLowerCase | app/hooks/profile/useProfileForm.ts:147 | the extensions of the pattern are lower-case |
| ProfileForm.LowerAsciiNoLineBreak | app/hooks/profile/useProfileForm.ts:147 | lower-casing adds no line break |
| ProfileForm.MatchesAvatarPattern | app/hooks/profile/useProfileForm.ts:147 | a matching URL has at least 12 characters |
| ProfileForm.AvatarAccepted | app/hooks/profile/useProfileForm.ts:147 | any of the two schemes, any non-empty text without a line break, a dot and any of the five extensions match |
| ProfileForm.OtherFirstLetterRefused | app/hooks/profile/useProfileForm.ts:147 | a URL whose first letter is not an 'h' in either case does not match |
| ProfileForm.AvatarOtherSchemeRefused | app/hooks/profile/useProfileForm.ts:147 | "ftp://a.png" does not match |
| ProfileForm.AliasError | app/hooks/profile/useProfileForm.ts:117-125 | the alias passes exactly with a JavaScript length of 3 or more and all characters from [a-zA-Z0-9_]; it agrees with the sign-up rule on non-empty text and gives the length message for "" |
| ProfileForm.BirthdateError | app/hooks/profile/useProfileForm.ts:126-139 | the birthdate passes exactly when empty or readable with a year difference of 18 to 120; an unreadable one gets the format message, a younger one the age message |
| ProfileForm.DescriptionError | app/hooks/profile/useProfileForm.ts:140-144 | the description passes exactly with a JavaScript length of at most 500, so always with 250 characters or fewer and never with more than 500 |
| ProfileForm.AvatarError | app/hooks/profile/useProfileForm.ts:145-152 | the avatar passes exactly when empty or matching the image URL pattern |
| ProfileForm.FieldError | app/hooks/profile/useProfileForm.ts:113-157 | the country, language, pronouns and visibility never fail |
| ProfileForm.AcceptedAliasNotBlank | app/hooks/profile/useProfileForm.ts:225-228 | an alias the rules accept is never blank, so the "alias required" alert cannot be reached |
| ProfileForm.SetText | app/hooks/profile/useProfileForm.ts:160 | updating a text field changes that field alone |
| ProfileForm.Kept | app/hooks/profile/useProfileForm.ts:236-245 | a field is sent exactly when it is not blank, and then trimmed and non-empty |
| ProfileForm.BuildPayload | app/hooks/profile/useProfileForm.ts:234-246 | the payload holds each text field kept after trimming and always `is_public` |
| ProfileForm.PayloadBody | app/hooks/profile/useProfileForm.ts:234-246 | the body always holds `is_public`, and the alias and description exactly when they are not blank, the alias trimmed |
| ProfileForm.ProfileFormState.constructor | app/hooks/profile/useProfileForm.ts:78-91 | the form starts empty, private, with no messages, not loading and nothing selected |
| ProfileForm.ProfileFormState.ValidateField | app/hooks/profile/useProfileForm.ts:113-157 | the field's message is stored, no other changes, and the result is true exactly when it is "" |
| ProfileForm.ProfileFormState.UpdateText | app/hooks/profile/useProfileForm.ts:159-164 | the field is set and validated |
| ProfileForm.ProfileFormState.UpdateVisibility | app/hooks/profile/useProfileForm.ts:159-164 | a boolean is stored and not validated |
| ProfileForm.ProfileFormState.SelectCountry | app/hooks/profile/useProfileForm.ts:166-168 | the country's code becomes `pays`, with no message |
| ProfileForm.ProfileFormState.SelectPronouns | app/hooks/profile/useProfileForm.ts:180-182 | the pronouns are stored, with no message |
| ProfileForm.ProfileFormState.ToggleLanguage | app/hooks/profile/useProfileForm.ts:170-178 | the selection is toggled and `langue` becomes its ", " join |
| ProfileForm.ProfileFormState.LoadFromUser | app/hooks/profile/useProfileForm.ts:94-111 | with a user the form is filled from it, and a non-empty `langue` is split on ", " into the selection; without one nothing changes |
| ProfileForm.ProfileFormState.ValidateSubmitFields | app/hooks/profile/useProfileForm.ts:210-218 | the four fields are validated in turn: there are errors exactly when one fails, each shows its message and the other messages are kept |
| ProfileForm.ProfileFormState.SubmitAccepted | app/hooks/profile/useProfileForm.ts:225-274 | a blank alias is refused; otherwise the trimmed payload is built, the missing `updateProfile` throws, the unexpected-error alert is shown and loading ends |
| ProfileForm.ProfileFormState.HandleSubmit | app/hooks/profile/useProfileForm.ts:208-275 | nothing is sent exactly when a field fails; the alias alert never shows; every checked field shows its message; otherwise the payload is built and the unexpected-error alert is shown |
| FriendsList.FriendsListOverlay.constructor | app/components/FriendsListOverlay.tsx:26-30 | the overlay starts empty, idle, on page 1, with more to load |
| FriendsList.FriendsListOverlay.LoadFriends | app/components/FriendsListOverlay.tsx:38-83 | a non-reset load while loading does nothing; a reset empties the list and returns to page 1; without a token nothing is requested; otherwise the accepted friends of the page are requested 20 at a time, replace the list (page 1 or reset) or are appended, there is more exactly when 20 came back, a failure on page 1 empties the list; every started path ends idle |
| FriendsList.FriendsListOverlay.ApplyResult | app/components/FriendsListOverlay.tsx:58-78 | a page that loads replaces the list (page 1 or reset) or is appended after the earlier entries and becomes the current page, with more to load exactly when 20 came; a failure empties the list on page 1 and otherwise keeps it |
| FriendsList.FriendsListOverlay.OnRefresh | app/components/FriendsListOverlay.tsx:85-88 | the list is reloaded from page 1 and replaced by the first page, with more to load exactly when it is full; without a token or on a failure the list is emptied and more is expected; both indicators end off |
| FriendsList.FriendsListOverlay.LoadMore | app/components/FriendsListOverlay.tsx:90-94 | only with more to load and nothing loading, the next page is requested and appended, and the page counter advances by one |
| FriendsList.OpenThenScroll | app/components/FriendsListOverlay.tsx:32-94 | opening the overlay and scrolling to the end shows the first two pages in order, on page 2 |
| UserSearch.ArrayOrEmpty | app/hooks/ui/useUserSearch.ts:52-54 | an array is kept and any other value gives no results |
| UserSearch.ResultsOf | app/hooks/ui/useUserSearch.ts:51-54 | the results are the truthy `users` list, else `data` itself, kept only when it is an array |
| UserSearch.UsersListWins | app/hooks/ui/useUserSearch.ts:52 | a list under `users` is taken over the object around it |
| UserSearch.BareListTaken | app/hooks/ui/useUserSearch.ts:52-54 | a bare list is taken as it is; any other value that is not an object gives nothing |
| UserSearch.FailureError | app/hooks/ui/useUserSearch.ts:58-68 | a truthy message is shown exactly when it mentions neither "aucun" nor "Trop de requêtes"; no message shows nothing; a message without `includes` throws and shows the default error |
| UserSearch.NoMatchIsNotAnError | app/hooks/ui/useUserSearch.ts:63-64 | a message saying nothing matched is never shown as an error |
| UserSearch.UserSearchState.constructor | app/hooks/ui/useUserSearch.ts:24-28 | the search starts empty, idle, without error, query or search done |
| UserSearch.UserSearchState.SetSearchQuery | app/hooks/ui/useUserSearch.ts:27 | the query text is set and nothing else changes |
| UserSearch.UserSearchState.ClearSearch | app/hooks/ui/useUserSearch.ts:103-109 | results, error, query, the searched flag and loading go back to their initial values |
| UserSearch.UserSearchState.DebouncedSearch | app/hooks/ui/useUserSearch.ts:35-80 | a blank query clears the results without a request; otherwise the trimmed query is sent, a delivered answer gives its results, an unsuccessful one none and the filtered error, a thrown error none and the default error, an abort keeps the results; loading ends |
| UserSearch.UserSearchState.SearchUsers | app/hooks/ui/useUserSearch.ts:82-101 | the scheduled search is cancelled; a blank query clears everything at once, any other is scheduled |
| UserSearch.UserSearchState.TimerFires | app/hooks/ui/useUserSearch.ts:95-99 | the scheduled search runs once with the outcome of `debouncedSearch`: a blank query clears the results, otherwise the trimmed query is sent and the results and error follow the answer (results on success, the failure message, the generic error, or nothing on an abort); with nothing scheduled nothing changes |
| UserSearch.UserSearchState.Unmount | app/hooks/ui/useUserSearch.ts:111-121 | unmounting cancels the scheduled search and changes nothing else |
| UserSearch.TypeTwiceThenWait | app/hooks/ui/useUserSearch.ts:82-101 | two queries typed within the delay send only the second, trimmed |
| UserImages.ImagesOf | app/hooks/images/useUserImages.ts:38 | the images are the truthy `images` of the data, else `[]` |
| UserImages.ImagesAfter | app/hooks/images/useUserImages.ts:37-39 | the images are replaced when the answer delivered data and kept otherwise |
| UserImages.ErrorAfter | app/hooks/images/useUserImages.ts:40-47 | no error exactly when data came; else the truthy server message, or the default one when there is none or the call threw |
| UserImages.IsRecent | app/hooks/images/useUserImages.ts:76-80 | an image is recent only with a valid date; one exactly 24 hours old is not, and one dated now or later is |
| UserImages.Recent | app/hooks/images/useUserImages.ts:76-80 | the filter keeps at most as many images as it is given |
| UserImages.RecentExactly | app/hooks/images/useUserImages.ts:76-80 | the filter keeps exactly the images dated after one day before now |
| UserImages.AllRecentIff | app/hooks/images/useUserImages.ts:76-81 | every image is counted exactly when every image is recent |
| UserImages.RecentPhotosCount | app/hooks/images/useUserImages.ts:75-82 | the count exists exactly when the images are a list without `null`, and is then the number of recent images, at most their number |
| UserImages.UndatedIsNotRecent | app/hooks/images/useUserImages.ts:77-79 | an image whose date cannot be read is never counted |
| UserImages.UserImagesState.constructor | app/hooks/images/useUserImages.ts:26-29 | the hook starts with no images, idle, without error |
| UserImages.UserImagesState.LoadImages | app/hooks/images/useUserImages.ts:31-51 | the images follow the answer, the error is the load error of the answer, and loading ends |
| UserImages.UserImagesState.RefreshImages | app/hooks/images/useUserImages.ts:53-73 | the same with the refresh message, and refreshing ends |
| UserImages.LoadThenFailedRefresh | app/hooks/images/useUserImages.ts:31-73 | a failed refresh after a good load keeps the loaded images and shows an error |
| FriendsHook.Count | app/hooks/friends/useFriends.ts:238-246 | a filtered count is at most the length of the list |
| FriendsHook.CountAppend | app/hooks/friends/useFriends.ts:238-246 | counting two lists together adds their counts |
| FriendsHook.CountAll | app/hooks/friends/useFriends.ts:238-246 | everything counts exactly when every element is accepted |
| FriendsHook.CountNone | app/hooks/friends/useFriends.ts:238-246 | nothing counts exactly when no element is accepted |
| FriendsHook.FriendsCount | app/hooks/friends/useFriends.ts:238-241 | the friends counter is at most the number of friends, all of them exactly when every friendship is accepted, none exactly when none is |
| FriendsHook.PendingRequestsCount | app/hooks/friends/useFriends.ts:243-246 | the pending counter is at most the number of received requests, all of them exactly when every one is pending, none exactly when none is |
| FriendsHook.FriendsHookState.GetFriendsCount | app/hooks/friends/useFriends.ts:238-241 | the hook's friends counter is at most the length of its list, all of it exactly when every friendship is accepted, none exactly when none is |
| FriendsHook.FriendsHookState.GetPendingRequestsCount | app/hooks/friends/useFriends.ts:243-246 | the hook's pending counter is at most the number of received requests, all exactly when each is pending, none exactly when none is |
| FriendsHook.FriendsCountAppend | app/hooks/friends/useFriends.ts:238-241 | the counter of two lists together is the sum of their counters |
| FriendsHook.FriendsHookState.constructor | app/hooks/friends/useFriends.ts:51-56 | the hook starts with three empty lists, idle, without error |
| FriendsHook.FriendsHookState.LoadFriends | app/hooks/friends/useFriends.ts:58-78 | the error is cleared, the friends are emptied and loading ends; the requests are untouched |
| FriendsHook.FriendsHookState.LoadFriendRequests | app/hooks/friends/useFriends.ts:80-97 | the error is cleared and the received requests are emptied; nothing else changes |
| FriendsHook.FriendsHookState.LoadSentRequests | app/hooks/friends/useFriends.ts:99-116 | the error is cleared and the sent requests are emptied; nothing else changes |
| FriendsHook.FriendsHookState.Mutate | app/hooks/friends/useFriends.ts:118-223 | every friendship action reports failure and changes nothing |
| FriendsHook.FriendsHookState.RefreshData | app/hooks/friends/useFriends.ts:225-236 | after a refresh the three lists are empty, both counters read zero and refreshing has ended |
| PhotoGrid.ConcatPush | app/home.tsx:306-315 | pushing a row adds its photos at the end |
| PhotoGrid.ChunkRows | app/home.tsx:300-346 | the rows give back the images in order, every row but the last holds three, the last one to three, and there are ceil(n / 3) rows |
| PhotoGrid.RenderPhotosGrid | app/home.tsx:265-346 | no photo gives the 5 by 3 placeholder grid, and only then; otherwise the rows of photos |
| PhotoGrid.FullRowsOnly | app/home.tsx:303-346 | the last row is full exactly when the number of photos is a multiple of three |
| PhotoGrid.ShapedLength | app/home.tsx:303-316 | full rows hold three photos each |
| PhotoGrid.GetInitials | app/home.tsx:101-103 | the initials are the leading characters held whole by the first two UTF-16 code units, in capitals: never empty for a non-empty alias, and the first two characters (fewer for a shorter alias) when none lies outside the Basic Multilingual Plane |
| PhotoGrid.AvatarInitials | app/home.tsx:130 | a user without alias shows "U"; a text alias shows its initials; any other value throws |
| PhotoGrid.InitialsIdempotent | app/main/profile.tsx:71-73 | taking the initials of initials changes nothing |
| HomeScreen.HomeScreenState.constructor | app/home.tsx:28-30 | the screen starts with no images, idle |
| HomeScreen.HomeScreenState.LoadUserImages | app/home.tsx:40-52 | delivered images replace the list, anything else including a thrown error keeps it, and loading ends |
| HomeScreen.HomeScreenState.OnRefresh | app/home.tsx:54-58 | the list is reloaded and both indicators end off |
| HomeScreen.HomeScreenState.OnUserChange | app/home.tsx:34-38 | images are loaded exactly when a user is signed in |

## Left out

- Rendering, layout and styling are not modelled: JSX, the render-only screens, the design constants and the generic components. Alerts and navigation (`router.back`, `router.replace`) appear only as outcome values.
- Floating-point layout math is not modelled: photo width and golden-ratio height. `PhotoGrid` renders a generic element type.
- Network and storage I/O are not modelled: `fetch`, `response.json()` and AsyncStorage. Every reply is an input value, and storage is a map with a flag saying whether the call failed.
- Timers and cancellation are not modelled. The 300 ms debounce of the user search becomes a pending query that fires when the timer does. AbortController and the simulated upload progress are left out. The loaders of `refreshData` run one after the other, not in parallel.
- Console logging is not modelled.
- The code has no retry, backoff or pacing layer: `apiService.tsx` keeps no timestamps and has no retry loop. The model follows the code.
- `apiService.searchUsers` and `apiService.getUserImages` are called by the hooks but are not defined in `app/services/apiService.tsx`. Their answers are opaque inputs (`UserSearch.SearchResponse`, `UserImages.ImagesResponse`).
- `updateProfile` is called by the profile form but is not provided by `app/context/AuthContext.tsx`. The model stops at the payload and the error the call then raises.
- Date parsing is not modelled: `new Date(text)` is a parameter (`parse` or `stamp`). `toLocaleDateString("fr-FR")` is modelled as the `DD/MM/YYYY` text of the integer date (`Dates.FrenchDate`). Times of day and time zones are left out.
- JSON numbers are integers. A non-string value read as text is taken as "".
- Common.UpperAscii: `toUpperCase` is modelled on ASCII letters only; any other letter keeps its case, where JavaScript would upper-case it (and sometimes lengthen it, as "ß" becomes "SS").
- Common.LowerAscii: `toLowerCase` is modelled on ASCII letters only, for the same reason; the avatar pattern it serves ignores only ASCII case anyway.
- ProfileForm.FromUser: `is_public` is read as `user.is_public || false` and so keeps a truthy non-boolean value (a number, a string, an object) as it is; the form holds a boolean, so the model stores `true` for it. A truthy `langue` that is not a string makes `user.langue.split` throw in the code; the model reads it as "" and leaves the selection as it was.
- PhotoGrid.GetInitials: only ASCII letters are upper-cased (see Common.UpperAscii). When a character inside the Basic Multilingual Plane is followed by one outside it, `substring(0, 2)` keeps the first half of the second (a lone surrogate), which a string of Unicode scalar values cannot hold; the model keeps the first character only.
- ProfileEdit.Merge: a string `data` spreads one entry per UTF-16 code unit; a character outside the Basic Multilingual Plane gives two entries holding its two halves, which a string of Unicode scalar values cannot hold, so the model gives it a single entry and numbers the following entries one lower.
- Strings are sequences of Unicode scalar values, so the `URIError` that `encodeURIComponent` raises on a lone surrogate cannot occur. Lengths that the code compares (`.length`) are counted in UTF-16 code units (`Common.JsLength`).
- ProfileEdit.ProfileEditOverlay.HandleDateChange requires a year from 0 to 9999, the range the ISO date text it builds can hold.
- DatePicker.DatePickerState.ConfirmDateSelection requires a clock year from 121 to 9999, so that the oldest accepted birth year is still a four-digit year.
- `ReadDate` maps an invalid birth date to None, where JavaScript would carry an "Invalid Date".
- The Android branch of the country, language and pronoun pickers is left out: it only shows a placeholder alert. The model follows the action sheet's button index.
- The grid for an `images` value that is not a list is not modelled: the screens would throw there.
- `created_at` is read as text; its date is the `stamp` parameter.
- The friends hook (`app/hooks/friends/useFriends.ts`) calls no endpoint yet: its loaders empty their lists and its mutations return false. The model states this as it is.
- Top-level `friends`, outside `data`, are ignored by `getFriendsList`; the model follows the code (`FriendsService.TopLevelFriendsIgnored`).
- `app/components/AvatarPickerOverlay.tsx`, `RegisterForm.tsx` and `LoginForm.tsx` (permissions, image picker and placeholder alerts) are not part of this model.

## Findings

| source | as written | input that shows it | evidently intended | confidence | as-written member | corrected member |
|---|---|---|---|---|---|---|
| app/hooks/auth/useAuthForm.ts:141-164 | the sign-up branch reads `result.success`, but the session's `register` (app/context/AuthContext.tsx:106-118) returns a plain boolean, whose `success` property is `undefined` | a successful sign-up: `register` returns `true`, and the form shows "Erreur lors de l'inscription" | show the success alert and switch to sign-in exactly when the sign-up succeeded | not executed | AuthForm.RegisterSuccessReportedAsFailure | AuthForm.RegisterFeedback |
