# SkyFitnessPro, modelled in Dafny

SkyFitnessPro is a Next.js web application for fitness courses. Its pages:

- list the course catalogue;
- let a visitor register and sign in;
- let a signed-in user add courses to a profile and remove them;
- show the user's progress through each course's workouts.

State is kept in two places: a Redux store (`authSlice`, `courseSlise`) and React hooks (`useAuth`, `useCourse`, and the legacy `AuthContext`). A small set of Next.js API routes under `app/api` checks requests before forwarding them to an upstream fitness API. That API is reached through `libs/fitness.ts`, `lib/api` and `servises/course/courseApi`.

This project models the deterministic rules inside those pieces:

- the reducers and thunks of the auth and course stores;
- the hooks' state transitions;
- the error-message classification;
- token parsing and the route handlers' ordered checks;
- the registration schema and the sign-in/sign-up form checks;
- the presentation rules of the catalogue, profile, card and the two workout modals.

Every network answer is an input to the model. It is either `Ok(value)`/`Err(thrown)`, or a `Reply` that separates success, a non-OK response and a network failure. `localStorage` is a `map<string, string>` field. A navigation is an `Option<string>` field holding the route pushed. A page reload is a boolean field.

An asynchronous handler with a flag that is visible while it waits is split at its `await`:

- a `Begin…`/`Start…` method sets the flag and returns the request it would send;
- a `Finish…` method takes the answer.

Pure rules are functions whose contracts are proved and related by lemmas. State that the source updates in place (store slices, hook and page state) is a class; each method's contract gives the state after the call in terms of the state before it and the method's inputs.

Files, one module per source file, plus shared helpers:

| file | module | source |
|---|---|---|
| wrappers.dfy | `Wrappers` | `Option`/`Result` |
| text.dfy | `Text` | JavaScript string operations: `trim`, `toLowerCase`, `includes`, `split`, `join`, number printing |
| errors.dfy | `Errors` | lib/utils.ts |
| types.dfy | `Types` | lib/types.ts records |
| schema.dfy | `Schema` | lib/types.ts `registerSchema` |
| fitness.dfy | `Fitness` | libs/fitness.ts |
| api_routes.dfy | `Http`, `ProgressRoute`, `CoursesAddRoute`, `LoginRoute`, `RegisterRoute`, `UsersMeRoute`, `CoursesRoute` | app/api/… |
| auth_slice.dfy | `AuthSlice` | store/features/authSlice.ts |
| course_slice.dfy | `CourseSlice` | store/features/courseSlise.ts |
| auth_forms.dfy | `AuthForms` | app/auth/signup, app/auth/signin, app/services/auth/signin |
| use_auth.dfy | `UseAuthHook` | hooks/useAuth.ts |
| auth_context.dfy | `AuthContext` | src/contexts/AuthContext.tsx |
| use_course.dfy | `UseCourseHook` | hooks/useCourse.ts |
| fetching_courses.dfy | `FetchingCourses` | components/FetchingCourses |
| my_courses_page.dfy | `MyCoursesPage` | app/users/me/courses/page.tsx |
| course_style.dfy | `CourseStyle` | image and colour tables of app/page.tsx and app/main/page.tsx |
| home_page.dfy | `HomePage` | app/page.tsx |
| main_page.dfy | `MainPage` | app/main/page.tsx |
| course_card.dfy | `CourseCard` | components/CourseCard |
| modal_workouts.dfy | `ModalWorkouts` | components/ModalWorkouts |
| modal_progress.dfy | `ModalProgress` | components/ModalProgress |

Where the test files disagree with the code, the model follows the code. `lib/__tests__/types.test.ts` has four such expectations:

- the message `'Введите Email'`;
- the message `'6 симоволов'`;
- that `'Password1!'` is rejected;
- a `confirmPassword` rule.

None of these is in `registerSchema`.

## Model

| member | source | states |
|---|---|---|
| Text.BlankIffAllWhitespace | skyfitnesspro/app/auth/signup/page.tsx:30 | `!s.trim()` holds exactly when every character is white space |
| Text.ToLower | skyfitnesspro/app/page.tsx:99 | lower-casing keeps the length and maps each character on its own |
| Text.TrimStart | skyfitnesspro/app/auth/signup/page.tsx:30 | a suffix of the string that, when non-empty, does not start with white space; everything dropped is white space |
| Text.TrimEnd | skyfitnesspro/app/auth/signup/page.tsx:30 | a prefix of the string that, when non-empty, does not end with white space; everything dropped is white space |
| Text.Trim | skyfitnesspro/app/auth/signup/page.tsx:30 | `s.trim()` is no longer than `s`, and a non-empty result neither starts nor ends with white space |
| Text.Split | skyfitnesspro/libs/fitness.ts:232 | `split` always yields at least one part |
| Text.NatToString | skyfitnesspro/app/page.tsx:120 | `${n}` for a natural number: non-empty, decimal digits only, and a leading `0` exactly for 0 |
| Text.NatToStringValue | skyfitnesspro/app/page.tsx:120 | reading the printed digits back gives the number |
| Text.TwoDigits | skyfitnesspro/app/page.tsx:120 | a two-digit count prints as its tens digit, then its units digit |
| Text.SmallNumbers | skyfitnesspro/app/page.tsx:118-121 | 1, 3, 20, 21, 22 and 50 print as those digits |
| Text.IntToString | skyfitnesspro/app/page.tsx:120 | `${n}` for an integer: a leading `-` exactly when `n` is negative, and digits only after it |
| Text.IntToStringValue | skyfitnesspro/app/page.tsx:120 | the digits after the sign read back as the magnitude of `n` |
| Text.Lookup | skyfitnesspro/app/api/progress/route.ts:32-33 | `searchParams.get` (and the card's `images[key]`) gives the value of the first pair with exactly that key, and nothing exactly when no pair has it |
| Text.SplitLength | skyfitnesspro/libs/fitness.ts:235-236 | `split` yields one more part than there are separators |
| Text.SplitPartsFree | skyfitnesspro/libs/fitness.ts:235 | no part of a split holds the separator |
| Text.JoinSplit | skyfitnesspro/libs/fitness.ts:235 | joining the parts of a split restores the string |
| Text.SplitJoin | skyfitnesspro/app/api/progress/route.ts:13 | splitting a join of separator-free parts gives back the parts |
| Errors.StatusMessage | skyfitnesspro/lib/utils.ts:18-25 | the chain of status checks picks the first table entry for the status, and nothing for an unlisted one |
| Errors.UnlistedStatus | skyfitnesspro/lib/utils.ts:18-25 | a status outside the eight listed ones has no fixed message |
| Errors.GetErrorMessage | skyfitnesspro/lib/utils.ts:4-38 | a string server message wins, even when empty; a plain `Error` gives its message; any other value gives `String(value)`, or `'Неизвестная ошибка'` when that is empty; the result is empty only for an empty server message or an `Error` with an empty message |
| Errors.StatusRuleApplies | skyfitnesspro/lib/utils.ts:13-25 | without a server message, a listed status gives its fixed message |
| Errors.AxiosFallback | skyfitnesspro/lib/utils.ts:28 | an unlisted or missing status gives the Axios message, or `'Ошибка запроса к серверу'` when that is empty |
| Errors.NonErrorValues | skyfitnesspro/lib/utils.ts:37 | examples of the non-Error rule: `null` reads `'null'`, `undefined` reads `'undefined'`, and the empty string gives `'Неизвестная ошибка'` |
| Errors.MessageOr | skyfitnesspro/store/features/authSlice.ts:41-44 | an `Error` gives its message, anything else the caller's fallback |
| Fitness.FirstTruthy | skyfitnesspro/libs/fitness.ts:262 | `a \|\| b \|\| … \|\| ''` is empty exactly when no candidate is truthy, else it is a truthy candidate |
| Fitness.VerifyToken | skyfitnesspro/libs/fitness.ts:228-266 | an empty token, or one without exactly two dots, is refused; success means three parts, a decodable payload and no expiry, with the id the first truthy of `id`, `userId`, `sub` |
| Fitness.Expired | skyfitnesspro/libs/fitness.ts:254-257 | a payload without `exp`, or with `exp` 0, never expires; an expired one has `exp` seconds before `now` milliseconds |
| Fitness.VerifyAssembledToken | skyfitnesspro/libs/fitness.ts:233-262 | a token built from three dot-free segments is judged only by its decoded middle segment and expiry |
| Fitness.RequireToken | skyfitnesspro/libs/fitness.ts:177-179 | a guarded call proceeds exactly when the token is truthy, and otherwise throws its fixed non-empty message |
| Fitness.FailureMessage | skyfitnesspro/libs/fitness.ts:37-40 | a non-OK reply throws the body's truthy message, else the call's own fallback, never an empty string |
| Fitness.FailureFallback | skyfitnesspro/libs/fitness.ts:155-160 | every wrapper's fallback message is non-empty |
| Fitness.Settle | skyfitnesspro/libs/fitness.ts:101-116 | a wrapper resolves exactly on a successful reply, with its data; a non-OK reply rejects with `Error(message \|\| fallback)` using the endpoint's own fallback, never empty; a network failure propagates unchanged |
| Fitness.GuardedCallResult | skyfitnesspro/libs/fitness.ts:304-330 | without a token the guard's error, otherwise the settled reply of the forwarded endpoint |
| Fitness.NoTokenNoRequest | skyfitnesspro/libs/fitness.ts:310-312 | without a token the result does not depend on the reply: nothing is requested |
| Fitness.RegisterSuccessMessage | skyfitnesspro/libs/fitness.ts:63-64 | the body's truthy message, else `'Регистрация успешна'` |
| Fitness.CourseProgressUrl | skyfitnesspro/libs/fitness.ts:349 | the URL is the base, then the progress path, then the raw course id |
| Fitness.WorkoutProgressUrl | skyfitnesspro/libs/fitness.ts:315 | the workout URL extends the course URL with `&workoutId=` and the raw workout id |
| Fitness.WorkoutProgressUrlInjective | skyfitnesspro/libs/fitness.ts:315 | for course ids without `&`, the URL determines both ids |
| Fitness.FirstAmpersand | skyfitnesspro/libs/fitness.ts:315 | in such a URL the first `&` after the path ends the course id |
| Fitness.UnescapedIdsCollide | skyfitnesspro/libs/fitness.ts:315 | an id holding `&workoutId=` makes two different requests share a URL |
| Http.BearerToken | skyfitnesspro/app/api/progress/route.ts:12-13 | the token is the second space-separated word; no header means no token |
| Http.BearerTokenOf | skyfitnesspro/app/api/progress/route.ts:13 | any space-free scheme, a space, then a space-free token yields that token: the scheme is not checked |
| Http.NoBearerToken | skyfitnesspro/app/api/progress/route.ts:15-20 | a bare `'Bearer'`, an empty header, `'Bearer '` and no header carry no token |
| ProgressRoute.Get | skyfitnesspro/app/api/progress/route.ts:5-53 | 405, then 401 (missing token), then 401 (refused token), then 400 (missing or empty course id), then the upstream call; a truthy workout id selects single-workout progress; 200 relays the body; a non-OK answer is 500 with the truthy body message or the selected wrapper's own fallback; a network failure is 500 with its message if it is an `Error`, else `'Ошибка получения прогресса'` |
| ProgressRoute.UpstreamMessageRelayed | skyfitnesspro/app/api/progress/route.ts:47-53 | an upstream failure message reaches the client as a 500 with that message |
| CoursesAddRoute.Post | skyfitnesspro/app/api/courses/add/route.ts:5-52 | 405, 401, 401, then 500 for an unparseable body and 400 for a falsy course id; success is 200 with the fixed message whatever upstream says; a failed upstream call is 500 with the thrown `Error`'s message (the body's message or `'Ошибка добавления курса'`) |
| LoginRoute.Post | skyfitnesspro/app/api/auth/login/route.ts:5-31 | 405; 400 `'Email и пароль обязательны'` for a falsy field; 200 with the token; every failure, an unparseable body included, is 400; a failed upstream login carries the thrown `Error`'s message, else `'Ошибка входа'` |
| RegisterRoute.Post | skyfitnesspro/app/api/auth/register/route.ts:5-34 | 405; 400 for a falsy field; 201 `'Регистрация прошла успешно!'` on success; every failure is 400, carrying the thrown `Error`'s message, else `'Ошибка регистрации'` |
| UsersMeRoute.Get | skyfitnesspro/app/api/users/me/route.ts:5-31 | 405; 401 without a token; the token is forwarded unverified; 201 with the user; a failure is 400 with the thrown `Error`'s message, else `'Ошибка получения данных пользователя'` |
| UsersMeRoute.NoVerification | skyfitnesspro/app/api/users/me/route.ts:12-24 | a token that is not a JWT is passed upstream as it is |
| CoursesRoute.Get | skyfitnesspro/app/api/courses/route.ts:4-21 | 405 for another method; 200 relays the list; a failure is 500, with the `Error`'s message or else `'Ошибка получения курсов'` |
| CoursesRoute.AuthorizationIgnored | skyfitnesspro/app/api/courses/route.ts:4-22 | the answer does not depend on the authorization header |
| Schema.IndexOf | skyfitnesspro/lib/types.ts:49 | the first position of a character, or -1 when it does not occur |
| Schema.LastIndexOf | skyfitnesspro/lib/types.ts:49 | the last position of a character, or -1 |
| Schema.EmailShape | skyfitnesspro/lib/types.ts:49 | an accepted address has exactly one `@`, no `..`, and neither starts nor ends with a dot |
| Schema.IssuesOf | skyfitnesspro/lib/types.ts:48-54 | one issue per failed check, in check order (address, length, uppercase, special character); none exactly when all pass |
| Schema.SafeParse | skyfitnesspro/lib/types.ts:48-56 | accepted exactly for an address, six or more characters, an A–Z letter and one character outside `[A-Za-z0-9]`; otherwise the issue list, with an address issue first |
| Schema.SpecialsIn | skyfitnesspro/lib/types.ts:53 | the count of special characters in a prefix is zero exactly when every character there is a letter or digit |
| Schema.SamplePassword | skyfitnesspro/lib/types.ts:51-53 | `'Password123!!'` passes the length, uppercase and special-character checks |
| Schema.ShortPassword | skyfitnesspro/lib/types.ts:51-53 | `'Pass1'` is too short and has no special character, but has an uppercase letter |
| Schema.LowercasePassword | skyfitnesspro/lib/types.ts:51-53 | `'password123!!'` fails only the uppercase check |
| Schema.WeakIssueLists | skyfitnesspro/lib/types.ts:48-54 | the exact issue lists for a failed length and special check, a failed uppercase check, and a failed address check |
| Schema.OneSpecialPassword | skyfitnesspro/lib/types.ts:53 | `'Password1!'` passes every written check with one special character |
| Schema.SampleEmail | skyfitnesspro/lib/types.ts:49 | `'test@example.com'` is an address |
| Schema.NotEmails | skyfitnesspro/lib/types.ts:49 | the empty string and `'invalid-email'` are not |
| Schema.SampleInputs | skyfitnesspro/lib/types.ts:48-54 | `'test@example.com'` / `'Password123!!'` is accepted |
| Schema.ShortPasswordIssues | skyfitnesspro/lib/types.ts:51-53 | `'Pass1'` gets the length issue and then the special-character issue |
| Schema.LowercasePasswordIssues | skyfitnesspro/lib/types.ts:52 | `'password123!!'` gets only the uppercase issue |
| Schema.EmptyAddress | skyfitnesspro/lib/types.ts:49 | the empty address gets only the address issue |
| Schema.EmptyPassword | skyfitnesspro/lib/types.ts:51 | the empty password is always refused |
| Schema.OneSpecialAccepted | skyfitnesspro/lib/types.ts:53 | `'Password1!'` is accepted by the written schema and refused by the intended one |
| Schema.SpecialCount | skyfitnesspro/lib/types.ts:53 | counts the characters outside `[A-Za-z0-9]`; zero exactly when there is none |
| Schema.IntendedSafeParse | skyfitnesspro/lib/types.ts:53 | the schema with the two special characters its message demands |
| Schema.IntendedIsStricter | skyfitnesspro/lib/types.ts:53 | whatever the intended schema accepts, the written one accepts |
| Schema.IntendedSampleAccepted | skyfitnesspro/lib/types.ts:48-54 | the intended schema still accepts the sample input |
| AuthSlice.LoginThunk | skyfitnesspro/store/features/authSlice.ts:22-47 | the token is stored exactly when login answered, before the user fetch; fulfilled exactly when both answered; otherwise rejected with the message or `'Ошибка входа'` |
| AuthSlice.RegisterThunk | skyfitnesspro/store/features/authSlice.ts:49-76 | a failed registration stores nothing and rejects with its message or `'Ошибка регистрации'`; after a registration, a failed login or `getMe` rejects with that failure's message or the same `'Ошибка регистрации'` |
| AuthSlice.RegisterThenLogin | skyfitnesspro/store/features/authSlice.ts:55-68 | after a successful registration the thunk stores and delivers what `login` would |
| AuthSlice.RestoredToken | skyfitnesspro/store/features/authSlice.ts:101-109 | the token changes only to a non-empty stored one |
| AuthSlice.HalfLoginRestored | skyfitnesspro/store/features/authSlice.ts:29-45 | a login whose user fetch fails rejects, yet leaves its token stored for `restoreSession` to pick up |
| AuthSlice.LogoutThenRestore | skyfitnesspro/store/features/authSlice.ts:92-109 | after `logout` removes the key, `restoreSession` restores nothing |
| AuthSlice.AuthStore.constructor | skyfitnesspro/store/features/authSlice.ts:13-19 | the initial state |
| AuthSlice.AuthStore.SetUser | skyfitnesspro/store/features/authSlice.ts:82-85 | `user` is the payload and `isAuth` its truthiness; nothing else changes |
| AuthSlice.AuthStore.SetToken | skyfitnesspro/store/features/authSlice.ts:86-88 | only `token` changes |
| AuthSlice.AuthStore.ClearError | skyfitnesspro/store/features/authSlice.ts:89-91 | only `error` changes, to null |
| AuthSlice.AuthStore.Logout | skyfitnesspro/store/features/authSlice.ts:92-100 | user, token and error are null, `isAuth` false, the stored token removed, `loading` untouched |
| AuthSlice.AuthStore.RestoreSession | skyfitnesspro/store/features/authSlice.ts:101-109 | only the token changes, to a non-empty stored one |
| AuthSlice.AuthStore.Pending | skyfitnesspro/store/features/authSlice.ts:114-117 | loading with no error; nothing else changes |
| AuthSlice.AuthStore.Fulfilled | skyfitnesspro/store/features/authSlice.ts:118-124 | not loading, token and user from the payload, `isAuth` true, no error |
| AuthSlice.AuthStore.Rejected | skyfitnesspro/store/features/authSlice.ts:125-129 | not loading, error is the payload, `isAuth` false, user and token kept |
| AuthSlice.AuthStore.Settle | skyfitnesspro/store/features/authSlice.ts:114-146 | a settled run's storage write, then its fulfilled or rejected case |
| AuthSlice.AuthStore.DispatchLogin | skyfitnesspro/store/features/authSlice.ts:22-47 | signed in exactly when both requests answered; otherwise the old user and token remain, with the thunk's error |
| AuthSlice.AuthStore.DispatchRegister | skyfitnesspro/store/features/authSlice.ts:49-76 | signed in exactly when all three requests answered, otherwise as for a rejected login |
| CourseSlice.WithCourse | skyfitnesspro/store/features/courseSlise.ts:33-38 | appends the course exactly when its `_id` is new, otherwise the list is unchanged |
| CourseSlice.WithoutId | skyfitnesspro/store/features/courseSlise.ts:39-41 | the filtered list is no longer than the old one, and no course with the removed `_id` is left |
| CourseSlice.WithoutIdMembers | skyfitnesspro/store/features/courseSlise.ts:39-41 | removal keeps exactly the courses with another `_id`, and never lengthens the list |
| CourseSlice.WithoutIdAppend | skyfitnesspro/store/features/courseSlise.ts:40 | removal distributes over concatenation |
| CourseSlice.WithoutAbsentId | skyfitnesspro/store/features/courseSlise.ts:40 | removing an absent id changes nothing |
| CourseSlice.WithoutIdIdempotent | skyfitnesspro/store/features/courseSlise.ts:40 | removing twice is removing once |
| CourseSlice.AddThenRemove | skyfitnesspro/store/features/courseSlise.ts:33-41 | adding a new course and then removing its `_id` restores the list |
| CourseSlice.AddKeepsUnique | skyfitnesspro/store/features/courseSlise.ts:33-38 | adding keeps ids unique and grows the list by at most one |
| CourseSlice.WithoutIdOrdered | skyfitnesspro/store/features/courseSlise.ts:40 | the kept courses are in their original order |
| CourseSlice.SubsequenceKeepsUnique | skyfitnesspro/store/features/courseSlise.ts:40 | an ordered sub-list of a list with unique ids has unique ids |
| CourseSlice.RemoveKeepsUnique | skyfitnesspro/store/features/courseSlise.ts:39-41 | removal keeps ids unique |
| CourseSlice.CourseStore.constructor | skyfitnesspro/store/features/courseSlise.ts:12-18 | the initial state |
| CourseSlice.CourseStore.SetAllCourses | skyfitnesspro/store/features/courseSlise.ts:24-26 | replaces `allCourses` only |
| CourseSlice.CourseStore.SetFetchIsLoading | skyfitnesspro/store/features/courseSlise.ts:27-29 | replaces `isLoading` only |
| CourseSlice.CourseStore.SetFetchError | skyfitnesspro/store/features/courseSlise.ts:30-32 | replaces `error` only |
| CourseSlice.CourseStore.AddCourse | skyfitnesspro/store/features/courseSlise.ts:33-38 | `allCourses` becomes `WithCourse` of the old list, unique ids are kept, and nothing else changes |
| CourseSlice.CourseStore.RemoveCourse | skyfitnesspro/store/features/courseSlise.ts:39-41 | `allCourses` becomes `WithoutId` of the old list, the id is gone, unique ids are kept |
| CourseSlice.CourseStore.SetMyCourseIds | skyfitnesspro/store/features/courseSlise.ts:42-44 | replaces `myCourseIds` only |
| CourseSlice.CourseStore.SetMyCourses | skyfitnesspro/store/features/courseSlise.ts:45-47 | replaces `myCourses` only |
| AuthForms.SignupSubmission | skyfitnesspro/app/auth/signup/page.tsx:27-46 | blank field (after trim), then mismatch, then untrimmed length under 6, each refusal if and only if the earlier checks passed; otherwise register with the untrimmed values |
| AuthForms.SigninSubmission | skyfitnesspro/app/auth/signin/page.tsx:26-35 | refused with `'Заполните все поля'` exactly for a blank field, otherwise login with the untrimmed values |
| AuthForms.PaddedPasswordPasses | skyfitnesspro/app/auth/signup/page.tsx:40 | the length check counts surrounding blanks |
| AuthForms.WhitespaceFieldRefused | skyfitnesspro/app/auth/signup/page.tsx:30-33 | a whitespace-only field is blank on both pages |
| AuthForms.ErrorNotice | skyfitnesspro/app/auth/signin/page.tsx:20-24 | a non-empty store error is shown on the page's channel, nothing else is |
| AuthForms.RejectionShown | skyfitnesspro/app/services/auth/signin/page.tsx:22-26 | a rejected login whose error has a message raises a notice |
| AuthForms.SignupPage.Mount | skyfitnesspro/app/auth/signup/page.tsx:17-19 | the mount clears the store's error only |
| AuthForms.SignupPage.constructor | skyfitnesspro/app/auth/signup/page.tsx:13-15 | the three fields start empty |
| AuthForms.SignupPage.SetEmail | skyfitnesspro/app/auth/signup/page.tsx:73 | the email field takes the typed value; the other fields are kept |
| AuthForms.SignupPage.SetPassword | skyfitnesspro/app/auth/signup/page.tsx:82 | the password field takes the typed value; the other fields are kept |
| AuthForms.SignupPage.SetRepeat | skyfitnesspro/app/auth/signup/page.tsx:92 | the repeat field takes the typed value; the other fields are kept |
| AuthForms.SignupPage.Submit | skyfitnesspro/app/auth/signup/page.tsx:27-52 | a refusal alerts and leaves the store alone; otherwise, as after the `register` thunk: signed in with the new token and user and no error exactly when all three requests answered, else the old token and user with the thunk's error |
| AuthForms.SigninPage.Mount | skyfitnesspro/app/auth/signin/page.tsx:16-18 | the mount clears the store's error only |
| AuthForms.SigninPage.constructor | skyfitnesspro/app/auth/signin/page.tsx:13-14 | both fields start empty |
| AuthForms.SigninPage.SetEmail | skyfitnesspro/app/auth/signin/page.tsx:59 | the email field takes the typed value; the password is kept |
| AuthForms.SigninPage.SetPassword | skyfitnesspro/app/auth/signin/page.tsx:68 | the password field takes the typed value; the email is kept |
| AuthForms.SigninPage.Submit | skyfitnesspro/app/services/auth/signin/page.tsx:28-40 | a refusal notifies on the page's channel and leaves the store alone; otherwise, as after the `login` thunk: signed in with the new token and user and no error exactly when both requests answered, else the old token and user with the thunk's error |
| UseAuthHook.Loaded | skyfitnesspro/hooks/useAuth.ts:26-55 | authenticated exactly with a stored token and a user answer; a failed answer clears the user, with its message when non-empty and `'Сессия истекла'` when it is empty |
| UseAuthHook.LoggedIn | skyfitnesspro/hooks/useAuth.ts:57-81 | both answers give the signed-in state; a failure keeps the rest of the state, with the error message |
| UseAuthHook.Registered | skyfitnesspro/hooks/useAuth.ts:83-95 | a failed registration sets its message; otherwise the state is what `login` gives |
| UseAuthHook.RegisterIsLogin | skyfitnesspro/hooks/useAuth.ts:86-89 | after a successful registration, `register` ends as `login` would |
| UseAuthHook.FailedLoginKeepsSession | skyfitnesspro/hooks/useAuth.ts:76-79 | a failed login does not sign the user out |
| UseAuthHook.LoginErrorMayBeEmpty | skyfitnesspro/hooks/useAuth.ts:48-78 | `login` may set an empty error, where `loadUser` falls back to `'Сессия истекла'` |
| UseAuthHook.AuthHook.constructor | skyfitnesspro/hooks/useAuth.ts:16-21 | the initial state: no user, loading, no error, not signed in |
| UseAuthHook.AuthHook.LoadUser | skyfitnesspro/hooks/useAuth.ts:26-55 | the state becomes `Loaded`; a failed answer removes the stored token |
| UseAuthHook.AuthHook.Login | skyfitnesspro/hooks/useAuth.ts:57-81 | returns whether both requests succeeded; stores the token once login answers; pushes `/profile` on success |
| UseAuthHook.AuthHook.Register | skyfitnesspro/hooks/useAuth.ts:83-95 | registration, then login only if it succeeded; `/profile` is pushed exactly when both succeeded, otherwise the route stays |
| UseAuthHook.AuthHook.Logout | skyfitnesspro/hooks/useAuth.ts:97-106 | removes the token, resets the state, pushes `/` |
| AuthContext.AuthProvider.constructor | skyfitnesspro/src/contexts/AuthContext.tsx:17-19 | no user, the stored token, loading |
| AuthContext.AuthProvider.TokenEffect | skyfitnesspro/src/contexts/AuthContext.tsx:21-33 | with a token, the user is loaded or the token is dropped from state and storage; loading ends either way |
| AuthContext.AuthProvider.Login | skyfitnesspro/src/contexts/AuthContext.tsx:35-40 | on success, token in state and storage; a failure is rethrown and nothing changes |
| AuthContext.AuthProvider.Register | skyfitnesspro/src/contexts/AuthContext.tsx:42-45 | registration, then login; the first failure is rethrown |
| AuthContext.AuthProvider.Logout | skyfitnesspro/src/contexts/AuthContext.tsx:47-51 | token and user null, stored token removed |
| AuthContext.UseAuthAsWritten | skyfitnesspro/src/contexts/AuthContext.tsx:61-66 | always fails, because `useContext` is not among the names imported on line 1 |
| AuthContext.UseAuth | skyfitnesspro/src/contexts/AuthContext.tsx:61-66 | fails exactly outside a provider, otherwise returns the context value |
| AuthContext.UseAuthFailsInsideProvider | skyfitnesspro/src/contexts/AuthContext.tsx:61-66 | inside a provider the written hook fails with `'useContext is not defined'` where the intended one succeeds |
| UseCourseHook.CallFor | skyfitnesspro/hooks/useCourse.ts:41-47 | remove exactly when the course is marked added, for the course's id |
| UseCourseHook.AfterToggle | skyfitnesspro/hooks/useCourse.ts:41-53 | a failure leaves the flag; a success records what was done |
| UseCourseHook.ToggleFlips | skyfitnesspro/hooks/useCourse.ts:41-47 | a successful toggle flips the flag, and a second one restores it |
| UseCourseHook.CourseToggle.constructor | skyfitnesspro/hooks/useCourse.ts:11-12 | not added and not loading |
| UseCourseHook.CourseToggle.CheckIfAdded | skyfitnesspro/hooks/useCourse.ts:15-34 | the stub always sets `isAdd` false |
| UseCourseHook.CourseToggle.BeginToggle | skyfitnesspro/hooks/useCourse.ts:36-40 | nothing without a course and a truthy user; else loading and the request for the current flag |
| UseCourseHook.CourseToggle.FinishToggle | skyfitnesspro/hooks/useCourse.ts:41-56 | success flips the flag and reloads; failure alerts `getErrorMessage`; loading ends |
| FetchingCourses.FetchFailure | skyfitnesspro/components/FetchingCourses/FetchingCourses.tsx:27-37 | Axios only: the server's message with a response, `'Что-то с интернетом'` when a request was sent, else `'Неизвестная ошибка'`; other errors dispatch nothing |
| FetchingCourses.StatusNotConsulted | skyfitnesspro/components/FetchingCourses/FetchingCourses.tsx:29-30 | a 500 without a message sets the error to null, where `getErrorMessage` would say something |
| FetchingCourses.StartFetch | skyfitnesspro/components/FetchingCourses/FetchingCourses.tsx:17-22 | fetches exactly when no courses are loaded, setting the loading flag |
| FetchingCourses.FinishFetch | skyfitnesspro/components/FetchingCourses/FetchingCourses.tsx:23-40 | success stores the list; failure dispatches the classified error; loading ends |
| MyCoursesPage.MyCoursesOf | skyfitnesspro/app/users/me/courses/page.tsx:66-74 | exactly the courses of `allCourses` whose id is selected |
| MyCoursesPage.MyCoursesOrdered | skyfitnesspro/app/users/me/courses/page.tsx:68-70 | the derived list keeps `allCourses` order |
| MyCoursesPage.MyCoursesExtremes | skyfitnesspro/app/users/me/courses/page.tsx:68-70 | selecting every id gives the whole list, and selecting none gives nothing |
| MyCoursesPage.MyCoursesUnique | skyfitnesspro/app/users/me/courses/page.tsx:68-70 | unique ids stay unique |
| MyCoursesPage.ShouldFetch | skyfitnesspro/app/users/me/courses/page.tsx:35-40 | the intended guard fetches only with a token, no courses, and no fetch running |
| MyCoursesPage.ShouldFetchAsWritten | skyfitnesspro/app/users/me/courses/page.tsx:26-40 | the guard as written fetches only with a token and no courses, and always then, whatever the loading flag |
| MyCoursesPage.LoadingIgnored | skyfitnesspro/app/users/me/courses/page.tsx:26-40 | the written guard starts a second fetch while one is running |
| MyCoursesPage.GuardsAgreeWhenIdle | skyfitnesspro/app/users/me/courses/page.tsx:40 | the two guards differ exactly while loading |
| MyCoursesPage.ErrorDispatchAsWritten | skyfitnesspro/app/users/me/courses/page.tsx:49-57 | the catch branch never dispatches, so no error reaches the store |
| MyCoursesPage.FetchErrorLost | skyfitnesspro/app/users/me/courses/page.tsx:49-57 | an error the loader would record is lost |
| MyCoursesPage.MeCourses.constructor | skyfitnesspro/app/users/me/courses/page.tsx:21-27 | the page over the auth and course stores it reads, with no route pushed |
| MyCoursesPage.MeCourses.StartFetch | skyfitnesspro/app/users/me/courses/page.tsx:35-42 | fetches exactly when the intended guard holds, setting loading |
| MyCoursesPage.MeCourses.FinishFetch | skyfitnesspro/app/users/me/courses/page.tsx:42-62 | the corrected `catch`: success stores the selected ids; failure dispatches the classified error as the course loader does; loading ends. As written the page never dispatches the error (see `MyCoursesPage.ErrorDispatchAsWritten`) |
| MyCoursesPage.MeCourses.SyncMyCourses | skyfitnesspro/app/users/me/courses/page.tsx:66-74 | with ids and courses both present, `myCourses` is recomputed, otherwise nothing changes |
| MyCoursesPage.MeCourses.OnLogout | skyfitnesspro/app/users/me/courses/page.tsx:29-33 | logout (no user, token or error, not signed in, token removed from storage, loading flag kept), then `/` |
| CourseStyle.FirstMatchIndex | skyfitnesspro/app/page.tsx:98-106 | the first entry, in table order, whose key occurs in the name; no earlier key occurs |
| CourseStyle.LookupFirst | skyfitnesspro/app/page.tsx:100-105 | the early-exit loop returns the first-match value or the default |
| CourseStyle.GetCourseImage | skyfitnesspro/app/page.tsx:98-106 | first-substring match on the lower-cased Russian name, default `'/img/fitness.png'` |
| CourseStyle.GetCourseBgColor | skyfitnesspro/app/main/page.tsx:126-134 | the same rule with the colour table, default `'bg-gray-300'` |
| CourseStyle.SameKeysSameIndex | skyfitnesspro/app/main/page.tsx:13-37 | tables with the same keys in the same order pick the same entry |
| CourseStyle.ImageAndColorAgree | skyfitnesspro/app/main/page.tsx:116-134 | picture and colour come from the same key, or both default |
| CourseStyle.YogaWins | skyfitnesspro/app/page.tsx:12-14 | a name containing `йога` gets the yoga picture and colour, whatever else it contains |
| CourseStyle.CapitalisedYoga | skyfitnesspro/app/page.tsx:99 | `'Фитнес-Йога'` matches `йога` after lower-casing |
| HomePage.DaySuffix | skyfitnesspro/app/page.tsx:120 | `день` exactly for 1, `дня` below 5, `дней` from 5 |
| HomePage.FormatDuration | skyfitnesspro/app/page.tsx:118-121 | a missing or zero count gives `'25 дней'`, otherwise the count and its suffix |
| HomePage.NoTwentyOneRule | skyfitnesspro/app/page.tsx:118-121 | 1 gives `'1 день'`, 3 gives `'3 дня'`, but 21 and 22 give `'дней'` |
| HomePage.FormatTime | skyfitnesspro/app/page.tsx:123-126 | the default `'20-50 мин/день'`, or the range |
| HomePage.DefaultTimeIsTwentyToFifty | skyfitnesspro/app/page.tsx:123-126 | the default reads like an explicit 20–50 range |
| HomePage.IsCourseSelected | skyfitnesspro/app/page.tsx:128-130 | without a user, or with nothing selected, no course is added; an added course is among the user's selected ids |
| HomePage.SelectedMeansListed | skyfitnesspro/app/page.tsx:128-130 | a course shows as added exactly when the profile's filter lists it |
| HomePage.AddButton | skyfitnesspro/app/page.tsx:274-292 | disabled exactly when selected or being added; caption and title by priority ✓, `...`, `+` |
| HomePage.OnlyFreshCoursesClickable | skyfitnesspro/app/page.tsx:190-274 | a card's button can be pressed exactly for a course that is neither added nor being added |
| HomePage.Home.constructor | skyfitnesspro/app/page.tsx:40-44 | no courses, loading, no error, no course being added, the ref clear |
| HomePage.Home.BeginLoadCourses | skyfitnesspro/app/page.tsx:46-51 | refused while a load runs, else loading with the flag set |
| HomePage.Home.FinishLoadCourses | skyfitnesspro/app/page.tsx:52-62 | success stores the courses and clears the error; failure sets `getErrorMessage`; the loading state ends |
| HomePage.Home.BeginAddCourse | skyfitnesspro/app/page.tsx:72-80 | without a session, `/auth` and no request; else the id being added |
| HomePage.Home.FinishAddCourse | skyfitnesspro/app/page.tsx:81-96 | both answers alert success and reload; otherwise the first failure's message; the id is cleared |
| MainPage.AllCourses | skyfitnesspro/app/main/page.tsx:62-67 | every course in request order, or a failure of the first failed request |
| MainPage.ProgressMapOf | skyfitnesspro/app/main/page.tsx:77-82 | every key of the map is an id whose progress request answered |
| MainPage.ProgressMapContents | skyfitnesspro/app/main/page.tsx:70-83 | the map holds exactly the ids whose progress request answered, each with its last answer |
| MainPage.DistinctIdsKeepEveryAnswer | skyfitnesspro/app/main/page.tsx:70-83 | with distinct ids each answered course maps to its own answer |
| MainPage.BuildProgressMap | skyfitnesspro/app/main/page.tsx:77-82 | the `forEach` builds `ProgressMapOf` |
| MainPage.CompletedCount | skyfitnesspro/app/main/page.tsx:139-141 | at most the number of entries; all are done exactly when it equals that number |
| MainPage.GetCourseProgress | skyfitnesspro/app/main/page.tsx:136-144 | null exactly without an entry; completed ≤ total; total is the entry count; `isCompleted` is the course flag |
| MainPage.CourseFlagIndependent | skyfitnesspro/app/main/page.tsx:143 | a course may be flagged complete with workouts still open |
| MainPage.ProfilePage.constructor | skyfitnesspro/app/main/page.tsx:42-48 | no courses, an empty progress map, loading, no error, the ref clear |
| MainPage.ProfilePage.BeginLoad | skyfitnesspro/app/main/page.tsx:50-61 | refused while a load runs; with no selected courses, not loading and nothing fetched; else the selected ids |
| MainPage.ProfilePage.FinishLoad | skyfitnesspro/app/main/page.tsx:62-91 | on success the courses in request order, the progress map and no error; on failure the message and the old lists; loading ends |
| MainPage.ProfilePage.OnAuthChange | skyfitnesspro/app/main/page.tsx:94-102 | nothing while the session loads; no session means `/auth`; a signed-in user stays on the page and `loadUserCourses` runs: refused while a load runs, not loading without selected courses, else loading the selected ids |
| MainPage.ProfilePage.RemoveCourse | skyfitnesspro/app/main/page.tsx:104-115 | nothing without confirmation; success reloads; failure alerts the message |
| CourseCard.CardImage | skyfitnesspro/components/CourseCard/CourseCard.tsx:21-35 | the Russian name's exact entry, else the English name's, else `'/img/yoga.png'` |
| CourseCard.AbsentCharacter | skyfitnesspro/app/page.tsx:101 | a key with a character the name lacks does not occur in the name |
| CourseCard.CardAndPageDisagree | skyfitnesspro/components/CourseCard/CourseCard.tsx:34 | `'Фитнес для всех'` gets the default yoga picture on the card and the fitness picture on the home page |
| CourseCard.CardDuration | skyfitnesspro/components/CourseCard/CourseCard.tsx:13-15 | empty exactly for a missing or zero count; otherwise always `дней` |
| CourseCard.CardDurationDiffers | skyfitnesspro/components/CourseCard/CourseCard.tsx:13-15 | the card writes `'1 дней'` and `''` where the home page writes `'1 день'` and `'25 дней'` |
| CourseCard.CardTime | skyfitnesspro/components/CourseCard/CourseCard.tsx:16-18 | empty exactly without a range |
| CourseCard.CardTimeMatchesPage | skyfitnesspro/components/CourseCard/CourseCard.tsx:16-18 | with a range the card and the home page agree; without one they do not |
| CourseCard.CardDifficulty | skyfitnesspro/components/CourseCard/CourseCard.tsx:19 | the difficulty, or `''` when missing |
| CourseCard.DifficultyTagShown | skyfitnesspro/components/CourseCard/CourseCard.tsx:19-82 | the tag is shown exactly for a present, non-empty difficulty |
| ModalWorkouts.FindProgress | skyfitnesspro/components/ModalWorkouts/ModalWorkouts.tsx:82-84 | the first entry with the workout's id, or none |
| ModalWorkouts.IsWorkoutCompleted | skyfitnesspro/components/ModalWorkouts/ModalWorkouts.tsx:80-86 | done exactly when there is progress and the first entry for the workout is completed |
| ModalWorkouts.FirstEntryDecides | skyfitnesspro/components/ModalWorkouts/ModalWorkouts.tsx:82-85 | for any progress list, the first entry for a workout alone decides whether it is done; later entries change nothing |
| ModalWorkouts.FirstIncomplete | skyfitnesspro/components/ModalWorkouts/ModalWorkouts.tsx:55-60 | the first open workout in list order; all before it are done |
| ModalWorkouts.AutoSelection | skyfitnesspro/components/ModalWorkouts/ModalWorkouts.tsx:51-66 | always a listed workout's id; the first open one with progress, else `workouts[0]` |
| ModalWorkouts.AutoSelectionOpen | skyfitnesspro/components/ModalWorkouts/ModalWorkouts.tsx:55-61 | when some workout is open, the pick is open |
| ModalWorkouts.Subtitle | skyfitnesspro/components/ModalWorkouts/ModalWorkouts.tsx:88-93 | `${courseName} / ${i+1} день` with a course name, else `Тренировка ${i+1} / ${i+1} день` |
| ModalWorkouts.SubtitleEndsWithDay | skyfitnesspro/components/ModalWorkouts/ModalWorkouts.tsx:88-93 | both forms end in ` / ${i+1} день` |
| ModalWorkouts.StartPath | skyfitnesspro/components/ModalWorkouts/ModalWorkouts.tsx:75 | the route starts with `/courses/`, ends with the workout id, and is 19 characters longer than the two ids |
| ModalWorkouts.StartPathSegments | skyfitnesspro/components/ModalWorkouts/ModalWorkouts.tsx:75 | for ids without `/`, the route's segments give back both ids |
| ModalWorkouts.Picker.constructor | skyfitnesspro/components/ModalWorkouts/ModalWorkouts.tsx:18-22 | no workouts, no progress, loading, no error, nothing selected |
| ModalWorkouts.Picker.Load | skyfitnesspro/components/ModalWorkouts/ModalWorkouts.tsx:24-48 | nothing without a course id; stores the workouts and, if it answered, the progress; a workouts failure sets the message; loading ends |
| ModalWorkouts.Picker.AutoSelect | skyfitnesspro/components/ModalWorkouts/ModalWorkouts.tsx:51-67 | selects `AutoSelection` only with workouts and no selection; the pick is listed |
| ModalWorkouts.Picker.Select | skyfitnesspro/components/ModalWorkouts/ModalWorkouts.tsx:69-71 | the selection is the chosen listed workout |
| ModalWorkouts.Picker.Start | skyfitnesspro/components/ModalWorkouts/ModalWorkouts.tsx:73-78 | nothing without a selection; else the workout route and close |
| ModalProgress.AtLeastZero | skyfitnesspro/components/ModalProgress/ModalProgress.tsx:35 | never negative, never below the value, the value itself when non-negative |
| ModalProgress.Changed | skyfitnesspro/components/ModalProgress/ModalProgress.tsx:33-37 | same length, the index holds the clamped value, every other entry unchanged |
| ModalProgress.ChangeKeepsNonNegative | skyfitnesspro/components/ModalProgress/ModalProgress.tsx:35 | edits keep every count non-negative |
| ModalProgress.Sanitized | skyfitnesspro/components/ModalProgress/ModalProgress.tsx:50-53 | same length, negatives become 0, others kept |
| ModalProgress.SanitizedIdentity | skyfitnesspro/components/ModalProgress/ModalProgress.tsx:50-53 | valid counts are left alone, so cleaning is idempotent |
| ModalProgress.SaveErrorText | skyfitnesspro/components/ModalProgress/ModalProgress.tsx:77-80 | never empty; `getErrorMessage` when that is non-empty |
| ModalProgress.EmptyMessagesFallBack | skyfitnesspro/components/ModalProgress/ModalProgress.tsx:45-80 | empty messages give the fallback; the empty-array message is shown as is |
| ModalProgress.ProgressForm.constructor | skyfitnesspro/components/ModalProgress/ModalProgress.tsx:25-27 | the counts are the initial ones, not saving, no error |
| ModalProgress.ProgressForm.Reset | skyfitnesspro/components/ModalProgress/ModalProgress.tsx:29-31 | the counts become the new initial ones |
| ModalProgress.ProgressForm.Change | skyfitnesspro/components/ModalProgress/ModalProgress.tsx:33-37 | the counts become `Changed` of the old ones |
| ModalProgress.ProgressForm.BeginSave | skyfitnesspro/components/ModalProgress/ModalProgress.tsx:39-65 | an empty array sets `'Прогресс должен быть массивом чисел'` and sends nothing; otherwise the cleaned counts are sent with the error cleared |
| ModalProgress.ProgressForm.FinishSave | skyfitnesspro/components/ModalProgress/ModalProgress.tsx:65-83 | success passes the sent counts to `onSaveProgress` and closes; failure sets the error text; saving ends |

## Left out

- Network, timers and the browser: every request's answer is a parameter. This covers `fetch`, Axios, `Date.now`, `atob`/`Buffer` and JSON parsing (`PayloadDecoder`). `typeof window` checks are taken as running in a browser.
- Concurrency: `Promise.all` and interleavings behind the `loadingRef` guards are not modelled. Each handler runs as one Begin/Finish pair.
- `MainPage.AllCourses`: reports the first failure in request order. `Promise.all` rejects with the first failure in time, which depends on timing.
- Floating point: the progress-bar width on the profile page, `Math.round`, `Number` and `isNaN` in the progress form. Counts are integers, because the input passes through `parseInt(...) || 0`.
- Text: JavaScript strings are UTF-16 and their lengths count code units; the model counts characters.
  - `trim` uses a fixed white-space set.
  - `toLowerCase` maps only Latin A–Z, Cyrillic А–Я and Ё.
- `Schema.IsEmail`: follows Zod's e-mail pattern as a predicate; other Zod versions' patterns are not modelled.
- `CourseCard.CardImage`: object prototype keys (a name such as `constructor`) are not modelled; they would hit inherited properties of the JavaScript object.
- `ModalWorkouts.Picker.Load`: a selection made before the course id changes is not re-checked against the new list. The source does not re-check it either.
- `HomePage.IsCourseSelected` assumes `selectedCourses` is always present on a user. The optional chaining on a missing list is not modelled.
- Markup: toasts, alerts and rendering are not modelled. Alerts and toasts appear only as the text returned or the `Notice` value.
- `loginSchema` is the same object as `registerSchema`, so it is `Schema.SafeParse` again.
- The upstream API, the `app/api/fitness/[...path]` proxy and the other pages are not part of this model. `services/api` and `lib/api` are reached only through their answers.

## Findings

| source | as written | input that shows it | evidently intended | confidence | as-written member | corrected member |
|---|---|---|---|---|---|---|
| skyfitnesspro/app/users/me/courses/page.tsx:26, 40 | reads `fetchIsLoading` from the course state, which has only `isLoading`, so the guard never sees a fetch in progress | a token, no courses yet, a fetch running: a second fetch starts | skip the fetch while one is running | high, not executed | `MyCoursesPage.LoadingIgnored` | `MyCoursesPage.ShouldFetch` |
| skyfitnesspro/app/users/me/courses/page.tsx:49-57 | calls `setFetchError(...)` without `dispatch`, so the error never reaches the store | an Axios error with a request and no response | dispatch the classified error, as the course loader does | high, not executed | `MyCoursesPage.FetchErrorLost` | `FetchingCourses.FetchFailure` (used by `MyCoursesPage.MeCourses.FinishFetch`) |
| skyfitnesspro/src/contexts/AuthContext.tsx:1, 61-66 | `useAuth` calls `useContext`, which is not imported | any call inside an `AuthProvider` | return the context value inside a provider | high, not executed | `AuthContext.UseAuthFailsInsideProvider` | `AuthContext.UseAuth` |
| skyfitnesspro/lib/types.ts:53 | the pattern `/[^A-Za-z0-9]/` accepts one special character while its message demands two | `'Password1!'` | at least two characters outside `[A-Za-z0-9]` | medium, not executed | `Schema.OneSpecialAccepted` | `Schema.IntendedSafeParse` (with `Schema.IntendedSampleAccepted`) |
