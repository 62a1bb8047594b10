# Video-tracking web app: users, sign-in and per-user metadata

This project models, in Dafny, the logic of a small Next.js application. Users sign
up or sign in through a hosted identity provider. They then watch and rate
videos, and each user's record lives in a key-value table. The model has five
parts:

- `js.dfy` (module `Js`): the JavaScript semantics the logic depends on.
  - Missing properties and falsy strings.
  - `undefined + 1` evaluating to `NaN`.
  - The regular-expression class `\s`.
  - The UTF-16 `length` of a string.
  - The values a `catch` clause can receive.
- `dynamodb.dfy` (module `Dynamodb`): the user-metadata table (`utils/dynamodb.ts`).
  - The record type and the default record for a missing key.
  - The item a put composes from a partial record.
  - The translation of table-client errors into user-facing messages.
  - The configuration checks made at load time.
  - A `MetadataStore` class whose `items` map is the table's contents.
- `auth.dfy` (module `Auth`): the identity-provider wrappers (`utils/auth.ts`).
  - Sign-up, sign-in, sign-out and their error messages.
  - The attribute fold.
  - The session object built for the current user.
- `videos.dfy` (module `Videos`): the videos page (`app/videos.tsx`).
  - Loading the user's record, with the full-name backfill.
  - The watch and rate handlers as pure record updates.
  - A `VideosPage` class holding the page's `user` and `metadata` state.
- `sign.dfy` (module `Sign`): the sign-in/sign-up screen (`app/sign.tsx`).
  - The forced sign-out on entry.
  - Form validation, including the email pattern `\S+@\S+\.\S+`.
  - The submit flow, first as a function of the external calls' outcomes.
  - Then as the methods of a `SignScreen` class that updates the screen's
    state, with a ghost trace of the calls it makes.

External services are not modelled as code. The identity provider's answers and
the table client's faults enter as parameters. A provider call is a
`Result<T, Thrown>`. A table call takes an `Option<Thrown>` fault, and without a
fault it reads or writes `MetadataStore.items`. Router navigation is a state
field.

Each method is proved against a specification function:

- `MetadataStore.GetUserMetadata`/`UpdateUserMetadata` against `Lookup`/`Written`.
- `VideosPage.CheckAuth` against `Loaded`.
- The handlers against `Watched`/`Rated`.
- `SignScreen.HandleSubmit` against `Submit`, which splits into `Authenticate`,
  `Enroll` and `Finish`.

The properties are lemmas about those functions.

## Model

| member | source | states |
|---|---|---|
| Js.PlusOne | app/videos.tsx:61 | `vwCount + 1` is a number exactly when the count is present and numeric, and is then one more; a missing count gives `NaN` |
| Js.Utf16Length | app/sign.tsx:48 | `password.length` counts UTF-16 units: at least the character count, at most twice it, and equal to it when every character is in the Basic Multilingual Plane |
| Dynamodb.CheckConfig | utils/dynamodb.ts:10-22 | loading succeeds exactly when region, access key id and secret key are all non-empty; otherwise the message names the first missing one, in that order |
| Dynamodb.DefaultItem | utils/dynamodb.ts:56-66 | the record for an absent key carries the requested key, every attribute, an empty name and list, count 0 (consistent with the list) and no ratings |
| Dynamodb.Composed | utils/dynamodb.ts:94-98 | the put item has the non-key attributes of the partial record and only those; each key attribute is the partial record's when it supplies one (the spread comes last) and the argument otherwise |
| Dynamodb.ComposedSpreadRoundTrip | utils/dynamodb.ts:94-98 | putting `{ ...m }` under `m`'s own key stores exactly `m` |
| Dynamodb.Lookup | utils/dynamodb.ts:55-67 | a read returns the stored item for the key when there is one, the default record otherwise |
| Dynamodb.Written | utils/dynamodb.ts:92-102 | a put replaces the item at its key, adds no other key and leaves every other item as it was, and keeps every item stored under its own key |
| Dynamodb.ReadAfterWrite | utils/dynamodb.ts:45-102 | reading the key of a just-put item returns that item |
| Dynamodb.StoreErrorMessage | utils/dynamodb.ts:68-88 | the message for each error name of the switch (schema mismatch with the original message inside, table not found, capacity, access denied), the operation's prefix plus the message for any other name, and the unknown-error message for a non-`Error` |
| Dynamodb.MessageRevealsKind | utils/dynamodb.ts:103-123 | the six branches of the switch give six distinguishable messages: the message alone tells which branch produced it |
| Dynamodb.ReadWriteDiffer | utils/dynamodb.ts:73-122 | the read and write translations agree exactly for schema mismatch, table not found and access denied, and differ for capacity, other names and non-`Error` values |
| Dynamodb.MetadataStore.GetUserMetadata | utils/dynamodb.ts:45-89 | a fault gives the read error message; otherwise the result is `Lookup` of the key: the stored item, or the default record for an absent key; the result is always keyed by the arguments |
| Dynamodb.MetadataStore.UpdateUserMetadata | utils/dynamodb.ts:91-124 | a fault gives the write error message and leaves the table unchanged; otherwise the composed item replaces the one at its key and nothing else changes |
| Auth.Wrapped | utils/auth.ts:60 | a thrown `Error` becomes prefix + its message (the message is recoverable after the prefix); anything else becomes the fixed unknown-error message |
| Auth.SignUp | utils/auth.ts:19-32 | the provider's step is returned unchanged; a provider `Error` is re-thrown with the same message, any other value with the unknown sign-up message |
| Auth.SignOutUser | utils/auth.ts:55-62 | sign-out succeeds exactly when the provider does; a failure is reported with "Sign out failed: " + message, or the unknown sign-out message |
| Auth.SignInErrorMessage | utils/auth.ts:38-51 | the three recognised error names map to their fixed messages; another name keeps its message after "Authentication failed: "; a non-`Error` gives "Authentication failed." |
| Auth.SignInErrorKeepsUnrecognisedMessages | utils/auth.ts:39-49 | a recognised name hides the provider's message (any two give the same text); an unrecognised name keeps different messages different |
| Auth.SignIn | utils/auth.ts:34-53 | succeeds exactly when the provider does, always with `isSignedIn` true and the provider's challenge as `nextStep`; a failure carries the translated message |
| Auth.AttributeMap | utils/auth.ts:68 | the folded map has a key for every attribute name and no other key |
| Auth.AttributeMapLastWins | utils/auth.ts:68 | for a repeated name the fold keeps the value of the last entry |
| Auth.Projected | utils/auth.ts:70-75 | the session copies username and `sub`; full name and email are the attribute's value or the username; with a non-empty username neither is empty |
| Auth.ProjectedFromLastAttribute | utils/auth.ts:68-74 | full name and email come from the last `name`/`email` attribute when it is non-empty, and from the username when it is empty |
| Auth.ProjectedWithoutAttribute | utils/auth.ts:73-74 | without a `name` (resp. `email`) attribute the full name (resp. email) is the username |
| Auth.CurrentAuthenticatedUser | utils/auth.ts:64-80 | succeeds exactly when the provider does, with the projected session; a failure is "Failed to get current user: " + message, or the unknown current-user message |
| Videos.Watched | app/videos.tsx:58-62 | a watch fails exactly when the record has no list (the spread throws); otherwise it appends the id, sets the count to old count + 1 and keeps key, name and ratings |
| Videos.WatchKeepsCount | app/videos.tsx:58-62 | on a record whose count equals its list length, a watch succeeds and keeps that relation |
| Videos.WatchWithoutCountIsNaN | app/videos.tsx:61 | a record with a list but no count gets the count `NaN`, and the count no longer matches the list |
| Videos.WatchesAccumulate | app/videos.tsx:56-65 | N successive watches append exactly those N ids, raise a numeric count by N, keep a consistent count consistent and keep key, name and ratings |
| Videos.WatchesNeedList | app/videos.tsx:60 | on a record without a list every non-empty series of watches fails with the not-iterable error |
| Videos.Rated | app/videos.tsx:69-72 | a rating sets the video's entry and keeps every other entry, creates the map when missing, and leaves key, name, list and count alone |
| Videos.RatingOverwrites | app/videos.tsx:71 | rating the same video twice is the same as rating it once with the second value |
| Videos.RatingsCommute | app/videos.tsx:71 | ratings of two different videos can be applied in either order |
| Videos.WatchAndRateCommute | app/videos.tsx:58-72 | a watch and a rating commute |
| Videos.Backfilled | app/videos.tsx:33-42 | a record with a truthy name is kept; otherwise only its name changes, to the session's full name |
| Videos.BackfillIdempotent | app/videos.tsx:33-37 | backfilling twice is the same as backfilling once |
| Videos.DisplayName | app/videos.tsx:46 | the stored name if truthy, else the session's full name if non-empty, else the email; empty only when all three are |
| Videos.Loaded | app/videos.tsx:27-52 | a failed current-user call or read redirects; a shown page has the session's email and, as its name, the first non-empty of the stored name as read, the session's full name and the email; it writes either nothing (the stored name was truthy) or exactly the record it shows |
| Videos.LoadFailsOnAnyFailure | app/videos.tsx:27-52 | loading redirects when the current-user call fails and, for a session, exactly when the read fails or a needed backfill write fails; the shown record is the backfilled stored one, written exactly when the stored name was falsy |
| Videos.LoadedInSync | app/videos.tsx:29-42 | after a successful load the table holds exactly the page's record, under the session's key |
| Videos.LoadIdempotent | app/videos.tsx:29-47 | loading again shows the same user and record, and writes nothing unless the filled-in name was itself empty |
| Videos.NewUserLoadsDefaultRecord | app/videos.tsx:29-47 | a user without an item sees, and writes, the default record with the session's full name; the page title falls back to the email |
| Videos.RatingHighlighted | app/videos.tsx:107-111 | the render's rating test throws exactly when the record has no ratings map; otherwise it is true exactly for the stored rating of that video |
| Videos.RatedIsHighlighted | app/videos.tsx:67-75 | after a rating the render highlights that rating, and only that one, for the video |
| Videos.VideosPage.constructor | app/videos.tsx:22-23 | the page starts with no user, no record and no redirect |
| Videos.VideosPage.CheckAuth | app/videos.tsx:27-52 | the page's new state and the table are those of `Loaded`: a redirect to `/sign` with nothing changed, or the user and record shown, the backfill written and the page in sync with the table |
| Videos.VideosPage.HandleWatchVideo | app/videos.tsx:56-65 | skips without user or record; saves exactly when the record has a list and the put succeeds, writing the watched record first and then setting it; otherwise changes nothing and reports the type error or the write message; keeps page and table in sync |
| Videos.VideosPage.HandleRateVideo | app/videos.tsx:67-75 | skips without user or record; saves exactly when the put succeeds, writing the rated record and then setting it; otherwise changes nothing and reports the write message; keeps page and table in sync |
| Sign.EmailCheckMatchesPattern | app/sign.tsx:44 | the linear scan accepts a string exactly when some substring of it has the shape `\S+@\S+\.\S+` (unanchored test) |
| Sign.FormError | app/sign.tsx:39-53 | the three checks in order: missing field, then email shape, then a UTF-16 password length under 8; the first failure's message, and none exactly when all pass |
| Sign.Authenticate | app/sign.tsx:63-85 | the sign-in or sign-up part of the submit: a failed sign-up (or, on the sign-in path, a failed sign-in) stops with "Authentication failed: " + that wrapper's message; it goes on only after a successful sign-in (sign-in path: that one call, no write; sign-up path: a `DONE` step, then as `Enroll`); a stop never navigates, shows a message and writes nothing |
| Sign.Enroll | app/sign.tsx:74-82 | after a `DONE` sign-up, goes on exactly when sign-in, the current-user call and the put succeed, having written the seed for the current user, form email and name; a stop writes nothing and shows "Authentication failed: " + the message of the first failing step: the sign-in error, the current-user error or the write error |
| Sign.Finish | app/sign.tsx:87-95 | navigates exactly when the current-user call and the read succeed, then with no error; otherwise "Authentication failed: " + the current-user error or the read error; it adds calls and never writes |
| Sign.Submit | app/sign.tsx:55-106 | a navigation needs a valid form, shows no error and ends with the metadata read; any other ending shows a message; after a successful authentication a failed current-user call or read shows "Authentication failed: " + its message; only a valid sign-up writes; no call is made exactly when the form is invalid |
| Sign.NavigatesOnlyWhenEveryStepSucceeds | app/sign.tsx:55-106 | a submit goes to `/videos` exactly when the form is valid and every awaited step succeeds (sign-up: a `DONE` step and a successful put); it has then made every call in order and shows no error; every other ending shows a message, which after validation and outside the further-action case starts with "Authentication failed: " |
| Sign.CallsArePrefixOfSteps | app/sign.tsx:63-95 | the calls made are always a prefix of the full call sequence of the path, including when the current-user call fails |
| Sign.InvalidFormMakesNoCall | app/sign.tsx:57-59 | an invalid form makes no call, writes nothing and shows the first failing check's message |
| Sign.FurtherActionNeverSignsIn | app/sign.tsx:68-72 | a sign-up step other than `DONE` shows the step after "Sign up requires further action: " and neither signs in nor writes |
| Sign.OnlySignUpWrites | app/sign.tsx:77-82 | an item is written exactly when a put was made and did not fail, only on the sign-up path, and it is the corrected seed for the current user and the form's email and name |
| Sign.UnrecognisedSignInErrorPrefixedTwice | app/sign.tsx:96-100 | a sign-in error with an unrecognised name is shown as "Authentication failed: Authentication failed: " + message |
| Sign.SignInChallengeIgnored | app/sign.tsx:84 | the challenge returned by sign-in does not influence the submit in any way |
| Sign.SignUpSeed | app/sign.tsx:79-82 | the item the code's put stores: key and name only, with no list, count or ratings |
| Sign.SignUpSeedBreaksVideosPage | app/sign.tsx:79-82 | with that item stored, the videos page loads it unchanged, its render's rating lookup throws, and a watch would fail with the not-iterable error |
| Sign.CompleteSeed | app/sign.tsx:79-82 | the corrected seed: same key and name as the code's item, with every attribute and a consistent count |
| Sign.CompleteSeedSupportsWatches | app/sign.tsx:79-82 | with the corrected seed stored, the page loads it unchanged, the render's rating lookup succeeds, and any series of watches succeeds with the count equal to the list length |
| Sign.SignScreen.constructor | app/sign.tsx:13-18 | sign-in mode, empty inputs and error, loading, no navigation |
| Sign.SignScreen.ToggleMode | app/sign.tsx:190 | flips between sign-in and sign-up |
| Sign.SignScreen.Edit | app/sign.tsx:138-171 | sets the three inputs and nothing else of the form |
| Sign.SignScreen.CheckAndSignOut | app/sign.tsx:21-37 | asks for the current user, signs out exactly when there is one, ignores both failures (the sign-out's outcome does not reach the screen) and always ends loading |
| Sign.SignScreen.ValidateForm | app/sign.tsx:39-53 | returns true exactly when `FormError` finds nothing; otherwise sets `error` to that message; leaves `error` alone on success |
| Sign.SignScreen.AuthenticateStep | app/sign.tsx:63-85 | the sign-in or sign-up part of the submit, as `Authenticate` says: either it stops with the message, the calls and the write of that ending, or it continues with its calls and write (the sign-up write is the corrected seed) |
| Sign.SignScreen.EnrollStep | app/sign.tsx:74-82 | after a `DONE` sign-up: sign in, get the current user and put the seed, as `Enroll` says |
| Sign.SignScreen.FinishStep | app/sign.tsx:87-95 | get the current user and the metadata, then go to `/videos`, as `Finish` says |
| Sign.SignScreen.HandleSubmit | app/sign.tsx:55-106 | the screen's error, navigation, call trace and table afterwards are those of `Submit` for the current form; loading is untouched by an invalid form and off otherwise |

## Left out

- Network behaviour, SDK internals and the provider's configuration (`Amplify.configure`, the document client) are left out. Every external call is an outcome parameter.
- Marshalling is not modelled. The model does not decide whether the document client rejects a `NaN` count or an empty key. A put either succeeds or fails with the given fault.
- Counts are unbounded integers, not JavaScript doubles. No count in reach comes near 2^53.
- `Videos.NotIterableMessage` is one engine's wording of the `TypeError`. Other engines word it differently. The model keeps only the fact that the handler throws before writing.
- The render step of the videos page is modelled only for the rating lookup `metadata.videoRatings[video.id]` at app/videos.tsx:108, which throws, and so crashes the page, on a record without ratings. The rest of the JSX is left out.
- `Videos.UndefinedRatingsMessage` is one engine's wording of the render's `TypeError`; only the fact that the lookup throws matters.
- The loading spinner, the form markup and `console.error` logging are left out. So are `dotenv` and `process.env`, which become parameters of `CheckConfig`.
- `DYNAMODB_TABLE_NAME` is never checked in utils/dynamodb.ts. The model follows the code: there is no table-name check, and the table is a single map.
- Sign.Identity: one answer for the current user serves both calls the sign-up path makes. Two different answers from the provider are not modelled.
- The `if (!userMetadata)` branch (app/sign.tsx:91-93) is not modelled, because `getUserMetadata` never resolves with a falsy value.
- The 'An unknown error occurred' branch (app/sign.tsx:101) is not modelled, because every wrapper throws an `Error`.
- Reads are modelled as strongly consistent: the store is a map, and a read sees the last put. The `GetCommand` at utils/dynamodb.ts:46-52 sets no `ConsistentRead`, so the real table may return an older item right after a put. `Dynamodb.ReadAfterWrite`, `Videos.LoadedInSync` and `Videos.LoadIdempotent` hold for the model, not for an eventually consistent read.
- Concurrency is not modelled. Two overlapping handler calls or tabs can lose updates, because each put replaces the whole item. The model runs one call at a time, and the pages are its only writers.
- `Sign.SignScreen.CheckAndSignOut`: the `currentUser` test at app/sign.tsx:25 is always true for a resolved call, and the sign-out outcome is discarded, so it is not a parameter. The method records the calls made, not the provider's state.
- `Sign.SignScreen.HandleSubmit`: writes `Sign.CompleteSeed`, not the two-attribute item of app/sign.tsx:79-82. See Findings.
- `Sign.SignScreen.EnrollStep`: writes `Sign.CompleteSeed`, not the two-attribute item of app/sign.tsx:79-82. See Findings.
- `Sign.SignScreen.AuthenticateStep`: through `Sign.Authenticate` and `Sign.Enroll`, its sign-up write is `Sign.CompleteSeed`, not the two-attribute item of app/sign.tsx:79-82. See Findings.
- `Sign.OnlySignUpWrites`: states that the write is `Sign.CompleteSeed`, not the two-attribute item of app/sign.tsx:79-82. See Findings.
- `Sign.Submit`: its sign-up write is `Sign.CompleteSeed`, not the two-attribute item of app/sign.tsx:79-82. See Findings.
- `Sign.Authenticate`: its sign-up write is `Sign.CompleteSeed`, not the two-attribute item of app/sign.tsx:79-82. See Findings.
- `Sign.Enroll`: writes `Sign.CompleteSeed`, not the two-attribute item of app/sign.tsx:79-82. See Findings.

## Findings

| source | as written | input that shows it | evidently intended | confidence | as-written member | corrected member |
|---|---|---|---|---|---|---|
| app/sign.tsx:79-82 | after sign-up the screen puts `{ user_name_str, userFullName }` with a put, which replaces the whole item, so the new user's item has no `videosWatched`, `vwCount` or `videoRatings`; the videos page does not backfill it because its name is non-empty, and its first render evaluates `metadata.videoRatings[video.id]` on the missing map (app/videos.tsx:108) and throws, so the page crashes before any button is shown; even past that, `[...metadata.videosWatched, videoId]` (app/videos.tsx:60) would throw on the first watch | sign up as "a@b.co" / "password1" / name "Ann" with a sign-up that completes at once; the screen navigates to `/videos`, which fails to render | store the complete default record with the name filled in, so that the page renders, watches and ratings work and `vwCount` equals the list length | not executed | Sign.SignUpSeedBreaksVideosPage | Sign.CompleteSeedSupportsWatches |
