# Savings-pool client data layer, modelled in Dafny

This project models the client-side data layer of a community savings-pool
("stokvel") web application:

- the **input-validation schemas** for pools, constitutions, transactions,
  proposals, votes and constitution signatures, with the enumerations and
  record shapes of the domain model (`types.dfy`, module `Types`;
  `schemas.dfy`, module `Schemas`);
- the **authentication session manager** `AuthProvider`, which holds the
  current user profile, the backend's session identity and a loading flag,
  reacts to the backend's session notifications and offers sign-in, sign-up,
  sign-out, profile update and password reset (`auth.dfy`, module `Auth`);
- the **backend client module**'s configuration guard, its
  configuration-readiness check and its error-message extractor
  (`supabase.dfy`, module `Supabase`);
- the JavaScript value semantics these rely on (`js.dfy`, module `Js`):
  absent values, string length counted in UTF-16 code units, truthiness of
  optional strings and `Number.isInteger`.

How the model reads the source:

- A validation request is the untyped object a form submits; every key may
  be absent. Each schema is written twice: `Valid...` lists its rules, one
  conjunct per key; `Parse...` follows the schema's construction (one check
  per key, `.default(v)` substituting `v` for an absent key before the check,
  `.optional()` accepting an absent key). Each `Parse...` is proved to accept
  exactly the requests its `Valid...` accepts, and to return the parsed value
  with its defaults filled in.
- The schemas follow version 3 of the schema library, the version that has
  `z.string().ip()`. Under version 3, `.partial()` wraps each key's schema,
  default included, in `.optional()`. So `UpdatePoolSchema` leaves an absent
  `settings` absent; a `settings` object that is present still gets its
  per-key defaults.
- String bounds count UTF-16 code units, as JavaScript's `length` does: a
  pool name of two emoji has length 4 and is accepted.
- Numbers are `real`; `.int()` means the value equals its floor.
- The library-defined formats `.uuid()`, `.datetime()` and `.ip()` are fields
  of a `Formats` parameter and are not interpreted.
- Every backend call of the session manager becomes a parameter holding the
  backend's reply: data or an error with an optional message. Each operation
  returns the requests it sent, in order, so the contracts can say which
  writes happen and which do not. Timestamps are input strings. Each
  operation is one atomic step.

Notes on what the code does:

- `updateProfile` checks that a *profile* is loaded, not that a session
  identity exists. With an identity but no profile, it still throws
  "No user logged in".
- The profile and the session identity can diverge. A sign-in notification
  for a second identity whose profile fetch fails adopts the new identity and
  keeps the old profile (`Auth.ProfileOutlivesIdentity`).
- A failed sign-in leaves the identity and the profile as they were; it does
  not clear them.
- Sign-out and profile update never touch the loading flag.
- `isAuthenticated` is `IsAuthenticated`, true when a profile is held; the
  contracts of `RestoreSession` and `OnAuthStateChange` and the start-up
  scenarios state what it is after each step.

## Model

| member | source | states |
|---|---|---|
| `Js.Length` | src/types/index.ts:256 | JavaScript's string length: between the character count and twice it, and zero only for the empty string |
| `Types.ParsePoolType` | src/types/index.ts:7-16 | accepts exactly the eight pool-type values, and the type it returns carries the given value |
| `Types.PoolTypeRoundTrip` | src/types/index.ts:7-16 | parsing a pool type's value gives that pool type back |
| `Types.ParseTransactionType` | src/types/index.ts:60-66 | accepts exactly the five transaction-type values, returning the type that carries the value |
| `Types.TransactionTypeRoundTrip` | src/types/index.ts:60-66 | parsing a transaction type's value gives that type back |
| `Types.ParseVotingThreshold` | src/types/index.ts:305 | accepts exactly simple_majority, two_thirds and unanimous |
| `Types.ParseProposalKind` | src/types/index.ts:331 | accepts exactly the four proposal kinds |
| `Types.ParseVoteChoice` | src/types/index.ts:337 | accepts exactly yes, no and abstain |
| `Schemas.ParseNotifications` | src/types/index.ts:269-272 | each absent notification flag takes its own default: email true, sms false, in-app true |
| `Schemas.ParseSettings` | src/types/index.ts:262-277 | accepts iff grace days is an integer >= 0, penalty rate in [0, 100] and minimum trust score in [0, 1000] (each when present); each absent key takes its default (3, 10, none, false, false, true, notification defaults) and present keys are kept, and a present `notification_preferences` object is parsed flag by flag with the same defaults |
| `Schemas.ParseCreatePool` | src/types/index.ts:255-290 | accepts exactly the requests `ValidCreatePool` admits (name 3 to 100 long, description at most 1000, a pool type, positive contribution, non-empty schedule, optional positive integer member cap, valid settings); the result keeps every given key, and an absent `settings` becomes grace 3, penalty 10, no trust minimum, early exit false, unanimous votes false, auto-rotate true, notifications email/in-app on and sms off |
| `Schemas.ParseUpdatePool` | src/types/index.ts:292 | accepts exactly the requests whose present keys obey the creation rules; given keys are kept, absent ones stay absent, `settings` included, and a present `settings` is parsed as on creation |
| `Schemas.SettingsParseIdempotent` | src/types/index.ts:262-277 | parsed settings, read back as a request, parse to themselves |
| `Schemas.CreatePoolParseIdempotent` | src/types/index.ts:255-290 | a parsed pool, with defaults filled in, validates again and parses to itself |
| `Schemas.DefaultSettingsAgree` | src/types/index.ts:263-289 | the default `settings` object and an empty `settings` object parse to the same settings |
| `Schemas.PoolNameRule` | src/types/index.ts:256 | other keys being valid, a pool name is accepted exactly when its length is between 3 and 100 inclusive |
| `Schemas.PoolNameBoundary` | src/types/index.ts:256 | a name of length 2 is rejected, one of length 3 accepted, and a name of two astral characters (length 4) is accepted |
| `Schemas.AstralNameRule` | src/types/index.ts:256 | other keys being valid, a name of astral characters only is accepted exactly when it has 2 to 50 characters, since each counts two code units |
| `Schemas.ContributionAmountRule` | src/types/index.ts:259 | a contribution is accepted exactly when it is strictly positive |
| `Schemas.MaxMembersRule` | src/types/index.ts:261 | the member cap may be absent; when present it is accepted exactly when it is a positive integer |
| `Schemas.CreateIsUpdate` | src/types/index.ts:292 | every valid creation request is a valid update request that parses to the same name, type and settings |
| `Schemas.ParseContent` | src/types/index.ts:297-308 | accepts exactly the content `ValidContent` admits (purpose, late-payment policy and dispute resolution at least 10 long, a pool type, a voting threshold of the three, the other strings non-empty, consent given as a boolean); every one of the ten keys is recovered from the result, enumerations through their wire values |
| `Schemas.ParseClause` | src/types/index.ts:309-315 | accepts a clause exactly when every key is present and its order is an integer, keeping every value |
| `Schemas.ParseClauses` | src/types/index.ts:309 | an array of clauses is accepted exactly when every clause is, and then parses element by element with the same length |
| `Schemas.ParseCreateConstitution` | src/types/index.ts:294-316 | accepts exactly when pool id is a uuid, template name non-empty, content and every clause valid; the result keeps both ids, holds the parsed content, and its clauses are the element-wise parse of the given array |
| `Schemas.FractionalOrderRejected` | src/types/index.ts:313 | a single clause with a non-integer order makes the whole constitution rejected |
| `Schemas.ParseCreateTransaction` | src/types/index.ts:318-325 | accepts exactly when the pool id is a uuid, the type one of the five, the amount positive, the currency (when given) exactly 3 long, the description at most 500 and the reference at most 100; an absent currency becomes "ZAR" |
| `Schemas.CreateTransactionParseIdempotent` | src/types/index.ts:318-325 | a parsed transaction, its currency filled in, parses to itself |
| `Schemas.ParseCreateProposal` | src/types/index.ts:327-333 | accepts exactly when title is 5 to 200 long, description 20 to 2000, the kind one of four, pool id a uuid and deadline a datetime |
| `Schemas.ParseVote` | src/types/index.ts:335-339 | accepts exactly when the proposal id is a uuid, the vote one of yes/no/abstain and the comment (when given) at most 500 long |
| `Schemas.ParseSignConstitution` | src/types/index.ts:341-346 | accepts exactly when both ids are uuids, the legal name is 3 to 255 long and the ip address (when given) is an ip |
| `Supabase.LoadModule` | src/lib/supabase.ts:3-10 | loading fails with the missing-configuration message exactly when either value is absent or empty; a loaded module keeps both values and is configured |
| `Supabase.ConfiguredIffLoads` | src/lib/supabase.ts:41-43 | `isSupabaseConfigured` holds of the values an environment would be captured with exactly when that environment loads, so the readiness check and the load guard test the same thing |
| `Supabase.HandleSupabaseError` | src/lib/supabase.ts:30-38 | a non-empty `message` wins; else a non-empty `error_description`; else, also for an absent error, "An unexpected error occurred"; never empty |
| `Supabase.EmptyMessageIsSkipped` | src/lib/supabase.ts:31-33 | an empty `message` is treated as an absent one |
| `Auth.ErrorMessage` | src/contexts/AuthContext.tsx:116-117 | the backend's message when it is present and non-empty, else the fallback; non-empty when the fallback is |
| `Auth.ProfileFromRow` | src/contexts/AuthContext.tsx:72-85 | every field of the fetched row is kept (id, email, name, avatar, phone, both balances, the three timestamps, the active flag, metadata); its first trust record, or, when there is none, score 500, rating fair, all four metrics 0, stamped now |
| `Auth.Merge` | src/contexts/AuthContext.tsx:199 | every key the patch gives overrides the profile's value; every other field keeps it |
| `Auth.MergeLaws` | src/contexts/AuthContext.tsx:199 | an empty patch changes nothing; applying a patch twice equals applying it once |
| `Auth.MergeCompose` | src/contexts/AuthContext.tsx:199 | two successive updates equal one update with the combined patch, the later keys winning |
| `Auth.MergeName` | src/contexts/AuthContext.tsx:199 | a patch of only the name changes only the name |
| `Auth.InitialTrustIsDefault` | src/contexts/AuthContext.tsx:151-159 | the trust record sign-up inserts (score 500, fair, zero metrics) is exactly the default a profile read synthesises when the record is missing |
| `Auth.AuthProvider.constructor` | src/contexts/AuthContext.tsx:21-23 | starts with no profile, no identity and loading set |
| `Auth.AuthProvider.FetchUserProfile` | src/contexts/AuthContext.tsx:58-93 | one profile query; on success the profile is the fetched row's, on failure it is unchanged; the identity is untouched and loading ends false either way |
| `Auth.AuthProvider.RestoreSession` | src/contexts/AuthContext.tsx:26-34 | without a session loading ends and both identities stay as they were; with one the identity is adopted and its profile fetched; the manager is then authenticated if the fetch succeeds, and if it fails, authentication is as before even though the identity is set |
| `Auth.AuthProvider.OnAuthStateChange` | src/contexts/AuthContext.tsx:39-51 | signed in with an identity: adopt it and fetch its profile by its id; signed out: clear profile and identity; token refreshed or any other event: no change and no request; `isAuthenticated` (line 222) follows the profile, not the identity: a failed fetch after a sign-in keeps it as it was, a successful one sets it, a sign-out clears it |
| `Auth.AuthProvider.SignIn` | src/contexts/AuthContext.tsx:95-121 | a backend error throws its message or "Failed to sign in" and keeps profile and identity; success adopts the identity, fetches its profile and writes the last-login time; loading ends false; a fetched row with the identity's id gives a profile with that id |
| `Auth.AuthProvider.SignUp` | src/contexts/AuthContext.tsx:123-172 | after account creation the profile row (zero balances) is inserted, then the trust row (500, fair, zeros); a failed profile insert throws before the trust insert and before the identity is adopted; on full success the identity is adopted and the profile fetched; loading ends false |
| `Auth.AuthProvider.SignOut` | src/contexts/AuthContext.tsx:174-184 | success clears profile and identity; failure throws the backend message or "Failed to sign out" and changes nothing |
| `Auth.AuthProvider.UpdateProfile` | src/contexts/AuthContext.tsx:186-203 | without a profile: throws "No user logged in", sends nothing, changes nothing; otherwise writes the patch under the profile's id, merging it into the profile on success and throwing "Failed to update profile" with the profile kept on failure |
| `Auth.AuthProvider.ResetPassword` | src/contexts/AuthContext.tsx:205-216 | one reset request; a backend error throws its message or "Failed to send reset email" |
| `Auth.StartWithoutSession` | src/contexts/AuthContext.tsx:21-34 | starting without a persisted session ends with loading false, no identity and not authenticated |
| `Auth.StartWithUnreadableProfile` | src/contexts/AuthContext.tsx:88-92 | when the profile fetch fails the identity is adopted, loading ends, and the manager is not authenticated |
| `Auth.RejectedSignIn` | src/contexts/AuthContext.tsx:103-120 | from a fresh start, rejected credentials throw and leave profile and identity unset |
| `Auth.PushedSignOut` | src/contexts/AuthContext.tsx:45-47 | a pushed sign-out clears a loaded profile and the identity without a call to sign out |
| `Auth.ProfileOutlivesIdentity` | src/contexts/AuthContext.tsx:42-44 | a sign-in notification for a second identity whose profile fetch fails leaves the first identity's profile in place |
| `Auth.Rename` | src/contexts/AuthContext.tsx:199 | renaming a loaded profile to "X" changes its name to "X" and nothing else |
| `Auth.UpdateWhileSignedOut` | src/contexts/AuthContext.tsx:187-189 | updating while signed out throws "No user logged in", sends no request and leaves nobody signed in |

## Left out

- `tailwind.config.js` is styling configuration with no behaviour.
- Building the backend client and its options (automatic token refresh, session persistence, URL session detection, schema name, client header) belongs to the backend's SDK.
- Network calls, token refresh, session persistence, password handling and row-level security live in the hosted backend; each call is a reply parameter.
- Registering the session listener and unsubscribing it, the React effect, context and provider, and `useAuth` are framework plumbing; only each event's effect is modelled.
- Interleaving of concurrent operations is not modelled: each operation is one atomic step, so the loading flag's value in the middle of an operation is not observable.
- `console` logging is left out. The redirect target of the password reset depends on `window.location` and is left out, and so are the clock readings, which are parameters.
- The formats `.uuid()`, `.datetime()` and `.ip()` are uninterpreted parameters.
- Floating point: NaN and the infinities are not modelled.
- A request key holding a value of the wrong JavaScript type cannot be expressed; `null` is one of these, and the schemas reject it even for optional or defaulted keys. Unknown keys, which the schemas strip, cannot be expressed either.
- The parsers only accept or reject: the schema library's list of issues and the custom messages "Pool name must be at least 3 characters" and "Contribution must be positive" (src/types/index.ts:256, 259) are not modelled.
- The API response, pagination, component-props and AI request/response interfaces have no rules attached and are not modelled.
- `Auth.ProfileFromRow`: the spread also copies any extra columns of the fetched row. The model does not, and it reads the joined trust record as already having the `TrustScore` shape; the nested-versus-flat column layout of `trust_metrics` is not modelled.
- `Auth.Merge`: a patch key that is present with the value `undefined` is not expressible; a present key always carries a value.
- `Auth.AuthProvider.SignIn`: the reply to the last-login write is ignored, as in the source, and the in-memory profile does not take the new time.
