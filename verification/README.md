# Verified model of the authentication services

This project models the stateful services of the platform in Dafny and proves what they promise
over whole runs. `dafny verify dfyconfig.toml` checks everything.

## How it is built

- `Store`: the Redis-like substrate. A table maps keys to values with an optional deadline.
- `MagicLink` (state and calls), `MagicLinkRuns` (one usable link, single use, daily limit), `MagicLinkLaws`,
  `MagicLinkCleanup` (cleanup cannot be observed), `MagicLinkService` (the imperative service).
- `MfaChallenges`, `MfaChallengeRuns`: challenges and the rate limit.
- `MfaMethods`, `MfaMethodService`: method lists, the primary method, and the choice of a method.
- `MfaBackupCodes`, `MfaDevices`: backup codes and trusted devices.
- `MfaEngine`: methods, challenges and devices together, under one clock; `MfaLogin`: logins on top of it.
- `OpaClient`, `Authorization`: the policy client's cache and the authorization cache on top of it.
- `Decimal`, `SyncMapping`: the two record mappings between Keycloak and Postgres.
- `UserSync`, `UserSyncService`: the synchroniser's tables, and its paging and batch loops.
- `OAuthState`, `Retry`, `OAuthRetry`: one-time state tokens, the retry wrapper, and callbacks under it.
- `EventIndexes`, `AuthorizationLog`: bounded event lists, and the authorization log's sorted-set indexes.

A module whose name ends in `Laws` says what the calls of the module before it come to, in terms of the
settings, the calls made, the clock and literal durations, not of the functions that model them.

Each stateful service is given twice. A `State` value with one function per call says what the call
does to the tables; `Run` chains calls, so a statement about `Run` is one about every history. A
class with the source's fields updates them in place, with the source's loops, and every method is
proved to change the class's `View()` as the function says. The history fields (`stored`, `uses`,
`created`, `attempts`, `grants`, `issued` and so on) record what happened; no call reads them.

## Assumptions

- A public method is one atomic step at one instant in milliseconds; time never goes back.
- Store operations do not fail. A key with a deadline can be read strictly before the deadline; a
  write without a TTL clears an earlier deadline, and a TTL of 0 means none
  (smp-auth-ts/src/clients/redis.client.ts:187-197).
- Generated ids and tokens are new and hexadecimal, so each family of keys is a table. Setup challenges
  are the one family that the id of a caller can lead into, by its prefix (mfa.service.ts:477-478, 878-899).
- Configured durations and limits are positive.
- Cache keys stand for what they are computed from: the hash of the authorization key and the
  encoding of the policy input are taken to be injective. The encoding is the JSON text
  (smp-auth-ts/src/clients/opa.client.ts:257-259), so two inputs that differ only in the order of
  their keys are two cache entries there and one here.
- Code checks, Keycloak, the policy engine and e-mail delivery are inputs of the calls.
- A JavaScript `Date` or floating-point number is printed and parsed by a codec whose laws are stated
  in `Lawful`, for the values of one profile, and shown satisfiable by `SomeCodecIsLawful`; integer
  printing and parsing is modelled.
- The database refuses a level or risk score that is NaN when a row is updated.

## Where the code differs from what it announces

- The rate-limit error announces `lockoutMinutes`, but only the window of `windowMinutes`, restarted
  by each accepted call, is ever enforced (mfa.service.ts:950-964). The model follows the code.
- Completing a login does not check that its challenge was created by a login: the code of a method's
  setup, completed under the setup's id, returns tokens (`SetupEarnsTokens`; auth-extended.service.ts:249-270, mfa.service.ts:477-478).
- A falsy `decision` in a policy answer does not deny: the enclosing result is read then
  (opa.client.ts:205-221), as `AllowsExactly` states.
- `hasBackupCodes` counts codes rather than unused digests, so it is exact only for distinct digests.
- Naming an unlisted id as primary leaves a user without a primary method, and so does a primary record
  that expires while another is kept alive by use (`PrimaryRunsOut`).
- Custom attributes under standard keys override the standard values, so a round trip is idempotent
  exactly under the condition of `IdempotentIffClean`.
- Asking for the newest zero events returns the whole index.
- The authorization cache is meant to be at most five minutes old, but a caller that passes its own
  `currentDate` lets the policy client's cache add five more (auth.service.ts:545-551), as
  `TenMinutesAreReached` shows.
- Retrying an OAuth callback cannot help: its state is used up by the first attempt (`OnlyFirstExchanges`).
- A user whose row was deleted while its mapping stayed is never synchronised again, forced or not, until
  the mapping is deleted (`OrphansAreNeverRepaired`); a forced attempt fails and can leave an unmapped row
  behind (`OrphanFails`).
- Resending a magic link under a shortened expiry can end its life early (`ShortResendBreaks`).

## Model

| member | source | states |
|---|---|---|
| `MagicLinkRuns.AtMostOneUsable` | smp-auth-ts/src/services/magic-link.service.ts:70-118 | At every moment of every run, settings changes included, an address has at most one usable link, and it is the one issued last. |
| `MagicLinkRuns.TokensWorkOnce` | smp-auth-ts/src/services/magic-link.service.ts:223-307 | Over any run of generate, verify, resend, revoke and cleanup a token reaches its action at most once, not before its issue and strictly before its original expiry. |
| `MagicLinkRuns.AcceptedIffUsable` | smp-auth-ts/src/services/magic-link.service.ts:227-283 | A token is accepted exactly when a usable link owns it: record present, pending, token key alive and leading to it, not past its expiry. |
| `MagicLinkRuns.VerifyAcceptsUsable` | smp-auth-ts/src/services/magic-link.service.ts:223-284 | The same in every reachable state: one use is added exactly when the token is that of a usable link. |
| `MagicLinkRuns.WorksIffLasts` | smp-auth-ts/src/services/magic-link.service.ts:223-646 | Over every run, settings changes and refused requests for the same address included, an issued link is accepted at the end exactly if that is before its expiry, no call has used, revoked or superseded it, and the TTL of its latest rewrite never ran out; otherwise its token is refused and nothing changes. |
| `MagicLinkRuns.IssuedLinkWorks` | smp-auth-ts/src/services/magic-link.service.ts:99-118 | In particular a link left alone is accepted at any time before its expiry unless a successful resend of it is made under a TTL that ends before the expiry. |
| `MagicLinkRuns.ShortResendBreaks` | smp-auth-ts/src/services/magic-link.service.ts:634-641 | A resend under such a TTL does break it: once that TTL has passed the unexpired, unused link is refused. |
| `MagicLinkRuns.UnshortenedReaches` | smp-auth-ts/src/services/magic-link.service.ts:587-593 | No resend is of that kind while the settings never shorten the expiry below the link's own lifetime. |
| `MagicLinkRuns.HeldIffLasts` | smp-auth-ts/src/services/magic-link.service.ts:587-593 | Before its expiry a link is still held at the end of a run exactly if it was left alone and each rewrite's TTL reached the next rewrite or the end; else its record is gone or no longer pending. |
| `MagicLinkRuns.ClosedForGood` | smp-auth-ts/src/services/magic-link.service.ts:605-706 | A link whose record is gone or no longer pending stays so in every run. |
| `MagicLinkRuns.GenerateMakesReady` | smp-auth-ts/src/services/magic-link.service.ts:92-121 | A successful call issues one link, held up to its expiry, and leaves no other link of the address open. |
| `MagicLinkRuns.NeverReopened` | smp-auth-ts/src/services/magic-link.service.ts:605-706 | No call returns a used, revoked or expired link to pending. |
| `MagicLinkRuns.CounterCountsIssued` | smp-auth-ts/src/services/magic-link.service.ts:727-747 | The counter an address is limited by equals the number of links issued to it on the current UTC day. |
| `MagicLinkRuns.NeverOverDailyLimit` | smp-auth-ts/src/services/magic-link.service.ts:74-121 | No address is issued more links on a UTC day than the largest limit in force during the run. |
| `MagicLinkLaws.RequestsAreGranted` | smp-auth-ts/src/services/magic-link.service.ts:70-121 | After any run a request issues exactly one link, for its address, action and the owner found, expiring the minutes set last after now, if fewer links than allowed were issued to the address that UTC day, the lookup answered, and the owner is known or need not be; otherwise it changes nothing. |
| `MagicLinkLaws.GrantedIff` | smp-auth-ts/src/services/magic-link.service.ts:92-121 | The same for every sound store, with the record, the token and the address's set it leaves, each up to the expiry. |
| `MagicLinkLaws.StatusAfter` | smp-auth-ts/src/services/magic-link.service.ts:223-725 | Which call turns a record of which status into which: granted requests revoke pending links of the address, verifying uses, revoking revokes, resending past the expiry expires, and nothing else touches it. |
| `MagicLinkLaws.CleanupRemovesExpired` | smp-auth-ts/src/services/magic-link.service.ts:672-715 | A cleanup removes exactly the records past their expiry, the tokens of such records, and their ids from the sets. |
| `MagicLinkRuns.StepKeeps` | smp-auth-ts/src/services/magic-link.service.ts:570-747 | Every call keeps the invariant: records and tokens stem from issued links, an open link is the latest of its address and is covered by the address's set for as long as its token lives. |
| `MagicLinkRuns.RewriteKeeps` | smp-auth-ts/src/services/magic-link.service.ts:587-593 | Rewriting a record, which renews its TTL but not that of the token or the set, keeps the invariant. |
| `MagicLinkRuns.RevokeExistingKeeps` | smp-auth-ts/src/services/magic-link.service.ts:717-725 | Revoking an address's pending links leaves it without an open link, even if its set has vanished. |
| `MagicLinkRuns.CleanupKeeps` | smp-auth-ts/src/services/magic-link.service.ts:672-715 | Deleting expired links, tokens and set members keeps the invariant. |
| `MagicLinkCleanup.CleanupIsInvisible` | smp-auth-ts/src/services/magic-link.service.ts:672-695 | Inserting a cleanup anywhere in a run changes neither which links are issued later nor which verifications succeed, nor when. |
| `MagicLinkCleanup.StepAlike` | smp-auth-ts/src/services/magic-link.service.ts:223-715 | Every call acts alike on a store and on one that merely lacks some expired links. |
| `MagicLinkCleanup.BothCleanedAlike` | smp-auth-ts/src/services/magic-link.service.ts:672-715 | Cleaning both stores leaves them alike. |
| `MagicLinkService.PurgeOneMore` | smp-auth-ts/src/services/magic-link.service.ts:708-715 | Deleting links one by one, in any order, adds up to removing them all at once from the records, the tokens and the sets. |
| `MagicLinkService.MagicLinkServiceImpl.GenerateMagicLink` | smp-auth-ts/src/services/magic-link.service.ts:70-154 | Succeeds exactly when the limit, the lookup and the registration setting admit it; the new state is revoke, store, count, send. |
| `MagicLinkService.MagicLinkServiceImpl.VerifyMagicLink` | smp-auth-ts/src/services/magic-link.service.ts:223-307 | Accepts exactly a token that resolves to an acceptable record, marks it used, and records the use at the current time. |
| `MagicLinkService.MagicLinkServiceImpl.SendMagicLink` | smp-auth-ts/src/services/magic-link.service.ts:605-646 | Resends exactly an acceptable link; past the expiry the status becomes expired, whatever it was. |
| `MagicLinkService.MagicLinkServiceImpl.RevokeMagicLink` | smp-auth-ts/src/services/magic-link.service.ts:668-670 | Rewrites any status to revoked. |
| `MagicLinkService.MagicLinkServiceImpl.RevokeExistingLinks` | smp-auth-ts/src/services/magic-link.service.ts:717-725 | The loop over the address's ids revokes exactly the pending ones and changes nothing else. |
| `MagicLinkService.MagicLinkServiceImpl.StoreMagicLink` | smp-auth-ts/src/services/magic-link.service.ts:570-585 | Record, token and set get the same deadline; the set's earlier deadline is replaced. |
| `MagicLinkService.MagicLinkServiceImpl.CleanupExpiredLinks` | smp-auth-ts/src/services/magic-link.service.ts:672-695 | Removes exactly the records past their expiry, with their tokens and set members, and returns how many. |
| `MagicLinkService.MagicLinkServiceImpl.CheckDailyLimit` | smp-auth-ts/src/services/magic-link.service.ts:727-737 | True exactly while the day's counter is below the limit. |
| `MfaChallengeRuns.ChallengeLaw` | smp-auth-ts/src/services/mfa.service.ts:477-622 | In every run a challenge takes at most maxAttempts wrong codes; a success comes within its lifetime and after fewer; no verdict on a code follows a success; the remaining count reported is maxAttempts minus the wrong codes so far. |
| `MfaChallengeRuns.EveryCodeIsJudged` | smp-auth-ts/src/services/mfa.service.ts:477-622 | In every run each call is answered as history and clock call for: the right code is accepted exactly while the challenge is unused, not exhausted and younger than codeExpiry seconds, or at the expiry instant itself if a wrong code has renewed its TTL; a wrong one leaves one attempt less; a challenge used up, out of time or never created is not. |
| `MfaChallengeRuns.EdgeStep` | smp-auth-ts/src/services/mfa.service.ts:594-604 | Every call keeps the record's deadline at the expiry, or later exactly if a wrong code renewed it. |
| `MfaChallengeRuns.SlidingWindow` | smp-auth-ts/src/services/mfa.service.ts:950-964 | Any rateMax + 1 consecutive accepted creations of a user span at least windowMinutes minutes. |
| `MfaChallengeRuns.AcceptedWhen` | smp-auth-ts/src/services/mfa.service.ts:413-457 | In every run a challenge is created exactly for a selected method and unless the user's latest burst of creations holds rateMax of them and its window still runs; a refused call changes nothing, so it never postpones acceptance. |
| `MfaChallengeRuns.CreationIsGranted` | smp-auth-ts/src/services/mfa.service.ts:413-457 | What such a creation stores: the challenge for its user and method, with all attempts, until codeExpiry seconds from now. |
| `MfaChallengeRuns.BurstSpan` | smp-auth-ts/src/services/mfa.service.ts:950-964 | A stretch of at most m times without a pause of a window means that the latest m + 1 times span a window. |
| `MfaChallengeRuns.StepKeeps` | smp-auth-ts/src/services/mfa.service.ts:393-622 | Every call keeps the invariant linking stored challenges and counters to the history. |
| `MfaChallengeRuns.VerifyKeepsChallenges` | smp-auth-ts/src/services/mfa.service.ts:477-622 | A verification keeps attemptsRemaining equal to maxAttempts minus the wrong codes and never revives a finished challenge. |
| `MfaChallengeRuns.RateStep` | smp-auth-ts/src/services/mfa.service.ts:950-964 | Every call keeps a user's counter equal to the length of the current burst of creations. |
| `MfaChallenges.MfaChallengeService.CheckRateLimit` | smp-auth-ts/src/services/mfa.service.ts:950-964 | Refuses without a write at the limit; otherwise counts one and restarts the window. |
| `MfaMethodService.MfaMethodServiceImpl.SelectMethod` | smp-auth-ts/src/services/mfa.service.ts:394-411 | The method a challenge is for: the first active one of the kind asked for, else the primary, else the first; none exactly if no active method fits. |
| `MfaMethods.ChosenIsPrimary` | smp-auth-ts/src/services/mfa.service.ts:409-411 | A challenge without a kind goes to the user's primary method whenever there is one. |
| `MfaEngine.MFAServiceImpl.InitiateMFAChallenge` | smp-auth-ts/src/services/mfa.service.ts:393-475 | Creates a challenge for the selected method exactly when one is selected and the rate limit accepts; a refusal for want of a method counts nothing. |
| `MfaChallenges.VerifyRecord` | smp-auth-ts/src/services/mfa.service.ts:477-622 | The verdict and the new table, branch by branch, whichever key the id leads to: missing, timed out, exhausted, no method, right, wrong. |
| `MfaEngine.MFAServiceImpl.VerifyMFAChallenge` | smp-auth-ts/src/services/mfa.service.ts:477-622 | The verdict and new state for any id a caller passes, that of a setup included, with the method looked up; success marks the method used, renews its record, and grants trust to the device when asked to. |
| `MfaEngine.MFAServiceImpl.SetupMFAMethod` | smp-auth-ts/src/services/mfa.service.ts:109-253 | Stores the method, not in use yet, and for SMS and e-mail a setup challenge under its id, without a rate limit. |
| `MfaEngine.MFAServiceImpl.VerifyMFASetup` | smp-auth-ts/src/services/mfa.service.ts:255-339 | Succeeds exactly with the right code for a stored method, which for SMS and e-mail takes a live setup challenge; puts the method to use and deletes the setup challenge. |
| `MfaEngine.StepSetsUp` | smp-auth-ts/src/services/mfa.service.ts:878-899 | Every call keeps a setup challenge without a user and its method out of use. |
| `MfaSetupLaws.SetupCodeWorks` | smp-auth-ts/src/services/mfa.service.ts:878-899 | Setting up an SMS or e-mail method sends a code that, until one is tried, can be used exactly for codeExpiry seconds, whatever else happens; other kinds send none. |
| `MfaEngine.VerifiedByOwnMethod` | smp-auth-ts/src/services/mfa.service.ts:477-545 | In every run of methods, challenges and devices together an accepted code was checked against an existing, enabled and verified method of the challenge's user exactly if the id is not that of a setup; under a setup's id a code is accepted for a method that is not verified, with no user. |
| `MfaEngine.ChallengesStandAlone` | smp-auth-ts/src/services/mfa.service.ts:393-622 | Seen by its challenges a combined run is a legal run of challenges alone, so every law of those holds in it. |
| `MfaEngine.MethodsStandAlone` | smp-auth-ts/src/services/mfa.service.ts:255-387 | Likewise for the methods, uses by verification included. |
| `MfaEngine.DevicesStandAlone` | smp-auth-ts/src/services/mfa.service.ts:553-562 | Likewise for the devices, those remembered by verification included. |
| `MfaEngine.OneClock` | smp-auth-ts/src/services/mfa.service.ts:393-622 | The three parts show one time throughout, so their runs are runs of one service. |
| `MfaLogin.TokensAnswerLogins` | smp-auth-ts/src/services/auth-extended.service.ts:189-275 | With MFA on, and whatever is done with methods and devices meanwhile, login returns no tokens, trusted device or not; no challenge earns tokens twice; each completion answers a distinct successful password login within its challenge's lifetime exactly if its id is not that of a setup; and so all do exactly if no completion names a live setup challenge with its right code. |
| `MfaLoginLaws.LoginAnswers` | smp-auth-ts/src/services/auth-extended.service.ts:189-237 | In every run, exactly when each answer is given: a failure without a user, or with MFA on and no method listed or the burst full; tokens with MFA off; else a challenge stored under the answer's id, for this user and the primary method, open for codeExpiry seconds; the trusted flag tells of a grant in force. |
| `MfaLoginLaws.SentChallengeWorks` | smp-auth-ts/src/services/auth-extended.service.ts:221-270 | After such an answer, whatever else is done, giving its id with the right code for the first time returns tokens exactly within codeExpiry seconds and while the method has its record. |
| `MfaLoginLaws.CompletionAnswers` | smp-auth-ts/src/services/auth-extended.service.ts:239-275 | In every run a completion returns tokens exactly if its id is that of a challenge sent that is in time, unused, not exhausted and whose method is there, or that of an open setup; with the right code and the token endpoint answering. |
| `MfaLoginLaws.SuccessRemembers` | smp-auth-ts/src/services/mfa.service.ts:552-575 | A right code renews the method's record for 365 days, and trusts the device named for exactly the days asked. |
| `MfaLogin.SetupEarnsTokens` | smp-auth-ts/src/services/auth-extended.service.ts:239-270 | The run in which they do not: setting up an e-mail method and completing its setup challenge with the code sent out returns tokens, with no login and the method unverified. |
| `MfaLogin.OtherIdsCompleteNoSetup` | smp-auth-ts/src/services/auth-extended.service.ts:239-250 | A caller rules this out by refusing ids that begin with the setup prefix. |
| `MfaLogin.VerifiedIsNew` | smp-auth-ts/src/services/auth-extended.service.ts:249-260 | A challenge that verifies, of a login or of a setup, has earned no tokens before. |
| `MfaLogin.LoginEarns` | smp-auth-ts/src/services/auth-extended.service.ts:249-260 | One that is not a setup's was sent by a login, in time. |
| `MfaLogin.StepKeeps` | smp-auth-ts/src/services/auth-extended.service.ts:189-275 | Every call keeps grants distinct, and tied to earlier logins or to setup challenges that are used up. |
| `MfaLogin.TrustedIffGranted` | smp-auth-ts/src/services/auth-extended.service.ts:207-210 | A login reports a trusted device exactly if it looks one up and a grant for the fingerprint is in force. |
| `MfaLogin.ExtendedAuthService.LoginWithMFA` | smp-auth-ts/src/services/auth-extended.service.ts:189-237 | The new state for each outcome of password, validation, device lookup, MFA setting, method selection and challenge creation; tokens for the user only with MFA off, and otherwise the id of the challenge just booked as this login's. |
| `MfaLogin.ExtendedAuthService.CompleteMFALogin` | smp-auth-ts/src/services/auth-extended.service.ts:239-275 | Tokens, recorded against the id at this moment, exactly when MFA is on, the challenge the id leads to verifies, and the token endpoint answers. |
| `MfaMethods.ListedMethodsAreSound` | smp-auth-ts/src/services/mfa.service.ts:91-107 | In every run each listed method is the user's own, enabled and verified, and at most one is primary. |
| `MfaMethods.ExactlyOnePrimary` | smp-auth-ts/src/services/mfa.service.ts:255-387 | A user with a primary method has one throughout a run, whenever methods are listed, exactly if no wait outlasts the primary's record but not another record of this user, and no unlisted id is named primary for this user; other users do not matter. |
| `MfaMethods.NeverEmptied` | smp-auth-ts/src/services/mfa.service.ts:341-374 | A user who has methods keeps some throughout a run exactly if no wait outlasts all of the user's records: no other call empties the list. |
| `MfaMethods.PrimaryRunsOut` | smp-auth-ts/src/services/mfa.service.ts:255-339 | The primary's year can run out while another method is kept alive by use; then the user has methods and no primary. |
| `MfaMethods.PrimaryFromStart` | smp-auth-ts/src/services/mfa.service.ts:255-387 | From the empty store, over steps that are steady for the user in that sense, a nonempty list has exactly one primary. |
| `MfaMethods.HeirIsNewest` | smp-auth-ts/src/services/mfa.service.ts:341-374 | Removing the primary hands over to a remaining method with the greatest createdAt. |
| `MfaMethods.SetPrimaryExactly` | smp-auth-ts/src/services/mfa.service.ts:376-387 | Naming a method primary leaves the user with a primary exactly when the id is listed. |
| `MfaMethods.RemoveSteady` | smp-auth-ts/src/services/mfa.service.ts:341-374 | A removal never empties a list and never leaves it without a primary. |
| `MfaMethodLaws.RemovalIs` | smp-auth-ts/src/services/mfa.service.ts:341-374 | A method is removed exactly if its user has another one listed; it leaves table and list, no other listing changes, and after a primary the heir alone is primary. |
| `MfaMethodLaws.SetupCompletes` | smp-auth-ts/src/services/mfa.service.ts:109-339 | In every run a method set up can be verified for a day, whatever else happens: it is then listed, enabled and verified, primary exactly if nothing was listed, and kept for 365 days; after the day verifying it does nothing. |
| `MfaMethodLaws.ListedForAYear` | smp-auth-ts/src/services/mfa.service.ts:255-387 | A listed method stays listed for the 365 days its record was last written for unless it is removed. |
| `MfaMethods.StepKeeps` | smp-auth-ts/src/services/mfa.service.ts:255-387 | Every call keeps the invariant on records and lists. |
| `MfaMethodService.InsertKeepsOrder` | smp-auth-ts/src/services/mfa.service.ts:102-106 | The listing order, primary first and newest first, is kept by inserting one method. |
| `MfaMethodService.ActiveAreOthers` | smp-auth-ts/src/services/mfa.service.ts:349-355 | The filtered list is empty exactly when no other active method exists, and its head comes first among them. |
| `MfaMethodService.FilterActiveIs` | smp-auth-ts/src/services/mfa.service.ts:350-351 | Filtering keeps the order and keeps exactly the enabled methods other than the one removed. |
| `MfaMethodService.MfaMethodServiceImpl.GetUserMFAMethods` | smp-auth-ts/src/services/mfa.service.ts:91-107 | Exactly the listed ids that have a record, in listing order. |
| `MfaMethodService.MfaMethodServiceImpl.VerifyMFASetup` | smp-auth-ts/src/services/mfa.service.ts:255-339 | Enables, verifies and lists the method on a valid code; primary exactly if nothing was listed or it already was. |
| `MfaMethodService.MfaMethodServiceImpl.RemoveMFAMethod` | smp-auth-ts/src/services/mfa.service.ts:341-374 | Refuses the last active method; otherwise removes it and, for a primary, promotes the first remaining one. |
| `MfaMethodService.MfaMethodServiceImpl.SetPrimaryMFAMethod` | smp-auth-ts/src/services/mfa.service.ts:376-387 | The loop rewrites every listed record of the user, with exactly the named one primary. |
| `MfaBackupCodes.CodesWorkOnce` | smp-auth-ts/src/services/mfa.service.ts:695-721 | In every run accepted codes are distinct within a generation, used codes are stored ones, and remainingCodes is codes minus used. |
| `MfaBackupCodes.AcceptedIffLive` | smp-auth-ts/src/services/mfa.service.ts:667-721 | In every run a code is accepted exactly if it is of the latest generation, has not been accepted since, and less than 365 days have passed since that generation or the last code accepted. |
| `MfaBackupCodes.GeneratedCodesWork` | smp-auth-ts/src/services/mfa.service.ts:667-721 | Every code generated works within 365 days, whatever happens to the other codes and to other users. |
| `MfaBackupCodes.ReportedIffLeft` | smp-auth-ts/src/services/mfa.service.ts:723-744 | With distinct digests, codes are reported left exactly when an unused one is. |
| `MfaBackupCodes.SpentReportIsExactIffDistinct` | smp-auth-ts/src/services/mfa.service.ts:667-744 | Once all codes were presented none is left, and codes are still reported exactly when two digests of the generation coincide. |
| `MfaBackupCodes.StepKeeps` | smp-auth-ts/src/services/mfa.service.ts:667-721 | Every call keeps the record in step with the history. |
| `MfaBackupCodes.FindIndex` | smp-auth-ts/src/services/mfa.service.ts:704-708 | The first position of a code, or -1 exactly when it is absent. |
| `MfaBackupCodes.MfaBackupCodeService.UseBackupCode` | smp-auth-ts/src/services/mfa.service.ts:695-721 | Accepts exactly a stored, unused code, and spends it. |
| `MfaBackupCodes.MfaBackupCodeService.GenerateBackupCodes` | smp-auth-ts/src/services/mfa.service.ts:667-693 | Replaces the generation, with nothing used. |
| `MfaDevices.TrustedIffGranted` | smp-auth-ts/src/services/mfa.service.ts:794-815 | In every run a device is trusted exactly when the history has a grant to the user for the fingerprint, not revoked and not run out. |
| `MfaDeviceLaws.TrustedIffAsked` | smp-auth-ts/src/services/mfa.service.ts:750-848 | In every run a device counts as trusted exactly if some call trusted it for a number of days that have not passed since, and nobody has revoked that grant after it. |
| `MfaDeviceLaws.TrustLasts` | smp-auth-ts/src/services/mfa.service.ts:750-848 | Grant by grant: it is found exactly while days * 86,400,000 ms have not passed and it has not been revoked, whatever else is done. |
| `MfaDeviceLaws.UseIsRecorded` | smp-auth-ts/src/services/mfa.service.ts:804-839 | A record tells when its device was last trusted or found trusted, which is what the listing is ordered by. |
| `MfaDeviceLaws.SweepDeletesLapsed` | smp-auth-ts/src/services/mfa.service.ts:817-839 | A listing deletes exactly the user's listed devices whose days have passed. |
| `MfaDevices.MatchIffGranted` | smp-auth-ts/src/services/mfa.service.ts:794-815 | The lookup among stored records agrees with the history of grants. |
| `MfaDevices.CheckKeeps` | smp-auth-ts/src/services/mfa.service.ts:804-809 | Rewriting a used record without a TTL keeps the grant's expiry in force. |
| `MfaDevices.SweepKeeps` | smp-auth-ts/src/services/mfa.service.ts:817-839 | Deleting expired devices while listing them removes no grant in force. |
| `MfaDevices.StepKeeps` | smp-auth-ts/src/services/mfa.service.ts:750-848 | Every call keeps records, lists and grants in step. |
| `MfaDevices.MfaDeviceService.IsDeviceTrusted` | smp-auth-ts/src/services/mfa.service.ts:794-815 | True exactly for a grant in force; touches at most one matching record. |
| `MfaDevices.MfaDeviceService.TrustDevice` | smp-auth-ts/src/services/mfa.service.ts:750-792 | Records a grant that is in force at once; how long it lasts is `TrustLasts`. |
| `MfaDevices.MfaDeviceService.GetTrustedDevices` | smp-auth-ts/src/services/mfa.service.ts:817-839 | Returns exactly the listed devices in force, each once, latest use first, and deletes the others. |
| `MfaDevices.MfaDeviceService.RevokeTrustedDevice` | smp-auth-ts/src/services/mfa.service.ts:841-848 | Deletes the record and its list entry. |
| `OpaClient.AllowsExactly` | smp-auth-ts/src/clients/opa.client.ts:197-231 | Which answers allow: the decision field alone if truthy, else the result itself; anything but true or a truthy allow denies. |
| `OpaClient.CacheIsTransparent` | smp-auth-ts/src/clients/opa.client.ts:146-178 | For a time-invariant policy any sequence of calls returns exactly what uncached evaluation returns, failures included. |
| `OpaClient.DecisionIsRecent` | smp-auth-ts/src/clients/opa.client.ts:261-272 | A decision is what the policy answered at some time in the last 300 s. |
| `OpaClient.CacheOrPolicyAnswers` | smp-auth-ts/src/clients/opa.client.ts:146-178 | An entry of 300 s at most answers; without one the policy's normalised answer is returned, or its failure. |
| `OpaClient.RememberedFiveMinutes` | smp-auth-ts/src/clients/opa.client.ts:261-286 | What the policy answers to an input stays the answer to it for 300 s, as long as fewer than a thousand other calls come in between. |
| `OpaClient.OldestIsEvicted` | smp-auth-ts/src/clients/opa.client.ts:274-286 | An insertion drops an entry only from a full cache, and one no newer than any that stays. |
| `OpaClient.CheckKeeps` | smp-auth-ts/src/clients/opa.client.ts:146-178 | At most 1000 entries, distinct keys, insertion order is time order, each entry a genuine answer. |
| `OpaClient.OpaClientImpl.CheckPermission` | smp-auth-ts/src/clients/opa.client.ts:146-195 | Cache lookup, policy call and insertion, with the staleness bound. |
| `OpaClient.OpaClientImpl.GetCachedResult` | smp-auth-ts/src/clients/opa.client.ts:261-272 | Deletes an entry older than five minutes, returns a younger one. |
| `OpaClient.OpaClientImpl.SetCachedResult` | smp-auth-ts/src/clients/opa.client.ts:274-286 | Appends or overwrites in place, then drops the first entry beyond the capacity. |
| `Authorization.AllowedIsRecent` | smp-auth-ts/src/services/auth.service.ts:386-485 | In every run, for every policy, an allowed answer rests on an input about the same user, resource, type and action that was handed to the policy client less than 300 s before, and that the policy allowed, as it was handed over, at most 300 s before that. |
| `Authorization.AllowedWhenAsked` | smp-auth-ts/src/services/auth.service.ts:545-551 | When no caller replaces the current date the policy allowed that input at the very moment it was handed over, so the bound halves to 300 s. |
| `AuthorizationLaws.CachesAreTransparent` | smp-auth-ts/src/services/auth.service.ts:386-485 | For a policy that always answers, and decides by user, resource, type and action alone, every call of every run with a valid token is allowed exactly if the policy allows it, and every other call refused. |
| `Authorization.AnswerIs` | smp-auth-ts/src/services/auth.service.ts:386-485 | Each call is answered once: refused without a valid token, as the live verdict on its key says, else as a client's entry of 300 s at most does, else allowed exactly if the policy answers and its normalised answer to the input built from this call allows. |
| `AuthorizationLaws.VerdictIsRepeated` | smp-auth-ts/src/services/auth.service.ts:639-682 | With the cache on a decision is repeated, whatever the policy would say, for the expiry set but at most 300 s (300 s if none is set); from then on the input is handed over again. |
| `Authorization.TenMinutesAreReached` | smp-auth-ts/src/services/auth.service.ts:545-551 | When a caller does replace it the bound is sharp: an answer at 599,999 ms still allows what the policy allowed at the instant 0 alone. |
| `Authorization.AskedWasSubmitted` | smp-auth-ts/src/services/auth.service.ts:408-417 | The inputs on record are genuine: each is built from some call of the run with the date of its moment. |
| `Authorization.ErrorsDeny` | smp-auth-ts/src/services/auth.service.ts:463-484 | A token that does not validate, or a policy engine that cannot be asked, yields a refusal and caches nothing. |
| `Authorization.FreshDecision` | smp-auth-ts/src/services/auth.service.ts:408-423 | An allowing decision obtained on a cache miss was the policy's on this very input in the last 300 s, and at this very moment if the date is the service's. |
| `Authorization.AskKeeps` | smp-auth-ts/src/services/auth.service.ts:386-485 | Every check keeps the caches genuine, every cached verdict tied to the input it was decided on, and every answer justified by one. |
| `Authorization.AuthService.CheckPermissionDetailed` | smp-auth-ts/src/services/auth.service.ts:386-485 | The answer and new caches that `AnswerIs` characterises; allowed only if an input handed over in the last 300 s justifies it. |
| `Decimal.ParsePrint` | mu-auth/src/auth/services/keycloak-postgres-sync.service.ts:537 | parseInt reads back the integer that toString printed. |
| `SyncMapping.RoundTripIffNormal` | mu-auth/src/auth/services/keycloak-postgres-sync.service.ts:523-594 | Mapping a profile to Keycloak and back is the identity exactly on normal forms. |
| `SyncMapping.FieldsRead` | mu-auth/src/auth/services/keycloak-postgres-sync.service.ts:523-570 | Which attribute each column is read from, and the default for it, column by column. |
| `SyncMapping.RoundTripParts` | mu-auth/src/auth/services/keycloak-postgres-sync.service.ts:523-648 | Field by field, what a round trip makes of a profile whose custom keys avoid the standard ones. |
| `SyncMapping.IdempotentIffClean` | mu-auth/src/auth/services/keycloak-postgres-sync.service.ts:523-648 | A second round trip changes nothing exactly when overriding custom attributes put usable values on standard keys. |
| `SyncMapping.LawfulStays` | mu-auth/src/auth/services/keycloak-postgres-sync.service.ts:539-570 | Dates and risk scores that come back from a round trip print and parse as well as those that went in, unless a custom value overrides them. |
| `SyncMapping.AvoidingIsClean` | mu-auth/src/auth/services/keycloak-postgres-sync.service.ts:615-648 | Custom keys that avoid the standard ones are such a case. |
| `SyncMapping.OverrideBreaksIdempotence` | mu-auth/src/auth/services/keycloak-postgres-sync.service.ts:591 | A custom clearance level of 0 overrides the standard one and breaks idempotence. |
| `SyncMapping.NormalAfterRoundTrip` | mu-auth/src/auth/services/keycloak-postgres-sync.service.ts:523-594 | A round trip yields a normal form exactly when the overrides are clean. |
| `SyncMapping.ExtractExpand` | mu-auth/src/auth/services/keycloak-postgres-sync.service.ts:615-648 | Expanding and extracting custom attributes is the identity exactly on absent ones or nonempty maps of text lists under non-standard keys. |
| `SyncMapping.LevelBack` | mu-auth/src/auth/services/keycloak-postgres-sync.service.ts:571 | A level comes back as itself, or as 1 when it is zero or not a number. |
| `UserSync.StoringIsInvisible` | mu-auth/src/auth/services/postgres-user.service.ts:109-147 | The defaults filled in when a row is created are invisible to Keycloak, whatever the custom attributes. |
| `UserSync.DryRunIsFaithful` | mu-auth/src/auth/services/keycloak-postgres-sync.service.ts:165-281 | For distinct users a dry run changes no table and reports the counts of an error-free real run from the same state. |
| `UserSyncLaws.RunShows` | mu-auth/src/auth/services/keycloak-postgres-sync.service.ts:165-281 | After any run each of its users that is not among the errors, and was not skipped as unchanged, has a row that shows its data column by column, whatever was synced before and after. |
| `UserSyncLaws.RunSparesUnchanged` | mu-auth/src/auth/services/keycloak-postgres-sync.service.ts:231-235 | The row and hash of a user whose data are unchanged are left as they are by any unforced run. |
| `UserSyncLaws.OutcomeIs` | mu-auth/src/auth/services/keycloak-postgres-sync.service.ts:218-281 | Exactly when a user is skipped, updated, created or fails, over the hash, the mapping, the row, the options, the unique columns of the other rows and the faults. |
| `UserSyncLaws.UpdateWrites` | mu-auth/src/auth/services/postgres-user.service.ts:275-316 | An update writes the mapped row alone: every column takes the new data and keeps what it held only where the new data have nothing; the mapping records the new hash. |
| `UserSyncLaws.CreateWrites` | mu-auth/src/auth/services/postgres-user.service.ts:109-147 | A creation adds one row with the mapped data, 1 for a missing or zero level, zero for a missing risk score, and maps the user to it with the hash. |
| `UserSyncLaws.CountsTally` | mu-auth/src/auth/services/keycloak-postgres-sync.service.ts:177-201 | The counts of a run are those of its outcomes, and the errors name the users that failed, in order. |
| `UserSyncLaws.SyncBackDelivers` | mu-auth/src/auth/services/keycloak-postgres-sync.service.ts:343-385 | A row without Keycloak id is given the new one, keeping all else, and mapped, unless its unique columns clash or the run is dry. |
| `UserSync.SecondRunIsIdle` | mu-auth/src/auth/services/keycloak-postgres-sync.service.ts:231-235 | After an error-free run, a second one on the same users without force skips them all and changes nothing. |
| `UserSync.MappingStaysOneToOne` | mu-auth/src/auth/services/keycloak-postgres-sync.service.ts:218-281 | In every run of both sync directions, local creations, edits and deletions, deletions of mappings, and faults, no two Keycloak ids share a row and mapped rows carry their Keycloak id. |
| `UserSync.SyncBackKeeps` | mu-auth/src/auth/services/keycloak-postgres-sync.service.ts:343-385 | Creating a Keycloak user for a local row keeps the mapping one-to-one. |
| `UserSync.UpdateKeeps` | mu-auth/src/auth/services/keycloak-postgres-sync.service.ts:237-256 | Updating a mapped user, even when it fails half-way, keeps it one-to-one. |
| `UserSync.CreateKeeps` | mu-auth/src/auth/services/keycloak-postgres-sync.service.ts:262-278 | Creating a user, even when it fails half-way, keeps it one-to-one. |
| `UserSync.EveryUserCounted` | mu-auth/src/auth/services/keycloak-postgres-sync.service.ts:177-201 | Every user is counted once, as created, updated, skipped or failed. |
| `UserSync.SyncInParts` | mu-auth/src/auth/services/keycloak-postgres-sync.service.ts:185-201 | Syncing batch after batch equals syncing the whole list. |
| `UserSync.OthersUndisturbed` | mu-auth/src/auth/services/keycloak-postgres-sync.service.ts:218-281 | Syncing one user leaves what decides about any other user as it was. |
| `UserSyncService.GetAllKeycloakUsers` | mu-auth/src/auth/services/keycloak-postgres-sync.service.ts:422-451 | Paging by 100 terminates and returns the server's list exactly once, in order. |
| `UserSyncService.KeycloakPostgresSyncService.SyncKeycloakUserToPostgres` | mu-auth/src/auth/services/keycloak-postgres-sync.service.ts:218-281 | The loop body against the function whose outcome and rows `OutcomeIs`, `UpdateWrites` and `CreateWrites` give. |
| `UserSyncService.KeycloakPostgresSyncService.SyncKeycloakToPostgres` | mu-auth/src/auth/services/keycloak-postgres-sync.service.ts:165-216 | For any batch size the loops visit every user once, in order; processed = created + updated + skipped + errors. |
| `UserSync.UpdateShowsIffNothingStale` | mu-auth/src/auth/services/postgres-user.service.ts:275-316 | An updated row is sent back to Keycloak, and read again, as its new data would be, exactly if no column and no override holds a value that Keycloak no longer has: a field cleared in Keycloak is never cleared in the table. |
| `SyncMapping.LookAlike` | mu-auth/src/auth/services/keycloak-postgres-sync.service.ts:523-648 | Two profiles of one account look alike to Keycloak exactly if their names, their custom attributes and what is read for each standard key agree. |
| `UserSync.RunDelivers` | mu-auth/src/auth/services/keycloak-postgres-sync.service.ts:165-281 | After any run, errors included, a user has a row of its own carrying its id exactly if the user's mapping had not lost its row before and, where there was no mapping yet, the user is not among the errors. |
| `UserSync.OrphanFails` | mu-auth/src/auth/services/keycloak-postgres-sync.service.ts:231-278 | Syncing a user whose row is gone skips it if unforced and unchanged; otherwise it fails, the mapping stays, a row mapped to nobody is left behind whenever the user service accepts it, and a dry run announces a creation instead. |
| `UserSync.OneRowIsLeftBehind` | mu-auth/src/auth/services/keycloak-postgres-sync.service.ts:262-278 | Once such a row has been left behind no later attempt leaves another. |
| `UserSync.OrphansAreNeverRepaired` | mu-auth/src/auth/services/keycloak-postgres-sync.service.ts:231-278 | A mapping whose row is gone is repaired by no run of any kind, forced or not, failing or not. |
| `UserSync.SaveKeepsUnique` | mu-auth/src/auth/services/postgres-user.service.ts:109-161 | Writing a row, even when it fails before or after the write, keeps user names, addresses and Keycloak ids unique. |
| `OAuthState.StatesWorkOnce` | smp-auth-ts/src/services/oauth.service.ts:348-367 | Each issued state leads to at most one code exchange in any run, repeated callbacks included, only with its own provider and within 600 s. |
| `OAuthState.IssuedStateWorks` | smp-auth-ts/src/services/oauth.service.ts:54-134 | In every run a state given out for a known provider makes a callback with it an exchange exactly within 600 s, with a code and the same provider, and if no callback with it and a code came before. |
| `OAuthState.ExchangesIffUnused` | smp-auth-ts/src/services/oauth.service.ts:109-134 | After any run a callback with an issued state and a code leads to the exchange exactly if the state is younger than 600 s, no earlier callback has used it up, and the provider is the state's own and a known one; callbacks that were refused or came without a code leave it alone. |
| `OAuthState.CallbackKeeps` | smp-auth-ts/src/services/oauth.service.ts:109-134 | Every callback keeps exchanges distinct and tied to issued states. |
| `OAuthState.OAuthServiceImpl.HandleCallback` | smp-auth-ts/src/services/oauth.service.ts:109-191 | Exchanges exactly for a valid, unexpired state of the right, known provider; the state is consumed either way. |
| `OAuthState.OAuthServiceImpl.ValidateAndRetrieveState` | smp-auth-ts/src/services/oauth.service.ts:348-367 | Deletes the state in any case and returns it only while young enough. |
| `OAuthState.OAuthServiceImpl.GetAuthorizationUrl` | smp-auth-ts/src/services/oauth.service.ts:54-107 | Stores a state for an enabled provider only. |
| `Retry.ExecuteWithRetry` | mu-auth/src/auth/services/oauth.service.ts:299-350 | Returns the result of the first attempt that succeeds, fails for good or is the last, after exactly the attempts and pauses before it, and within N*T + 7500*N*(N-1) + D*(2^(N-1)-1) ms. |
| `Retry.BudgetClosedForm` | mu-auth/src/auth/services/oauth.service.ts:310-344 | The closed form of the summed timeouts and backoffs. |
| `Retry.TimeoutsAreRetried` | mu-auth/src/auth/services/oauth.service.ts:355-379 | The wrapper's own timeout errors are always classified as retryable. |
| `Retry.RetriedIffListed` | mu-auth/src/auth/services/oauth.service.ts:355-379 | An error is retried exactly if some stretch of its message, in any case, is one of the twelve texts. |
| `Retry.NetworkErrorsAreRetried` | mu-auth/src/auth/services/oauth.service.ts:355-379 | ETIMEDOUT, ECONNREFUSED, ECONNRESET, ENOTFOUND and EHOSTUNREACH anywhere in a message are. |
| `Retry.BudgetIsReached` | mu-auth/src/auth/services/oauth.service.ts:310-344 | Operations that never end take exactly the bound. |
| `OAuthRetry.HandleCallback` | mu-auth/src/auth/services/oauth.service.ts:264-297 | A wrapped callback with an issued state logs in exactly if its first attempt does within 90 s; once an attempt has used up the state and timed out the wrapper retries, but returns no success; it is over within 324 s. |
| `OAuthRetry.OnlyFirstExchanges` | mu-auth/src/auth/services/oauth.service.ts:306-347 | With an issued state no attempt but the first gets as far as the code exchange, whatever others do between the attempts. |
| `OAuthRetry.OneExchange` | mu-auth/src/auth/services/oauth.service.ts:306-347 | At most one attempt of a callback gets as far as the code exchange. |
| `EventIndexes.ListsRefineHistory` | mu-auth/src/auth/services/event-logger.service.ts:116-128 | In every run the recent, by-type and by-user lists are the history, filtered, newest first, cut to 1000, 500 and 100. |
| `EventIndexes.ReadersSeeHistory` | mu-auth/src/auth/services/event-logger.service.ts:141-202 | In every run, reading n events, recent, of a type or of a user, gives the newest of those logged whose record has not outlived its TTL, n of them or as many as there are, up to the list's bound; a limit of zero reads the whole list. |
| `EventIndexes.KeptIsPrefix` | mu-auth/src/auth/services/event-logger.service.ts:149-154 | Cutting a list and dropping expired events commute, because the oldest expire first. |
| `EventIndexes.EventLoggerService.GetRecentEvents` | mu-auth/src/auth/services/event-logger.service.ts:141-160 | The newest events still kept, as many as asked for or as the list holds. |
| `EventIndexes.EventLoggerService.GetEventsByType` | mu-auth/src/auth/services/event-logger.service.ts:162-181 | The same for one type. |
| `EventIndexes.EventLoggerService.GetEventsByUser` | mu-auth/src/auth/services/event-logger.service.ts:183-202 | The same for one user; nothing for the empty user id. |
| `EventIndexes.Fetch` | mu-auth/src/auth/services/event-logger.service.ts:146-156 | Reads the records of the ids one by one, dropping those without one. |
| `EventIndexes.EventLoggerService.LogEvent` | mu-auth/src/auth/services/event-logger.service.ts:106-128 | Stores the record with its TTL, pushes its id to the lists and trims them, which keeps lists and records exact. |
| `AuthorizationLog.IndexesKeepTheNewest` | smp-auth-ts/src/clients/redis.client.ts:511-535 | From the empty log on, the index of each user and of each resource holds at most 1000 ids and the global one at most 10,000, each as many as there are up to its bound, and an id dropped is older than every id kept, or as old and before it as a text. |
| `AuthorizationLog.IndexesRefineHistory` | smp-auth-ts/src/clients/redis.client.ts:526-535 | After any log every index is the full history, filtered by user or resource, and cut to its highest ranks, ties in the order of the ids. |
| `AuthorizationLog.CuttingEarly` | smp-auth-ts/src/clients/redis.client.ts:532-534 | Cutting a sorted set after every insertion leaves what one cut at the end would leave. |
| `AuthorizationLog.TopSize` | smp-auth-ts/src/clients/redis.client.ts:532-534 | A cut keeps exactly as many members as its bound allows. |
| `AuthorizationLog.AuthorizationLogger.LogAuthorizationDecision` | smp-auth-ts/src/clients/redis.client.ts:526-535 | Adds the id to its three indexes and cuts each, which keeps them exact. |

## Left out

- SecondRunIsIdle: says nothing after a run with errors, which may leave rows without a mapping.
- RunShows: says nothing of the data in the row of a user that was skipped, which the service does not look at.
- RetriedIffListed: lower-cases ASCII letters only.
- IndexesKeepTheNewest: takes the three insertions of one decision to be made at one time.
- Whether a code is the right one for its method is an input of `MfaEngine`, for backup codes too.
- Backup codes generated on a first TOTP setup.
- Names, masks, metadata, `usedAt`, event emission, audit logs and console output.
- What a magic link's action does after it is reached (login, registration, e-mail verification, password reset).
- `parseInt` on white space other than space, tab, newline and carriage return; integers beyond those `toString` prints in full.
- The role and organisation tables, last-sync times, the sync log and its cancellation.
- The dry run of the whole bidirectional sync, which still writes roles and groups.
- OAuth account links and the Keycloak integration after the exchange.
- Interleavings of concurrent calls within one method; users of one batch are synced one after the other.
- Controllers, resolvers, the gateway, configuration loading and the session cookie service.
