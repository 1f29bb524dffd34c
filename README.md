# AdsDuitID ledger, modelled in Dafny

AdsDuitID is a single-page app where members earn small amounts by solving
arithmetic captchas and watching ads. They refer friends for bonuses and
commissions and ask for payouts to a DANA wallet. An administrator approves or
rejects those payouts. All data sits in the browser's `localStorage`:
- `adsduit_users`, `adsduit_withdrawals` and `adsduit_referrals` hold the collections;
- `adsduit_user` and `adsduit_admin` hold the persisted session.

The auth provider also keeps an in-memory session: `user`, `isAuthenticated`
and `isAdmin`.

This project models the balance-and-referral ledger:

- **`Auth`** (`src/context/AuthContext.tsx`) covers mounting, login, registration with the referral bonus, logout, and `updateBalance` with its 20 % referrer commission.
  - The stored collections, the saved session keys and the in-memory session are the fields of the class `Auth.Ledger`.
  - Each method is proved equal to a function on the `LedgerState` value (`Mounted`, `AfterLogin`, `AfterRegister`, `AfterLogout`, `AfterUpdateBalance`).
  - The lemmas are stated about those functions.
- **`Withdraw`** (`src/pages/Withdraw.tsx`) covers the amount guards, the appended pending request, the debit of the stored balance at request time, and the per-user history.
- **`Admin`** (`src/pages/Admin.tsx`) covers approve and reject (with the refund), the newest-first listing, the status and search filter, and the summary figures.
- **`Signup`** (`src/pages/Register.tsx`) covers the form checks and the call into registration.
- **`Tasks`** (`src/pages/Tasks.tsx`) covers captcha generation and checking, the fifteen-second ad countdown and its reward, and the page state as the class `Tasks.TaskPage`.
- **`Router`** (`src/App.tsx`) covers the hash path, the three redirect guards and the page switch.
- **`Lists`** and **`Strings`** hold the JavaScript library behaviour these rely on.
  - `Lists`: `find`/`findIndex` (first match), `filter`, `reduce` as a sum, and a descending sort.
  - `Strings`: `Number.prototype.toString`, the global `parseInt`, ASCII `toLowerCase`, and `includes`.

Some inputs are parameters rather than computed values:
- Clock readings (`Date.now()`, `new Date()`) become `id` and `now`.
- The random draws (`Math.random()`) become `codeSuffix` and the `Draws` and `rewardDraw` values.

Ids come from the clock, so two records can share one. The model never assumes otherwise. Every `findIndex`/`find` takes the first match. Lemmas and handlers that need distinct ids say so in their requires (`UniqueIds`, a request id not yet stored, `PendingIfKnown`).

The session and the store are kept apart, as in the code. The model states what each handler writes to each; it claims no consistency between them.
- `updateBalance` writes the session copy over the stored record. The referrer is the first stored user holding the code. Its record is changed in place, so its own slot gets the commission. The same record is then also written to the first slot carrying its id. When ids collide, that slot's own record is replaced by the referrer's (`Auth.WithCommission`).
- When that referrer record is the one just stored for the session user, the in-memory session object receives the commission too. The model keeps this aliasing.
- A withdrawal debits only the stored record and the saved session key. The in-memory session keeps its old balance until the page reloads (`Auth.Ledger.Reload`).

Some behaviour of the code is worth stating plainly:
- **Signup bonus.** With a valid referral code, the code credits 50 to both the referrer and the newcomer, and writes a referral record with bonus 50.
- **Commission.** `updateBalance` credits the referrer's balance only. It writes no referral record and does not touch the referrer's `totalEarned`. It adds even a commission of 0.
- **Resolving a request.** Approve and reject do not check the request's status; there is no "already resolved" error. The page shows the buttons only next to pending requests. The handler methods therefore require a pending request, and `Admin.RejectTwiceRefundsTwice` shows what a repeated reject would do.
- **Referral codes.** The code is drawn once, with no retry on collision.
- **Login.** It never checks a member's password. Only the administrator pair compares one.

## Model

| member | source | states |
|---|---|---|
| Lists.FirstIndex | src/context/AuthContext.tsx:125 | `findIndex`: the result is the first index whose element satisfies the predicate, or none satisfies it |
| Lists.Filter | src/pages/Withdraw.tsx:42 | `filter`: keeps exactly the elements satisfying the predicate, never lengthens |
| Lists.SortDesc | src/pages/Admin.tsx:47-49 | the comparator `b - a` sort: result is a permutation of the input and descending in the key |
| Lists.SortedDescPairs | src/pages/Admin.tsx:47-49 | in the sorted list every earlier timestamp is at least every later one |
| Lists.SumPermutation | src/pages/Admin.tsx:109-111 | the `reduce` sum of a permutation equals the sum of the original |
| Lists.FilterKeepsAll | src/pages/Admin.tsx:109 | `filter` keeps the whole list exactly when every element passes |
| Lists.FilterSum | src/pages/Admin.tsx:109-111 | summing after `filter` equals summing the masked values over the whole list |
| Lists.FilterUpdateSum | src/pages/Admin.tsx:109-111 | replacing one element changes the filtered sum by exactly the removed and added contributions |
| Strings.NatToStringValue | src/pages/Tasks.tsx:47 | the decimal digits `toString` prints denote the number |
| Strings.ParseInt | src/pages/Withdraw.tsx:53 | a string that is empty after the leading white space is NaN; a first character 1-9 always reads a number; any other non-digit apart from a sign is NaN. ParseIntOfToString, TrimStart and DigitPrefix state the rest |
| Strings.ParseIntOfToString | src/pages/Tasks.tsx:47 | `parseInt(n.toString())` is `n` for every integer, negative ones included |
| Strings.TrimStart | src/pages/Withdraw.tsx:53 | `parseInt` skips a leading run of white space: the result is the suffix after a prefix of white space only, and does not start with white space |
| Strings.DigitPrefix | src/pages/Withdraw.tsx:53 | `parseInt` reads the longest prefix of valid digits, stopping at the first invalid character |
| Strings.Lower | src/pages/Admin.tsx:95 | `toLowerCase` keeps the length and lowers each ASCII capital |
| Strings.Contains | src/pages/Admin.tsx:97-99 | `includes` holds iff the needle is a prefix of some suffix of the haystack |
| Auth.Mounted | src/context/AuthContext.tsx:15-26 | on mount the session is the saved user, admin flag from the saved key, authenticated iff either key is present; storage untouched |
| Auth.AfterLogout | src/context/AuthContext.tsx:104-110 | logout clears the session and both saved keys, keeps the collections, and a remount stays logged out |
| Auth.LoginAccepted | src/context/AuthContext.tsx:28-48 | login succeeds iff the pair is the administrator's or some stored user has that DANA number |
| Auth.AfterLogin | src/context/AuthContext.tsx:28-48 | the administrator pair sets the admin flags and key; otherwise the first user with the number becomes the session and saved user; otherwise nothing changes |
| Auth.LoginIgnoresPassword | src/context/AuthContext.tsx:37-47 | for anything but the administrator pair the outcome does not depend on the password |
| Auth.NewUser | src/context/AuthContext.tsx:58-71 | a new account starts with zero balance, earnings, ads and referrals, an `ADS` code, and the given referral code as `referredBy` |
| Auth.ReferrerIndex | src/context/AuthContext.tsx:74-76 | only a non-empty code is looked up, and the result is the first user holding it, or none holds it |
| Auth.AfterRegister | src/context/AuthContext.tsx:50-102 | a taken DANA number changes nothing; otherwise the account is appended and becomes the session; a resolving code credits both sides 50, bumps the referrer's count and appends one record |
| Auth.RegisterBalanceTotal | src/context/AuthContext.tsx:73-95 | registration raises the sum of stored balances by 100 with a resolving code and by 0 without |
| Auth.RegisterNeverSelfReferral | src/context/AuthContext.tsx:73-93 | the credited referrer is an existing account, never the newcomer |
| Auth.CommissionIsFifth | src/context/AuthContext.tsx:135 | `Math.floor(amount * 0.2)` equals integer division by 5, rounding down, for every integer |
| Auth.Commission | src/context/AuthContext.tsx:135 | the referrer's share of a reward is a fifth of it, rounded down |
| Auth.IdSlot | src/context/AuthContext.tsx:137 | the write-back slot is the first one carrying the referrer's id, at or before the referrer |
| Auth.AfterUpdateBalance | src/context/AuthContext.tsx:112-143 | with a session: the saved user is the credited copy, earnings and ad count rise by the amount and one, withdrawals, referrals and flags unchanged; without one nothing changes |
| Auth.CreditWithReferrer | src/context/AuthContext.tsx:131-141 | with distinct ids and a distinct referrer: the user's slot holds the credited copy and the referrer's balance alone rises by a fifth, no referral record |
| Auth.CreditWithoutReferrer | src/context/AuthContext.tsx:112-129 | without a resolving referrer only the user's own slot changes, to the credited copy |
| Auth.Ledger.constructor | src/context/AuthContext.tsx:10-26 | the provider starts from storage as `Mounted` describes |
| Auth.Ledger.Reload | src/pages/Withdraw.tsx:96-98 | a page reload re-runs the mount effect on the current storage |
| Auth.Ledger.Login | src/context/AuthContext.tsx:28-48 | returns whether login was accepted and moves to `AfterLogin` |
| Auth.Ledger.Register | src/context/AuthContext.tsx:50-102 | returns false exactly for a taken DANA number and moves to `AfterRegister` |
| Auth.Ledger.Logout | src/context/AuthContext.tsx:104-110 | moves to `AfterLogout` |
| Auth.Ledger.UpdateBalance | src/context/AuthContext.tsx:112-143 | moves to `AfterUpdateBalance` |
| Withdraw.CheckRequest | src/pages/Withdraw.tsx:53-63 | NaN, 0 or under 100 is below minimum; otherwise no session or more than the session balance is insufficient; an accepted amount lies between 100 and the balance |
| Withdraw.AfterRequest | src/pages/Withdraw.tsx:65-89 | the pending request is appended; the user's first stored slot is debited and saved as session user when present, nothing debited otherwise; in-memory session untouched |
| Withdraw.Submit | src/pages/Withdraw.tsx:48-99 | reports the guard's error with no change, or returns the new request and moves to `AfterRequest` |
| Withdraw.SaveRequest | src/pages/Withdraw.tsx:65-89 | the writes after the guards: returns the pending request and moves to `AfterRequest` |
| Withdraw.RequestKeepsBalanceNonNegative | src/pages/Withdraw.tsx:60-89 | when the session copy agrees with storage, an accepted request leaves the stored balance non-negative, lowered by the amount |
| Withdraw.DoubleRequestOverdraws | src/pages/Withdraw.tsx:59-98 | before a reload the guard reads the undebited session copy: a second request that fits the old balance passes and drives the stored balance below zero |
| Withdraw.ReloadAfterRequest | src/pages/Withdraw.tsx:83-98 | after the reload the session user is the debited stored record |
| Withdraw.History | src/pages/Withdraw.tsx:41-45 | the history is a permutation of the user's own requests in storage, newest first |
| Admin.HandleApprove | src/pages/Admin.tsx:53-63 | the first request with the id becomes approved with a processing time; nothing else changes |
| Admin.HandleReject | src/pages/Admin.tsx:65-85 | the request becomes rejected and its amount goes back to the owner's first stored slot when present |
| Admin.UnknownRequestChangesNothing | src/pages/Admin.tsx:55-57 | an id no stored request carries changes neither the requests nor any balance (`Resolved`, `Refunded`) |
| Admin.MissingOwnerNoRefund | src/pages/Admin.tsx:75-79 | a rejected request whose owner is no longer stored refunds nothing |
| Admin.ResolveTouchesOneRequest | src/pages/Admin.tsx:55-59 | resolving changes only the status and processing time of that one request |
| Admin.RequestThenRejectRestores | src/pages/Admin.tsx:65-85 | a request followed by its rejection leaves every stored balance as before the request |
| Admin.RejectTwiceRefundsTwice | src/pages/Admin.tsx:65-85 | the handler does not look at the status: rejecting the same request twice refunds twice |
| Admin.Listing | src/pages/Admin.tsx:43-51 | the page list is a permutation of storage, newest first |
| Admin.Filtered | src/pages/Admin.tsx:92-103 | a request is shown iff it passes the status filter and, for a non-empty search, matches name, DANA number or DANA name |
| Admin.FilteredPassesAll | src/pages/Admin.tsx:92-103 | filter `all` with an empty search shows the whole list in order |
| Admin.SearchIgnoresQueryCase | src/pages/Admin.tsx:94-100 | the search gives the same answer for a query and its lowercase form |
| Admin.ComputeStats | src/pages/Admin.tsx:105-112 | the counts are the list lengths; pending is the number of pending requests, lies between 0 and the request count, and equals it iff every request is pending; total paid is the sum of the approved amounts; StatsOfListing, ApproveStats, RejectStats and RequestStats give its invariants |
| Admin.StatsOfListing | src/pages/Admin.tsx:105-112 | the figures over the sorted list equal the figures over storage |
| Admin.ApproveStats | src/pages/Admin.tsx:53-63 | approving a pending request lowers the pending count by one and raises the total paid by its amount |
| Admin.RejectStats | src/pages/Admin.tsx:65-85 | rejecting a pending request lowers the pending count by one and leaves the total paid |
| Admin.RequestStats | src/pages/Withdraw.tsx:78-80 | a new pending request raises the request and pending counts by one and leaves the total paid |
| Signup.Validate | src/pages/Register.tsx:37-51 | the first failing check wins: confirmation mismatch, then password under 6, then DANA number under 10; none fails iff all hold |
| Signup.ToRegisterData | src/pages/Register.tsx:56-63 | an empty referral field becomes no code; any other is passed as given, as are the name, DANA number, DANA name, email and password |
| Signup.Submit | src/pages/Register.tsx:33-72 | a failed check changes nothing; otherwise registration runs and a refused one is reported as already registered |
| Signup.EmptyCodeMeansNoReferral | src/pages/Register.tsx:62 | an empty referral field credits nobody, writes no record and leaves the newcomer at zero |
| Signup.ReferredSignupPaysBoth | src/pages/Register.tsx:56-63 | a valid form naming a stored code credits referrer and newcomer 50 each and records the referral with bonus 50 |
| Tasks.Reward | src/pages/Tasks.tsx:49 | the reward lies between 35 and 50 |
| Tasks.GenerateCaptcha | src/pages/Tasks.tsx:32-51 | the captcha carries the given id, a reward of 35 to 50, and as answer exactly the decimal `toString` of num1 plus or minus num2 |
| Tasks.CaptchaAnswerReadsBack | src/pages/Tasks.tsx:38-48 | the answer string reads back as num1 plus or minus num2, a value between -9 and 30 |
| Tasks.Tick | src/pages/Tasks.tsx:98-112 | a callback credits iff the timer is at most one, and otherwise lowers it |
| Tasks.CountdownCreditsOnce | src/pages/Tasks.tsx:97-114 | from timer t, no credit during t - 1 callbacks and exactly one at callback t, none after |
| Tasks.AdPaysOnceAfterFifteenSeconds | src/pages/Tasks.tsx:95 | the fifteen-second ad pays once, at the fifteenth callback |
| Tasks.StaleAdCredit | src/pages/Tasks.tsx:97-104 | the ad's credit as written: the saved user is the captured session copy credited |
| Tasks.StaleAdCreditLosesEarlierCredit | src/pages/Tasks.tsx:97-104 | a reward credited after the ad started is lost from the stored balance by the ad's credit |
| Tasks.CreditKeepsPlainSession | src/context/AuthContext.tsx:112-129 | crediting a session with no resolving referrer writes only its own slot and keeps that shape |
| Tasks.CreditsAccumulate | src/pages/Tasks.tsx:81-104 | two credits through the current session raise the stored and session balance by their sum |
| Tasks.CreditBeforeReloadUndoesDebit | src/pages/Withdraw.tsx:83-98 | a reward earned between a request and the reload writes back the stale session copy: the debit disappears |
| Tasks.TaskPage.constructor | src/pages/Tasks.tsx:55-60 | the page starts with a generated captcha, timer 0, no ad running or watched |
| Tasks.TaskPage.SubmitCaptcha | src/pages/Tasks.tsx:78-91 | the answer is accepted iff it equals the answer string; then the reward is credited and a new captcha drawn, else nothing changes |
| Tasks.TaskPage.StartWatchingAd | src/pages/Tasks.tsx:93-95 | offered only when no ad runs or was just watched; the timer starts at 15 |
| Tasks.TaskPage.AdTick | src/pages/Tasks.tsx:97-114 | one callback follows `Tick`; the crediting one stops the ad, marks it watched and credits the drawn reward |
| Tasks.TaskPage.AdMessageExpired | src/pages/Tasks.tsx:106-109 | three seconds after the reward the start button returns |
| Router.CurrentPath | src/App.tsx:14 | the path is never empty: an empty hash is `/` |
| Router.CurrentPathOfHash | src/App.tsx:19 | setting the hash to a path reads that path back |
| Router.Guard | src/App.tsx:27-46 | a guard redirects only to `/admin`, `/dashboard` or `/login` |
| Router.Route | src/App.tsx:27-66 | the admin page renders only for the administrator, member pages only for a signed-in non-administrator, login and signup only when signed out |
| Router.Switch | src/App.tsx:49-66 | the switch redirects only to `/dashboard` or `/login`, renders the landing page for an unknown path, and renders the admin page iff the path is `/admin` for the administrator; SwitchRedirectsUnreachable says its redirects never fire after the guards |
| Router.SwitchRedirectsUnreachable | src/App.tsx:49-66 | with reachable flags, the switch's own redirects never fire once the guards pass |
| Router.RedirectSettles | src/App.tsx:27-46 | every redirect lands on a path that renders a page |
| Router.SignedOutReachesLogin | src/App.tsx:40-45 | signed out, member and admin paths redirect to the login page, which renders |
| Router.SignedOutPages | src/App.tsx:40-45 | signed out, exactly `/`, `/login` and `/register` render; every other path redirects to the login page |
| Router.ProviderKeepsReachable | src/context/AuthContext.tsx:15-26 | every mounted state has an administrator flag only with the authenticated flag, and login, registration, logout and a credit keep that |
| Router.MemberPages | src/App.tsx:32-38 | a signed-in member renders exactly the three member pages and `/`; every other path redirects to the dashboard |

## Left out

- Storage and JSON: `localStorage` and `JSON.parse`/`JSON.stringify` are modelled as the fields holding the parsed collections. A missing key is an empty sequence. Malformed stored data, which would make `JSON.parse` throw, is not modelled.
- Dates: `Date` values, and their string form after a JSON round trip, are whole numbers. The sorts compare them as `getTime()` would.
- React: state setters, re-renders, effects, the unmount cleanup of the ad interval, and the `message` banners are not modelled. The hash navigation that pages perform and the `hashchange` listener are not modelled either. A `Router.Outcome` of `Redirect` stands for the next hash.
- Timers: `setTimeout` and `setInterval` are not modelled as timers. Their callbacks are methods the caller invokes: `Tasks.TaskPage.AdTick`, `Tasks.TaskPage.AdMessageExpired` and `Auth.Ledger.Reload`.
- Auth.Commission: `amount * 0.2` is computed on exact rationals. IEEE-754 rounding of the product is not modelled. The rewards the app credits are small integers, for which the floor is the same.
- Strings.Lower: only ASCII letters are lowered. Unicode case mapping is not modelled.
- `.length`: lengths count characters, not UTF-16 code units.
- Form validation: the browser's HTML constraint validation is not modelled, so the handlers accept inputs the browser never submits. This covers `required` and `min="100"` on the amount field (src/pages/Withdraw.tsx:228-229); the `required` fields, `type="email"` and `minLength={6}` of the signup form (src/pages/Register.tsx:114-227), where the last one makes the `PasswordTooShort` branch of `Signup.Validate` unreachable from the page; and the `required` captcha answer (src/pages/Tasks.tsx:225). The contracts hold for every input, so they cover a superset of what the page sends.
- Strings.ParseInt: it reads arbitrarily long digit runs exactly. The precision loss of doubles beyond 2^53 is not modelled. The amount field is `type="number"` with `min="100"`. Besides plain whole numbers of 100 or more, the browser also submits exponent forms such as `1e3` or `0.1e4`. `parseInt` reads these as 1 and 0, and the guard reports them as below the minimum.
- Auth.NewUser: the referral code's random suffix is a parameter. Its derivation from `Math.random().toString(36)` and its uniqueness are not modelled.
- Lists.SortDesc: the model states the permutation and the descending order. It does not state that requests with equal timestamps keep their stored order, as the stable `Array.prototype.sort` does.
- Admin.HandleApprove, Admin.HandleReject: they require that the first stored request with the id is pending (`Admin.PendingIfKnown`). The page offers the buttons on a row's own status, so when ids collide a pending row can share its id with an earlier resolved request. What a click on such a row does is not modelled.
- Withdraw.History: the optimistic prepend of the new request to the on-screen list before the reload is not modelled.
- Signup.Submit: the `catch` branch is unreachable, because `register` never throws with well-formed storage. The loading flag is not modelled.
- Pages: the landing page, dashboard and login page only display data or call `login`; they are not modelled. The `Task` and `AdWatch` record types are declared but never used by the code.
- Balance bound: `balance <= totalEarned` is not stated, because the code does not keep it. Signup bonuses, commissions and refunds raise the balance without raising earnings.
- Tasks.TaskPage.AdTick: it credits through the current session, which is the corrected behaviour of the finding below. `Tasks.StaleAdCredit` is the as-written credit.

## Findings

| source | as written | input that shows it | evidently intended | confidence | as-written member | corrected member |
|---|---|---|---|---|---|---|
| src/pages/Tasks.tsx:97-104 | the interval callback calls the `updateBalance` captured when the ad started, which credits the session user of that moment and writes it over the stored record | start the ad at balance B, answer a captcha worth 40 during the countdown, let the ad pay 35: the stored balance ends at B + 35 | the ad reward adds to the current balance: B + 75 | not executed | Tasks.StaleAdCreditLosesEarlierCredit | Tasks.CreditsAccumulate |
