# Brahma Path: the profile store, the daily cycle and start-up reconciliation

Brahma Path is a habit-tracking web application that takes a user through a
108-day program. Each day the user records a short video (a "check-in"), which
locks the day for 24 hours. The user can also keep a journal and earn milestone
badges. This project models the part of the application that holds state:

- **Profile store and journal store** (module `Storage`). The device keeps one
  key-value store with one key for the user's profile and one for the journal.
  `Storage.Store` is a class with one field per key. Each field holds
  `None` (the key is absent), `Parsed(v)` (a value that parses) or `Corrupt`
  (non-empty text that does not parse). An empty stored text is falsy, so the
  source reads it exactly as an absent key (services/storage.ts:21, 36, 47);
  the model represents it as `None`. Every profile write goes through `UpdateUser`,
  which is a shallow last-writer-wins merge (`Storage.Merge`) of a partial
  profile (`Types.Patch`) over the stored one. `SaveJournal` is an upsert keyed
  by the entry's day. `CheckDailyReset` is the 24-hour unlock rule.
- **Remote record mapping** (module `Remote`). This covers the profile-to-row
  mapping of a push, the row-to-profile overlay of a pull, and how every
  failure of the remote store collapses into "no profile" or a log line. The
  network is not modelled: what the remote store answered is a parameter.
- **Daily cycle** (module `Dashboard`). This covers the program day, the
  countdown to the next unlock (integer milliseconds, whole hours and leftover
  minutes), the reset when the countdown runs out, the check-in, the journal
  form, the newest-first journal list and the milestone badges.
  `Dashboard.DashboardView.Tick(user, now)` is one run of the minute timer.
- **Start-up and screens** (module `App`). At start-up the application first
  applies the daily reset. With a remote session, a remote profile wins when
  there is one; otherwise the local profile is stamped with the identity,
  stored and pushed. The first screen is chosen from the profile alone
  (`App.SelectScreen`). The screen handlers cover onboarding, commitment,
  sign-in, payment, logout and the dashboard's profile updates.
  `App.AppView.pushed` records, in call order, every profile handed to the push.
- **Day content** (module `Constants`). This covers the milestone table and
  `GetDayContent`.

Time is an integer number of milliseconds passed in as `now`. A timestamp
counts as present only when it is truthy, so a timestamp of `0` counts as absent
(`Types.HasTime`): it is neither pushed nor able to start a countdown. JavaScript
`null` and `undefined` are both `None`. A patch key that is present but holds
nothing is `Some(None)`.

The countdown is computed in two places that agree on when a day is over. The
dashboard tests `lastCompletionTime + 86400000 - now <= 0`. The store tests
that at least 24 hours have passed. `Dashboard.NextTick` and
`Dashboard.ResetRulesAgree` prove the two tests equal.

## Model

| member | source | states |
|---|---|---|
| `Decimal.IntToString` | constants.ts:66 | renders an integer as decimal text that is non-empty and starts with '-' exactly for negatives |
| `Decimal.IntToStringInjective` | constants.ts:66 | distinct integers render as distinct text (the rendering can be read back) |
| `Constants.MilestonesOrdered` | constants.ts:13-18 | the four milestone days strictly increase, all lie within the program, and the last is day 108 |
| `Constants.GetDayContent` | constants.ts:29-72 | the content is stamped with the requested day; a day in the special table gets its own entry, any other day the generic quote and the title "Day <d> Purification" |
| `Constants.SpecialDaysContent` | constants.ts:30-59 | exactly days 1 and 7 have a quote of their own, their entries are the tabled ones, and every other day gets the generic task and verse |
| `Constants.GenericTitle` | constants.ts:66 | the title is "Day ", then the day's decimal text, then " Purification" |
| `Constants.GenericTitlesDistinct` | constants.ts:63-71 | two generic days with the same title are the same day |
| `Storage.InitialState` | services/storage.ts:7-15 | the fresh profile: signed out, unpaid, day 0, no timestamps, nothing submitted, no addictions (a definition; its consequences are `App.FreshDevice`) |
| `Storage.Merge` | services/storage.ts:29 | every key the patch holds replaces the current value outright; every key it leaves out keeps the current value |
| `Storage.MergeDeterminedByFields` | services/storage.ts:29 | the key-by-key description of the merge determines the merged profile uniquely |
| `Storage.FullPatch` | App.tsx:39-42 | a whole profile passed as an update holds every key, with that profile's values |
| `Storage.MergeNoChanges` | services/storage.ts:29 | an update with `{}` leaves the profile unchanged |
| `Storage.MergeIdempotent` | services/storage.ts:29 | applying a patch twice equals applying it once, and `{}` afterwards changes nothing |
| `Storage.MergeFull` | App.tsx:39 | merging a whole profile gives exactly that profile, whatever was stored |
| `Storage.MergeReplacesList` | services/storage.ts:29 | a list value replaces the stored list, so `addictions: []` empties it |
| `Storage.WithoutDay` | services/storage.ts:39 | the entries of other days, no more than the input, and exactly the input's entries whose day differs |
| `Storage.WithoutDayAppend` | services/storage.ts:39 | filtering distributes over concatenation, so it keeps relative order |
| `Storage.WithoutDayTwice` | services/storage.ts:39 | filtering out one day twice is filtering it once |
| `Storage.Upsert` | services/storage.ts:39-40 | after a save the saved entry is last |
| `Storage.UpsertSingleForDay` | services/storage.ts:38-42 | after a save exactly one entry has the saved day, and it is the last one |
| `Storage.UpsertKeepsOthers` | services/storage.ts:39-42 | entries of every other day are kept in their original relative order, and nothing new besides the saved entry appears |
| `Storage.WithoutDayKeepsUnique` | services/storage.ts:39 | filtering keeps a journal that holds at most one entry per day |
| `Storage.UpsertKeepsUnique` | services/storage.ts:34-43 | saving preserves "at most one entry per day" |
| `Storage.UpsertSameDayTwice` | services/storage.ts:34-43 | saving two entries for one day equals saving only the second |
| `Storage.ResetDue` | services/storage.ts:51-60 | a reset is due exactly when the timestamp is truthy, at least 86400000 ms have passed since it, and the day is submitted (a definition; it agrees with the dashboard's test by `Dashboard.ResetRulesAgree`) |
| `Storage.Store.GetUser` | services/storage.ts:18-25 | the stored profile when it parses; exactly the initial state when the key is absent, holds empty text, or is corrupt |
| `Storage.Store.GetJournal` | services/storage.ts:45-48 | the stored entries; [] when the key is absent or holds empty text; a failure (the uncaught parse error) exactly when the stored text is non-empty and does not parse |
| `Storage.Store.UpdateUser` | services/storage.ts:27-32 | the result is the merge of the patch over the previously stored profile, it is what is now stored, and the journal is untouched |
| `Storage.Store.SaveJournal` | services/storage.ts:34-43 | when the journal parses it becomes the upsert of the entry; when it is corrupt the call fails and writes nothing; the profile is untouched |
| `Storage.Store.CheckDailyReset` | services/storage.ts:50-65 | when a truthy timestamp is at least 86400000 ms old and the day is submitted, the stored profile re-read with only the submitted flag cleared is stored and returned; otherwise nothing is written and the argument is returned |
| `Storage.Store.RemoveUser` | App.tsx:153 | the profile key is removed, reads fall back to the initial state, and the journal stays |
| `Remote.IsMissingTable` | services/storage.ts:92 | an error means a missing table when its message contains "Could not find the table" or its code is `42P01` (a definition) |
| `Remote.WireTime` | services/storage.ts:83-85 | a timestamp goes on the wire exactly when it is truthy, and unchanged |
| `Remote.ToRow` | services/storage.ts:70-88 | a row is produced exactly when the profile has a truthy id; it is keyed by that id and stamped with the push time |
| `Remote.Sync` | services/storage.ts:69-103 | without an id nothing is sent; otherwise success, a missing table (by message or code `42P01`), any other error and an exception each end in their log line and never reach the caller |
| `Remote.Overlay` | services/storage.ts:130-143 | the rebuilt profile has the session's id, is authenticated, keeps the local name and e-mail, takes the mirrored columns, and defaults null flags to false, a null day count to 0 and null addictions to exactly [] |
| `Remote.LoadProfile` | services/storage.ts:105-148 | a profile comes back exactly when the fetch returned a row; every error kind, an exception and a null row give none |
| `Remote.NotFoundLikeMissingTable` | services/storage.ts:113-127 | a missing row, a missing table and a null row give the caller the same result |
| `Remote.RoundTrip` | services/storage.ts:76-143 | pushing a profile with nonzero timestamps and defined addictions and loading its row back restores paid flag, start date, day count, completion time, submitted flag, addictions, age and reason |
| `Remote.ZeroTimestampIsLost` | services/storage.ts:83-85 | a completion time of 0 is pushed as null and comes back absent |
| `Remote.RoundTripOntoSelf` | services/storage.ts:76-143 | loading back the pushed row over the same authenticated profile gives that profile whole |
| `Dashboard.CurrentDay` | pages/Dashboard.tsx:84 | the day being worked on is one past the last completed day (a definition) |
| `Dashboard.IsLocked` | pages/Dashboard.tsx:85 | the day is open for a check-in exactly while today's video is not submitted (a definition) |
| `Dashboard.DaysRemaining` | pages/Dashboard.tsx:176 | the figure is negative exactly once 108 days are completed (it is not capped at 0), zero exactly while day 108 is the current day, and positive only before day 108 |
| `Dashboard.CountdownOf` | pages/Dashboard.tsx:94-99 | for a positive remaining time, the minutes lie in 0..59 and hours and minutes bracket the remaining time to within one minute |
| `Dashboard.FormatCountdown` | pages/Dashboard.tsx:100 | the countdown text ends in "m" |
| `Dashboard.FormatCountdownInjective` | pages/Dashboard.tsx:100 | two different countdowns never give the same text |
| `Dashboard.CountdownWithinDay` | pages/Dashboard.tsx:94-98 | with at most a day remaining the hours are at most 24, and exactly 24 only at the check-in instant |
| `Dashboard.NextTick` | pages/Dashboard.tsx:91-112 | the timer is idle exactly without a submission or without a truthy timestamp, resets exactly when the store's 24-hour rule holds, and otherwise counts down with bounded minutes |
| `Dashboard.ResetRulesAgree` | pages/Dashboard.tsx:94-97 | the dashboard's `diff <= 0` test and the store's "24 hours have passed" test coincide |
| `Dashboard.OpenDayHasNoCountdown` | pages/Dashboard.tsx:85-92 | while `isLocked` holds (no video yet today) the timer shows no countdown |
| `Dashboard.CheckInPatch` | pages/Dashboard.tsx:134-138 | the partial profile a check-in sends: the submitted flag, the prop's day count + 1 and the completion time (a definition; its effect is `CheckInEffect`) |
| `Dashboard.CheckInEffect` | pages/Dashboard.tsx:134-138 | a check-in sets the submitted flag and the completion time and counts exactly one more day than the prop, with no cap, leaving every other stored field alone |
| `Dashboard.LockedForOneDay` | pages/Dashboard.tsx:92-107 | after a check-in at a nonzero instant t, every tick before t + 24h counts down and every tick from then on resets |
| `Dashboard.CheckInAtZeroIsIgnored` | pages/Dashboard.tsx:92 | after a check-in at instant 0 the timer never counts down or resets |
| `Dashboard.CheckInCycleExample` | pages/Dashboard.tsx:94-138 | 23h59m after a check-in the countdown is 0 hours 1 minute ("0h 1m"); 24h01m after it the day resets |
| `Dashboard.IsUnlocked` | pages/Dashboard.tsx:317 | a badge is earned once the completed day count reaches its day (a definition) |
| `Dashboard.UnlockMonotone` | pages/Dashboard.tsx:317 | a badge earned by a profile is earned by every profile with at least as many completed days |
| `Dashboard.UnlockedArePrefix` | pages/Dashboard.tsx:316-317 | the earned badges are always a prefix of the milestone table |
| `Dashboard.CheckInKeepsBadges` | pages/Dashboard.tsx:317 | a check-in never takes away a badge earned by the prop, whatever the stored profile holds |
| `Dashboard.NewEntry` | pages/Dashboard.tsx:150-154 | a new journal entry is for day completed days + 1, dated now, with the given answers |
| `Dashboard.SortByDateDesc` | pages/Dashboard.tsx:123 | the journal as shown is sorted by date, newest first, and holds the same entries |
| `Dashboard.DashboardView.constructor` | pages/Dashboard.tsx:70-72 | the day content is fixed at mount for the current day; there is no countdown and no history yet |
| `Dashboard.DashboardView.Tick` | pages/Dashboard.tsx:91-112 | idle: countdown cleared, nothing written; counting: the countdown text is set, nothing written; reset: countdown cleared, the stored profile with only the submitted flag cleared is stored and reported |
| `Dashboard.DashboardView.CheckIn` | pages/Dashboard.tsx:127-143 | with a file, the stored profile is updated by the check-in and reported; without one nothing happens |
| `Dashboard.DashboardView.SubmitJournal` | pages/Dashboard.tsx:149-160 | the entry for the current day is upserted and the history becomes the stored journal newest first, including the new entry; a corrupt journal changes nothing |
| `Dashboard.DashboardView.OpenJournalTab` | pages/Dashboard.tsx:120-125 | the history becomes the stored journal newest first; when the journal text does not parse, `getJournal` throws out of the effect: `ok` is false and the history is left as it was |
| `App.SelectScreen` | App.tsx:50-58 | authenticated and paid gives the dashboard, authenticated and unpaid gives payment, otherwise a truthy reason gives the commitment screen, and anything else gives the landing page |
| `App.AfterReset` | App.tsx:29-30 | the start-up reset changes at most the submitted flag, clears it exactly when the 24-hour rule holds, and leaves no reset due |
| `App.Stamp` | App.tsx:42 | the profile bound to the session carries its id, is authenticated, is otherwise unchanged, and is pushed exactly when the id is non-empty |
| `App.FreshDevice` | services/storage.ts:7-15 | the initial profile opens on the landing page, has no reset due, is not pushed, and is its own merge with an empty patch |
| `App.SelectScreenExamples` | App.tsx:50-58 | a fresh device lands on the landing page; a reason without sign-in lands on the commitment screen |
| `App.AuthErrorText` | App.tsx:131 | the shown error is the provider's message, or "Authentication failed" when it is empty |
| `App.AppView.constructor` | App.tsx:12-24 | the component starts with the stored profile, the landing screen and empty credentials |
| `App.AppView.Initialize` | App.tsx:27-59 | the reset comes first; without a session the reset profile stands; with a session and a remote profile, that profile is stored and shown; with a session and none, the reset profile stamped with the session id and signed in is stored, shown and pushed; the screen is `SelectScreen` of the result; the journal is untouched |
| `App.AppView.OnAuthStateChange` | App.tsx:64-72 | the profile changes only when a session yields a remote profile, which is then stored; the screen stays |
| `App.AppView.HandleStart` | App.tsx:77 | moves to onboarding |
| `App.AppView.HandleOnboardingComplete` | App.tsx:79-85 | stores age and reason over the stored profile and moves to the commitment screen |
| `App.AppView.HandleCommitment` | App.tsx:87-89 | moves to the sign-in screen |
| `App.AppView.SetAuthEmail` | App.tsx:365 | sets the e-mail field only |
| `App.AppView.SetAuthPassword` | App.tsx:376 | sets the password field only |
| `App.AppView.HandleAuth` | App.tsx:91-135 | empty credentials change nothing; a failure sets the error and leaves profile and screen alone; a success with a user stores e-mail, id and `isAuthenticated` over the stored profile, pushes it and moves to payment |
| `App.AppView.HandlePayment` | App.tsx:137-149 | stores `hasPaid` and a start date of now, pushes the profile and moves to the dashboard |
| `App.AppView.HandleLogout` | App.tsx:151-159 | only the profile key is removed, so the profile is the initial state while the journal stays; the screen is the landing page and the credentials are cleared |
| `App.AppView.HandleUserUpdate` | App.tsx:161-165 | shows the reported profile and pushes it |

## Left out

- Rendering, styling, tabs and the bead tracker (components/, the render functions): these are presentation only.
- The network and the provider libraries (session lookup, sign-up, sign-in, sign-out, the `profiles` table): they are foreign code. Their answers are parameters instead: a session id, `Remote.FetchOutcome`, `Remote.UpsertOutcome` and `App.AuthOutcome`. `App.AppView.pushed` stands for the pushes themselves.
- Sign-up versus sign-in mode (`authMode`) and the `authLoading` flag: the mode only picks which provider call is made, and both answer with an `AuthOutcome`. The loading flag is back to false when the handler ends.
- JSON and ISO date text: serialisation is the identity on typed values, and dates are integer milliseconds. `Corrupt` stands for text that does not parse. Text that parses to the wrong shape (for example `null` or an array under the profile key) is outside the model. So is the range error a date conversion raises for times beyond the date range, which the push catches and logs.
- Numbers are integers. `NaN` (for example the age that `parseInt` gives for empty input) and fractional values are not modelled. The check `hoursSince >= 24` on floating-point hours is modelled as the exact integer test `now - t >= 86400000`. Rendering of integers of 10^21 and beyond, which JavaScript writes in exponent form, is not modelled.
- Timers and asynchrony: `setInterval`, the 2-second upload delay and the order in which awaited calls resume are not modelled. Each handler is one sequential step that takes `now`. `pushed` records the order of the calls, not the order in which the remote store applies them.
- The dashboard's draft answers (`journalAnswers`, its change handler and the clearing after a save): `SubmitJournal` takes the answers as a parameter.
- The journal is not re-sorted in storage. Only the shown list is sorted.
- `Dashboard.SortByDateDesc`: it proves the result is sorted and holds the same entries. It does not prove that entries with equal dates keep their order, which `Array.prototype.sort` guarantees.
- `Remote.LoadProfile`: the log lines of a load are not modelled. Only their common result matters to callers, and that is modelled.
- The random side-quest, the music tracks, `alert` and the console lines outside `Remote.Sync`: these are nondeterminism, media or I/O.
- The payment screen's back button (App.tsx:410): it is a screen change made inline in the render.
- What the framework does after an uncaught exception in an effect or a handler: the operations that can throw (a journal text that does not parse) return `ok == false` and leave the state as it was; the error's further propagation is not modelled.
- Wiring of the dashboard's callback: `Tick` and `CheckIn` return the profile that the dashboard passes to `onUpdateUser`. Passing it on is `App.AppView.HandleUserUpdate`.
