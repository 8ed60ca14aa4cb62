# Hive analytics dashboard — verified model of its stateful core

Hive is a React/TypeScript analytics dashboard. Most of it renders literal
mock data. This project models the parts that do have behaviour:

- **Event recorder** (`src/utils/analytics.ts`): an in-memory event buffer behind an enabled flag.
  It is a class with `track`, `identify`, `page`, `getEvents`, `clearEvents`, `enable` and `disable`,
  plus the module wrappers around the shared instance.
- **Session replay** (`src/components/SessionReplay.tsx`):
  - the session search and filter;
  - the `m:ss` clock;
  - the duration-derived end of playback;
  - the playback controller driven by the one-second interval and the player buttons.
- **Admin panels**:
  - user filter, invite form, role/permission matrix and counts (`UserManagement.tsx`);
  - add-source form, record total, tabs and status badge (`EnrichmentSources.tsx`);
  - secret-visibility toggle, provider statistics, provider selection and add form (`SSOConfiguration.tsx`);
  - guide tab filter, statistics and detail view (`GuidesIntegrations.tsx`);
  - snapshot search/period filter and row actions (`DataHistoryManager.tsx`).
- **AI analyst chat** (`src/components/AI/AIAnalyst.tsx`): the blank-input guard, the append-only
  transcript, the delayed reply and the keyword responder.
- **Metric cards** (`src/components/Analytics/CoreAnalyticsCharts.tsx`): name-based value formats,
  the `Nm Ss` duration, the trend icon and the change line.
- **Mock authentication** (`src/contexts/AuthContext.tsx`): `useAuth`, `login`, `signup` and `logout`.

Layout: one module per source file (`EventRecorder`, `SessionReplay`, `UserManagement`,
`AIAnalyst`, `EnrichmentSources`, `SsoConfiguration`, `GuidesIntegrations`, `DataHistory`,
`CoreAnalyticsCharts`, `AuthContext`) and three shared modules:

- `Wrappers`: `Option` and `Result`.
- `Strings`: the JavaScript string behaviour the components rely on.
  - ASCII `toLowerCase` and `includes`;
  - `trim` with ECMAScript's whitespace set;
  - `Number.prototype.toString` on integers and reading numerals back;
  - `padStart`, `split("@")[0]` and capitalisation;
  - truncating division and `%`.
- `Seqs`: `filter` as an order-preserving subsequence, `reduce` sums, `new Set(...).size`, and `find`.

How the source's forms map to the model:

- State a component changes step by step becomes a class. Its fields are the component's
  state, and each handler is a method whose postcondition gives the whole new state.
- The recorder and the playback controller are also specified by pure step functions
  (`EventRecorder.Step`, `SessionReplay.Tick`, ...). Their properties over runs of calls are proved as lemmas.
- Callbacks passed in as props (`onInviteUser`, `onAddSource`, `onSendMessage`, `onSessionSelect`, ...)
  become logs: sequence fields that record each call's argument.
- Timer callbacks become explicit step methods: the playback tick, the chat reply and the end of a login.

Session-replay time is counted in half-seconds, so the speeds 0.5x, 1x, 1.5x and 2x are 1, 2, 3 and 4 units per tick.
JavaScript's `NaN`, which `parseFloat` yields for a duration with no leading numeral, is the value `NaN` of `SessionReplay.Num`.

## Model

| member | source | states |
|---|---|---|
| `EventRecorder.PageProperties` | src/utils/analytics.ts:42-45 | The "Page View" properties always carry "page". It is the page name unless the caller's properties have their own "page", which wins because it is spread afterwards. The keys are the caller's plus "page", and every caller value is kept. |
| `EventRecorder.Step` | src/utils/analytics.ts:18-62 | One recorder call. Only enable and disable change the flag. Clear empties the list. Track and page append exactly their one event at the end while enabled. Every other call, and track or page while disabled, leaves the list unchanged. |
| `EventRecorder.ReplayConcat` | src/utils/analytics.ts:9-63 | Running two call sequences one after the other is the same as running their concatenation. |
| `EventRecorder.ReplayAppendOnly` | src/utils/analytics.ts:27 | Without a clear, earlier events are never changed or reordered. The list only grows at its end. |
| `EventRecorder.DisabledRecordsNothing` | src/utils/analytics.ts:19 | While disabled, with no enable or clear in between, any run of calls leaves the state unchanged. |
| `EventRecorder.Recorded` | src/utils/analytics.ts:48-50 | The events a run of calls records: one per track or page call, in call order, never more than there are calls. |
| `EventRecorder.EnabledRecordsEverything` | src/utils/analytics.ts:21-27 | While enabled, with no disable or clear, the list afterwards is the old list followed by exactly the track and page events, in order. |
| `EventRecorder.ClearForgetsEarlierEvents` | src/utils/analytics.ts:52-54 | After a clear, the list holds only what later calls recorded. The enabled flag is carried across the clear. |
| `EventRecorder.Analytics.constructor` | src/utils/analytics.ts:10-16 | A new recorder is enabled and has no events. |
| `EventRecorder.Analytics.Track` | src/utils/analytics.ts:18-31 | While enabled, appends `{name, properties}` at the end. While disabled, nothing changes. This equals `Step` on the recorder's state. |
| `EventRecorder.Analytics.Identify` | src/utils/analytics.ts:33-37 | Changes neither the events nor the flag, enabled or not. |
| `EventRecorder.Analytics.Page` | src/utils/analytics.ts:39-46 | While enabled, appends one "Page View" event with the merged page properties. While disabled, nothing changes. |
| `EventRecorder.Analytics.GetEvents` | src/utils/analytics.ts:48-50 | Returns exactly the recorded list. |
| `EventRecorder.Analytics.ClearEvents` | src/utils/analytics.ts:52-54 | Empties the list and keeps the flag. |
| `EventRecorder.Analytics.Disable` | src/utils/analytics.ts:56-58 | Clears the flag and keeps the events. |
| `EventRecorder.Analytics.Enable` | src/utils/analytics.ts:60-62 | Sets the flag and keeps the events, so later tracks record again. |
| `EventRecorder.TrackEvent` | src/utils/analytics.ts:68-70 | Has the same effect on the recorder as its `track`. |
| `EventRecorder.TrackPageView` | src/utils/analytics.ts:72-77 | Has the same effect on the recorder as its `page`. |
| `EventRecorder.IdentifyUser` | src/utils/analytics.ts:79-81 | Leaves the recorder unchanged. |
| `SessionReplay.FilteredSessions` | src/components/SessionReplay.tsx:290-299 | A session is listed iff its email or user id contains the search (ignoring case) and the device and status filters are each "all" or its own. The result is an order-preserving subsequence. Each listed entry appears exactly as many times as in the input, so repeated entries are kept, not merged. |
| `SessionReplay.DefaultFiltersListEverything` | src/components/SessionReplay.tsx:241-243 | With the initial empty search and "all" filters, every session is listed, in order. |
| `SessionReplay.EngagementLabel` | src/components/SessionReplay.tsx:728 | "High" exactly when clicks exceed 20, otherwise "Medium". |
| `SessionReplay.TwoDigits` | src/components/SessionReplay.tsx:304 | Seconds below 60 render as exactly two digits that read back as the number. |
| `SessionReplay.FormatTime` | src/components/SessionReplay.tsx:301-305 | `formatTime`: minutes by floor division, seconds by truncating remainder padded to two characters, and "NaN:NaN" for NaN. Its shape and read-back are stated by `FormatTimeShape` and `ClockSecondsRoundTrip`. |
| `SessionReplay.FormatTimeShape` | src/components/SessionReplay.tsx:301-305 | For a time that is not negative, the clock text is the whole minutes, a colon, and the seconds within the minute as two zero-padded digits. |
| `SessionReplay.ClockSecondsOf` | src/components/SessionReplay.tsx:301-305 | Reading "m:ss" back gives m·60+ss. |
| `SessionReplay.WholeSecondsReadBack` | src/components/SessionReplay.tsx:301-305 | Any whole number of seconds, written as minutes and two-digit seconds, reads back as itself. |
| `SessionReplay.ClockSecondsRoundTrip` | src/components/SessionReplay.tsx:301-305 | Reading the clock text back gives the whole seconds elapsed (minutes·60 + seconds = floor of the time). |
| `SessionReplay.LeadingDigits` | src/components/SessionReplay.tsx:252 | The numeral `parseFloat` reads is the longest run of digits at the start of the text. |
| `SessionReplay.LeadingDigitsOf` | src/components/SessionReplay.tsx:252 | A numeral followed by a non-digit is read up to that character. |
| `SessionReplay.ParseLeadingInt` | src/components/SessionReplay.tsx:252 | `parseFloat` on a duration: NaN when the text starts with no sign or digit, a non-negative number when it starts with a digit, and a number that is not positive after a leading "-". Its value is stated by `ParseLeadingIntOf` and `ParseLeadingIntOfNegative`. |
| `SessionReplay.ParseLeadingIntOf` | src/components/SessionReplay.tsx:252 | A text made of a numeral followed by anything that does not start with a digit (such as "12abc" or "5:23") parses as exactly that numeral's value. |
| `SessionReplay.ParseLeadingIntOfNegative` | src/components/SessionReplay.tsx:252 | With a leading "-", the same text parses as the negated value (for example "-3:00" gives -3). |
| `SessionReplay.MaxTimeAsWritten` | src/components/SessionReplay.tsx:252 | As written, the end of playback is the duration's leading number times 60 seconds, or NaN when the duration has no leading number. |
| `SessionReplay.MaxTimeAsWrittenDropsSeconds` | src/components/SessionReplay.tsx:252 | As written, every "m:ss" duration ends at m·60 seconds and ignores ss. |
| `SessionReplay.SampleDurationEndsEarly` | src/components/SessionReplay.tsx:433 | "5:23" ends at 300 seconds, although the clock reading of "5:23" is 323 seconds. |
| `SessionReplay.MaxTime` | src/components/SessionReplay.tsx:252 | The corrected end of playback: the m·60+ss seconds of a well-formed "m:ss" duration, and the as-written value for any other text. |
| `SessionReplay.MaxTimeMatchesClock` | src/components/SessionReplay.tsx:301-305 | The corrected end of playback of a duration written by the clock is the time it shows. |
| `SessionReplay.InitialPlayer` | src/components/SessionReplay.tsx:234-239 | The player starts on the first session, or none if the list is empty, at time 0, paused, at 1x. |
| `SessionReplay.Tick` | src/components/SessionReplay.tsx:247-262 | Ticking only acts while playing with a session. At or past the end, time becomes exactly the end and playback stops. Before the end, time advances by the speed and play continues. Session and speed never change. The end is a parameter: `AsWritten` is `parseFloat(duration) * 60`, as the component ships, and `Intended` is the corrected `MaxTime`. |
| `SessionReplay.Rewind` | src/components/SessionReplay.tsx:551-553 | Rewinding gives max(0, t−10 s): never negative, 10 s back when possible. |
| `SessionReplay.FastForward` | src/components/SessionReplay.tsx:571-573 | Fast-forwarding gives min(end, t+10 s): never past the end, 10 s ahead when possible. Under `AsWritten` the end is the `maxTime` of line 433, `parseFloat(duration) * 60`. |
| `SessionReplay.Reset` | src/components/SessionReplay.tsx:580 | Reset sets time to 0 and changes nothing else. |
| `SessionReplay.TogglePlay` | src/components/SessionReplay.tsx:531 | The play buttons flip `isPlaying` and change nothing else. |
| `SessionReplay.SelectSession` | src/components/SessionReplay.tsx:307-310 | Selecting a session makes it current, at time 0, paused, with the speed kept. |
| `SessionReplay.SetSpeed` | src/components/SessionReplay.tsx:607-620 | Choosing a speed changes only the speed. |
| `SessionReplay.SampleSessionStopsEarly` | src/components/SessionReplay.tsx:250-258 | The first default session "5:23", playing at 1x at 5:00: the shipped player stops and stays at 5:00, and fast-forward from 4:55 lands on 5:00. With the intended end, the tick plays on to 5:01 and fast-forward reaches 5:05. |
| `SessionReplay.PlayAtEndStopsAtOnce` | src/components/SessionReplay.tsx:253-256 | For either end, including the shipped one: pressing play at or past the end stops again on the next tick, with time set to the end. |
| `SessionReplay.TickOvershootsThenSettles` | src/components/SessionReplay.tsx:253-257 | For either end: the check comes before the add, so a tick from just below the end passes it by less than one step. The next tick pulls time back to the end and stops. |
| `SessionReplay.ClockDurationPlayable` | src/components/SessionReplay.tsx:102-199 | Every session whose duration is a well-formed "m:ss", as each default session's is, has a finite end that is not negative under either rule. |
| `SessionReplay.ActionPreservesInv` | src/components/SessionReplay.tsx:247-620 | For either end: every player action keeps time finite, not negative, and less than one 2x step past the end. |
| `SessionReplay.PlaybackStops` | src/components/SessionReplay.tsx:247-262 | For either end, including the shipped `parseFloat(duration) * 60`: from any valid state, after enough ticks playback has stopped, exactly at the end if it was playing. |
| `SessionReplay.PlaybackController.constructor` | src/components/SessionReplay.tsx:234-239 | The controller starts in the initial player state with no reported selections. It keeps the end rule it is built with; `AsWritten` gives the component as it ships. |
| `SessionReplay.PlaybackController.OnTick` | src/components/SessionReplay.tsx:250-258 | The interval callback applies one `Tick` with the controller's end rule. |
| `SessionReplay.PlaybackController.OnRewind` | src/components/SessionReplay.tsx:551-553 | Applies `Rewind`. |
| `SessionReplay.PlaybackController.OnFastForward` | src/components/SessionReplay.tsx:571-573 | Applies `FastForward` with the controller's end rule. |
| `SessionReplay.PlaybackController.OnReset` | src/components/SessionReplay.tsx:580 | Applies `Reset`. |
| `SessionReplay.PlaybackController.OnTogglePlay` | src/components/SessionReplay.tsx:560 | Applies `TogglePlay`. |
| `SessionReplay.PlaybackController.OnSessionSelect` | src/components/SessionReplay.tsx:307-312 | Applies `SelectSession` and reports the session's id exactly once. |
| `SessionReplay.PlaybackController.OnSpeedChange` | src/components/SessionReplay.tsx:609 | Applies `SetSpeed`. |
| `UserManagement.FilteredUsers` | src/components/UserManagement/UserManagement.tsx:200-208 | A user is listed iff their name or email contains the search (ignoring case) and the role and status filters are each "all" or their own. The result is an order-preserving subsequence. Each listed entry appears exactly as many times as in the input, so repeated entries are kept, not merged. |
| `UserManagement.DefaultFiltersListEverything` | src/components/UserManagement/UserManagement.tsx:200-208 | The empty search with "all" filters lists every user, in order. |
| `UserManagement.InviteForm.constructor` | src/components/UserManagement/UserManagement.tsx:153-155 | The invite form starts closed, with an empty email and the role "viewer". |
| `UserManagement.InviteForm.Open` | src/components/UserManagement/UserManagement.tsx:308 | "Invite User" opens the form and keeps the draft. |
| `UserManagement.InviteForm.Cancel` | src/components/UserManagement/UserManagement.tsx:406 | Cancel closes the form and keeps the draft. |
| `UserManagement.InviteForm.OnEmailChange` | src/components/UserManagement/UserManagement.tsx:387 | Typing sets the email only. |
| `UserManagement.InviteForm.OnRoleChange` | src/components/UserManagement/UserManagement.tsx:392 | Choosing a role sets the role only. |
| `UserManagement.InviteForm.HandleInviteUser` | src/components/UserManagement/UserManagement.tsx:210-216 | With an empty email nothing happens. Otherwise `onInviteUser(email, role)` is called once, the email is cleared, the form closes and the role is kept. |
| `UserManagement.GrantedPermissions` | src/components/UserManagement/UserManagement.tsx:539-560 | A role's ticked permissions are drawn from the four listed permissions. |
| `UserManagement.PermissionMatrix` | src/components/UserManagement/UserManagement.tsx:550-560 | Admin has all four permissions. Editor has all but "Admin Settings". Analyst has "View Analytics" and "Export Data". Viewer has only "View Analytics". |
| `UserManagement.PermissionsNested` | src/components/UserManagement/UserManagement.tsx:550-560 | Viewer ⊂ analyst ⊂ editor ⊂ admin, each strictly. |
| `UserManagement.RoleCount` | src/components/UserManagement/UserManagement.tsx:535 | A role's count never exceeds the number of users. |
| `UserManagement.StatusCount` | src/components/UserManagement/UserManagement.tsx:337 | A status's count never exceeds the number of users. |
| `UserManagement.RoleCountsSumToTotal` | src/components/UserManagement/UserManagement.tsx:527-535 | The four role counts add up to the total user count, because every user has one of the four roles. |
| `UserManagement.ActiveAndPendingBounded` | src/components/UserManagement/UserManagement.tsx:322-351 | Active and Pending count different users, so together they are at most the total. |
| `AIAnalyst.FirstKeyFrom` | src/components/AI/AIAnalyst.tsx:181-183 | `find` over the response keys returns the first key, in key order, that the text contains. It returns none exactly when no key occurs. |
| `AIAnalyst.GenerateAIResponse` | src/components/AI/AIAnalyst.tsx:169-185 | The reply is the response of the first key found in the lower-cased input, and the default text when none is found. |
| `AIAnalyst.ResponsePrecedence` | src/components/AI/AIAnalyst.tsx:170-184 | "engagement" beats "conversion", which beats "retention". With none of them the default text is returned. |
| `AIAnalyst.DefaultKeywordIsAKey` | src/components/AI/AIAnalyst.tsx:177-184 | An input whose only keyword is "default" matches the key "default" itself. |
| `AIAnalyst.KeyOrderBeatsPosition` | src/components/AI/AIAnalyst.tsx:181-183 | Precedence is key order, not position in the text: "conversion … engagement" gets the engagement reply. |
| `AIAnalyst.SendDisabled` | src/components/AI/AIAnalyst.tsx:461 | The send button is disabled, and a send ignored, exactly when the input consists of whitespace only, the empty input included. |
| `AIAnalyst.ChatPanel.constructor` | src/components/AI/AIAnalyst.tsx:66-128 | The chat starts with its greeting messages, an empty input and no typing indicator. |
| `AIAnalyst.ChatPanel.OnInputChange` | src/components/AI/AIAnalyst.tsx:444 | Typing sets the input only. |
| `AIAnalyst.ChatPanel.HandleSendMessage` | src/components/AI/AIAnalyst.tsx:139-153 | A blank input changes nothing. Otherwise one user message with the untrimmed input is appended at the end. The input is cleared, typing is shown, `onSendMessage` is called once, and the sent text is queued for a reply. |
| `AIAnalyst.ChatPanel.DeliverReply` | src/components/AI/AIAnalyst.tsx:155-166 | The reply timer appends exactly one AI message, the reply to the text that was sent rather than the cleared field. It clears the typing indicator. Earlier messages stay as they were. |
| `EnrichmentSources.SubmittedSource` | src/components/DataSources/EnrichmentSources.tsx:148-154 | The record passed to `onAddSource` keeps the draft's name, type, description and last sync. It always has the new id, status "disconnected", record count 0 and an empty config, whatever the draft held. |
| `EnrichmentSources.SubmittedSourceIsFresh` | src/components/DataSources/EnrichmentSources.tsx:147-154 | An accepted draft with a description yields a complete source of the chosen name and type, disconnected and empty, that adds nothing to Total Records. |
| `EnrichmentSources.AddSourceForm.constructor` | src/components/DataSources/EnrichmentSources.tsx:98-99 | The form starts closed with an empty draft. |
| `EnrichmentSources.AddSourceForm.Open` | src/components/DataSources/EnrichmentSources.tsx:243 | "Add Source" opens the form and keeps the draft. |
| `EnrichmentSources.AddSourceForm.Cancel` | src/components/DataSources/EnrichmentSources.tsx:370-371 | Cancel closes the form without clearing the draft. |
| `EnrichmentSources.AddSourceForm.OnNameChange` | src/components/DataSources/EnrichmentSources.tsx:327 | Sets the draft's name only. |
| `EnrichmentSources.AddSourceForm.OnTypeChange` | src/components/DataSources/EnrichmentSources.tsx:336-339 | Sets the draft's type only. |
| `EnrichmentSources.AddSourceForm.OnDescriptionChange` | src/components/DataSources/EnrichmentSources.tsx:363 | Sets the draft's description only. |
| `EnrichmentSources.AddSourceForm.HandleAddSource` | src/components/DataSources/EnrichmentSources.tsx:146-158 | Without a non-empty name and a type nothing happens. Otherwise exactly one record is emitted, the draft is emptied and the form closes. |
| `EnrichmentSources.TotalRecordsAppend` | src/components/DataSources/EnrichmentSources.tsx:287-288 | Each source adds its record count to Total Records, and a source without a count adds 0. |
| `EnrichmentSources.TotalRecords` | src/components/DataSources/EnrichmentSources.tsx:287-288 | The Total Records card: the sum of the record counts, a missing count read as 0. `TotalRecordsAppend` and `TotalRecordsBoundsEach` state its properties. |
| `EnrichmentSources.TotalRecordsBoundsEach` | src/components/DataSources/EnrichmentSources.tsx:287-288 | With no negative counts, the total is not negative and is at least every single source's count. |
| `EnrichmentSources.TabSources` | src/components/DataSources/EnrichmentSources.tsx:396-420 | "All" lists every source. Connected, Databases and APIs list exactly the sources with that status or type. Each list is an order-preserving subsequence, and the tab label shows its length. Each listed entry appears exactly as many times as in the input, so repeated entries are kept, not merged. |
| `EnrichmentSources.TabCount` | src/components/DataSources/EnrichmentSources.tsx:384-392 | A tab label's count: at most the number of sources, and all of them on "All Sources". |
| `EnrichmentSources.SyncingCount` | src/components/DataSources/EnrichmentSources.tsx:303 | The Sync Status card: the number of syncing sources, at most the number of sources. |
| `EnrichmentSources.StatusCountsBounded` | src/components/DataSources/EnrichmentSources.tsx:271-303 | Connected and Syncing count different sources, so together they are at most Total Sources. The Databases and APIs tab counts likewise fit within All Sources. |
| `EnrichmentSources.StatusBadgeLabel` | src/components/DataSources/EnrichmentSources.tsx:124 | The badge shows the status with its first letter upper-cased and the rest unchanged. |
| `EnrichmentSources.StatusBadgeLabels` | src/components/DataSources/EnrichmentSources.tsx:112-127 | The four badges read "Connected", "Disconnected", "Error" and "Syncing". |
| `SsoConfiguration.Toggled` | src/components/SSO/SSOConfiguration.tsx:146-149 | Toggling negates the key's visibility, where an absent key counts as hidden, so the first toggle shows the secret. Every other entry is kept, and only that key may be added. |
| `SsoConfiguration.ToggleTwice` | src/components/SSO/SSOConfiguration.tsx:146-149 | Toggling twice restores every key's visibility. A secret never toggled before is hidden again. |
| `SsoConfiguration.SecretKeysDistinct` | src/components/SSO/SSOConfiguration.tsx:293-303 | Different providers' client-secret keys differ, so one provider's toggle never reveals another's secret. |
| `SsoConfiguration.SecretInputType` | src/components/SSO/SSOConfiguration.tsx:292-294 | The secret field is plain text exactly when its key is shown, and a password field otherwise. |
| `SsoConfiguration.ActiveUsers` | src/components/SSO/SSOConfiguration.tsx:480 | The Active Users card: the sum of the providers' user counts, never negative when no count is. |
| `SsoConfiguration.ActiveUsersAppend` | src/components/SSO/SSOConfiguration.tsx:480 | Active Users is additive over the provider list. With no negative user counts, it is at least the users of any part. |
| `SsoConfiguration.ActiveCount` | src/components/SSO/SSOConfiguration.tsx:494 | The Active card never exceeds the number of providers. |
| `SsoConfiguration.AllDomains` | src/components/SSO/SSOConfiguration.tsx:508 | The flattened domain list holds exactly the domains some provider lists. Its length is the total number of listed domains. |
| `SsoConfiguration.DomainCount` | src/components/SSO/SSOConfiguration.tsx:508 | The Domains card counts distinct domains, so it never exceeds the total number listed. |
| `SsoConfiguration.SharedDomainCountedOnce` | src/components/SSO/SSOConfiguration.tsx:508 | A domain listed by two providers counts once. |
| `SsoConfiguration.CurrentView` | src/components/SSO/SSOConfiguration.tsx:331-335 | The configuration view is shown iff the selected id is non-empty and matches a provider. It shows the first provider with that id, as `find` does. Otherwise the list is shown. |
| `SsoConfiguration.SsoPanel.constructor` | src/components/SSO/SSOConfiguration.tsx:105-108 | Nothing selected, the form closed, an empty draft and no visible secrets. |
| `SsoConfiguration.SsoPanel.ToggleSecretVisibility` | src/components/SSO/SSOConfiguration.tsx:146-149 | Applies `Toggled` at key `id-field` and changes no other state. |
| `SsoConfiguration.SsoPanel.Configure` | src/components/SSO/SSOConfiguration.tsx:194 | Selects the provider's id and changes nothing else. |
| `SsoConfiguration.SsoPanel.Back` | src/components/SSO/SSOConfiguration.tsx:337 | Clears the selection, which returns to the list. |
| `SsoConfiguration.SsoPanel.OpenAddForm` | src/components/SSO/SSOConfiguration.tsx:450 | Opens the add form. |
| `SsoConfiguration.SsoPanel.CancelAddForm` | src/components/SSO/SSOConfiguration.tsx:561 | Closes the add form and keeps the draft. |
| `SsoConfiguration.SsoPanel.OnNameChange` | src/components/SSO/SSOConfiguration.tsx:532 | Sets the draft's name only. |
| `SsoConfiguration.SsoPanel.OnTypeChange` | src/components/SSO/SSOConfiguration.tsx:540-543 | Sets the draft's type only. |
| `SsoConfiguration.SsoPanel.AddProvider` | src/components/SSO/SSOConfiguration.tsx:565 | Forwards the draft exactly as it stands, even an empty one. It neither closes the form nor resets the draft. |
| `GuidesIntegrations.FilteredGuides` | src/components/Integrations/GuidesIntegrations.tsx:299-303 | "all" keeps every guide. "completed" keeps exactly the guides whose `isCompleted` is true. Any other tab keeps a guide iff its category or platform equals the tab. The result is an order-preserving subsequence. Each listed entry appears exactly as many times as in the input, so repeated entries are kept, not merged. |
| `GuidesIntegrations.AllPlatformGuideNotOnPlatformTabs` | src/components/Integrations/GuidesIntegrations.tsx:300-302 | A guide for platform "all" appears under All Guides but not under Web or Mobile. |
| `GuidesIntegrations.CompletedCount` | src/components/Integrations/GuidesIntegrations.tsx:532 | Completed never exceeds Total Guides. |
| `GuidesIntegrations.CompletedCountMatchesTab` | src/components/Integrations/GuidesIntegrations.tsx:532 | The Completed card counts exactly the guides the Completed tab lists. |
| `GuidesIntegrations.PlatformsOf` | src/components/Integrations/GuidesIntegrations.tsx:546 | The platform list has one entry per guide, in order. |
| `GuidesIntegrations.PlatformCount` | src/components/Integrations/GuidesIntegrations.tsx:546 | The Platforms card: the number of distinct platforms the guides name. `PlatformCountBounds` states its bounds. |
| `GuidesIntegrations.PlatformCountBounds` | src/components/Integrations/GuidesIntegrations.tsx:546 | Platforms counts distinct platforms. It is at most the number of guides and at most 4, and at least 1 when there is a guide. |
| `GuidesIntegrations.CurrentView` | src/components/Integrations/GuidesIntegrations.tsx:474-483 | The detail view is shown iff the selected id is non-empty and matches a guide, and it shows the first guide with that id, as `find` does. After Back (no selection) the list is shown. |
| `GuidesIntegrations.SelectOpensClickedGuide` | src/components/Integrations/GuidesIntegrations.tsx:314 | With unique ids, clicking a card opens exactly that guide. |
| `DataHistory.FilteredSnapshots` | src/components/DataHistory/DataHistoryManager.tsx:139-150 | A snapshot is listed iff it has a description containing the search (ignoring case) and its period matches. "all" has no limit, "week" needs a time strictly after now − 7 days, and "month" strictly after now − 30 days. The result is an order-preserving subsequence. Each listed entry appears exactly as many times as in the input, so repeated entries are kept, not merged. |
| `DataHistory.UndescribedNeverShown` | src/components/DataHistory/DataHistoryManager.tsx:140-149 | A snapshot without a description is never listed, whatever the search and period. |
| `DataHistory.EmptySearchListsDescribed` | src/components/DataHistory/DataHistoryManager.tsx:140-149 | The empty search over all time lists exactly the described snapshots. |
| `DataHistory.UnknownPeriodListsNothing` | src/components/DataHistory/DataHistoryManager.tsx:143-148 | A period other than "all", "week" and "month" lists nothing. |
| `DataHistory.PeriodsNested` | src/components/DataHistory/DataHistoryManager.tsx:143-148 | For one search and one `now`, the week's list is an ordered selection of the month's, and the month's of the all-time list. |
| `DataHistory.ActionsFor` | src/components/DataHistory/DataHistoryManager.tsx:326-338 | Restore is enabled exactly for completed snapshots. Delete is always enabled. |
| `CoreAnalyticsCharts.DisplayValueByPrecedence` | src/components/Analytics/CoreAnalyticsCharts.tsx:77-86 | The overwriting assignments amount to a precedence: a "Duration" name gets the duration text, then "Revenue" gets currency, then "Rate" or "Bounce" gets a percentage, and anything else the plain number. |
| `CoreAnalyticsCharts.DisplayValue` | src/components/Analytics/CoreAnalyticsCharts.tsx:77-86 | `displayValue` by its successive overwrites; `DisplayValueByPrecedence` proves it equals a single precedence choice of format. |
| `CoreAnalyticsCharts.RevenueRateIsCurrency` | src/components/Analytics/CoreAnalyticsCharts.tsx:79-84 | A name with both "Revenue" and "Rate" is shown as currency, because the later assignment wins. |
| `CoreAnalyticsCharts.DurationText` | src/components/Analytics/CoreAnalyticsCharts.tsx:85-86 | The duration text: floored minutes (`Math.floor`), "m ", the truncated JavaScript remainder, "s". `DurationTextShape` and `DurationTextRoundTrip` state its form and read-back. |
| `CoreAnalyticsCharts.DurationTextShape` | src/components/Analytics/CoreAnalyticsCharts.tsx:85-86 | For v ≥ 0 the text is floor(v/60), "m ", v mod 60 without padding, then "s". |
| `CoreAnalyticsCharts.SampleDuration` | src/components/Analytics/CoreAnalyticsCharts.tsx:85-86 | 245 seconds read "4m 5s". |
| `CoreAnalyticsCharts.DurationTextRoundTrip` | src/components/Analytics/CoreAnalyticsCharts.tsx:85-86 | Reading a non-negative duration's text back as minutes·60 + seconds gives the original number. |
| `CoreAnalyticsCharts.MetricCard` | src/components/Analytics/CoreAnalyticsCharts.tsx:76-125 | The card as rendered: no change line for an absent change, the stray text "0" for a zero change, and the change text for any other change. The TrendingUp icon appears exactly for an "up" trend, and a "Duration" name shows the duration text. |
| `CoreAnalyticsCharts.TrendIcon` | src/components/Analytics/CoreAnalyticsCharts.tsx:100-106 | TrendingUp exactly for "up", TrendingDown exactly for "down", and Activity otherwise. |
| `CoreAnalyticsCharts.ChangeText` | src/components/Analytics/CoreAnalyticsCharts.tsx:117-119 | The change text starts with "+" exactly for a positive change and with "-" exactly for a negative one. |
| `CoreAnalyticsCharts.ChangeSlotAsWritten` | src/components/Analytics/CoreAnalyticsCharts.tsx:112 | As written: empty exactly for an absent change, "0" for a zero change, and the change text for any other change. |
| `CoreAnalyticsCharts.ZeroChangeShowsStrayZero` | src/components/Analytics/CoreAnalyticsCharts.tsx:112 | As written, a change of exactly 0 renders the text "0", where an absent change renders nothing. |
| `CoreAnalyticsCharts.ChangeSlot` | src/components/Analytics/CoreAnalyticsCharts.tsx:112-120 | Corrected: the change line appears iff the change is defined and non-zero, and has "+" iff the change is positive. |
| `CoreAnalyticsCharts.ChangeSlotFixesOnlyZero` | src/components/Analytics/CoreAnalyticsCharts.tsx:112 | The corrected slot agrees with the written one on every change except 0. |
| `CoreAnalyticsCharts.CorrectedMetricCard` | src/components/Analytics/CoreAnalyticsCharts.tsx:112-120 | Corrected card: a change line exactly for a defined non-zero change. It equals the rendered card for every change other than 0, and for 0 it differs only in having no change line. |
| `AuthContext.UseAuth` | src/contexts/AuthContext.tsx:26-32 | Inside a provider, the context value is returned. Outside one, the error "useAuth must be used within an AuthProvider" is raised. |
| `AuthContext.LoginUser` | src/contexts/AuthContext.tsx:49-54 | The login user has id "1", the email and "Demo Company". Its name is the part of the email before the first '@', or the whole email when there is none. |
| `AuthContext.SampleLoginNames` | src/contexts/AuthContext.tsx:51 | "ada@b@c" gives the name "ada", and "ada" gives "ada". |
| `AuthContext.SignupUser` | src/contexts/AuthContext.tsx:75-80 | The signup user keeps the given name, email and company unchanged, under the new id. |
| `AuthContext.AuthState.constructor` | src/contexts/AuthContext.tsx:39-40 | The provider starts with the stored user and not loading. |
| `AuthContext.AuthState.BeginRequest` | src/contexts/AuthContext.tsx:43 | `login` and `signup` start by setting `isLoading` and leave the user alone. |
| `AuthContext.AuthState.FinishLogin` | src/contexts/AuthContext.tsx:42-62 | Loading ends whether or not the call fails. On success the user is the login user of the email, independent of the password. On failure the user is kept and "Login failed" is raised. |
| `AuthContext.AuthState.FinishSignup` | src/contexts/AuthContext.tsx:64-88 | Loading ends whether or not the call fails. On success the user is the signup user. On failure the user is kept and "Signup failed" is raised. |
| `AuthContext.AuthState.Logout` | src/contexts/AuthContext.tsx:90-92 | From any state, the user becomes null and the loading flag is kept. |

## Left out

- Timers. The playback interval, the chat reply delay and the login/signup delay are not modelled as time.
  Each callback is an explicit step (`OnTick`, `DeliverReply`, `FinishLogin`/`FinishSignup`), which any caller may invoke in any order.
  Clearing the interval on unmount, and the order between several pending replies beyond first-in first-out, are not captured.
- Randomness. The AI reply's insights and suggestions (`generateInsights`, `generateSuggestions`) shuffle with `Math.random`, so nothing about them can be stated.
- Clock and ids.
  - `Date.now()` ids and `new Date()` timestamps are dropped, or become parameters: the new source id, the signup id, and `now` in the snapshot filter.
  - Chat message ids and timestamps are not modelled.
- Locale formatting. `toLocaleString` and `toLocaleTimeString` are outside the model. The currency text enters `CoreAnalyticsCharts.DisplayValue` as a parameter.
- Floating point.
  - Metric values and changes are whole numbers, so fractional displays such as "34.2%" are not modelled.
  - `parseFloat` reads an optional sign and integer digits only: fractions, exponents, leading whitespace and "Infinity" (which `parseFloat` reads as Infinity, where the model gives NaN) are not modelled.
  - Session time is exact in half-seconds, so the 0.5x/1.5x speeds are exact. A duration with a fractional leading number is outside the model.
- The playback progress bar, the seek slider and the storage bar. These are percent geometry, and the slider relies on the browser's clamping.
- Persistence, clipboard and logging. `useLocalStorage` becomes a plain field whose initial value the constructor takes. `navigator.clipboard` and `console.log` have no effect on the model.
- The wrappers act on a recorder passed to them rather than on the module-level `analytics` instance. `getEvents` returns the list's value; callers mutating the returned array (aliasing) is not modelled.
- `Record<string, any>` values are restricted to text, numbers and flags (event properties) or to strings (source and provider `config`).
- Rendering. Colours, icons other than the trend icon, and animation are left out. So are the guides' steps and code snippets, and the permission checkboxes after their initial `defaultChecked` state.
- Strings.Lower: lower-cases ASCII letters only, where JavaScript's `toLowerCase` also folds other Unicode letters. Searches with non-ASCII capitals are therefore outside the model.

## Findings

| source | as written | input that shows it | evidently intended | confidence | as-written member | corrected member |
|---|---|---|---|---|---|---|
| src/components/SessionReplay.tsx:252 | `parseFloat(duration) * 60` reads only the minutes of an "m:ss" duration. | duration "5:23": playback ends at 300 s | the full m·60+ss seconds (323 s), which the `m:ss` clock shows back | high (not executed) | `SessionReplay.SampleDurationEndsEarly` | `SessionReplay.MaxTimeMatchesClock` |
| src/components/Analytics/CoreAnalyticsCharts.tsx:112 | `{metric.change && ...}` renders a falsy 0 as the text "0". | a metric with change 0: a stray "0" under the value | no change line for a zero change | high (not executed) | `CoreAnalyticsCharts.ZeroChangeShowsStrayZero` | `CoreAnalyticsCharts.ChangeSlot` |

The player's end of playback is a parameter. `SessionReplay.SampleSessionStopsEarly` shows the shipped player stopping at 5:00 on "5:23", and the invariant and termination lemmas hold for both ends. `CoreAnalyticsCharts.MetricCard` is the card as rendered, with the stray "0". `CoreAnalyticsCharts.CorrectedMetricCard` uses the corrected `ChangeSlot`.
