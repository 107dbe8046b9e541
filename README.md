# Reel to Tube Automator — a verified model of its core

The application is a prototype. It watches an Instagram account for new reels,
downloads them and re-uploads them to YouTube as Shorts. The upload goes
through a scripted sequence of accessibility actions. This project models the
parts of it that carry logic:

- **`SetupWizard`** (`setup_wizard.dfy`) models `SetupWizard.tsx`:
  - the `AppSettings` record with its single-field update;
  - the three-tab step machine, driven by the Next button and by the tab triggers, with their enable rules;
  - the component that holds `step` and `settings`.
- **`Dashboard`** (`dashboard.dfy`) models `Dashboard.tsx`:
  - the Start/Stop toggle;
  - the one-minute refresh of `lastCheck`;
  - the record that a settings switch hands upwards.
- **`AndroidService`** (`android_service.dfy`) models `androidService.ts`:
  - the caption templating. This is `String.prototype.replace` with a string pattern: first occurrence only, with the replacement passed through GetSubstitution, as in sections 22.1.3.19 and 22.1.3.19.1 of ECMA-262 (2024 edition).
  - one firing of the polling interval of `backgroundService.start`, as a trace of platform calls;
  - the scripted `youtubeService.uploadVideo`;
  - `start` and `stop`.
- **`IndexPage`** (`index_page.dfy`) models `Index.tsx`:
  - the one storage slot and the two page-state variables;
  - the load at mount, setup completion, settings change and reset;
  - the choice between the wizard and the dashboard.
- **`Wrappers`** (`wrappers.dfy`) holds the `Option` type that models `T | null`.

React state that a handler updates is modelled as a class whose fields the
method assigns. Each method is proved against a pure transition function on a
state datatype (`ensures State() == F(old(State()))`). The properties are then
lemmas about those functions and about runs of user gestures.

Platform calls of one tick are modelled as functions in a `Services` value:
`getLatestReels`, `downloadReel`, `uploadVideo` and `showNotification`. Each one
returns a result or throws, given its arguments and the position of the reel it
is made for. The tick is a method with the source's loop. It is proved equal to
the specification `TickSpec`, which yields the calls made and whether the catch
ran.

Behaviour a reader might not expect:

- The template token is `{instagram_caption}`, and only its first occurrence is replaced.
- One `try/catch` surrounds the whole tick, so the first failure ends the tick and skips the remaining reels.
- A record loaded from storage is not validated. A stored `null` marks the setup complete and still shows the wizard.
- The YouTube tab can be clicked from the first tab, so the username check can be skipped.
- The notification follows every upload that returns, whatever the upload reported.

## Model

| member | source | states |
|---|---|---|
| SetupWizard.With | src/components/SetupWizard.tsx:43-48 | the written field holds the new value and every other field keeps its value |
| SetupWizard.RecordIsItsFields | src/components/SetupWizard.tsx:22-29 | two records with the same six fields are equal |
| SetupWizard.WithOwnValue | src/components/SetupWizard.tsx:43-48 | writing back a field's own value leaves the record unchanged |
| SetupWizard.WithLastWins | src/components/SetupWizard.tsx:43-48 | of two writes to one field the last wins |
| SetupWizard.WithCommutes | src/components/SetupWizard.tsx:43-48 | writes to different fields commute |
| SetupWizard.Next | src/components/SetupWizard.tsx:50-65 | Next never changes the record. It is refused, with no state change, exactly at the first tab with an empty username. Otherwise it moves exactly one tab forward, or at the last tab hands `onComplete` exactly the current record and stays there. |
| SetupWizard.TabEnabled | src/components/SetupWizard.tsx:76-84 | the three `disabled` expressions negated: Instagram only from Instagram, YouTube from Instagram or YouTube, Settings from anywhere but Instagram; `TabEnabledIffSameOrNext` proves this is "same tab or the next one" |
| SetupWizard.AfterTabClick | src/components/SetupWizard.tsx:74 | `onValueChange={setStep}` fires only for an enabled trigger; `HandleTabClick`, `ApplyNeverGoesBack` and `YoutubeTabBypassesUsernameCheck` state its effect |
| SetupWizard.Change | src/components/SetupWizard.tsx:43-48 | `handleChange` as a state transition: the record becomes `With(settings, f, v)` and the tab stays; `With` and its three lemmas state what that record is |
| SetupWizard.TabEnabledIffSameOrNext | src/components/SetupWizard.tsx:74-87 | a tab trigger is enabled exactly when its tab is the current one or the next one |
| SetupWizard.ApplyKeepsGate | src/components/SetupWizard.tsx:51-64 | every gesture except a click on the YouTube tab keeps "past the first tab the username is non-empty", and never completes with an empty username |
| SetupWizard.UsernameRequiredWithoutYoutubeTab | src/components/SetupWizard.tsx:50-65 | in any run of gestures without a YouTube-tab click, no record handed to `onComplete` has an empty username |
| SetupWizard.YoutubeTabBypassesUsernameCheck | src/components/SetupWizard.tsx:80 | from the initial state, a YouTube-tab click then Next, Next completes with the initial record, whose username is empty |
| SetupWizard.ApplyNeverGoesBack | src/components/SetupWizard.tsx:60-64 | no gesture moves the wizard to an earlier tab |
| SetupWizard.SettingsTabIsFinal | src/components/SetupWizard.tsx:62-64 | once at the settings tab, every run of gestures stays there |
| SetupWizard.WizardComponent.constructor | src/components/SetupWizard.tsx:33-41 | the wizard starts at the Instagram tab with an empty username, the bare token as title, the fixed description template and all three toggles on |
| SetupWizard.WizardComponent.HandleChange | src/components/SetupWizard.tsx:43-48 | the record becomes the one-field update and the tab is unchanged |
| SetupWizard.WizardComponent.HandleNext | src/components/SetupWizard.tsx:50-65 | the new state and the outcome are those of `Next` |
| SetupWizard.WizardComponent.HandleTabClick | src/components/SetupWizard.tsx:74-87 | the click is accepted exactly when the trigger is enabled, and only an accepted click changes the tab |
| Dashboard.Toggle | src/components/Dashboard.tsx:40-48 | `isRunning` is negated, the stats are untouched, and the toast says the service stopped exactly when it was running before |
| Dashboard.ToggleTwiceRestores | src/components/Dashboard.tsx:40-48 | two presses give back the state before them |
| Dashboard.Refresh | src/components/Dashboard.tsx:27-38 | the interval writes `lastCheck` and leaves `isRunning`, both counters and `nextCheckIn` as they were |
| Dashboard.InitialDashboard | src/components/Dashboard.tsx:19-25 | the mount state; `DashboardComponent.constructor` is proved to start there and `CountersNeverChange` proves its counters and `nextCheckIn` persist |
| Dashboard.FieldOf | src/components/Dashboard.tsx:146-175 | the three switches edit only boolean fields |
| Dashboard.SettingChange | src/components/Dashboard.tsx:50-55 | the record handed upwards is the current one with only the switch's field replaced; its three strings are unchanged |
| Dashboard.CountersNeverChange | src/components/Dashboard.tsx:19-38 | over any run of presses, interval firings and switch changes, both counters and `nextCheckIn` keep their mount values |
| Dashboard.RunningFollowsPresses | src/components/Dashboard.tsx:40-60 | after any run, the service is running exactly when Start/Stop was pressed an even number of times; switches and the interval never touch `isRunning` |
| Dashboard.DashboardComponent.constructor | src/components/Dashboard.tsx:19-25 | running, both counters 0, next check in "5 minutes", last check at mount time |
| Dashboard.DashboardComponent.HandleToggleService | src/components/Dashboard.tsx:40-48 | the new state and the toast are those of `Toggle` |
| Dashboard.DashboardComponent.IntervalTick | src/components/Dashboard.tsx:29-35 | the new state is that of `Refresh` |
| AndroidService.IndexOf | src/lib/androidService.ts:143-147 | the index returned is an occurrence with none earlier; no index means no occurrence |
| AndroidService.Substitution | src/lib/androidService.ts:143-147 | GetSubstitution for a pattern without captures; `SubstitutionLiteral` proves a `$`-free caption is inserted literally and `DollarAmpersandRestoresToken` that `$&` stands for the matched token |
| AndroidService.ReplaceFirst | src/lib/androidService.ts:143-147 | `String.prototype.replace` with a string pattern; `RenderWithoutToken`, `RenderSplicesCaption` and `RenderKeepsLaterTokens` state that only the first occurrence is replaced |
| AndroidService.Render | src/lib/androidService.ts:143-147 | `.replace("{instagram_caption}", caption)`; its behaviour is stated by the rendering lemmas below and by `DefaultTitleRenders`/`DefaultDescriptionRenders` |
| AndroidService.SubstitutionLiteral | src/lib/androidService.ts:143-147 | a caption without `$` is inserted literally |
| AndroidService.RenderWithoutToken | src/lib/androidService.ts:143-147 | a template without the token renders to itself |
| AndroidService.IndexOfIsFirst | src/lib/androidService.ts:143-147 | the search finds exactly the first occurrence of the token |
| AndroidService.RenderSplicesCaption | src/lib/androidService.ts:143-147 | with a `$`-free caption, rendering gives the text before the first token, then the caption, then the text after that token |
| AndroidService.RenderKeepsLaterTokens | src/lib/androidService.ts:143-147 | only the first token is replaced: a later one is still there, shifted by the length change |
| AndroidService.DollarAmpersandRestoresToken | src/lib/androidService.ts:143-144 | the caption `$&` renders the default title as the bare token again (GetSubstitution is applied) |
| AndroidService.NoTokenInBraceFreePrefix | src/lib/androidService.ts:143-147 | no token starts inside a text without `{` |
| AndroidService.DefaultTitleRenders | src/lib/androidService.ts:143-144 | with a `$`-free caption, the default title renders to the caption itself |
| AndroidService.DefaultDescriptionRenders | src/lib/androidService.ts:146-147 | with a `$`-free caption, the default description renders to its fixed header, the caption, then its hashtag line |
| AndroidService.ReelStepShape | src/lib/androidService.ts:134-160 | the download comes first; an upload of the downloaded file with the two rendered templates happens exactly when the download reports success; a notification exactly when the upload returns; a throw ends the reel |
| AndroidService.ReelStep | src/lib/androidService.ts:135-160 | one iteration of the reel loop as a trace; `ReelStepShape` states its shape and `ProcessReel` is proved to make exactly its calls |
| AndroidService.Loop | src/lib/androidService.ts:134-161 | the `for` over the reels inside the `try`; `LoopShape` proves it runs the reels in array order, each to completion, up to the first throw |
| AndroidService.TickSpec | src/lib/androidService.ts:128-166 | the interval body; `Tick` is proved equal to it, and `NothingFetchedNothingDone`, `TickProcessesEveryReel`, `TickStopsAtFirstThrow` and `FetchSuccessIgnored` state its properties |
| AndroidService.FirstThrow | src/lib/androidService.ts:129-165 | the position found is the first reel whose processing throws |
| AndroidService.LoopShape | src/lib/androidService.ts:129-165 | the loop runs the reels to completion one after another and stops at the first throw, with nothing of any later reel happening |
| AndroidService.NothingFetchedNothingDone | src/lib/androidService.ts:131-133 | a tick whose fetch throws or finds no reel makes no download, upload or notification |
| AndroidService.TickProcessesEveryReel | src/lib/androidService.ts:134-161 | without a throw, every fetched reel is processed completely, in array order |
| AndroidService.TickStopsAtFirstThrow | src/lib/androidService.ts:129-165 | a throw at reel k is swallowed, and reel k's calls are the last ones of the tick |
| AndroidService.ThrownDownloadSkipsLaterReels | src/lib/androidService.ts:136-139 | when the first of two reels fails to download with a throw, the second is never downloaded and nothing is uploaded |
| AndroidService.FailedDownloadContinues | src/lib/androidService.ts:141 | a download that returns without success skips only its own reel |
| AndroidService.FetchSuccessIgnored | src/lib/androidService.ts:131-133 | the fetch's `success` flag does not affect the tick |
| AndroidService.ProcessReel | src/lib/androidService.ts:135-160 | the loop body makes exactly the calls of `ReelStep` |
| AndroidService.Tick | src/lib/androidService.ts:128-166 | the interval body makes exactly the calls of `TickSpec` and catches exactly when it says so |
| AndroidService.UploadSteps | src/lib/androidService.ts:58-70 | the script has eleven steps |
| AndroidService.UploadStepsDetermineArguments | src/lib/androidService.ts:63-65 | the script embeds path, title and description, so equal scripts mean equal arguments |
| AndroidService.UploadVideo | src/lib/androidService.ts:53-81 | logs the title, then the eleven steps in order, each prefixed; always reports success |
| AndroidService.Start | src/lib/androidService.ts:113-172 | a throwing monitor rejects the call with nothing scheduled; otherwise one interval with these settings is added and success is reported |
| AndroidService.Stop | src/lib/androidService.ts:174-180 | reports success and leaves every scheduled interval in place |
| IndexPage.Parse | src/pages/Index.tsx:19-26 | parsing throws exactly on unparseable text and yields a record exactly for a stored record, which it gives back |
| IndexPage.PageOf | src/pages/Index.tsx:75-83 | the wizard is shown exactly when the setup is not complete or no record is held; otherwise the dashboard shows the held record |
| IndexPage.LoadSaved | src/pages/Index.tsx:16-28 | loading only ever removes an unparseable item, never un-completes the setup, and completes it only from a stored `null` or record |
| IndexPage.Mount | src/pages/Index.tsx:13-28 | first render then the load effect; `LoadOutcomes`, `DashboardOnMountIffRecordStored` and `ReloadIsFaithful` state its outcomes |
| IndexPage.SetupComplete | src/pages/Index.tsx:30-39 | afterwards the dashboard shows the new record and the slot holds it |
| IndexPage.SettingsChange | src/pages/Index.tsx:41-44 | the record and the slot both hold the new record; the completion flag is unchanged |
| IndexPage.Reset | src/pages/Index.tsx:46-55 | from any state: no item, no record, setup not complete, wizard shown |
| IndexPage.LoadOutcomes | src/pages/Index.tsx:16-28 | at mount: a missing or empty item changes nothing; unparseable text is removed and the page stays unconfigured; a stored `null` or record completes the setup and is held as is |
| IndexPage.DashboardOnMountIffRecordStored | src/pages/Index.tsx:16-28 | right after mount, the dashboard is shown exactly when the slot held a record, and it shows that record |
| IndexPage.EmptyUsernameOpensDashboard | src/pages/Index.tsx:20-22 | a stored record with an empty username opens straight on the dashboard |
| IndexPage.StoredNullShowsWizard | src/pages/Index.tsx:20-22 | a stored `null` marks the setup complete and still shows the wizard |
| IndexPage.SetupSurvivesReload | src/pages/Index.tsx:30-33 | reopening the page after setup completion reproduces the page state |
| IndexPage.ResetIsFinal | src/pages/Index.tsx:46-49 | reset is idempotent, and a page opened after it is unconfigured |
| IndexPage.SwitchEditPersists | src/pages/Index.tsx:41-44 | after a dashboard switch edit and a reload, that toggle has the new value and every other field is as before |
| IndexPage.ApplyKeepsCoherent | src/pages/Index.tsx:30-55 | every handler keeps the page state equal to what reopening over its slot gives |
| IndexPage.RunKeepsCoherent | src/pages/Index.tsx:30-55 | coherence between slot and page state holds after any run of handlers |
| IndexPage.ReloadIsFaithful | src/pages/Index.tsx:16-55 | whatever the slot held at mount and whatever the user did since, a reload gives back the page as it stands |
| IndexPage.IndexComponent.constructor | src/pages/Index.tsx:13-14 | first render: setup not complete, no record, the slot as found |
| IndexPage.IndexComponent.LoadSavedSettings | src/pages/Index.tsx:16-28 | the new state is that of `LoadSaved` |
| IndexPage.IndexComponent.HandleSetupComplete | src/pages/Index.tsx:30-39 | the new state is that of `SetupComplete` |
| IndexPage.IndexComponent.HandleSettingsChange | src/pages/Index.tsx:41-44 | the new state is that of `SettingsChange` |
| IndexPage.IndexComponent.HandleReset | src/pages/Index.tsx:46-55 | the new state is that of `Reset` |

## Left out

- JSX, styling, icons, the theme provider and toggle are not modelled, nor is toast and notification wording. Only the username toast of the wizard (`UsernameRequired`) and the Start/Stop toast (`Toast`) appear, as outcome kinds.
- The "Setup Complete" toast (src/pages/Index.tsx:35-38), the "Settings Reset" toast (src/pages/Index.tsx:51-54) and the "Setting Updated" toast (src/components/Dashboard.tsx:56-59) are not modelled: they change no state.
- Timing is not modelled:
  - the 5-minute and one-minute intervals;
  - the 500 ms pauses between upload steps;
  - async scheduling;
  - overlapping ticks.

  One tick is one atomic sequential method.
- `console.log`/`console.error` output is modelled only where it is the operation's visible result (`UploadVideo`'s log). `Date` is an opaque string parameter.
- `localStorage` and JSON are not modelled as text:
  - The slot's content is classified as empty, unparseable, `null`, or a serialised record.
  - A record is taken to survive `JSON.stringify` then `JSON.parse`.
  - Other JSON values (numbers, arrays, objects of another shape) are not modelled.
- `systemService` calls are left out of `Start`: `registerBootReceiver`, `requestAccessibilityPermission` and `optimizeBattery` only log and return constants. `showNotification` appears in the tick as the `Notify` call.
- The mock payloads of `monitorAccount`, `getLatestReels` and `downloadReel` are not modelled. These calls are parameters, `Services` and `MonitorOutcome`, that may return any result or throw.
- SetupWizard.WizardComponent.HandleChange: requires the value's type to match the field, since TypeScript's `keyof AppSettings` with `string | boolean` lets a caller store a boolean in a text field; the inputs never do so.
- SetupWizard.Next: the username check is JavaScript falsiness, so only the empty string is refused; a whitespace-only username passes, as in the source.
- Dashboard.Toggle: the toast reads the rendered `isRunning`, so two presses within one render would both report the same toast. One press per render is modelled.
- AndroidService.Start: the interval closure reads the caller's `settings` object by reference, so a caller that mutates it changes later ticks (and later reels of one tick); the model copies the settings once, by value, into the scheduled interval.
- AndroidService.Tick: takes the settings as a value read once per tick; mutation of the settings object during the awaits of a tick is not modelled.
- Strings are sequences of Unicode scalar values, while JavaScript strings are UTF-16 code units: a lone surrogate in a caption or template cannot be represented.
- AndroidService.Tick: `reel.caption` and the templates are taken to be strings. `.replace` on a non-string, possible for an unvalidated record, is not modelled.
- The Dashboard Start/Stop toggle is not connected to `backgroundService`, as in the source.
