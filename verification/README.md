# HireBot session model

A Dafny model of the pure behaviour inside HireBot, a single-user mobile-web job-application
dashboard. The model covers:

- **Session state container** (`Session`): the initial state and the transitions the top-level component
  applies with `setState(prev => ({ ...prev, … }))`. These are restore-on-start, onboarding completion,
  the auto-apply flag, and adding an application at the head of the list. The reset is separate: it
  removes the saved profile and reloads the page, which starts again from the initial state. The
  header title is here too.
- **CSV export** (`Export`): the "Export History" text is built with no quoting. A reference reader,
  `ParseCsv`, splits lines at newlines and cells at commas.
- **Dashboard** (`Dashboard`): the stat tiles, the five-item activity list and the empty placeholder.
- **Auto-apply simulator** (`AutomationHub`): one timer tick is a pure function of the profile and an
  explicit `Draw`. A `Draw` holds the opaque id plus one index per `Math.floor(Math.random() * n)`.
  A run of tab changes, switches and elapsed periods adds a record only while the automation view is
  mounted (the user is onboarded and the 'automation' tab is open) and the flag is on.
- **Onboarding wizard** (`Onboarding`): the step counter, the partial profile (`Draft`), the input
  handlers, the guarded Back/Continue/Get Started buttons, the step panel and the progress bar.
- **Domain** (`Types`, `Constants`): the closed string unions become datatypes. The constant lists and
  tables are shown to cover exactly those unions.
- **Cross-component lemmas** (`Flows`): the wizard's draft becomes the session profile, and that
  profile decides the role of the records the bot adds.

Helper modules: `Wrappers` (Option/Result), `Seqs` (`join`/`split` with the split-after-join round trip,
distinctness, reversal) and `Text` (decimal rendering of an integer, ASCII upper-casing).

Three facts about the program shape the model:

- Finishing the wizard validates nothing. `handleFinish` hands the partial profile to the session
  with an unchecked cast (components/Onboarding.tsx:23-25). `Onboarding.FinishWithoutInput` shows a
  finish with no name, role, e-mail, phone or resume.
- `nextStep` and `prevStep` are unbounded (components/Onboarding.tsx:20-21). Only the rendering
  guards keep the step in 1..4: Back is rendered only above step 1 (components/Onboarding.tsx:175),
  and the primary button finishes at step 4 (components/Onboarding.tsx:184).
- `handleNewApplication` does not deduplicate application ids (App.tsx:99-104), and the model does
  not claim that they are unique.

## Model

| member | source | states |
|---|---|---|
| Types.ApplicationUnionsHaveFiveValues | types.ts:32-33 | An application's platform takes exactly five distinct values, and so does its status. |
| Types.NamesAreInjective | types.ts:2-33 | Each union's display strings are pairwise distinct, so each datatype is exactly its string union. |
| Constants.JobFieldsCoverUnion | constants.tsx:19-29 | JOB_FIELDS has nine entries with no duplicates and contains every JobField. |
| Constants.OptionListsMatchUnions | constants.tsx:31-33 | EXPERIENCE_LEVELS, LOCATIONS and JOB_TYPES have no duplicates. Every entry denotes a member of the matching UserProfile union, and every member has an entry. |
| Constants.ParseExperience | types.ts:18 | A string denotes an experience level exactly when it is one of the four names. This is what makes the `as any` cast of the experience buttons sound. |
| Constants.ParseLocation | types.ts:19 | A string denotes a work mode exactly when it is one of the three names. |
| Constants.ParseJobType | types.ts:20 | A string denotes a job type exactly when it is one of the four names. |
| Constants.NavigationIdsDistinct | constants.tsx:35-41 | NAVIGATION has five distinct ids, 'dashboard' among them. |
| Constants.StatusColorsCoverStatuses | constants.tsx:43-49 | STATUS_COLORS has an entry for every status and for nothing else. |
| Constants.StatusBadge | components/Dashboard.tsx:79 | The badge lookup is total over statuses, so the grey fallback class is never used. |
| Session.Initial | App.tsx:13-29 | The initial state is not onboarded, has no profile, no applications, exactly the seeded Stripe interview, and auto-apply off. It satisfies onboarded ⇔ profile present. |
| Session.Restore | App.tsx:33-41 | A parseable saved profile sets onboarded and the profile. Nothing saved, or a parse failure, leaves the state unchanged. The lists and the flag never change, and the state afterwards is consistent. |
| Session.CompleteOnboarding | App.tsx:90-93 | The state becomes onboarded with exactly the given profile. Applications, interviews and the flag are unchanged, and the state afterwards is consistent. |
| Session.SetAutoApply | App.tsx:95-97 | The flag becomes exactly the argument. Nothing else changes, and consistency is preserved. |
| Session.SetAutoApplyIdempotent | App.tsx:95-97 | Setting the flag twice to the same value equals setting it once. A later setting overrides an earlier one. |
| Session.AddApplication | App.tsx:99-104 | The new application is the head, the old list is the tail and the length grows by one. Onboarding, profile, interviews and flag are unchanged. |
| Session.AddAllIsLifo | App.tsx:99-104 | After any run of additions the list is the additions newest first, then the old list. The length grows by the number of additions and the head is the last one added. |
| Session.PersistenceRoundTrip | App.tsx:33-41 | Reading back the profile written at completion (App.tsx:91) restores a fresh session to the state that completion produced. |
| Session.Reset | App.tsx:243 | After the profile is removed and the page reloads, the session is not onboarded, has no profile, no applications and auto-apply off, whatever came before. |
| Session.ReachableStatesConsistent | App.tsx:31-104 | Every interleaving of restore, completion, flag changes, additions and resets preserves onboarded ⇔ profile present. Interviews are only ever the seed list. |
| Session.TabTitle | App.tsx:259 | The title is 'HireBot AI' on the dashboard. Otherwise it is the tab id with its first character upper-cased and the rest unchanged, at the same length. |
| Text.Capitalize | App.tsx:259 | Capitalising keeps the length and the tail, and upper-cases only the first character. |
| Text.CapitalizeIdempotent | App.tsx:259 | Capitalising an already capitalised title changes nothing. |
| Session.TitleDeterminesTab | App.tsx:259 | Among tab ids of lower-case letters, two ids with the same title are the same id. |
| Session.OnlyDashboardIsHireBot | App.tsx:259 | No lower-case tab id other than 'dashboard' is titled 'HireBot AI'. |
| Session.NavigationTitles | App.tsx:259 | The five navigation tabs, in bar order, are titled HireBot AI, Automation, Resume, Interviews and Profile. |
| Session.NavigationTitlesDistinct | App.tsx:259 | No two navigation tabs share a header title. |
| Export.ExportCsv | App.tsx:63-79 | The export is refused with the "No application data to export." message exactly when the list is empty. Otherwise the text starts with the CSV data-URI prefix. |
| Export.ExportBody | App.tsx:77-79 | After the prefix the text is the header line and the rows, one per line, joined by single newlines. |
| Export.HeaderLineParses | App.tsx:68 | The header is one line that reads back as Company, Role, Platform, Status, Date, Match Score. |
| Export.HeaderCellsArePlain | App.tsx:68 | No header name contains a comma, a newline or a '#'. |
| Export.GeneratedCellsArePlain | App.tsx:72-75 | The platform, status and score cells never contain a comma, a newline or a '#'. |
| Export.PlatformNameIsPlain | App.tsx:72 | No platform name contains a comma, a newline or a '#'. |
| Export.StatusNameIsPlain | App.tsx:73 | No status name contains a comma, a newline or a '#'. |
| Export.ScoreIsPlain | App.tsx:75 | The decimal text of any score contains no comma, no newline and no '#'. |
| Text.IntToString | App.tsx:75 | `String(n)` is one or more digits, led by a minus sign exactly when the number is negative. |
| Text.IntToStringRoundTrip | App.tsx:75 | The digits after the optional minus sign read back as the number's magnitude. |
| Export.RowIsOneLine | App.tsx:69-76 | When the free-text cells hold no comma or newline, a row is one line that reads back as the application's six cells in header order. A '#' in a cell ("C# Developer") makes no difference. |
| Export.RowHasNoFragmentMark | App.tsx:69-76 | When the free-text cells also hold no '#', neither does the row. |
| Export.RowsParse | App.tsx:69-79 | When no free-text cell holds a comma or newline, every row is one line that reads back as its application's cells. |
| Export.RowsHaveNoFragmentMark | App.tsx:69-79 | When no free-text cell holds a '#' either, no row does. |
| Export.ParseHeaderAndRows | App.tsx:77-79 | A header line followed by newline-free rows, joined by newlines, reads back as the header's cells followed by each row's cells. |
| Export.ExportRoundTrip | App.tsx:68-79 | When no free-text cell holds a comma or newline, reading the export text back gives the header followed by each application's six cells, in store order. A '#' in a cell does not break it. |
| Export.Downloaded | App.tsx:81-84 | The download keeps the link up to its first '#'. A link without '#' is kept whole; otherwise the kept part is strictly shorter and ends just before the first '#'. |
| Export.ExportHasNoFragmentMark | App.tsx:77-81 | When no free-text cell holds a comma, newline or '#', the export text contains no '#'. |
| Export.ExportDownloadsWhole | App.tsx:77-84 | Under the same condition the download keeps the whole export text, so the round trip holds for the saved file. |
| Export.CommaInCompanyNameAddsCell | App.tsx:69-79 | Without quoting, a company name with one comma inside (such as "Acme, Inc.") reads back as its two halves, so the row has seven cells instead of six. |
| Text.NatToStringRoundTrip | App.tsx:75 | The decimal text of the match score reads back as the score. |
| Dashboard.ComputeStats | components/Dashboard.tsx:12-21 | total is the number of applications. Each status tile is the multiplicity of its status, and the three tiles sum to at most total. interviews is the interview count. A missing state gives all zeros. |
| Dashboard.Count | components/Dashboard.tsx:17-19 | The filter-and-count never exceeds the list length. It is zero exactly when no application has the status, and the full length exactly when every application has it. |
| Dashboard.CountIsMultiplicity | components/Dashboard.tsx:17-19 | The filter-and-count of a status equals that status's multiplicity among the applications' statuses. |
| Dashboard.CountsPartition | components/Dashboard.tsx:16-19 | The counts of the five statuses add up to the total. |
| Dashboard.Recent | components/Dashboard.tsx:67 | The activity list is the first min(5, n) applications, in store order. |
| Dashboard.RecentAfterAdd | components/Dashboard.tsx:67 | After an addition the activity list is the new application followed by the previous first four. |
| Dashboard.RecentAfterManyAdds | components/Dashboard.tsx:67 | After five or more additions the activity list is exactly the last five added, newest first. |
| Dashboard.PlaceholderIffNoApplications | components/Dashboard.tsx:87 | The empty placeholder shows exactly when the activity list is empty, and exactly when total is 0. |
| Dashboard.AddAppliedKeepsOtherTiles | components/Dashboard.tsx:16-19 | Adding an 'Applied' application raises total by one and leaves shortlisted, in-review, rejected and interviews unchanged. |
| AutomationHub.ChosenRole | components/AutomationHub.tsx:28 | The role is the profile's role when a profile exists and its role is non-empty (JavaScript's logical or). Otherwise it is the picked pool role. |
| AutomationHub.Tick | components/AutomationHub.tsx:20-33 | Every record is 'Applied' and 'Just now' and scores from 70 to 99. Its company is one of the eight listed and its platform one of the five. Its role follows the profile override. |
| AutomationHub.TickReachesCompany | components/AutomationHub.tsx:22-27 | Every listed company is produced by some draw. |
| AutomationHub.TickReachesPlatform | components/AutomationHub.tsx:21-29 | Every platform of the union is produced by some draw. |
| AutomationHub.TickReachesPoolRole | components/AutomationHub.tsx:23-28 | Without a usable profile role, every pool role is produced by some draw. |
| AutomationHub.TickReachesScore | components/AutomationHub.tsx:32 | Every score from 70 to 99 is produced by some draw. |
| AutomationHub.TickScoreInjective | components/AutomationHub.tsx:32 | Two draws give the same score exactly when their offsets are equal, so a uniform offset gives a uniform score. |
| AutomationHub.ToggleRequest | components/AutomationHub.tsx:74 | The control button requests the negation of the current flag. |
| AutomationHub.ToggleTwiceRestores | components/AutomationHub.tsx:74 | Pressing the control button twice restores the session exactly. |
| AutomationHub.StepEffect | components/AutomationHub.tsx:17-39 | A tab change moves only the tab. The control button changes only the flag, and only while the view is mounted (onboarded, 'automation' tab). An interval fires and puts one tick record in front of the list only while the view is mounted and the flag is on. Nothing else changes. |
| AutomationHub.SimulateAddsOnePerActiveTick | components/AutomationHub.tsx:17-39 | Over any run of tab changes, switches and intervals, the list grows by exactly the number of intervals fired. That number comes from an independent count that follows the tab and the flag. The earlier records stay, in order, at the end of the list. Profile, onboarding and interviews are unchanged. |
| AutomationHub.IdleAddsNothing | components/AutomationHub.tsx:17-20 | While the view is not mounted, or the flag is off, time passing changes nothing. |
| AutomationHub.LeavingTheViewStopsTheBot | components/AutomationHub.tsx:38 | Switching to the dashboard clears the interval without switching the bot off. Afterwards no record is added and the flag keeps its value. |
| AutomationHub.SimulatedRecordsAreWellFormed | components/AutomationHub.tsx:25-35 | Every record added in a run is 'Applied' and 'Just now' and scores from 70 to 99. It carries the profile's role whenever that role is non-empty. |
| Onboarding.InitialDraft | components/Onboarding.tsx:13-18 | The draft starts with field 'Software Developer', experience 'Fresher', location 'Remote' and job type 'Full-time'. Every other field is unset. |
| Onboarding.Start | components/Onboarding.tsx:12-18 | The wizard starts at step 1 with the initial draft. |
| Onboarding.SetField | components/Onboarding.tsx:37 | The field button sets the field and keeps every other draft field. |
| Onboarding.SetRole | components/Onboarding.tsx:59 | The job-title input sets the role and keeps every other draft field. |
| Onboarding.SetExperience | components/Onboarding.tsx:70 | The experience button sets the experience and keeps every other draft field. |
| Onboarding.SetLocation | components/Onboarding.tsx:85 | The work-mode button sets the location and keeps every other draft field. |
| Onboarding.SetName | components/Onboarding.tsx:105 | The name input sets the name and keeps every other draft field. |
| Onboarding.SetEmail | components/Onboarding.tsx:112 | The e-mail input sets the e-mail and keeps every other draft field. |
| Onboarding.SetPhone | components/Onboarding.tsx:119 | The phone input sets the phone and keeps every other draft field. |
| Onboarding.SetResume | components/Onboarding.tsx:147 | The resume text area sets the resume text and keeps every other draft field. |
| Onboarding.SettersCommute | components/Onboarding.tsx:37-147 | Any two of the eight input handlers commute when they write different draft fields. Of two writes to the same field, the later wins. |
| Onboarding.ApplyPreservesValid | components/Onboarding.tsx:175-192 | With the rendering guards, Back and Continue keep the step in 1..4 and move it by at most one. Only the primary button at step 4 finishes, and it hands over the draft unchanged. |
| Onboarding.RunPreservesValid | components/Onboarding.tsx:12-25 | Every input sequence from a valid wizard keeps the step in 1..4 and the four presets set. Job type stays 'Full-time' and the optional extras stay unset. A finished draft has the same properties. |
| Onboarding.BackGuardKeepsStepPositive | components/Onboarding.tsx:20-21 | The raw step functions are unbounded. Back is not offered at step 1, and at step 4 the primary button finishes instead of advancing. |
| Onboarding.FinishWithoutInput | components/Onboarding.tsx:23-25 | Finish validates nothing: four presses of the primary button hand over the untouched initial draft. |
| Onboarding.StepPanel | components/Onboarding.tsx:28-155 | A panel is rendered exactly for steps 1 to 4, and nothing for any other step. |
| Onboarding.Progress | components/Onboarding.tsx:164-166 | The bar has four segments, and the lit ones form a prefix. None lights below step 1, and all light from step 4 on. |
| Onboarding.ProgressMatchesStep | components/Onboarding.tsx:164-166 | On every reachable step, segment i is highlighted iff step ≥ i. Exactly `step` segments light, and a panel is rendered. |
| Onboarding.AsUserProfile | components/Onboarding.tsx:24 | The cast keeps every enumeration and every optional extra of the draft. Each text field keeps its value, and an unset one reads as the empty string. |
| Onboarding.CastRoundTrip | components/Onboarding.tsx:24 | The cast loses nothing from a complete profile. A draft comes back unchanged exactly when its five text fields are set. |
| Flows.WizardCompletesSession | App.tsx:90-93 | Finishing the wizard from a fresh session gives a consistent, onboarded state. The profile's job type is 'Full-time' and there are no applications. |
| Flows.TypedRoleDecidesBotRole | components/AutomationHub.tsx:28 | Records the bot adds carry the role typed in the wizard when it is non-empty. They carry the pool pick when the role was left unset or typed empty. |
| Flows.ClickThroughGetsPoolRoles | components/Onboarding.tsx:184 | A user who clicks straight through the wizard gets pool roles on auto-applied records. |

## Left out

- services/geminiService.ts: remote text-generation calls with fallbacks. It is a foreign API, and its
  random fallback score cannot be modelled faithfully.
- components/Layout.tsx, all JSX and styling, the platform icons, and the tab-content rendering of the
  resume, interviews and profile tabs: presentation only.
- Browser I/O: localStorage reads and writes, JSON encoding and parsing, `window.location.reload`,
  `encodeURI`, creating and clicking the download anchor, the `alert` calls, and the install-prompt
  handler (App.tsx:43-61). Restore takes the result of reading and parsing as a `SavedProfile` value.
  Completion and reset say what the key holds afterwards.
- Session.Restore: a stored text that parses to something other than a profile object (the text `null`,
  say) is not modelled. The source would then mark the session onboarded with a null profile. Only
  tampered storage can produce that, because completion always writes a serialised profile.
- Timer scheduling: the 5-second cadence is left out, and so is the restart of the interval. The
  interval restarts on every render of the top-level component, because `handleNewApplication`
  (App.tsx:99) is a new function each time and sits in the effect's dependencies
  (components/AutomationHub.tsx:39). So every added record restarts the 5-second period. An `Elapsed` event is one fired interval. It fires only while the automation view
  is mounted and the flag is on, and leaving the tab clears it (components/AutomationHub.tsx:38).
- `Math.random`: replaced by the bounded indices of `Draw`. Ids are opaque strings, and their
  uniqueness is neither enforced by the source nor claimed here.
- The speed slider and the decorative toggles of the automation view: they affect no behaviour.
- Onboarding.AsUserProfile: an unset text field is read as "", where the source carries `undefined`.
  The two behave alike at every read the model covers (`||`, the `|| ''` input fallbacks). They differ
  only in the profile page's interpolated text, which is presentation.
- Text.UpperChar: only ASCII letters are upper-cased. Unicode case mapping is not modelled. The tab
  ids are ASCII.
- Text.IntToString: integers of magnitude 10^21 or more are not modelled, because JavaScript writes
  them in exponent form (`String(1e21)` is "1e+21"). Integers beyond 2^53, which a JavaScript number
  cannot hold exactly, are not modelled either. The only producer of scores in the modelled core,
  `AutomationHub.Tick`, yields 70..99.
- Export.ExportCsv: the match score is an integer, rendered in decimal. `String(n)` on fractional
  numbers is not modelled, and every producer in the modelled core yields integers.
- The stale-closure form of the onboarding setters (`{ ...profile, … }` rather than the previous
  state) matters only for concurrent updates, which a sequence of inputs does not have.
- The dashboard's fallbacks for a missing platform or status (`app.platform ? … : …`) never apply,
  because every modelled application has both.
- Export.ExportRoundTrip: the round trip is stated for the text before `encodeURI`
  (App.tsx:81). The percent-encoding, which the browser undoes when it reads the data link, is not
  modelled. A '#' in any cell cuts the saved file at that point, because `encodeURI` keeps '#'
  (`Export.Downloaded`). So the saved file equals that text only when no cell holds a '#'
  (`Export.ExportDownloadsWhole`).
- Session.PersistenceRoundTrip: assumes the write at App.tsx:91 succeeds, and that
  `JSON.parse(JSON.stringify(p))` gives the profile back. The saved value after completion is taken to
  be the profile itself.
- Session.CompleteOnboarding: a `localStorage.setItem` that throws (storage full or disabled) is not
  modelled. In the source the handler then stops before the state update at App.tsx:92, and the
  session stays as it was.
