# Onboarding journey wizard — a Dafny model

This project models the core of a client-side onboarding wizard for a retail
bank: a journey controller that picks an ordered sequence of steps from a
journey type (ntb, etb-nk, etb, journey2), moves through it, branches off it,
truncates and restores it for the physical/digital KYC choice, keeps a shared
form-data bag and a bottom-bar slot, mirrors its state into local storage and
resumes from it on the next start. Around the controller it models:

- the step catalog;
- the page that turns controller state into the one visible screen;
- the sidebar and navbar back-navigation gates;
- the demo journey-type cycler;
- the branding theme state;
- the invite-token codec;
- the validators, input filters and small state machines of the thirteen step screens that drive the controller.

Layout, one module per file:

| file | module | models |
|---|---|---|
| `wrappers.dfy` | `Wrappers` | `Option` |
| `text.dfy` | `Text` | the string idioms the screens use (`replace(/\D/g, '')`, `slice`, `trim`, `split(/\s+/)`, `toUpperCase`) |
| `form_data.dfy` | `FormData` | the form-data bag of JSON-like values, truthiness, `??`/`\|\|` defaults, shallow merge |
| `catalog.dfy` | `Catalog` | `ALL_STEPS`, `STEP_COMPONENTS`, the journey and user types |
| `sequencer.dfy` | `Sequencer` | `getInitialStepsForJourney`, `findIndex`/`some` by id |
| `journey.dfy` | `Journey` | the controller (`JourneyProvider`) as a class, its local-storage record, the bootstrap decision and the migration filter |
| `home.dfy` | `Home` | `page.tsx` screen selection |
| `sidebar.dfy`, `navbar.dfy` | `Sidebar`, `Navbar` | status classification and click gates |
| `demo_toggle.dfy` | `DemoToggle` | `cycleJourneyType` |
| `branding.dfy` | `Branding` | the theme provider as a class |
| `invite_token.dfy` | `InviteToken` | the invite-token codec |
| `nominee.dfy`, `chat_step.dfy` | `Nominee`, `ChatStep` | helpers shared by several screens (name suggestion, history/active test) |
| `step_*.dfy` | one module per screen | each screen's local state as a class whose methods are its handlers |

Conventions:

- **Events as methods.** Every handler runs to completion on one event. A delayed callback (`setTimeout`) is a separate method that the model calls later (`...TimerFires`, `OtpDelivered`, `CallConnected`).
- **Closures as captured values.** A delayed callback uses the values its closure captured when the timer started. The click method records them in a `pending...` field of the screen, and the timer method reads them: the step index and sequence length for `nextStep` (`Journey.Capture`), the written values for a form-data update.
- **Effects as methods.** A React effect that recomputes the bottom bar is a `SyncBottomBar` method. Where the button's handler reads state that the effect's dependency list leaves out, the screen keeps the render the button holds (`EkycHandlerStep.BarRender`).
- **Ready and valid controller.** `Journey.Provider.Ready` (after the bootstrap, with a non-empty sequence) is all the controller's operations require. `Valid` adds an index below the length, and `InRange` an index that is also not negative. Each operation keeps them when it held them, and an operation that resets the index establishes `InRange`.
- **Local storage** is a record of its six keys. Each key is missing, garbled (the stored text does not parse) or held.
- **JSON, UTF-8 and base64** are function-valued parameters of the codec. Their round-trip laws are stated as a predicate (`InviteToken.Lawful`) that the codec lemmas require.

## Model

Paths are relative to the repository root. Some members are helpers without a row of their own:
- `Journey.Jumps` and `Journey.Landing` are the resume test and the landing index inside `Journey.NextTarget`. `Journey.Provider.AdvancedFrom` states one `nextStep` through them, and `Journey.Provider.IsReset` is the state `ResetJourney` establishes.
- `Journey.BranchKey` is `Catalog.FindKey` applied to the branch screen, for the branch id the controller persists.
- `Sequencer.ShapeCarries`, `InviteToken.PadLength`, `Text.TrimFront`, `Text.TrimBack` and `Catalog.Entry` are proof or construction steps of the members that cite them.
- `Journey.Provider.AdvancedAfterSaving` is `AdvancedFrom` for a handler that writes the form data just before `nextStep`.
- `WelcomeStep.Screen.ErrorsReported` and `WelcomeStep.Message` are the error map `validateForm` leaves and the text of each message; `WelcomeStep.Screen.CollectErrors` runs its four checks.
- `IncomeDetailsStep.Screen.ButtonDisabled`, `ProfessionalDetailsExpressStep.Screen.ConfirmDisabled` and `AccountConversionStep.Screen.VerifyDisabled` are the buttons' `disabled` expressions. The press methods `PressContinue`, `PressConfirm` and `PressVerify` use them.

| member | source | states |
|---|---|---|
| Text.DigitsOnly | src/app/components/steps/StepWelcome.tsx:308 | the digit filter yields only digits, never grows, and leaves an all-digit input as it is |
| Text.DigitsOnlyAppend | src/app/components/steps/StepAadhaarKyc.tsx:36 | the digit filter distributes over concatenation |
| Text.DigitsOnlyMembers | src/app/components/steps/StepWelcome.tsx:308 | a character survives the filter exactly when it is a digit of the input |
| Text.Take | src/app/components/steps/StepEkycHandler.tsx:123 | `slice(0, n)` is a prefix of length min(n, length), the whole text when it is no longer than n |
| Text.DigitsUpTo | src/app/components/steps/StepEkycHandler.tsx:123 | the numeric-input filter yields the first `limit` digits of the input, in order, and nothing else |
| Text.Drop | src/app/components/steps/StepAccountConversion.tsx:150 | `slice(n)` is what follows the first n characters, so prefix and rest rebuild the string |
| Text.Word | src/app/components/steps/StepNomineeDetails.tsx:29 | the first word is a space-free prefix ending at a space or at the end |
| Text.Words | src/app/components/steps/StepNomineeDetails.tsx:29 | `split(/\s+/).filter(Boolean)` yields only non-empty, space-free words; `WordsOfWord`, `WordsSplit` and `WordsCover` pin down exactly which |
| Text.Trim | src/app/components/steps/StepNomineeDetails.tsx:28 | `trim()` never grows the text and leaves no white space at either end; `TrimIsSlice` shows it removes nothing else |
| Text.WordsOfWord | src/app/components/steps/StepNomineeDetails.tsx:29 | non-empty text without white space is one word |
| Text.WordsSplit | src/app/components/steps/StepNomineeDetails.tsx:29 | a white-space character separates words: the words of `a + c + b` are those of `a` then those of `b` |
| Text.NonSpace | src/app/components/steps/StepNomineeDetails.tsx:29 | the non-space characters of a text, never longer than it |
| Text.WordsCover | src/app/components/steps/StepNomineeDetails.tsx:29 | the words together are exactly the non-space characters, in order |
| Text.TrimIsSlice | src/app/components/steps/StepNomineeDetails.tsx:28 | the trim is a slice of the text with only white space before and after it |
| Text.TrimKeeps | src/app/components/steps/StepNomineeDetails.tsx:28 | text without white space at its ends is its own trim |
| Text.ToUpper | src/app/components/steps/StepWelcome.tsx:230 | upper-casing keeps the length and maps each character on its own |
| Text.Capitalize | src/app/components/steps/StepReviewApplication.tsx:84 | only the first character is upper-cased, the rest is unchanged |
| FormData.StrOr | src/app/components/steps/StepCombinedDetails.tsx:15-32 | `bag[key] \|\| fallback` gives the stored text when it is truthy, the fallback otherwise |
| FormData.Defined | src/app/components/steps/StepAutoConversion.tsx:11-17 | `bag[key] ?? null` is present exactly when the key holds a non-null value |
| FormData.OrNull | src/app/components/steps/StepAutoConversion.tsx:42-45 | an absent value is written as `null`, a present one as itself |
| FormData.Merge | src/app/context/JourneyContext.tsx:177-185 | shallow merge: the keys of both, the update's value wherever it has one, the old value elsewhere |
| FormData.UpdateToSameValue | src/app/context/JourneyContext.tsx:227-229 | writing the value a key already holds leaves the bag unchanged |
| Catalog.ParseJourneyType | src/app/context/stepDefinitions.ts:22 | reading a journey-type string succeeds exactly on the four spellings |
| Catalog.JourneyTypeRoundTrip | src/app/context/stepDefinitions.ts:22 | every journey type reads back as itself |
| Catalog.KeyNameNonEmpty | src/app/context/stepDefinitions.ts:30-47 | no catalog key is the empty string |
| Catalog.ParseId | src/app/context/stepDefinitions.ts:30-47 | reading an id string preserves the string and yields a catalog key whenever it spells one |
| Catalog.ParseIdRoundTrip | src/app/context/stepDefinitions.ts:30-47 | parsing an id's string gives back the id: every string has one id |
| Catalog.IdNamesInjective | src/app/context/stepDefinitions.ts:30-47 | ids compare exactly as their strings do |
| Catalog.ComponentFor | src/app/context/stepDefinitions.ts:49-65 | `STEP_COMPONENTS[id]` is defined exactly for the own keys of the record (inherited members are under "Left out") |
| Catalog.FindKey | src/app/context/JourneyContext.tsx:217 | the reverse lookup returns a key bound to the component, or none when no listed key is |
| Catalog.CatalogKeys | src/app/context/stepDefinitions.ts:30-65 | `ALL_STEPS` and `STEP_COMPONENTS` have exactly the same sixteen keys |
| Catalog.ComponentKeysDistinct | src/app/context/stepDefinitions.ts:49-65 | `STEP_COMPONENTS` lists sixteen distinct keys |
| Catalog.StepIdsMatchKeys | src/app/context/stepDefinitions.ts:30-47 | every `ALL_STEPS` entry's id equals its key |
| Catalog.ComponentsInjective | src/app/context/stepDefinitions.ts:49-65 | the sixteen components are pairwise distinct |
| Catalog.KeyOfComponent | src/app/context/JourneyContext.tsx:217 | the reverse lookup of a key's component yields that key, so a persisted branch names its screen uniquely |
| Catalog.TitlesNotUnique | src/app/context/stepDefinitions.ts:36-44 | profileDetails and professionalDetailsExpress share a title but are different steps |
| Sequencer.PresentSteps | src/app/context/JourneyContext.tsx:80 | the `filter(Boolean)` of looked-up steps never lengthens the list |
| Sequencer.PresentStepsKeepsAll | src/app/context/JourneyContext.tsx:79-80 | when every id has a catalog entry the filter keeps every entry, in order |
| Sequencer.CatalogStep | src/app/context/stepDefinitions.ts:30-47 | the catalog entry of an id carries that id |
| Sequencer.InitialSteps | src/app/context/JourneyContext.tsx:59-81 | each journey's sequence has at least three steps whose ids are its curated id list |
| Sequencer.FilterDropsNothing | src/app/context/JourneyContext.tsx:79-80 | for all four journey types the filter drops nothing |
| Sequencer.IndexOfId | src/app/context/JourneyContext.tsx:248 | `findIndex` by id: -1 exactly when absent, otherwise the first position holding the id |
| Sequencer.IndexOfDistinct | src/app/context/JourneyContext.tsx:414 | in a sequence with distinct ids, finding a step's id gives its own position |
| Sequencer.StepIdsWellShaped | src/app/context/JourneyContext.tsx:59-78 | the four curated lists start at welcome, end at complete, have distinct ids, each with a screen |
| Sequencer.SequenceShape | src/app/context/JourneyContext.tsx:59-81 | every journey sequence is non-empty, welcome first, complete last, ids distinct and routable |
| Sequencer.KycChoicePosition | src/app/context/JourneyContext.tsx:59-81 | kycChoice is second in ntb and etb-nk and absent from etb and journey2 |
| Journey.Migrate | src/app/context/JourneyContext.tsx:336 | the migration keeps exactly the stored steps other than kycDetails and nomineeDetails |
| Journey.MigrateAppend | src/app/context/JourneyContext.tsx:336 | the migration preserves the order of what it keeps |
| Journey.MigrateKeepsCurrent | src/app/context/JourneyContext.tsx:336 | a sequence without retired steps passes unchanged |
| Journey.MigrateIdempotent | src/app/context/JourneyContext.tsx:336 | migrating twice is migrating once |
| Journey.CanonicalSurvivesMigration | src/app/context/JourneyContext.tsx:336 | no journey sequence is changed by the migration |
| Journey.Resume | src/app/context/JourneyContext.tsx:319-370 | bootstrap decision: cold start unless userType, stepIndex and journeySteps are all stored. It restores iff the migrated sequence is non-empty, the stored index is below its length and the form data parses. The index is 0 on a resume link, otherwise the stored one. Every other case resets |
| Journey.SaveThenResume | src/app/context/JourneyContext.tsx:196-208 | a session the controller persisted, with no branch, is restored exactly as it was saved |
| Journey.NegativeIndexRestored | src/app/context/JourneyContext.tsx:337-351 | only the upper bound of the stored index is checked, so a negative index is restored as is |
| Journey.NextTarget | src/app/context/JourneyContext.tsx:373-397 | the index a `nextStep` closed over a captured index and length writes: none exactly when there is no resume jump and the captured index is the last; otherwise strictly past the captured index and below the captured length |
| Journey.StaleAdvanceLeavesRange | src/app/context/JourneyContext.tsx:373-397 | a `nextStep` captured on reviewApplication of etb-nk and run after a switch to etb writes index 4, past the three-step sequence |
| Journey.CurrentComponent | src/app/context/JourneyContext.tsx:438-440 | the current screen exists exactly when the index is in range and its id has a component |
| Journey.Provider.constructor | src/app/context/JourneyContext.tsx:94-101 | the first render: ntb user, no journey type, empty sequence at 0, dashboard shown, seeded form data, storage untouched |
| Journey.Provider.SetJourneySteps | src/app/context/JourneyContext.tsx:196-201 | the sequence is set and persisted under its key, nothing else stored changes |
| Journey.Provider.SetStepIndex | src/app/context/JourneyContext.tsx:203-208 | the index is set and persisted under its key, nothing else stored changes |
| Journey.Provider.SetBranchComponent | src/app/context/JourneyContext.tsx:213-224 | the branch is set and its key persisted; clearing the branch removes the key |
| Journey.Provider.SetBottomBar | src/app/context/JourneyContext.tsx:101 | the bottom-bar slot holds exactly what was given |
| Journey.Provider.SetShowDashboard | src/app/context/JourneyContext.tsx:98 | the dashboard flag is set |
| Journey.Provider.SetError | src/app/context/JourneyContext.tsx:99 | the error slot is set |
| Journey.Provider.UpdateFormData | src/app/context/JourneyContext.tsx:177-185 | keys of the update take its values, every other key keeps its value, and the whole merged bag is persisted |
| Journey.Provider.SetNomineeEnabled | src/app/context/JourneyContext.tsx:227-229 | only `wantsNominee` changes, and the bag is persisted |
| Journey.Provider.Bootstrap | src/app/context/JourneyContext.tsx:319-370 | after the bootstrap the state is valid. A cold start gives the ntb sequence at 0 with nothing written. A restore applies the decision of `Resume`. Every failure leaves the reset state |
| Journey.Provider.RestoreSession | src/app/context/JourneyContext.tsx:340-356 | a restore installs the saved types, the migrated sequence (written back), the saved form data, and the resume index. It reopens the saved branch |
| Journey.Provider.RestoreBranch | src/app/context/JourneyContext.tsx:354-356 | a saved branch key with a screen reopens that screen, and the store is left as it was |
| Journey.Provider.ResetJourney | src/app/context/JourneyContext.tsx:281-298 | every key is removed. Both types become ntb and form data becomes `{}` (not the seeded bag). The ntb sequence starts at 0 with no branch and no bottom bar |
| Journey.Provider.SetUserType | src/app/context/JourneyContext.tsx:253-262 | the user type is persisted and the ntb sequence restarts at 0 without a branch, whatever the type. It runs from any ready state, including an index past the end, and leaves the index in range |
| Journey.Provider.SetJourneyType | src/app/context/JourneyContext.tsx:264-279 | the same type changes nothing. Another type restarts its sequence at 0 with no branch and persists type, steps and index; the bottom bar is untouched. It runs from any ready state, and a new type leaves the index in range |
| Journey.Provider.EnterJourney | src/app/context/JourneyContext.tsx:425-429 | the type is set and its sequence shown from index 0 with no branch; the sequence and index are persisted. From any ready state the index ends in range |
| Journey.Provider.StartJourney | src/app/context/JourneyContext.tsx:424-436 | unguarded restart at index 0 of the type's sequence; prefilled data is merged. The dashboard, error and bottom bar are cleared, and the type is not persisted. From any ready state the index ends in range |
| Journey.Provider.SwitchToPhysicalKycFlow | src/app/context/JourneyContext.tsx:231-241 | a no-op without a journey type. Otherwise the sequence becomes [welcome, kycChoice] at index 1 with no branch, persisted, so the index is in range from any ready state |
| Journey.DigitalTarget | src/app/context/JourneyContext.tsx:248-249 | the index just past kycChoice: 2 for ntb and etb-nk, 0 for the sequences without kycChoice; always inside the sequence |
| Journey.DigitalTargetPastKycChoice | src/app/context/JourneyContext.tsx:248-249 | `DigitalTarget` is exactly `kycIndex + 1` when `findIndex` finds kycChoice, and 0 when it does not |
| Journey.Provider.SwitchToDigitalKycFlow | src/app/context/JourneyContext.tsx:243-251 | a no-op without a journey type. Otherwise the full sequence is restored at `DigitalTarget`, just past kycChoice, with no branch, and persisted, so the index is in range from any ready state |
| Journey.Provider.NextStep | src/app/context/JourneyContext.tsx:373-397 | `nextStep` from the current render: clears the branch and the bottom bar. On a resume link at index 0 it jumps once to the stored target when 0 < target < length. Otherwise it advances by one unless on the last step. It runs from any ready state. An index past the end stays where it is, and an index in range stays in range |
| Journey.Provider.NextStepFrom | src/app/context/JourneyContext.tsx:373-397 | a `nextStep` closed over an earlier render: branch and bar cleared, the index and stored index move to `NextTarget`, the resume flag cleared by the jump; the state stays valid when the captured length is current |
| Journey.Provider.PrevStep | src/app/context/JourneyContext.tsx:399-405 | clears the branch and the bottom bar, and steps back unless at 0, from any ready state. An index in range stays in range |
| Journey.Provider.GoToStep | src/app/context/JourneyContext.tsx:407-422 | an id without a screen changes nothing. An id in the sequence moves the index to its position and leaves the branch. Any other routable id becomes the persisted branch with the index unchanged. It runs from any ready state, and an id in the sequence brings the index back in range |
| Journey.Provider.Current | src/app/context/JourneyContext.tsx:438-440 | the controller's current screen is the component of the current step when the index is in range, none below 0 |
| Home.View | src/app/page.tsx:21-34 | the dashboard when requested. Otherwise the branch under key 'branch', else the current step's screen under its id; nothing when the index is out of range |
| Home.Render | src/app/page.tsx:11-42 | an in-range controller with no branch and the dashboard hidden always shows a screen |
| Home.CanonicalStepRenders | src/app/page.tsx:30-34 | on every step of every journey the page shows that step's component keyed by its id |
| Branding.DefaultConfigsDistinct | src/app/context/BrandingContext.tsx:25-77 | the three preset configurations are pairwise different |
| Branding.Apply | src/app/context/BrandingContext.tsx:102 | every member the update supplies replaces the old one, `modules` as a whole, every other member is kept |
| Branding.ApplyNothing | src/app/context/BrandingContext.tsx:102 | an empty update changes nothing |
| Branding.ApplyIdempotent | src/app/context/BrandingContext.tsx:102 | applying an update twice is applying it once |
| Branding.PresetIndex | src/app/context/BrandingContext.tsx:106-107 | `indexOf` is -1 exactly for custom and otherwise the preset's position |
| Branding.NextPreset | src/app/context/BrandingContext.tsx:105-110 | the toggle goes to the next preset cyclically, and from custom to hdfc |
| Branding.ToggleCycle | src/app/context/BrandingContext.tsx:105-110 | three toggles return to the starting preset and a toggle always changes the theme |
| Branding.Provider.constructor | src/app/context/BrandingContext.tsx:90-91 | the initial theme is hdfc with the hdfc configuration |
| Branding.Provider.SetTheme | src/app/context/BrandingContext.tsx:93-98 | a preset brings its own configuration; custom keeps the configuration in force |
| Branding.Provider.UpdateConfig | src/app/context/BrandingContext.tsx:100-103 | the theme becomes custom and the update is merged into the configuration |
| Branding.Provider.ToggleTheme | src/app/context/BrandingContext.tsx:105-110 | the theme becomes the next preset and shows its own configuration, never custom |
| DemoToggle.TypeIndex | src/app/components/DemoToggle.tsx:10 | every journey type has its position in the cycle |
| DemoToggle.NextJourneyType | src/app/components/DemoToggle.tsx:23-30 | ntb from no type, otherwise the next type in the order ntb, etb-nk, etb, journey2 |
| DemoToggle.CycleProperties | src/app/components/DemoToggle.tsx:10-30 | the chosen type always differs from the current one and four presses come back to it |
| DemoToggle.DemoPan | src/app/components/DemoToggle.tsx:35 | the ETB demo PAN is written exactly for etb, the other PAN otherwise |
| DemoToggle.CycleJourneyType | src/app/components/DemoToggle.tsx:22-37 | the journey restarts at index 0 of the next type's sequence (the equality guard never suppresses it), and only the PAN changes in the form data. Local storage then holds the new type, its sequence, index 0, no branch and the new form data, with every other key as before. It works from any ready state, so it recovers an index past the end |
| Sidebar.StatusOf | src/app/components/layout/Sidebar.tsx:29-31 | each entry is exactly one of completed (before), current (at) or pending (after the index) |
| Sidebar.Entries | src/app/components/layout/Sidebar.tsx:28-74 | one entry per step with its id, title and status; disabled exactly when pending |
| Sidebar.OneCurrent | src/app/components/layout/Sidebar.tsx:29-31 | with an in-range index exactly one entry is current, the one at the index |
| Sidebar.HandleStepClick | src/app/components/layout/Sidebar.tsx:12-17 | a click ahead of the index, or on a step without a screen, changes nothing (bottom bar and storage included). Any other click lands on the step's position, in range even from an index past the end, with no branch and no bottom bar. Storage then holds that index and no branch key |
| Navbar.NavSteps | src/app/components/layout/Navbar.tsx:13 | the nav list holds exactly the steps other than welcome |
| Navbar.NavStepsAppend | src/app/components/layout/Navbar.tsx:13 | the filter keeps the order of what it keeps |
| Navbar.CanonicalNavSteps | src/app/components/layout/Navbar.tsx:13 | on a journey sequence the nav list is the sequence without its first step |
| Navbar.NoWelcome | src/app/components/layout/Navbar.tsx:13 | a list without welcome passes unchanged |
| Navbar.Bar | src/app/components/layout/Navbar.tsx:8-63 | nothing at index 0. Otherwise one entry per nav step, whose status comes from its id's position in the full sequence; disabled exactly when ahead, with a separator on all but the last |
| Navbar.SeparatorsBelow | src/app/components/layout/Navbar.tsx:49 | entries with separators exactly below a bound draw that many |
| Navbar.SeparatorCount | src/app/components/layout/Navbar.tsx:49 | a bar of n entries draws n - 1 separators |
| Navbar.Click | src/app/components/layout/Navbar.tsx:31-36 | a step ahead of the index, or one without a screen, is ignored (bottom bar and storage included). Otherwise the click lands on the step's position, in range even from an index past the end, with no branch and no bottom bar. Storage then holds that index and no branch key |
| Nominee.Surname | src/app/components/steps/StepNomineeDetails.tsx:27-31 | the last word of the trimmed name when it has at least two words, else empty |
| Nominee.Suggestion | src/app/components/steps/StepNomineeDetails.tsx:33-49 | a known relation gives its first name plus the surname when there is one; any other relation gives "" |
| ChatStep.ModeOf | src/app/components/steps/StepProfessionalDetailsExpress.tsx:28-30 | history iff the id occurs before the index; active iff the first occurrence is at the index, or the id is absent and the index is -1 |
| ChatStep.ModeAtOwnPosition | src/app/components/steps/StepProfessionalDetailsExpress.tsx:28-30 | in a sequence of distinct ids a screen is hidden before its position, active at it and history after it |
| ChatStep.UnlistedIdHidden | src/app/components/steps/StepAccountConversion.tsx:28-30 | a screen looking up a non-catalog id is hidden at every in-range index |
| InviteToken.StripPadding | src/lib/inviteToken.ts:19 | the result is a prefix not ending in '=', and only '=' were removed |
| InviteToken.ToUrlAlphabet | src/lib/inviteToken.ts:19 | no '+' or '/' remains and every other character is unchanged |
| InviteToken.FromUrlAlphabet | src/lib/inviteToken.ts:37 | no '-' or '_' remains and every other character is unchanged |
| InviteToken.AlphabetRoundTrip | src/lib/inviteToken.ts:19-37 | standard-alphabet text survives the URL-safe swap and back |
| InviteToken.Repad | src/lib/inviteToken.ts:38 | re-padding appends at most three '=' and makes the length a multiple of four |
| InviteToken.BinaryOf | src/lib/inviteToken.ts:17 | one character per byte with the byte's code |
| InviteToken.BytesOf | src/lib/inviteToken.ts:41-43 | one byte per character with the character's code |
| InviteToken.BinaryRoundTrip | src/lib/inviteToken.ts:17-43 | bytes copied into a binary string and back are unchanged |
| InviteToken.Base64UrlEncodeFromString | src/lib/inviteToken.ts:14-19 | the byte-copy loop yields the URL-safe encoding of the string |
| InviteToken.Base64UrlDecodeToString | src/lib/inviteToken.ts:37-44 | the byte-copy loop yields the decoding of the token, none when base64 decoding fails |
| InviteToken.StripPaddingAppend | src/lib/inviteToken.ts:19 | stripping a run of '=' after text that does not end in '=' restores the text |
| InviteToken.StripAfterSwap | src/lib/inviteToken.ts:19 | on base64 text, stripping commutes with the alphabet swap |
| InviteToken.RepadRestores | src/lib/inviteToken.ts:19-38 | the decoder's re-padding restores exactly the padding the encoder stripped |
| InviteToken.UrlEncodeIsUrlSafe | src/lib/inviteToken.ts:17-19 | the encoding contains no '+', '/' or '=' |
| InviteToken.UrlRoundTrip | src/lib/inviteToken.ts:12-44 | decoding undoes encoding for every string |
| InviteToken.PayloadJson | src/lib/inviteToken.ts:58 | the payload object carries v = 1 |
| InviteToken.Member | src/lib/inviteToken.ts:69-70 | optional member access is defined exactly for a key of an object |
| InviteToken.CreateInviteToken | src/lib/inviteToken.ts:57-60 | the token is "inv_" followed by the encoding of the JSON of the payload |
| InviteToken.ParseInviteToken | src/lib/inviteToken.ts:62-75 | a result exists exactly when the token has the tag, its body decodes, the JSON parses and the shape check accepts it; the result is the parsed JSON |
| InviteToken.ParseCreateRoundTrip | src/lib/inviteToken.ts:57-75 | parsing a created token gives the payload with v = 1 when id and employee id are non-empty, none otherwise |
| InviteToken.PayloadAccepted | src/lib/inviteToken.ts:69-70 | the shape check accepts a created payload iff its id and employee id are non-empty |
| InviteToken.CreatedTokenIsUrlSafe | src/lib/inviteToken.ts:19-60 | after the tag a created token has no '+', '/' or '=' |
| KycChoiceStep.Screen.constructor | src/app/components/steps/StepKycChoice.tsx:18 | the selected method comes from the form data when truthy |
| KycChoiceStep.Screen.HandleChoice | src/app/components/steps/StepKycChoice.tsx:24-43 | kycMethod is written before any navigation. Physical truncates to [welcome, kycChoice] at its last step. Digital restores the sequence when e-KYC is missing, else advances (resume jump included, `AdvancedAfterSaving`). Each case states the whole stored state: the new form data plus that case's sequence, index and branch key |
| KycChoiceStep.Screen.Route | src/app/components/steps/StepKycChoice.tsx:30-42 | the navigation part of the choice. Each case gives the stored sequence, index and branch key and leaves the form data alone. The advance case is `AdvancedFrom` the current render, resume jump included |
| KycChoiceStep.DigitalReturnsPastChoice | src/app/components/steps/StepKycChoice.tsx:31-41 | after a physical choice a digital one lands at index 2, just past kycChoice |
| WelcomeStep.MobileRejected | src/app/components/steps/StepWelcome.tsx:46 | the mobile error fires exactly when the number fails ^[6-9]\d{9}$ |
| WelcomeStep.PanRejected | src/app/components/steps/StepWelcome.tsx:53 | the PAN error fires exactly when the PAN fails ^[A-Z]{5}[0-9]{4}[A-Z]$ |
| WelcomeStep.NormalizeKeepsMobile | src/app/components/steps/StepWelcome.tsx:171 | the filter of the mobile input removes separators from a valid ten-digit number |
| WelcomeStep.NoDigits | src/app/components/steps/StepWelcome.tsx:308 | the digit filter erases text without digits |
| WelcomeStep.Refilled | src/app/components/steps/StepWelcome.tsx:37-39 | an empty field takes the stored text, a non-empty one keeps its own |
| WelcomeStep.Screen.constructor | src/app/components/steps/StepWelcome.tsx:17-25 | mobile, dob and PAN come from the form data; nothing is sent, loading or flagged |
| WelcomeStep.Screen.ValidateForm | src/app/components/steps/StepWelcome.tsx:42-62 | the error map has an entry for exactly the failing fields, each holding its message from lines 45-58. The result is true iff the form is valid |
| WelcomeStep.Screen.SyncFromFormData | src/app/components/steps/StepWelcome.tsx:35-40 | when the stored mobile, date of birth or PAN changes, each empty field is refilled from the form data; a repeat with the same entries changes nothing |
| WelcomeStep.Screen.Flag | src/app/components/steps/StepWelcome.tsx:45-59 | a failed check adds its message under its field; a passed one changes nothing |
| WelcomeStep.Screen.RequestOtp | src/app/components/steps/StepWelcome.tsx:64-75 | the error map lists exactly the failing fields with their messages, empty for a valid form. An invalid form writes nothing; a valid one starts loading and merges mobile, dob and PAN |
| WelcomeStep.Screen.OtpDelivered | src/app/components/steps/StepWelcome.tsx:70-74 | loading ends and the OTP counts as sent |
| WelcomeStep.Screen.VerifyOtp | src/app/components/steps/StepWelcome.tsx:77-84 | loading starts only for a six-character OTP, and the timer keeps this render's index and length |
| WelcomeStep.Screen.VerifyTimerFires | src/app/components/steps/StepWelcome.tsx:80-83 | loading ends and the captured `nextStep` runs: the index lands on `NextTarget` of the click's index and length; it stays in range when the length has not changed |
| WelcomeStep.Screen.SyncBottomBar | src/app/components/steps/StepWelcome.tsx:98-134 | the bar is re-set only when the composite key changed, and a repeat with the same key leaves it alone |
| WelcomeStep.Screen.OnMobileChange | src/app/components/steps/StepWelcome.tsx:168-175 | at most ten typed characters, of which the digits are kept; its error is cleared |
| WelcomeStep.Screen.OnDobChange | src/app/components/steps/StepWelcome.tsx:200-205 | the date is set and its error cleared |
| WelcomeStep.Screen.OnPanChange | src/app/components/steps/StepWelcome.tsx:227-234 | at most ten typed characters, upper-cased; its error is cleared |
| WelcomeStep.Screen.OnConsentChange | src/app/components/steps/StepWelcome.tsx:258-263 | the consent is set and its error cleared |
| WelcomeStep.Screen.OnOtpChange | src/app/components/steps/StepWelcome.tsx:305-310 | at most six typed characters, of which the digits are kept |
| WelcomeStep.Screen.ChangeNumber | src/app/components/steps/StepWelcome.tsx:290 | back to the number entry |
| CombinedDetailsStep.Screen.constructor | src/app/components/steps/StepCombinedDetails.tsx:15-32 | text fields from the form data or empty, flags by truthiness, the two residency flags true unless stored as false |
| CombinedDetailsStep.Screen.Details | src/app/components/steps/StepCombinedDetails.tsx:97-104 | the communication address written is the current one when the addresses are the same |
| CombinedDetailsStep.Screen.NomineePart | src/app/components/steps/StepCombinedDetails.tsx:105-109 | without a nominee the four nominee fields are written as ""; with one, as entered |
| CombinedDetailsStep.Screen.Declarations | src/app/components/steps/StepCombinedDetails.tsx:110-112 | the three declaration flags are written |
| CombinedDetailsStep.Screen.Payload | src/app/components/steps/StepCombinedDetails.tsx:96-113 | the payload holds the nominee part unchanged, the resolved communication address and the nominee flag |
| CombinedDetailsStep.Screen.HandleContinue | src/app/components/steps/StepCombinedDetails.tsx:84-118 | an invalid form writes nothing. A valid one starts loading, the merge of its payload survives the `setNomineeEnabled` that follows, and the timer keeps this render's index and length |
| CombinedDetailsStep.Screen.Submit | src/app/components/steps/StepCombinedDetails.tsx:96-114 | `setNomineeEnabled` receives the flag the payload already holds, so the bag is the merge alone |
| CombinedDetailsStep.Screen.ContinueTimerFires | src/app/components/steps/StepCombinedDetails.tsx:115-118 | loading ends and the captured `nextStep` runs from the click's index and length |
| CombinedDetailsStep.Screen.SyncCommunicationAddress | src/app/components/steps/StepCombinedDetails.tsx:68-72 | while the addresses are the same the communication address follows the current one |
| CombinedDetailsStep.Screen.OnNomineeToggle | src/app/components/steps/StepCombinedDetails.tsx:387-396 | unchecking blanks the four nominee fields, checking keeps them |
| CombinedDetailsStep.Screen.OnRelationChange | src/app/components/steps/StepCombinedDetails.tsx:435-439 | the relation is set, and a non-empty suggestion overwrites the nominee name |
| CombinedDetailsStep.Screen.Caption | src/app/components/steps/StepCombinedDetails.tsx:150-174 | the caption is blank (a spinner) exactly while loading |
| CombinedDetailsStep.Screen.SyncBottomBar | src/app/components/steps/StepCombinedDetails.tsx:150-174 | the button is disabled while loading or while the form is invalid |
| NomineeDetailsStep.Screen.constructor | src/app/components/steps/StepNomineeDetails.tsx:14-19 | the four fields start from the form data |
| NomineeDetailsStep.Screen.HandleContinue | src/app/components/steps/StepNomineeDetails.tsx:53-62 | an invalid form writes nothing. A valid one writes exactly the four nominee fields, every other key unchanged, and the timer keeps this render's index and length |
| NomineeDetailsStep.Screen.ContinueTimerFires | src/app/components/steps/StepNomineeDetails.tsx:58-61 | loading ends and the captured `nextStep` runs from the click's index and length |
| NomineeDetailsStep.Screen.OnRelationChange | src/app/components/steps/StepNomineeDetails.tsx:114-118 | the relation is set, and a known relation overwrites the name with its first name and the surname |
| NomineeDetailsStep.Screen.SyncBottomBar | src/app/components/steps/StepNomineeDetails.tsx:64-77 | the confirm button is disabled while loading or while the form is invalid |
| EkycHandlerStep.LastFour | src/app/components/steps/StepEkycHandler.tsx:190 | the last min(4, length) characters, a suffix of the input |
| EkycHandlerStep.Screen.constructor | src/app/components/steps/StepEkycHandler.tsx:18-25 | number and consent come from the form data, and the countdown starts at 30 |
| EkycHandlerStep.Screen.Tick | src/app/components/steps/StepEkycHandler.tsx:31-36 | the countdown drops by one only while the OTP is sent and it is positive, so it never goes below 0 |
| EkycHandlerStep.Screen.Resend | src/app/components/steps/StepEkycHandler.tsx:195-205 | resend restarts the countdown at 30, and only when it is enabled |
| EkycHandlerStep.Screen.SendOtpOf | src/app/components/steps/StepEkycHandler.tsx:38-56 | `sendOtp` of a render: the length error is checked first, then consent. Loading starts only when both pass, and the timer keeps that render's number and consent |
| EkycHandlerStep.Screen.SendOtp | src/app/components/steps/StepEkycHandler.tsx:110-113 | the number form's submit runs `sendOtp` on the number and consent on screen |
| EkycHandlerStep.Screen.OtpDelivered | src/app/components/steps/StepEkycHandler.tsx:51-55 | the OTP counts as sent, and the number and consent captured at the click are merged into the form data |
| EkycHandlerStep.Screen.VerifyOtpOf | src/app/components/steps/StepEkycHandler.tsx:58-71 | `verifyOtp` of a render: a short OTP is reported and nothing starts; a six-digit one starts loading, and the timer keeps that render's `nextStep` |
| EkycHandlerStep.Screen.VerifyOtp | src/app/components/steps/StepEkycHandler.tsx:162-165 | the OTP form's submit runs `verifyOtp` with the OTP on screen and the current index and length |
| EkycHandlerStep.Screen.VerifyTimerFires | src/app/components/steps/StepEkycHandler.tsx:67-70 | loading ends and the captured `nextStep` runs from the click's index and length |
| EkycHandlerStep.Screen.Caption | src/app/components/steps/StepEkycHandler.tsx:74-87 | the caption is blank exactly while loading |
| EkycHandlerStep.SameLengthEditKeepsKey | src/app/components/steps/StepEkycHandler.tsx:91 | the effect's key holds the number's length only, so overtyping a digit leaves the key unchanged while the render differs |
| EkycHandlerStep.Screen.SyncBottomBar | src/app/components/steps/StepEkycHandler.tsx:73-91 | runs only when the key of line 91 changed. Then the button is disabled iff loading or its action would be refused, and it holds this render. A repeated key changes nothing |
| EkycHandlerStep.Screen.PressBar | src/app/components/steps/StepEkycHandler.tsx:83 | a press does nothing when the held render disabled the button. Otherwise `verifyOtp` or `sendOtp` runs on the held render, so the send timer keeps that render's number, which may differ from the one on screen. A send shows errors and clears the message; a verify leaves both as they were |
| EkycHandlerStep.Screen.OnAadhaarChange | src/app/components/steps/StepEkycHandler.tsx:121-123 | at most twelve typed characters, of which the digits are kept |
| EkycHandlerStep.Screen.OnOtpChange | src/app/components/steps/StepEkycHandler.tsx:182-184 | at most six typed characters, of which the digits are kept |
| EkycHandlerStep.Screen.OnConsentChange | src/app/components/steps/StepEkycHandler.tsx:138-143 | consent is stored at once, and the error line is cleared once errors are shown |
| EkycHandlerStep.Screen.EditAadhaar | src/app/components/steps/StepEkycHandler.tsx:173 | back to the number entry |
| VideoKycStep.Screen.Stage | src/app/components/steps/StepVideoKyc.tsx:33-47 | the three flags encode exactly one of idle, connecting, connected and completed |
| VideoKycStep.Screen.constructor | src/app/components/steps/StepVideoKyc.tsx:16-21 | idle, with both declarations read from the form data |
| VideoKycStep.Screen.StartCall | src/app/components/steps/StepVideoKyc.tsx:29-48 | errors are shown. From idle the call connects only when both declarations are given, and the timers keep the index and length of the press |
| VideoKycStep.Screen.CallConnected | src/app/components/steps/StepVideoKyc.tsx:36-38 | connecting moves forward to connected |
| VideoKycStep.Screen.CallCompleted | src/app/components/steps/StepVideoKyc.tsx:41-42 | connected moves forward to completed |
| VideoKycStep.Screen.FinishTimerFires | src/app/components/steps/StepVideoKyc.tsx:43-45 | from completed the captured `nextStep` runs from the press's index and length |
| VideoKycStep.Screen.SyncBottomBar | src/app/components/steps/StepVideoKyc.tsx:50-82 | no bar once completed. Before that the button is enabled iff idle with both declarations given |
| VideoKycStep.Screen.OnConsentChange | src/app/components/steps/StepVideoKyc.tsx:114-118 | the consent is set and stored with its new value |
| VideoKycStep.Screen.OnPresentChange | src/app/components/steps/StepVideoKyc.tsx:135-139 | the presence is set and stored with its new value |
| KycDetailsStep.Screen.constructor | src/app/components/steps/StepKycDetails.tsx:12-14 | both declarations start from the form data |
| KycDetailsStep.Screen.HandleAgree | src/app/components/steps/StepKycDetails.tsx:22-28 | errors are shown. Without both declarations nothing else happens (bottom bar, URL flag and storage included). With them, both are stored as true and `nextStep` runs from the current render (`AdvancedAfterSaving`): landing, URL flag, and storage with the new form data, the index written and no branch key, from any ready state |
| KycDetailsStep.Screen.SyncBottomBar | src/app/components/steps/StepKycDetails.tsx:30-43 | "I Agree" is disabled until both declarations are given |
| KycDetailsStep.Screen.OnConsentChange | src/app/components/steps/StepKycDetails.tsx:75-78 | the consent key is written with the new value |
| KycDetailsStep.Screen.OnPresentChange | src/app/components/steps/StepKycDetails.tsx:96-99 | the presence key is written with the new value |
| AutoConversionStep.FallbackAccounts | src/app/components/steps/StepAutoConversion.tsx:30-34 | three accounts with distinct ids |
| AutoConversionStep.Accounts | src/app/components/steps/StepAutoConversion.tsx:25-35 | the form data's accounts when a non-empty array, else the fallback; never empty |
| AutoConversionStep.Screen.constructor | src/app/components/steps/StepAutoConversion.tsx:11-17 | answer, status and account come from the form data when defined, status idle otherwise |
| AutoConversionStep.Screen.RunConversion | src/app/components/steps/StepAutoConversion.tsx:40-47 | the status becomes converting, written with the account, and the timer keeps that account |
| AutoConversionStep.Screen.ConversionDone | src/app/components/steps/StepAutoConversion.tsx:43-46 | the status becomes success, written with the account captured by `runConversion` even if another is selected since; with an account now selected the user may continue |
| AutoConversionStep.Screen.HandleContinue | src/app/components/steps/StepAutoConversion.tsx:49-52 | a refused continue changes nothing, bottom bar and URL flag included. Otherwise `nextStep` runs from the current index and length |
| AutoConversionStep.Screen.SyncBottomBar | src/app/components/steps/StepAutoConversion.tsx:54-67 | "Continue" is disabled until the user may continue |
| AutoConversionStep.Screen.SelectAccount | src/app/components/steps/StepAutoConversion.tsx:92-95 | the account is picked and stored |
| AutoConversionStep.Screen.ChooseYes | src/app/components/steps/StepAutoConversion.tsx:135-139 | yes is stored, and the conversion runs only with an account and no earlier success, capturing that account; converting is possible iff an account is picked |
| AutoConversionStep.Screen.ChooseNo | src/app/components/steps/StepAutoConversion.tsx:154-157 | no is stored, the status is untouched, and the user may continue but not convert |
| ReviewApplicationStep.Shown | src/app/components/steps/StepReviewApplication.tsx:80-95 | a text field is shown as stored when truthy, as "—" otherwise; never blank |
| ReviewApplicationStep.ShownCapitalized | src/app/components/steps/StepReviewApplication.tsx:84 | a truthy field is shown with its first letter upper-cased and the rest unchanged |
| ReviewApplicationStep.FormatIncomeRange | src/app/components/steps/StepReviewApplication.tsx:65-75 | "—" for empty. Each of the five codes gets its label from the table of lines 67-73 (`IncomeLabels`), never the code itself. Any other value is shown unchanged |
| ReviewApplicationStep.CommunicationShown | src/app/components/steps/StepReviewApplication.tsx:93 | the current address when the addresses are the same, otherwise the communication address |
| ReviewApplicationStep.KycLabel | src/app/components/steps/StepReviewApplication.tsx:99 | "Physical KYC" iff the method is exactly physicalKyc, else "Digital KYC" |
| ReviewApplicationStep.PersonalItems | src/app/components/steps/StepReviewApplication.tsx:78-87 | eight filled items, the mobile shown with its country code |
| ReviewApplicationStep.AddressItems | src/app/components/steps/StepReviewApplication.tsx:89-95 | two filled items, the second the resolved communication address |
| ReviewApplicationStep.ProfileItems | src/app/components/steps/StepReviewApplication.tsx:97-100 | two filled items, the second the KYC method label |
| ReviewApplicationStep.NomineeItems | src/app/components/steps/StepReviewApplication.tsx:103-110 | four filled items starting with the nominee's name |
| ReviewApplicationStep.Sections | src/app/components/steps/StepReviewApplication.tsx:77-118 | three sections, plus "Nominee" iff a nominee is wanted, and no blank value anywhere |
| ReviewApplicationStep.Screen.constructor | src/app/components/steps/StepReviewApplication.tsx:15-16 | not submitting, terms not accepted |
| ReviewApplicationStep.Screen.HandleSubmit | src/app/components/steps/StepReviewApplication.tsx:22-32 | submitting starts only once the terms are accepted, and the timer keeps this render's index and length |
| ReviewApplicationStep.Screen.SubmitTimerFires | src/app/components/steps/StepReviewApplication.tsx:28-31 | submitting ends and the captured `nextStep` runs from the click's index and length |
| ReviewApplicationStep.Screen.SyncBottomBar | src/app/components/steps/StepReviewApplication.tsx:34-57 | disabled while submitting or until the terms are accepted |
| ReviewApplicationStep.Screen.OnTermsChange | src/app/components/steps/StepReviewApplication.tsx:154 | the terms flag is set |
| ProfessionalDetailsExpressStep.Screen.constructor | src/app/components/steps/StepProfessionalDetailsExpress.tsx:18-26 | stored values or fixed defaults; the preferences true unless stored as false; isPep a truthy stored value or false |
| ProfessionalDetailsExpressStep.Screen.Payload | src/app/components/steps/StepProfessionalDetailsExpress.tsx:38-46 | the payload has exactly the seven confirmed keys |
| ProfessionalDetailsExpressStep.Screen.HandleConfirm | src/app/components/steps/StepProfessionalDetailsExpress.tsx:36-51 | the screen is confirmed, exactly the seven fields are merged, and the timer keeps this render's index and length |
| ProfessionalDetailsExpressStep.Screen.PressConfirm | src/app/components/steps/StepProfessionalDetailsExpress.tsx:178-180 | a press while confirmed or with an empty nominee name or income does nothing; otherwise `handleConfirm` runs. The button is disabled afterwards, so fields and timer are written once |
| ProfessionalDetailsExpressStep.Screen.ConfirmTimerFires | src/app/components/steps/StepProfessionalDetailsExpress.tsx:48-50 | the captured `nextStep` runs from the click's index and length |
| ProfessionalDetailsExpressStep.Screen.OnIncomeChange | src/app/components/steps/StepProfessionalDetailsExpress.tsx:90 | the income keeps only digits |
| ProfessionalDetailsExpressStep.Screen.OnPepChange | src/app/components/steps/StepProfessionalDetailsExpress.tsx:168 | the PEP flag becomes the checkbox value |
| IncomeDetailsStep.Screen.constructor | src/app/components/steps/StepIncomeDetails.tsx:14-16 | income and occupation from the form data or empty, not loading |
| IncomeDetailsStep.Screen.HandleContinue | src/app/components/steps/StepIncomeDetails.tsx:18-25 | loading starts, exactly income and occupation are merged, and the timer keeps this render's index and length |
| IncomeDetailsStep.Screen.PressContinue | src/app/components/steps/StepIncomeDetails.tsx:74-76 | a press while loading or with an empty field does nothing; otherwise `handleContinue` runs and stores a non-empty income and occupation. The button is disabled afterwards |
| IncomeDetailsStep.Screen.ContinueTimerFires | src/app/components/steps/StepIncomeDetails.tsx:21-24 | loading ends and the captured `nextStep` runs from the click's index and length |
| IncomeDetailsStep.Screen.OnIncomeChange | src/app/components/steps/StepIncomeDetails.tsx:65 | the income keeps only digits |
| AccountConversionStep.ExpiryText | src/app/components/steps/StepAccountConversion.tsx:148-152 | with two or more digits, MM/YY of the first four digits; otherwise the 0-1 digits unchanged; at most five characters |
| AccountConversionStep.ExpiryIdempotent | src/app/components/steps/StepAccountConversion.tsx:148-152 | formatting a formatted expiry changes nothing |
| AccountConversionStep.SlashComesBack | src/app/components/steps/StepAccountConversion.tsx:150-151 | deleting back to "12" puts the slash back: "12/" |
| AccountConversionStep.NeverShownInRange | src/app/components/steps/StepAccountConversion.tsx:28-30 | the lookup of "account-conversion" never matches, so the screen is hidden at every in-range index |
| AccountConversionStep.Screen.constructor | src/app/components/steps/StepAccountConversion.tsx:16-26 | empty fields, debit-card tab, nothing loading |
| AccountConversionStep.Screen.HandleVerify | src/app/components/steps/StepAccountConversion.tsx:36-45 | verification starts loading, and the nested timers keep this render's index and length |
| AccountConversionStep.Screen.PressVerify | src/app/components/steps/StepAccountConversion.tsx:218-220 | a press while verifying or redirecting does nothing, so no second chain of timers starts; otherwise `handleVerify` runs. The button is disabled afterwards |
| AccountConversionStep.Screen.Verified | src/app/components/steps/StepAccountConversion.tsx:38-40 | loading ends and redirecting starts |
| AccountConversionStep.Screen.RedirectTimerFires | src/app/components/steps/StepAccountConversion.tsx:41-43 | the `nextStep` captured by `handleVerify` runs from the click's index and length |
| AccountConversionStep.Screen.OnLast4Change | src/app/components/steps/StepAccountConversion.tsx:133-137 | at most four digits are kept |
| AccountConversionStep.Screen.OnExpiryChange | src/app/components/steps/StepAccountConversion.tsx:143-152 | the typed text is formatted as an expiry |
| AccountConversionStep.Screen.OnPinChange | src/app/components/steps/StepAccountConversion.tsx:159-165 | at most four digits are kept |
| AccountConversionStep.Screen.TogglePassword | src/app/components/steps/StepAccountConversion.tsx:169 | the password visibility flips |
| AccountConversionStep.Screen.SelectTab | src/app/components/steps/StepAccountConversion.tsx:94 | the chosen tab becomes active |
| AadhaarKycStep.FirstSpace | src/app/components/steps/StepAadhaarKyc.tsx:37-38 | after the first space, position 9 is where the second one goes |
| AadhaarKycStep.CutAtFourteen | src/app/components/steps/StepAadhaarKyc.tsx:36-39 | cutting the twice-spaced text at 14 is grouping the first twelve digits |
| AadhaarKycStep.GroupAadhaarIsGrouped | src/app/components/steps/StepAadhaarKyc.tsx:36-39 | the formatter groups the first twelve digits of the input |
| AadhaarKycStep.GroupedShape | src/app/components/steps/StepAadhaarKyc.tsx:37-38 | grouped digits have spaces exactly at positions 4 and 9, and at most 14 characters |
| AadhaarKycStep.GroupAadhaarShape | src/app/components/steps/StepAadhaarKyc.tsx:36-39 | the output's digits are the first min(d, 12) input digits in order, spaces only at 4 and 9, at most 14 characters |
| AadhaarKycStep.GroupAadhaarIdempotent | src/app/components/steps/StepAadhaarKyc.tsx:36-39 | formatting formatted text changes nothing |
| AadhaarKycStep.DigitsAcrossSpace | src/app/components/steps/StepAadhaarKyc.tsx:36 | an inserted space does not change the digits |
| AadhaarKycStep.GroupedDigits | src/app/components/steps/StepAadhaarKyc.tsx:36-39 | grouping keeps the digits, in order |
| AadhaarKycStep.Screen.constructor | src/app/components/steps/StepAadhaarKyc.tsx:14 | no OTP sent, empty input |
| AadhaarKycStep.Screen.OnAadhaarInput | src/app/components/steps/StepAadhaarKyc.tsx:28-40 | the input shows the grouped form of what was typed (cut at the field's length) |
| AadhaarKycStep.Screen.Press | src/app/components/steps/StepAadhaarKyc.tsx:60-66 | the first press only marks the OTP sent: index, branch, bottom bar, URL flag and storage are unchanged. A press after that runs `nextStep` from the current index and length, from any ready state |
| AadhaarKycStep.Screen.Caption | src/app/components/steps/StepAadhaarKyc.tsx:68 | "Send OTP" before the OTP is sent, "Verify Aadhaar OTP" after |

## Left out

- Chat and notifications: `sendMessage` and `addNotification` (JourneyContext.tsx lines 113-142) build ids from the clock and locale time strings. The model keeps no message list.
- Inactivity timer: the timer and its window listeners (JourneyContext.tsx lines 300-316) are absent. Its effect, `resetJourney`, is modelled.
- Analytics: `trackEvent` calls are side effects with no bearing on state.
- Presentation: DOM, styling, focus, scroll and animation are not modelled.
- Branding CSS: the effect that writes `glassOpacity` and the colours into CSS variables (BrandingContext.tsx lines 113-132) uses floating point and the DOM. `glassOpacity` is an opaque value in the configuration.
- Display strings: the lakhs display of the income (`toFixed`), the greeting text and the "Step i of n" label are not modelled.
- Invite token, Node path: the Node `Buffer` path of both codec functions and the throw when neither `TextEncoder` nor `Buffer` exists are out. Only the browser path is modelled.
- Invite token, platform functions: UTF-8, base64 (section 4 of RFC 4648) and JSON are parameters of the codec, constrained only by the round-trip laws of `InviteToken.Lawful`.
- Text.ToUpper: upper-cases ASCII letters only; JavaScript's full Unicode case mapping is not modelled.
- Text.Capitalize: upper-cases an ASCII first letter only, through the same character mapping as `Text.ToUpper`.
- Catalog.ComponentFor: a name inherited by every JavaScript object, such as "constructor" or "toString", also reads as truthy from `STEP_COMPONENTS`. `goToStep` would then open that function as a branch screen. The model has only the sixteen own keys.
- FormData.StrOr: a stored value that is not a string (a number typed into a text field by other code) reads as the fallback, where JavaScript would stringify it.
- Numbers: `FormData.Value` holds a JSON number as an integer, `Num(n)`. Fractions in prefilled invite data are not kept, and NaN, a falsy number, cannot be represented.
- Plain text inputs: setters with no filter (names, addresses, dates) are not separate members; each is a field assignment.
- `maxLength`: the browser's limit on an input is modelled as `Text.Take` on the typed value.
- VideoKycStep.Screen.StartCall: captures the index and length at the press. The source memoises `handleStartCall` on the consent flags alone, so it holds the `nextStep` of the render where those last changed. That is a different value only if the journey moved while the screen stayed mounted.
- Timers: every delay is dropped; each delayed callback is a method called later. A screen keeps one capture per timer kind, so a second click before the first timer fires replaces it.
- Resume link: the URL's `resume=true` and its removal by `history.replaceState` are a `resumeInUrl` flag.
- Storage values: local storage holds text. A stored user or journey type outside its enumeration is not modelled, and a garbled value stands for any text that fails to parse.
- Occupation: StepIncomeDetails.tsx lines 46-49 offer four occupations; the model accepts any string.
- Left-out screens: StepConvertAccount, StepOtp, StepAccountAuth, StepKycInstructions, StepLoanOffer, StepPhysicalKyc, StepComplete, StepError, StepNomineeInfo, StepContactDetails, StepJourneySelection, StepKycFace, StepKycPan, StepKycPanFace and StepKycLoading. They only call the controller after a delay, or decide with `Math.random()`.
- Other modules: the dashboard, the invite HTTP routes, the analytics sender and the UI primitives are not part of this model.

Where the written description of the system and the code differ, the model follows the code:

- Reset form data: `resetJourney` sets the form data to `{}`, not to the seeded demo values.
- Bootstrap migration: it drops only the two retired steps kycDetails and nomineeDetails, not every unknown id.
- Journey type and bottom bar: `setJourneyType` does not clear the bottom bar.
- Persisting the type: `startJourney` does not persist the journey type.
- Account-conversion lookup: the screen looks for "account-conversion" while the catalog key is "accountConversion", so it renders nothing whenever the index is in range (`AccountConversionStep.NeverShownInRange`).
- Stale `nextStep`: a delayed `nextStep` advances from the index and length of the click, not of the moment it runs. If the journey changes in between, it can write an index past the new sequence (`Journey.StaleAdvanceLeavesRange`). So the timer methods keep the index in range only when the captured length is still current. The controller's operations require only `Journey.Provider.Ready`, so each one still runs in that state. `DemoToggle.CycleJourneyType`, `GoToStep` on a listed step, and the sidebar and navbar clicks bring the index back in range.
- Negative index: a negative stored index is restored as is (`Journey.NegativeIndexRestored`). The controller invariant therefore bounds the index only from above.
