# ContentGen front end: a verified model

ContentGen is a web app for writing LinkedIn posts. A user types a topic. The
app produces a post body and four candidate opening lines ("hooks"). The user
picks a hook, regenerates text or image, edits the body under a character
limit, and saves the post to a content library or schedules it for the next
day. Around this post-draft workflow sit a five-step onboarding wizard, a
settings screen that diffs a competitor list into store writes, a filtered
content library, an analytics summary, a billing page, a sign-in dialog, two
further editors, and a server function that asks an external webhook for
four hooks and validates its reply.

This project models the logic of these screens in Dafny and proves what
each one promises:

- **Pure expressions** become functions and lemmas: composing the post, hook
  truncation, file validation, the library filter, badge colours, the
  histogram and its labels, tier names, and the webhook handler.
- **Components that keep state in hooks** become classes. Their `useState`
  variables are fields, and each event handler is a method with a
  `modifies` clause.
- **Asynchronous handlers** are modelled as one method that runs to
  completion. The state the user sees while the handler waits is returned
  as an out-parameter such as `during` or `loadingDuring`.
- **Store calls** (Supabase records, storage and auth) are parameters of
  these methods, given as an outcome (`Ok` or `Err(message)`) plus any data
  returned. The model returns the record a method would write, so contracts
  can state the payload exactly.
- **The current time and the random metrics** are also parameters.

There is one module per source file, plus `Common`, which holds Option,
Outcome, toast notices and string helpers. The string helpers are
substring search, ASCII case mapping, ECMAScript `trim`, an ordered filter
and decimal formatting. The canned post bodies and hook templates shared by
both create screens are in `MockContent`.

## Model

| member | source | states |
|---|---|---|
| Common.ContainsIffOccurs | src/components/onboarding/steps/LinkedInStep.tsx:26 | `includes` holds iff the needle occurs at some index of the text |
| Common.TrimEmptyIffBlank | src/components/onboarding/steps/ReviewStep.tsx:13 | `trim()` gives "" iff every character is ECMAScript whitespace |
| Common.FilterKeeps | src/components/dashboard/ContentLibrary.tsx:76 | `Array.filter` keeps exactly the members that pass, in their original order, never more than the input; it is the input when all pass and empty when none does |
| Common.WithoutIsRemoval | src/components/onboarding/steps/CompetitorsStep.tsx:27 | filtering out index i deletes exactly position i when i is in range, and nothing otherwise |
| Common.Lower | src/components/dashboard/ContentLibrary.tsx:77-78 | lower-casing keeps the length and maps each character on its own |
| Common.NatToString | supabase/functions/generate-hooks/index.ts:47 | the rendering of a status code is non-empty, all digits, and starts with 0 only for zero |
| Common.NatToStringRoundTrip | supabase/functions/generate-hooks/index.ts:47 | reading the rendering back as a decimal number gives the status code |
| MockContent.MockBody | src/pages/CreatePost.tsx:78-133 | a body is non-empty exactly for the four known content types; any other type that is not inherited from `Object.prototype` reads as "" |
| MockContent.FirstHooksNameTopic | src/pages/CreatePost.tsx:70-75 | each of the four hooks from a fresh generation contains the topic |
| MockContent.RegeneratedHooksNameTopic | src/pages/CreatePost.tsx:154-159 | each of the four hooks from a text regeneration contains the topic |
| CreatePost.FinalContentDecomposes | src/pages/CreatePost.tsx:200-205 | with a hook selected, the composed post is exactly that hook, then "\n\n", then the body; with none it is the body |
| CreatePost.SelectionNeverDangles | src/pages/CreatePost.tsx:137-205 | on any page state that the handlers keep valid, the composed post is the selected hook, a blank line and the body, or the body alone; it never reads a missing hook |
| CreatePost.SaveEditRepeatsHook | src/pages/CreatePost.tsx:193-205 | as written, saving an edit with a hook selected makes the composed post start with the hook twice, which differs from hook + edit; with no hook selected it is the edited text |
| CreatePost.StyleOrDefault | src/pages/CreatePost.tsx:230 | the stored image style is never empty: the chosen style if there is one, otherwise the default |
| CreatePost.CreatePostPage.constructor | src/pages/CreatePost.tsx:28-47 | nothing generated, no selection, no flag raised, the default image settings, and the form seeded from the `type` parameter |
| CreatePost.CreatePostPage.TypeParamChanged | src/pages/CreatePost.tsx:52-57 | a known `type` parameter replaces only the content type; anything else changes nothing |
| CreatePost.CreatePostPage.SetTopic | src/pages/CreatePost.tsx:350 | only the topic changes |
| CreatePost.CreatePostPage.SetContentType | src/pages/CreatePost.tsx:326 | only the content type changes |
| CreatePost.CreatePostPage.SetImage | src/pages/CreatePost.tsx:422 | the image settings become what the panel reports |
| CreatePost.CreatePostPage.Generate | src/pages/CreatePost.tsx:59-142 | an empty topic changes nothing; otherwise, while waiting, generation is flagged and the picker and body are cleared, and at the end there are four topic hooks, the body for the type, no selection, the picker shown and the flag down; form, image and other flags are untouched |
| CreatePost.CreatePostPage.SelectHook | src/pages/CreatePost.tsx:144-147 | the given hook becomes the selection and the picker closes |
| CreatePost.CreatePostPage.RegenerateText | src/pages/CreatePost.tsx:149-165 | while waiting, only the regeneration flag differs; afterwards the hooks are the four regenerated ones, the selection is reset, the picker is shown, and the body is kept |
| CreatePost.CreatePostPage.RegenerateImage | src/pages/CreatePost.tsx:167-177 | only the flag moves (image, then none); a success notice is shown |
| CreatePost.CreatePostPage.RegenerateAll | src/pages/CreatePost.tsx:187-191 | the flag is "all" while waiting and none afterwards, and the result is that of Generate |
| CreatePost.CreatePostPage.SettingChange | src/pages/CreatePost.tsx:179-185 | exactly the named form setting changes, and a "Setting updated" notice says "<setting> changed to <value>" |
| CreatePost.CreatePostPage.OpenEditor | src/pages/CreatePost.tsx:445 | the edit dialog opens |
| CreatePost.CreatePostPage.CloseEditor | src/pages/CreatePost.tsx:569 | the edit dialog closes |
| CreatePost.CreatePostPage.SaveEdit | src/pages/CreatePost.tsx:193-198 | as written, the body becomes hook + "\n\n" + edit, so the composed post repeats the hook |
| CreatePost.CreatePostPage.SaveEditIntended | src/pages/CreatePost.tsx:193-205 | the corrected edit: the body becomes the edited text, and the composed post shows the hook once, followed by the edit |
| CreatePost.CreatePostPage.SaveToLibrary | src/pages/CreatePost.tsx:216-249 | with no user or an empty body nothing is written; otherwise exactly one draft insert of the composed post, with the form's fields and the image style; the saving flag is reset and a success or failure notice is shown |
| CreatePost.CreatePostPage.SchedulePost | src/pages/CreatePost.tsx:251-289 | the same guard; one "scheduled" insert whose time is now + 24 h; the scheduling flag is reset on both outcomes |
| HookSelector.FirstParagraph | src/components/dashboard/HookSelector.tsx:24 | the result is the longest prefix that holds no "\n\n" |
| HookSelector.ShortTextShape | src/components/dashboard/HookSelector.tsx:22-26 | the short text is the first paragraph cut to 80 characters, with "..." appended iff the hook is longer than 80; a short single-paragraph hook is unchanged |
| HookSelector.HooksData | src/components/dashboard/HookSelector.tsx:22-26 | one entry per hook, with its index as id, its full text unchanged and its short text |
| HookSelector.StepStaysInRange | src/components/dashboard/HookSelector.tsx:33-41 | navigation keeps the selection in -1..count-1 (and in 0..count-1 once chosen); from -1, next goes to 0 and prev stays; there is no wraparound at the ends |
| HookSelector.DisabledIffNoEffect | src/components/dashboard/HookSelector.tsx:110-129 | prev and next are disabled exactly when the step would not move, and use exactly when nothing is selected |
| HookSelector.HookPicker.constructor | src/components/dashboard/HookSelector.tsx:19-20 | nothing is selected or previewed |
| HookSelector.HookPicker.Preview | src/components/dashboard/HookSelector.tsx:28-31 | the previewed hook becomes the selection, and preview stays equal to selection |
| HookSelector.HookPicker.Navigate | src/components/dashboard/HookSelector.tsx:33-41 | the selection takes one step, and preview stays equal to selection |
| HookSelector.HookPicker.UseHook | src/components/dashboard/HookSelector.tsx:43-47 | a hook is handed over iff one is selected, and it is a valid index |
| ImageSettings.ToggleMode | src/components/dashboard/ImageSettings.tsx:50-59 | generate mode gives exactly the default record; upload mode clears style and template; both clear file, preview and the generated URL |
| ImageSettings.StyleChange | src/components/dashboard/ImageSettings.tsx:61-67 | forces generate mode with the new style and keeps every other field |
| ImageSettings.TemplateChange | src/components/dashboard/ImageSettings.tsx:69-75 | forces generate mode with the new template and keeps every other field |
| ImageSettings.ModesStaySeparate | src/components/dashboard/ImageSettings.tsx:50-75 | toggles and style or template changes always give a record whose mode agrees with its fields; a generate record counts as having an image, a cleared upload record does not |
| ImageSettings.ValidateFile | src/components/dashboard/ImageSettings.tsx:77-100 | a file is accepted iff its type is one of the five image types and it is at most 10 MiB; the type is checked before the size |
| ImageSettings.FileUpload | src/components/dashboard/ImageSettings.tsx:102-135 | a record is emitted iff the file is valid and at least 400×400; it carries that file's name, size and dimensions; an undersized image has its preview revoked; an invalid file only shows its notice |
| ImageSettings.UploadOutcome | src/components/dashboard/ImageSettings.tsx:103-120 | an invalid or undersized file leaves the image state unchanged; a valid one that is large enough is accepted |
| ImageSettings.RemoveFile | src/components/dashboard/ImageSettings.tsx:160-172 | revokes the preview iff there is one; the result is an upload record with every file field unset and no image |
| ImageSettings.ImagePanel.constructor | src/components/dashboard/ImageSettings.tsx:44-45 | expanded and not dragging |
| ImageSettings.ImagePanel.ToggleExpanded | src/components/dashboard/ImageSettings.tsx:179 | flips expansion only |
| ImageSettings.ImagePanel.DragOver | src/components/dashboard/ImageSettings.tsx:145-148 | dragging is raised |
| ImageSettings.ImagePanel.DragLeave | src/components/dashboard/ImageSettings.tsx:150-153 | dragging is lowered |
| ImageSettings.ImagePanel.Drop | src/components/dashboard/ImageSettings.tsx:137-143 | dragging is lowered, and only the first dropped file is processed |
| ImageSettings.ImagePanel.FileInputChange | src/components/dashboard/ImageSettings.tsx:155-158 | only the first chosen file is processed, and only if there is one |
| RegenerationToolbar.ToolbarEnablement | src/components/dashboard/RegenerationToolbar.tsx:27-67 | while any regeneration runs, all three buttons are disabled; otherwise text and edit are enabled, and image is enabled iff there is an image |
| EditContentModal.CounterToneOf | src/components/dashboard/EditContentModal.tsx:29-94 | the counter is red iff over 3000, amber iff in 2700..3000, and plain iff below 2700 |
| EditContentModal.SaveAction | src/components/dashboard/EditContentModal.tsx:37-42 | saves the text and closes iff it has at most 3000 characters; otherwise nothing happens |
| EditContentModal.LimitIsInclusive | src/components/dashboard/EditContentModal.tsx:31-121 | 3000 characters save and 3001 do not; the button is disabled iff saving would do nothing; the "approaching" note only shows for text that saves |
| EditContentModal.KeyAction | src/components/dashboard/EditContentModal.tsx:44-50 | Ctrl/Cmd+Enter acts exactly like Save, Escape closes without saving, and other keys do nothing |
| EditContentModal.KeysSaveOnlyLikeSave | src/components/dashboard/EditContentModal.tsx:44-50 | a key saves only as Save would, within the limit; a key that closes without saving is Escape |
| EditContentModal.EditDialog.constructor | src/components/dashboard/EditContentModal.tsx:28 | the edited text starts as the given content |
| EditContentModal.EditDialog.ContentChanged | src/components/dashboard/EditContentModal.tsx:33-35 | a new content prop re-seeds the edited text |
| EditContentModal.EditDialog.Input | src/components/dashboard/EditContentModal.tsx:74 | the edited text becomes the typed text |
| EditContentModal.EditDialog.Save | src/components/dashboard/EditContentModal.tsx:37-42 | the action is SaveAction of the current text |
| EditContentModal.EditDialog.KeyDown | src/components/dashboard/EditContentModal.tsx:44-50 | the action is KeyAction of the key and the current text |
| EditContentModal.EditDialog.Cancel | src/components/dashboard/EditContentModal.tsx:61 | closes without saving |
| OnboardingWizard.Apply | src/components/onboarding/OnboardingWizard.tsx:53-55 | an update sets only the named field, and every other field keeps its value |
| OnboardingWizard.UpdatesToDistinctFieldsCommute | src/components/onboarding/OnboardingWizard.tsx:53-55 | updates to different fields commute, and a second update to the same field overrides the first |
| OnboardingWizard.StepMarkOf | src/components/onboarding/OnboardingWizard.tsx:70-76 | a step is marked done iff its id is below the current one, and current iff it equals it |
| OnboardingWizard.ProgressBarShape | src/components/onboarding/OnboardingWizard.tsx:70-76 | across steps 1..5, done marks are exactly the steps before the current one, and at most the current step is marked current |
| OnboardingWizard.Wizard.constructor | src/components/onboarding/OnboardingWizard.tsx:23-33 | starts at step 1 with blank fields and three empty competitor slots |
| OnboardingWizard.Wizard.Next | src/components/onboarding/OnboardingWizard.tsx:39-45 | on steps 1-4 it moves one step forward whatever the form holds; on step 5 it completes and stays; the step stays in 1..5 |
| OnboardingWizard.Wizard.Back | src/components/onboarding/OnboardingWizard.tsx:47-51 | it moves one step back, except on step 1, where nothing changes |
| OnboardingWizard.Wizard.UpdateFormData | src/components/onboarding/OnboardingWizard.tsx:53-55 | the form becomes Apply of the update |
| CompetitorsStep.CompetitorList.constructor | src/components/onboarding/steps/CompetitorsStep.tsx:13-15 | starts from the form's list, or three blanks |
| CompetitorsStep.CompetitorList.Add | src/components/onboarding/steps/CompetitorsStep.tsx:17-23 | appends "" and reports the new list iff there are fewer than 10 entries; the length stays in 1..10 |
| CompetitorsStep.CompetitorList.Remove | src/components/onboarding/steps/CompetitorsStep.tsx:25-31 | deletes exactly the indexed entry, only when more than one remains; the length stays in 1..10 |
| CompetitorsStep.CompetitorList.Update | src/components/onboarding/steps/CompetitorsStep.tsx:33-38 | replaces only that position, keeps the length, and reports the new list |
| ReviewStep.FilledCompetitorsSpec | src/components/onboarding/steps/ReviewStep.tsx:13 | keeps, in order, exactly the entries that are not blank after trimming; a missing list gives none |
| ReviewStep.CompleteIffAllSections | src/components/onboarding/steps/ReviewStep.tsx:15-130 | the form is complete iff the LinkedIn, company, ICP and competitor sections are all satisfied |
| ReviewStep.BlankCompetitorsNeverComplete | src/components/onboarding/steps/ReviewStep.tsx:13-22 | whitespace-only competitors never make the form complete |
| ReviewStep.OneFilledCompetitorSuffices | src/components/onboarding/steps/ReviewStep.tsx:22-130 | a single non-blank competitor satisfies the competitor section |
| ReviewStep.BlankFormIncomplete | src/components/onboarding/steps/ReviewStep.tsx:15-22 | the wizard's initial form is not complete |
| LinkedInStep.ProfileAndCompanyUrlsPass | src/components/onboarding/steps/LinkedInStep.tsx:26 | any URL containing linkedin.com/in/ or linkedin.com/company/ passes |
| LinkedInStep.UrlValidation.constructor | src/components/onboarding/steps/LinkedInStep.tsx:12-13 | not validating, with validity unknown |
| LinkedInStep.UrlValidation.Validate | src/components/onboarding/steps/LinkedInStep.tsx:15-29 | an empty URL makes validity unknown and runs no check; otherwise validating is raised during the check and lowered afterwards, and validity is the substring test |
| LinkedInStep.UrlValidation.UrlChange | src/components/onboarding/steps/LinkedInStep.tsx:31-117 | the raw value is stored unchanged, then validated; the preview only shows for a stored URL that passed |
| Settings.IdsSpec | src/pages/Settings.tsx:119-120 | the collected ids are exactly the non-empty ids of the list |
| Settings.DeleteSetSpec | src/pages/Settings.tsx:119-121 | the delete set holds exactly the original ids absent from the current list; entries without an id are ignored |
| Settings.NothingDeletedWhenAllKept | src/pages/Settings.tsx:119-130 | saving an unchanged list deletes nothing |
| Settings.RowWrite | src/pages/Settings.tsx:133-159 | a row with an id is updated by that id; a row without one is inserted under the company id |
| Settings.SavePlanShape | src/pages/Settings.tsx:103-159 | the plan starts with the company update, then one delete iff the delete set is non-empty, then one write per current row in list order |
| Settings.ResaveInsertsNewRowsAgain | src/pages/Settings.tsx:133-163 | a row added without an id is still inserted on the next save, because the snapshot keeps the row without the id the store assigned |
| Settings.FirstFailure | src/pages/Settings.tsx:103-176 | the index of the first failing write, or the plan length when none fails |
| Settings.IssuedWritesDetermined | src/pages/Settings.tsx:103-176 | writes are issued in plan order up to and including the first failure; everything succeeded iff there is no failure |
| Settings.IssueUntilFailure | src/pages/Settings.tsx:103-176 | writes are issued in plan order, each after the previous one succeeded; the issued writes are a prefix of the plan that stops at the first failure, or the whole plan |
| Settings.UpdateField | src/pages/Settings.tsx:189-194 | changing a field keeps the row's id |
| Settings.UpdateAt | src/pages/Settings.tsx:189-194 | only the indexed row changes, and the length is kept |
| Settings.SettingsScreen.constructor | src/pages/Settings.tsx:30-47 | loading, not editing, not saving, with an empty company and no competitors |
| Settings.SettingsScreen.Load | src/pages/Settings.tsx:53-85 | with a user and a company, data and snapshot become what the store returned; loading always ends |
| Settings.SettingsScreen.EditToggle | src/pages/Settings.tsx:87-94 | always flips edit mode; leaving edit mode restores company and competitors from the snapshot |
| Settings.SettingsScreen.EditCompany | src/pages/Settings.tsx:264-353 | only the named company field changes |
| Settings.SettingsScreen.AddCompetitor | src/pages/Settings.tsx:181-183 | appends a blank row without an id |
| Settings.SettingsScreen.RemoveCompetitor | src/pages/Settings.tsx:185-187 | drops only the given index |
| Settings.SettingsScreen.UpdateCompetitor | src/pages/Settings.tsx:189-194 | changes one field at one index |
| Settings.SettingsScreen.Save | src/pages/Settings.tsx:96-178 | with no user nothing is written; otherwise the issued writes are the plan up to the first failure; on success the snapshot becomes the current data and editing ends; on failure both stay; saving is false after every exit |
| ContentLibrary.FilteredSpec | src/components/dashboard/ContentLibrary.tsx:76-83 | an item is shown iff the lower-cased query occurs in its lower-cased title or preview and its type and status match or are "all"; the list keeps its order |
| ContentLibrary.NoFilterKeepsAll | src/components/dashboard/ContentLibrary.tsx:76-83 | an empty query with both filters on "all" shows every item |
| ContentLibrary.SearchIgnoresCase | src/components/dashboard/ContentLibrary.tsx:77-78 | a query and its lower-cased form select the same items |
| ContentLibrary.EmptyStateIffNoMatch | src/components/dashboard/ContentLibrary.tsx:308 | the empty state shows iff no item passes the filter |
| ContentLibrary.StatusColor | src/components/dashboard/ContentLibrary.tsx:85-96 | published and scheduled get their own classes; draft, like any other status, gets the neutral default |
| ContentLibrary.TypeColor | src/components/dashboard/ContentLibrary.tsx:98-111 | the four content types get their own classes, and every other type the neutral default |
| ContentLibrary.BadgeCoincidences | src/components/dashboard/ContentLibrary.tsx:85-111 | a status shares the draft badge iff it is neither published nor scheduled, and a company update is coloured like a published post |
| Analytics.CountStatus | src/components/dashboard/Analytics.tsx:57-60 | a status count is at most the row count, and is zero iff no row has that status |
| Analytics.StatsOf | src/components/dashboard/Analytics.tsx:56-62 | total is the row count; published, scheduled and draft are exact-status counts, and together they never exceed the total |
| Analytics.StatusCountsBounded | src/components/dashboard/Analytics.tsx:57-60 | published + scheduled + draft is at most the total, with equality iff every row has one of those statuses |
| Analytics.DistinctTypes | src/components/dashboard/Analytics.tsx:68-72 | the histogram's keys are the types that occur, each once |
| Analytics.AbsentTypeCountsZero | src/components/dashboard/Analytics.tsx:68-71 | a type that occurs in no row counts zero |
| Analytics.TotalOfAppend | src/components/dashboard/Analytics.tsx:72 | summing over one more key adds that key's count |
| Analytics.TotalOfLastRow | src/components/dashboard/Analytics.tsx:68-71 | the row added last contributes one to the sum iff its type is among the keys |
| Analytics.HistogramSumsToTotal | src/components/dashboard/Analytics.tsx:68-72 | the counts over all keys sum to the row count |
| Analytics.CountByType | src/components/dashboard/Analytics.tsx:68-71 | the loop's map has exactly the occurring types as keys, in first-occurrence order, and each value is that type's row count |
| Analytics.IndexOf | src/components/dashboard/Analytics.tsx:74 | the first position of the character, or the length when it is absent |
| Analytics.ReplaceFirst | src/components/dashboard/Analytics.tsx:74 | only the first occurrence is replaced; every other character is kept |
| Analytics.CapitalizeWords | src/components/dashboard/Analytics.tsx:74 | upper-casing word starts keeps the length |
| Analytics.FormatTypeLabelSpec | src/components/dashboard/Analytics.tsx:73-76 | the first '-' becomes a space and later ones stay; non-word characters are kept; each word-initial character is upper-cased, and a word character that follows another word character is kept |
| Analytics.NoHyphenLabel | src/components/dashboard/Analytics.tsx:74 | without a '-' the label only capitalises words |
| Analytics.HyphenatedLabel | src/components/dashboard/Analytics.tsx:74 | x-y (with no '-' in x) is labelled like "x y" |
| Analytics.CapitalizeWord | src/components/dashboard/Analytics.tsx:74 | a single word gets only its first letter upper-cased |
| Analytics.CapitalizeAroundSpace | src/components/dashboard/Analytics.tsx:74 | capitalisation splits at a space |
| Analytics.TwoWordLabel | src/components/dashboard/Analytics.tsx:73-76 | word-word becomes "Word Word" |
| Analytics.OneWordLabel | src/components/dashboard/Analytics.tsx:73-76 | a single word becomes that word with a capital initial |
| Analytics.LeadMagnetLabel | src/components/dashboard/Analytics.tsx:73-76 | "lead-magnet" is labelled "Lead Magnet" |
| Analytics.LaterHyphenLabel | src/components/dashboard/Analytics.tsx:73-76 | only the first hyphen becomes a space: "a-b-c" is labelled "A B-C" |
| Analytics.TypeBars | src/components/dashboard/Analytics.tsx:72-77 | one bar per occurring type, in first-occurrence order, with the formatted label and that type's count |
| Analytics.AnalyticsPanel.constructor | src/components/dashboard/Analytics.tsx:24-33 | loading, with zero stats and no bars |
| Analytics.AnalyticsPanel.Fetch | src/components/dashboard/Analytics.tsx:41-84 | with no user nothing changes; otherwise loading holds while waiting and is false at the end on both paths; a failed query keeps stats and bars; a successful one sets them from the rows |
| GenerateHooks.HooksOf | supabase/functions/generate-hooks/index.ts:59-64 | the four values of hook1..hook4, in that order |
| GenerateHooks.Values | supabase/functions/generate-hooks/index.ts:59-69 | present hooks unwrap to their values, keeping position |
| GenerateHooks.Handle | supabase/functions/generate-hooks/index.ts:9-93 | OPTIONS returns an empty 200 with CORS headers and makes no call; the webhook is called only for a truthy topic, with body exactly {topic}, POST, and a 30 s timeout; the status is 200, 400 or 500; 400 iff the body parses to a non-null value whose topic is falsy |
| GenerateHooks.TopicRequired | supabase/functions/generate-hooks/index.ts:16-26 | a falsy topic returns 400 "Topic is required" with no call |
| GenerateHooks.TopicForwarded | supabase/functions/generate-hooks/index.ts:28-40 | a truthy topic is sent to the webhook URL, and the response is what its reply produces |
| GenerateHooks.NonOkStatusReported | supabase/functions/generate-hooks/index.ts:44-91 | a non-2xx reply gives 500 with a message that contains the status, rendered in decimal, and the reply text |
| GenerateHooks.MissingOutputRejected | supabase/functions/generate-hooks/index.ts:54-56 | a reply without a truthy output gives 500 "Invalid response format from webhook" |
| GenerateHooks.MissingHookRejected | supabase/functions/generate-hooks/index.ts:59-69 | any falsy hook gives 500 "Some hooks are missing in the response" |
| GenerateHooks.SuccessCarriesFourHooks | supabase/functions/generate-hooks/index.ts:59-78 | the status is 200 iff the request is OPTIONS or all four hooks are truthy; on a POST success the body is {hooks: [hook1, hook2, hook3, hook4]} |
| GenerateHooks.CatchReportsMessage | supabase/functions/generate-hooks/index.ts:80-91 | every thrown value gives 500, carrying its message, or "Failed to generate hooks" for a non-Error |
| AuthModal.SetField | src/components/auth/AuthModal.tsx:127-129 | only the named field changes |
| AuthModal.SignUpProblem | src/components/auth/AuthModal.tsx:45-62 | sign-up is refused iff the passwords differ or the password is shorter than 6, and a mismatch is reported before the length |
| AuthModal.MismatchCheckedFirst | src/components/auth/AuthModal.tsx:45-62 | a mismatched short password gets the mismatch notice |
| AuthModal.AuthDialog.constructor | src/components/auth/AuthModal.tsx:16-24 | login mode, not loading, password hidden, empty form |
| AuthModal.AuthDialog.Submit | src/components/auth/AuthModal.tsx:27-95 | login makes no local checks; a refused sign-up makes no call; otherwise exactly one sign-in or sign-up call; sign-up success switches to login; success is reported only after a successful call; loading holds during the call and is false after every exit |
| AuthModal.AuthDialog.ForgotPassword | src/components/auth/AuthModal.tsx:97-125 | an empty email makes no call; otherwise one reset call redirecting to origin + "/reset-password", with a success or failure notice |
| AuthModal.AuthDialog.InputChange | src/components/auth/AuthModal.tsx:127-129 | the form becomes SetField of the input |
| AuthModal.AuthDialog.ToggleMode | src/components/auth/AuthModal.tsx:276 | flips between login and sign-up |
| AuthModal.AuthDialog.TogglePasswordVisibility | src/components/auth/AuthModal.tsx:226 | flips whether the password is shown |
| Billing.FormatTierName | src/components/dashboard/Billing.tsx:91-94 | "trial" reads "Trial (14 days free)"; any other tier keeps its length, with the first character upper-cased and the rest unchanged |
| Billing.ButtonLabel | src/components/dashboard/Billing.tsx:154-156 | "Current Plan" for the current plan, and the plan's button text otherwise |
| Billing.LabelIffDisabled | src/components/dashboard/Billing.tsx:152-156 | a plan's button reads "Current Plan" iff it is disabled |
| Billing.AtMostOneCurrentPlan | src/components/dashboard/Billing.tsx:152 | when one plan is current, no other plan is |
| Billing.TierExamples | src/components/dashboard/Billing.tsx:64-152 | the initial tier matches no plan; each lower-case plan name matches its plan |
| Billing.BillingPanel.constructor | src/components/dashboard/Billing.tsx:64 | the tier starts as "trial" |
| Billing.BillingPanel.Fetch | src/components/dashboard/Billing.tsx:72-89 | the tier becomes the stored value only when a row with a tier arrives; a missing user, a fetch error or an empty row leaves it unchanged |
| CreateContent.EveryCardHasABody | src/components/dashboard/CreateContent.tsx:12-126 | each of the four type cards has a non-empty canned body |
| CreateContent.ApplyEdit | src/components/dashboard/CreateContent.tsx:299-374 | each form input changes only its own field |
| CreateContent.ContentCreator.constructor | src/components/dashboard/CreateContent.tsx:44-56 | no type chosen, nothing generated, no flag raised, and the default form |
| CreateContent.ContentCreator.SelectType | src/components/dashboard/CreateContent.tsx:229 | the chosen type is stored, which leaves the type chooser |
| CreateContent.ContentCreator.Back | src/components/dashboard/CreateContent.tsx:211-264 | clears the type, which shows the chooser again |
| CreateContent.ContentCreator.EditForm | src/components/dashboard/CreateContent.tsx:299-374 | the form becomes ApplyEdit of the input |
| CreateContent.ContentCreator.Generate | src/components/dashboard/CreateContent.tsx:60-128 | nothing happens unless a type is chosen and the topic is non-empty; otherwise generating is raised while waiting, and at the end the content is the body for the type and the flag is down |
| CreateContent.ContentCreator.SaveToLibrary | src/components/dashboard/CreateContent.tsx:138-170 | with no user or empty content nothing is written; otherwise one draft insert with the content, the selected type and the form's image style; the flag is reset on both outcomes |
| CreateContent.ContentCreator.SchedulePost | src/components/dashboard/CreateContent.tsx:172-209 | the same guard; one "scheduled" insert at now + 24 h; the flag is reset on both outcomes |
| CreateContent.ContentCreator.Copy | src/components/dashboard/CreateContent.tsx:130-136 | the generated content goes to the clipboard, and a "Copied!" notice is shown |
| EditPostModal.OrNull | src/components/dashboard/EditPostModal.tsx:62-63 | a missing or empty value becomes null; a present one is kept |
| EditPostModal.FormOf | src/components/dashboard/EditPostModal.tsx:56-69 | the form takes the content's title, body and status, and its optional date and image URL |
| EditPostModal.UpdateOf | src/components/dashboard/EditPostModal.tsx:103-116 | the update targets the content's id, mirrors the form with null for an unset date, and is stamped with now |
| EditPostModal.SaveAsLoadedWritesBack | src/components/dashboard/EditPostModal.tsx:56-116 | saving a form exactly as loaded writes back the content's own fields |
| EditPostModal.ApplyEdit | src/components/dashboard/EditPostModal.tsx:153-272 | each input changes only its own field |
| EditPostModal.StatusChangeKeepsDate | src/components/dashboard/EditPostModal.tsx:239-252 | a status change keeps the scheduled date, and the picker shows only for "scheduled" |
| EditPostModal.EditDialog.constructor | src/components/dashboard/EditPostModal.tsx:45-54 | no content, not saving, blank form |
| EditPostModal.EditDialog.Load | src/components/dashboard/EditPostModal.tsx:56-69 | given content, the form becomes FormOf of it; with none, the form is kept |
| EditPostModal.EditDialog.Edit | src/components/dashboard/EditPostModal.tsx:153-272 | the form becomes ApplyEdit of the input |
| EditPostModal.EditDialog.RemoveImage | src/components/dashboard/EditPostModal.tsx:71-73 | only the image URL becomes null |
| EditPostModal.EditDialog.UploadImage | src/components/dashboard/EditPostModal.tsx:75-96 | no file changes nothing; a file over 10 MiB is rejected with a notice and the image is unchanged; otherwise the image becomes what the reader holds at `onloadend`: the data URL, or null when the read failed |
| EditPostModal.EditDialog.Save | src/components/dashboard/EditPostModal.tsx:98-136 | without content nothing happens; otherwise one UpdateOf write; success notifies and closes; failure keeps the dialog open; saving is reset on both |

## Left out

- IO: every Supabase call (records, storage, auth) is a parameter. The model says what is written and what happens for each outcome; it does not model the store.
- Webhook I/O: the HTTP request, the 30-second abort, CORS header values and console logging are not modelled. The handler returns a description of the call it makes and is given the webhook's reply.
- Time: `new Date()` is a millisecond parameter, "tomorrow" is that value plus 86 400 000, and dates are kept as ISO text. Daylight-saving shifts, `Date` parsing and `toISOString` normalisation are not modelled; with an invalid date, `toISOString` throws RangeError.
- Randomness: the engagement and view figures in Analytics are parameters.
- Waiting: `setTimeout` delays, `useEffect` timing and interleaved handlers are not modelled. Each handler runs to completion, and the state seen while it waits is returned. The code has no request tokens and no single-flight guard beyond disabled buttons.
- Browser resources (object URLs, `Image` decoding, `FileReader`, clipboard) are inputs or outputs of the handlers. Upload dimensions and data URLs are supplied as parameters.
- JavaScript strings are UTF-16; the model counts characters (code points). The length limits (80, 3000, 2700) and the one-character tier capitalisation differ from the code for text outside the Basic Multilingual Plane.
- Case mapping (`toLowerCase`, `toUpperCase`) is ASCII-only. The `\b\w` word starts in the label formatter use the ASCII word class, as JavaScript does without the `u` flag.
- JSON numbers are integers (no NaN, infinities, fractions or -0). Duplicate keys and `Object.entries` putting integer-like keys first are not modelled: the histogram uses first-occurrence order.
- GenerateHooks.Handle: the exact wording of the runtime's TypeError for a null request body is specific to the engine; the model uses one fixed message.
- The HTML `required` attribute and other browser-side form validation are not modelled; only the handlers' own guards are.
- CreatePost `handleCopy` and the download and share buttons only touch the clipboard and the DOM.
- The content library's item list is static sample data in the code and is a parameter here.
- Settings: a failed `getUser` is modelled as "no user". The re-insert of new competitors on a second save is stated as a lemma (ResaveInsertsNewRowsAgain).
- Analytics.AnalyticsPanel.Fetch: with no user the code returns before its `finally` block, so loading is left as it was. The model states this, and it is the code's behaviour.
- CreateContent.ContentCreator.Back: the generated content is kept after Back, so it can later be saved under a different type, as in the code.
- HookSelector: the short text is computed for each hook, but the list shows the full text; the model computes both.
- MockContent.MockBody, Analytics.CountByType, Analytics.TypeBars: lookups of type names inherited from `Object.prototype` are not modelled. The code looks types up in plain objects, so the `?type=` value "constructor" or "__proto__" yields a truthy non-string body, "constructor" gets a string count, and "__proto__" gets no bar. The model treats every type name as an own key.
- Outside the workflow, these files are not part of this model: the landing page, routing, layout, sections, legal pages, the dashboard home, roadmap, integrations, the quick-settings menu, the schedule calendar, the dashboard settings panel, and the company and ICP wizard steps (their counters are display-only).

## Findings

| source | as written | input that shows it | evidently intended | confidence | as-written member | corrected member |
|---|---|---|---|---|---|---|
| src/pages/CreatePost.tsx:193-205 | `handleSaveEdit` stores hook + "\n\n" + edited text as the body, and `getFinalContent` prepends the selected hook again | any selected hook h and edited text t: the composed post is h, blank line, h, blank line, t | the edited text replaces the body, so the post is h, blank line, t | not executed | CreatePost.SaveEditRepeatsHook | CreatePost.CreatePostPage.SaveEditIntended |
