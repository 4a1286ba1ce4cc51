# BrandVu in Dafny

A model of the client-side logic of BrandVu, a creator/brand matching web app written in
TypeScript and React. Every screen keeps its state in memory and changes it through
small, synchronous handlers. The model restates those handlers in Dafny and proves what
each one promises.

- **BrandView area.** The brand dashboard scores each creator, ranks the candidates and
  keeps a shortlist (`brand_dashboard.dfy`). The onboarding wizard walks a step sequence
  that depends on the role (`onboarding.dfy`). `RoleGuard` decides where a route
  redirects (`guards.dfy`). The email prototype imports contacts, sends mock campaigns
  and bumps their metrics (`email_mvp.dfy`). The Learn screen filters the curriculum
  (`learn.dfy`). All of these share the `window.BrandViewSession` object
  (`session.dfy`) and the `bv_`-namespaced local store (`storage.dfy`).
- **Components.** The email manager (`email_manager.dfy`), the local-services vendor
  directory (`local_services.dfy`), the link tree (`link_tree.dfy`), the PulseMetric
  token panel (`pulse_metric.dfy`), social media connections and the recent-posts feed
  (`social_media_connect.dfy`), profile setup (`profile_setup.dfy`), sign-in
  (`auth_page.dfy`), the matches list (`matches.dfy`) and the swipe deck
  (`swipe_interface.dfy`).
- **Configuration.** `readBool` and the feature flags (`flags.dfy`).

`strings.dfy` and `seqs.dfy` hold the JavaScript built-ins the screens call:

- `trim`, `split` on one character, `join`, ASCII `toLowerCase`, `includes`,
  `startsWith`, decimal rendering and `padStart(2, '0')`;
- `filter`, `findIndex`, and the stable `Array.prototype.sort`, written as an insertion
  sort. Its sortedness, permutation and stability are proved.

How the model is built:

- **Pure and state-changing code.** Pure expressions become functions with contracts.
  State that a screen updates (React state, the session object, the store) becomes a
  class whose methods state the new state in terms of those functions.
- **Loops and in-place code keep their shape.** The `forEach` of the CSV import is a
  `while` loop. The array swap of `reorderLinks` works on an `array`. `findIndex` is a
  loop.
- **Time is a parameter.** `Date.now()` becomes a `now` argument.
- **Delays.** The simulated delays are left out. The state change after each delay is
  its own operation.

## Model

A function that only builds a record or computes a value, with no contract of its own, is named in the row of the lemma or method whose contract states what it does.

| member | source | states |
|---|---|---|
| Flags.ReadBool | src/config/flags.ts:9-12 | an unset variable gives the default; a set one is true exactly for "true" or "yes" in any letter case, or exactly "1" |
| Flags.SetIgnoresDefault | src/config/flags.ts:10-11 | a set variable's value never depends on the default |
| Flags.AcceptedSpellings | src/config/flags.ts:11 | "TRUE", "Yes" and "1" read as true |
| Flags.RejectedSpellings | src/config/flags.ts:11 | "", "false", "0" and " true" read as false whatever the default |
| Flags.OnlyExactOne | src/config/flags.ts:11 | a string of length other than 1, 3 and 4 (so "1" with anything around it) reads as false |
| Flags.FlagsFrom | src/config/flags.ts:14-24 | each of the seven flags reads its own variable with its own default: false for BRANDVIEW_MVP and SNAPCHAT_ENABLE, true for the INSTAGRAM, TIKTOK, YOUTUBE and SPOTIFY connectors and for mock mode |
| Flags.EmptyEnvironment | src/config/flags.ts:14-24 | with nothing set: BrandView MVP and Snapchat off, the other four connectors and mock mode on |
| Flags.OtherName | src/config/flags.ts:14-24 | setting REACT_APP_BRANDVIEW_MVP does not change the lookup of any differently spelled variable |
| Flags.MvpFlagIndependent | src/config/flags.ts:14-24 | changing REACT_APP_BRANDVIEW_MVP leaves every connector flag and the mock-mode flag as they were |
| Session.StringOr | src/brandview/screens/Onboarding.tsx:19-21 | `x \|\| fallback` on an optional string: the value when present and non-empty, otherwise the fallback |
| Session.BrandViewSession.constructor | src/brandview/screens/Onboarding.tsx:5 | the session object is created with every field absent |
| Guards.GetRole | src/brandview/guards.tsx:6-9 | the session's role, absent when there is no session object |
| Guards.Decide | src/brandview/guards.tsx:11-27 | no role on a dashboard, matches or learn path redirects to onboarding; a role differing from the required one redirects to that role's dashboard; it renders exactly when neither applies; `Guard` is this decision applied to the session's role |
| Guards.OnboardingNeedsNoRole | src/brandview/guards.tsx:16-18 | the onboarding path is not one of the guarded prefixes |
| Guards.NoRedirectLoop | src/brandview/guards.tsx:16-26 | following the redirect to onboarding renders under the same guard; the role-mismatch half (the role's own dashboard guarded for that role renders) holds for any target and adds nothing beyond `Decide` |
| Guards.MismatchTargetIsDashboard | src/brandview/guards.tsx:21-24 | on a role mismatch the decision ignores the path and targets the role's own dashboard |
| Onboarding.StepsFor | src/brandview/screens/Onboarding.tsx:9-12 | creators have 6 steps and brands 5; both start at "role" and end at "finish"; "socials" is there exactly for creators |
| Onboarding.Onboarding.constructor | src/brandview/screens/Onboarding.tsx:16-24 | role falls back to creator, display name and bio to "", timezone to "UTC", niches and socials to empty; the step index starts at 0 |
| Onboarding.Onboarding.Next | src/brandview/screens/Onboarding.tsx:29-39 | before the last step: the index goes up by one and the session is unchanged; at the last step: the index stays, role and every form field are written into the session, and the role's dashboard is the navigation target |
| Onboarding.Onboarding.Back | src/brandview/screens/Onboarding.tsx:41-47 | at step 0: stays and leaves to /brandview; otherwise the index goes down by one |
| Onboarding.Onboarding.SelectRole | src/brandview/screens/Onboarding.tsx:69-74 | a role can be chosen only on the "role" step (index 0), so the index stays within the new role's steps |
| Onboarding.Onboarding.SetDisplayName | src/brandview/screens/Onboarding.tsx:86 | only the display name changes |
| Onboarding.Onboarding.SetBio | src/brandview/screens/Onboarding.tsx:90 | only the bio changes; the input allows at most 280 characters |
| Onboarding.Onboarding.SetTimezone | src/brandview/screens/Onboarding.tsx:94 | only the timezone changes |
| Onboarding.Onboarding.ToggleNiche | src/brandview/screens/Onboarding.tsx:49-54 | the niches become their toggle: an absent niche is appended, a present one removed entirely |
| Onboarding.Onboarding.AddSocial | src/brandview/screens/Onboarding.tsx:56-58 | exactly one social `{platform, value, "Sample"}` is appended |
| Onboarding.Onboarding.SubmitSocial | src/brandview/screens/Onboarding.tsx:181-192 | an all-white-space input changes nothing; otherwise the trimmed value is added and the box cleared; every added value is non-empty and already trimmed |
| BrandDashboard.Overlapping | src/brandview/screens/BrandDashboard.tsx:38 | the count of desired niches, repetitions included, is at most the creator's number of niches |
| BrandDashboard.OverlapExtremes | src/brandview/screens/BrandDashboard.tsx:38 | no desired niches gives a count of 0; a creator whose every niche is desired counts all of them |
| BrandDashboard.RoundedBaseIsRound | src/brandview/screens/BrandDashboard.tsx:38-39 | the integer form `floor((6en + 400k + 5n) / 10n)` (overlap 1 when n = 0) equals `Math.round(0.6e + 40k/n)` over exact rationals; `RoundedBase` is that integer form |
| BrandDashboard.FloorOfQuotient | src/brandview/screens/BrandDashboard.tsx:39 | the floor of a rational quotient of integers is integer division |
| BrandDashboard.Clamp | src/brandview/screens/BrandDashboard.tsx:42 | the result is in [0,100] and equals the input when the input is already there |
| BrandDashboard.Score | src/brandview/screens/BrandDashboard.tsx:37-43 | every score is in [0,100] |
| BrandDashboard.ScorePenalties | src/brandview/screens/BrandDashboard.tsx:40-42 | the pre-clamp score is the rounded base minus 25 for each failed threshold, and both penalties apply together; `PreClamp` is that pre-clamp score |
| BrandDashboard.NoPreferenceScore | src/brandview/screens/BrandDashboard.tsx:38-42 | with no desired niches an unpenalised score is `round(0.6e + 40)`, i.e. `(6e + 405) / 10`, at least 40 |
| BrandDashboard.ScoreAll | src/brandview/screens/BrandDashboard.tsx:47 | each candidate is paired with its own score, in order |
| BrandDashboard.Candidates | src/brandview/screens/BrandDashboard.tsx:45-50 | only gated creators with their own score are listed, non-increasing by match, as a permutation of the gated list |
| BrandDashboard.SortedGated | src/brandview/screens/BrandDashboard.tsx:48-49 | the stable sort of the gated list consists of gated, correctly scored creators in non-increasing order; `Gated` is the scored list filtered by both thresholds |
| BrandDashboard.CandidatesComplete | src/brandview/screens/BrandDashboard.tsx:48 | every creator meeting both thresholds is listed with its score |
| BrandDashboard.CandidatesStable | src/brandview/screens/BrandDashboard.tsx:49 | for every match value, the candidates with that match keep their sample order |
| BrandDashboard.ListedAreUnpenalised | src/brandview/screens/BrandDashboard.tsx:40-41 | a listed candidate's match is the clamped base score without penalties |
| BrandDashboard.SampleScores | src/brandview/screens/BrandDashboard.tsx:15-19 | with the default filters the samples score c1 = 77, c2 = 83, c3 = 75 |
| BrandDashboard.SampleRanking | src/brandview/screens/BrandDashboard.tsx:15-19 | with the default filters the samples rank c2 (83), c1 (77), c3 (75) |
| BrandDashboard.RankThree | src/brandview/screens/BrandDashboard.tsx:45-50 | three creators passing the default gate with scores 77, 83, 75 are listed second, first, third |
| BrandDashboard.SortThree | src/brandview/screens/BrandDashboard.tsx:49 | the descending sort orders matches 77, 83, 75 as 83, 77, 75 |
| BrandDashboard.AddEntry | src/brandview/screens/BrandDashboard.tsx:56-58 | the id is then present; the old list is a prefix; a present id keeps the list (timestamp included); otherwise exactly `{id, "", now}` is appended |
| BrandDashboard.AddEntryIdempotent | src/brandview/screens/BrandDashboard.tsx:56-58 | adding twice is adding once, and the first timestamp is kept |
| BrandDashboard.AddEntryKeepsUnique | src/brandview/screens/BrandDashboard.tsx:56-58 | adding keeps shortlist ids distinct |
| BrandDashboard.RemoveEntries | src/brandview/screens/BrandDashboard.tsx:60-62 | the id is gone; the rest is an order-preserving subsequence holding every other entry with all its copies; an absent id changes nothing |
| BrandDashboard.RemoveEntriesFacts | src/brandview/screens/BrandDashboard.tsx:60-62 | the filter by id drops the id, is a subsequence, and is the identity when the id is absent |
| BrandDashboard.UpdateNote | src/brandview/screens/BrandDashboard.tsx:64-66 | same length; other entries unchanged; matching entries change only in their note |
| BrandDashboard.UpdateNoteAbsent | src/brandview/screens/BrandDashboard.tsx:64-66 | editing the note of an absent id changes nothing |
| BrandDashboard.Dashboard.constructor | src/brandview/screens/BrandDashboard.tsx:22-33 | filters start at their defaults, the shortlist at `s?.shortlist \|\| []`, which is mirrored into the session |
| BrandDashboard.Dashboard.SetMinFollowers | src/brandview/screens/BrandDashboard.tsx:22 | only the follower threshold changes |
| BrandDashboard.Dashboard.SetMinEngagement | src/brandview/screens/BrandDashboard.tsx:23 | only the engagement threshold changes |
| BrandDashboard.Dashboard.ToggleNiche | src/brandview/screens/BrandDashboard.tsx:52-54 | the desired niches become their toggle |
| BrandDashboard.Dashboard.AddToShortlist | src/brandview/screens/BrandDashboard.tsx:30-33 | the shortlist becomes `AddEntry` of the old one and the session mirrors it |
| BrandDashboard.Dashboard.RemoveFromShortlist | src/brandview/screens/BrandDashboard.tsx:60-62 | the shortlist becomes `RemoveEntries` of the old one and the session mirrors it |
| BrandDashboard.Dashboard.EditNote | src/brandview/screens/BrandDashboard.tsx:64-66 | the shortlist becomes `UpdateNote` of the old one and the session mirrors it |
| Storage.Ns | src/brandview/utils/storage.ts:22 | every key is stored as `bv_` followed by the key |
| Storage.NsInjective | src/brandview/utils/storage.ts:22 | distinct keys never share a stored key |
| Storage.ReadFrom | src/brandview/utils/storage.ts:24-32 | the fallback is used exactly when the key is absent or holds an empty string; otherwise the stored value is returned |
| Storage.ReadAfterWrite | src/brandview/utils/storage.ts:24-38 | a write is seen by the next read of that key and by no other key |
| Storage.FixedKeysDistinct | src/brandview/utils/storage.ts:40-64 | no snapshot key is "contacts" or "campaigns", and those two differ |
| Storage.SnapshotKeyCollision | src/brandview/utils/storage.ts:41 | creator "a_b" on platform "c" and creator "a" on platform "b_c" share one key |
| Storage.Store.constructor | src/brandview/utils/storage.ts:24-38 | the store starts with the given contents |
| Storage.Store.Write | src/brandview/utils/storage.ts:34-38 | only the namespaced key changes; it then reads back the value and every other key reads as before; `Read` is the namespaced read these clauses use |
| Storage.Store.AddSnapshot | src/brandview/utils/storage.ts:44-48 | the history gains exactly the snapshot at its end, and only that key is written, as `GetSnapshots` reads it |
| Storage.Store.SetContacts | src/brandview/utils/storage.ts:50-56 | only `bv_contacts` is written; the contacts read back and the campaigns are unchanged, reading back through `GetContacts` |
| Storage.Store.SetCampaigns | src/brandview/utils/storage.ts:58-64 | only `bv_campaigns` is written; the campaigns read back and the contacts are unchanged, reading back through `GetCampaigns` |
| Learn.Modules | src/brandview/screens/Learn.tsx:15 | an order-preserving subsequence of the seed holding exactly the modules matching level and type, each with all its copies |
| Learn.AllShowsEverything | src/brandview/screens/Learn.tsx:15 | 'all' and 'all' return the whole list in order |
| Learn.NoAdvancedSeed | src/brandview/screens/Learn.tsx:5-9 | level 'advanced' gives nothing on the seed |
| Learn.BeginnerSeed | src/brandview/screens/Learn.tsx:5-15 | level 'beginner' gives m1 and m3 in that order |
| EmailMvp.TrimAll | src/brandview/screens/EmailMVP.tsx:19 | each piece is trimmed, in place |
| EmailMvp.Lines | src/brandview/screens/EmailMVP.tsx:19 | every line kept is non-empty and is a trimmed piece of the text |
| EmailMvp.BlankTextHasNoLines | src/brandview/screens/EmailMVP.tsx:19 | white-space-only text yields no lines |
| EmailMvp.ParseLine | src/brandview/screens/EmailMVP.tsx:22 | the email is the trimmed first comma field; a name exists exactly when there is a second field, and is trimmed |
| EmailMvp.Rows | src/brandview/screens/EmailMVP.tsx:21-22 | one parsed row per line, in order |
| EmailMvp.ImportRow | src/brandview/screens/EmailMVP.tsx:23-25 | an empty or already present email adds nothing; otherwise exactly one contact with that row's fields is pushed |
| EmailMvp.ImportKeepsPrefix | src/brandview/screens/EmailMVP.tsx:20-24 | the existing contacts stay an unchanged prefix |
| EmailMvp.ImportAddsOnlyNew | src/brandview/screens/EmailMVP.tsx:22-24 | every added contact has an email not present before and comes from one row with that row's trimmed fields |
| EmailMvp.ImportKeepsUnique | src/brandview/screens/EmailMVP.tsx:23 | email uniqueness is preserved, duplicates within one batch included |
| EmailMvp.AddRow | src/brandview/screens/EmailMVP.tsx:23-25 | one `forEach` iteration computes `ImportRow` |
| EmailMvp.ImportRows | src/brandview/screens/EmailMVP.tsx:20-26 | the loop over the rows computes the import of all of them, `Imported` giving the list after each prefix of rows |
| EmailMvp.ImportLines | src/brandview/screens/EmailMVP.tsx:19-26 | the whole walk computes the import of every line |
| EmailMvp.BlankImportAddsNothing | src/brandview/screens/EmailMVP.tsx:19-26 | importing white-space-only text leaves the contacts as they were |
| EmailMvp.BumpFirst | src/brandview/screens/EmailMVP.tsx:52-59 | only the first campaign with the id gains the three deltas; every other campaign and every id are unchanged; an absent id changes nothing; `Bump` adds the deltas to one campaign |
| EmailMvp.ScheduledBumps | src/brandview/screens/EmailMVP.tsx:45-47 | the three scheduled bumps leave a fresh campaign at 37 opens, 9 clicks, 3 replies and the rest as it was |
| EmailMvp.EmailMvp.constructor | src/brandview/screens/EmailMVP.tsx:6-12 | contacts and campaigns are read from the store, the form starts empty |
| EmailMvp.EmailMvp.ToggleSelect | src/brandview/screens/EmailMVP.tsx:14-16 | the selection becomes its toggle |
| EmailMvp.EmailMvp.ImportCsv | src/brandview/screens/EmailMVP.tsx:18-30 | the contacts become the import of the pasted lines, are written to the store, and the text box is cleared |
| EmailMvp.EmailMvp.SendMock | src/brandview/screens/EmailMVP.tsx:32-49 | a blank subject or body or an empty selection changes nothing; otherwise exactly one zero-metric campaign for the selection is prepended and stored, and subject, body and selection are cleared; `NewCampaign` is that campaign, with id `ca_` and the time |
| EmailMvp.EmailMvp.BumpMetrics | src/brandview/screens/EmailMVP.tsx:51-63 | an absent id writes nothing; otherwise the stored list with the bumped campaign is written and shown |
| EmailManager.UpdateContactById | src/components/EmailManager.tsx:124-129 | same length; only contacts with the id take the update, through `ApplyContact` |
| EmailManager.UpdateContactIdempotent | src/components/EmailManager.tsx:124-129 | the same edit twice is the edit once; an unknown id changes nothing |
| EmailManager.DeleteContactById | src/components/EmailManager.tsx:131-133 | exactly the contacts without the id remain, in order, each with all its copies |
| EmailManager.UpdateCampaignById | src/components/EmailManager.tsx:153-158 | same length; only campaigns with the id take the update, through `ApplyCampaign` |
| EmailManager.UpdateCampaignKeepsHistory | src/components/EmailManager.tsx:153-158 | an edit keeps every campaign's id, metrics, recipient count, creation and send times |
| EmailManager.DeleteCampaignById | src/components/EmailManager.tsx:160-162 | exactly the campaigns without the id remain, in order, each with all its copies |
| EmailManager.CsvContact | src/components/EmailManager.tsx:173-183 | email is trimmed column 0; name is trimmed column 1 or absent when empty; tags are trimmed column 2 split on ';' or empty; source csv_upload, status active |
| EmailManager.CsvContacts | src/components/EmailManager.tsx:173-183 | one contact per data line, with its index |
| EmailManager.ParseCsv | src/components/EmailManager.tsx:169-184 | only lines after the first are read, in order; exactly the contacts with '@' in their email are kept; all have source csv_upload and status active |
| EmailManager.ParsedFromDataLine | src/components/EmailManager.tsx:170-184 | every imported contact comes from a line after the header |
| EmailManager.HeaderOnly | src/components/EmailManager.tsx:170-173 | a file of one line imports nothing |
| EmailManager.ExportRows | src/components/EmailManager.tsx:195-202 | one comma-joined line per contact, in list order, each line being `ExportLine` of its contact |
| EmailManager.HeaderHasNoBreak | src/components/EmailManager.tsx:194 | the header line holds no line break |
| EmailManager.ExportLines | src/components/EmailManager.tsx:193-203 | when no field holds a line break, splitting the export at line breaks gives the header, then each contact's line in order; `Export` is that text |
| EmailManager.ExportColumns | src/components/EmailManager.tsx:195-202 | when no field holds a comma, each exported line splits back into its six columns |
| EmailManager.FilteredContacts | src/components/EmailManager.tsx:214-221 | an order-preserving subsequence holding exactly the contacts matching search, status and source, each with all its copies |
| EmailManager.DefaultFiltersShowAll | src/components/EmailManager.tsx:214-221 | an empty search with both filters 'all' shows every contact in order |
| EmailManager.ActiveCount | src/components/EmailManager.tsx:224 | active contacts never outnumber all contacts |
| EmailManager.SentCount | src/components/EmailManager.tsx:226 | sent campaigns never outnumber all campaigns |
| EmailManager.DeleteLowersActive | src/components/EmailManager.tsx:131-133 | deleting a contact never raises the active count |
| EmailManager.ContactForm.ForAdd | src/components/EmailManager.tsx:561-567 | the add form starts empty with source website_signup and status active |
| EmailManager.ContactForm.ForEdit | src/components/EmailManager.tsx:691-698 | the edit form is filled from the contact, the absent name as "" |
| EmailManager.ContactForm.Fields | src/components/EmailManager.tsx:569-580 | an empty name is submitted as undefined |
| EmailManager.ContactForm.AddTag | src/components/EmailManager.tsx:582-590 | the trimmed input is appended only when non-empty and new, and the input cleared; tags stay duplicate-free |
| EmailManager.ContactForm.RemoveTag | src/components/EmailManager.tsx:592-597 | every copy of the tag is removed and nothing else |
| EmailManager.EmailManager.constructor | src/components/EmailManager.tsx:36-103 | the lists start as given |
| EmailManager.EmailManager.AddContact | src/components/EmailManager.tsx:114-122 | exactly one new contact is appended, `NewContact` with the time as id and creation date |
| EmailManager.EmailManager.SubmitNewContact | src/components/EmailManager.tsx:569-580 | the contact is added exactly when the email is non-empty |
| EmailManager.EmailManager.UpdateContact | src/components/EmailManager.tsx:124-129 | the contacts become `UpdateContactById` of the old ones |
| EmailManager.EmailManager.DeleteContact | src/components/EmailManager.tsx:131-133 | the contacts become `DeleteContactById` of the old ones |
| EmailManager.EmailManager.AddCampaign | src/components/EmailManager.tsx:135-151 | exactly one campaign with all six metrics 0 is appended, `NewCampaign` with the time as id and creation date |
| EmailManager.EmailManager.SubmitNewCampaign | src/components/EmailManager.tsx:841-852 | the campaign is added exactly when name and subject are non-empty |
| EmailManager.EmailManager.UpdateCampaign | src/components/EmailManager.tsx:153-158 | the campaigns become `UpdateCampaignById` of the old ones |
| EmailManager.EmailManager.DeleteCampaign | src/components/EmailManager.tsx:160-162 | the campaigns become `DeleteCampaignById` of the old ones |
| EmailManager.EmailManager.HandleFileUpload | src/components/EmailManager.tsx:164-190 | the parsed contacts are appended to the existing ones |
| LocalServices.PriceRank | src/components/LocalServices.tsx:191 | each price range has a rank from 1 to 4 |
| LocalServices.PriceRankOrder | src/components/LocalServices.tsx:191 | budget < moderate < premium < luxury |
| LocalServices.Results | src/components/LocalServices.tsx:156-199 | every shown vendor meets every active filter; the result is a permutation of the filtered vendors, each qualifying vendor with all its copies, sorted by the chosen key |
| LocalServices.ResultsComplete | src/components/LocalServices.tsx:157-181 | every vendor meeting every active filter is shown |
| LocalServices.ResultsOrder | src/components/LocalServices.tsx:184-196 | by distance non-decreasing, by rating non-increasing, by price non-decreasing rank |
| LocalServices.DefaultsKeepAll | src/components/LocalServices.tsx:157-184 | with every filter at its default the result is a permutation of all vendors |
| LocalServices.StagesCompose | src/components/LocalServices.tsx:159-181 | the four successive filters select exactly the vendors meeting all four |
| LocalServices.InactiveStage | src/components/LocalServices.tsx:160-181 | a filter that is switched off keeps the list as it is |
| LocalServices.FilterIf | src/components/LocalServices.tsx:160-181 | one conditional filter step keeps the list when inactive and filters it otherwise |
| LocalServices.FilterAndSort | src/components/LocalServices.tsx:157-196 | the effect's four filters and its sort compute `Results` |
| LocalServices.PriceDescription | src/components/LocalServices.tsx:212-232 | budget "$", moderate "$$", premium "$$$", luxury "$$$$", anything else "" |
| LocalServices.PriceDescriptionLength | src/components/LocalServices.tsx:212-217 | a price range's description has one dollar sign per rank |
| LocalServices.TypeColor | src/components/LocalServices.tsx:201-227 | a type in the table gets its colour; one missing from it gets gray |
| LocalServices.OtherIsGray | src/components/LocalServices.tsx:201-227 | 'other' is gray, and a type is gray exactly when it is 'other' or 'location' |
| LocalServices.LocalServices.constructor | src/components/LocalServices.tsx:152-153 | both lists start as the mock vendors, the filters at their defaults, the sort by distance |
| LocalServices.LocalServices.ApplyFilters | src/components/LocalServices.tsx:156-199 | the shown list is `Results`; with no filter active the sort reorders the vendor list itself, otherwise that list is unchanged |
| LocalServices.LocalServices.SetFilters | src/components/LocalServices.tsx:156-199 | new filters re-run the effect with the sort choice kept; with no filter active `vendors` itself becomes the sorted list, otherwise it is unchanged |
| LocalServices.LocalServices.SetSortBy | src/components/LocalServices.tsx:156-199 | a new sort choice re-runs the effect with the filters kept; with no filter active `vendors` itself becomes the sorted list, otherwise it is unchanged |
| LocalServices.LocalServices.ClearFilters | src/components/LocalServices.tsx:359-364 | search, type, price and rating return to their defaults, the sort is kept, and the result is a permutation of all vendors; since no filter is then active, `vendors` itself is re-sorted to the shown list |
| LinkTree.Ids | src/components/LinkTree.tsx:109-121 | the ids of the links, in order |
| LinkTree.UpdateById | src/components/LinkTree.tsx:92-97 | same length; only links with the id take the new fields, through `Apply` |
| LinkTree.ToggleById | src/components/LinkTree.tsx:103-107 | same length; only links with the id flip their active flag |
| LinkTree.ToggleTwice | src/components/LinkTree.tsx:103-107 | toggling the same id twice restores the list |
| LinkTree.DeleteById | src/components/LinkTree.tsx:99-101 | exactly the links without the id remain, in order, each with all its copies and its order field unchanged |
| LinkTree.Target | src/components/LinkTree.tsx:115-119 | the position the moved link goes to stays inside the list |
| LinkTree.Swap | src/components/LinkTree.tsx:116-118 | swapping two positions keeps the length |
| LinkTree.Renumber | src/components/LinkTree.tsx:121 | each link's order becomes its position plus one, nothing else changes |
| LinkTree.SwapIds | src/components/LinkTree.tsx:116-118 | a swap exchanges the two ids and keeps the multiset of ids |
| LinkTree.ReorderPermutes | src/components/LinkTree.tsx:114-121 | a reorder of a known id keeps the length and the multiset of ids and numbers the links 1, 2, …; `Reorder` is the function these lemmas are about |
| LinkTree.ReorderUnknown | src/components/LinkTree.tsx:111-112 | an unknown id leaves the list unchanged |
| LinkTree.SwappedCopy | src/components/LinkTree.tsx:114-119 | the copy with the link swapped with its neighbour in place is `Swap` at the target |
| LinkTree.ReorderIds | src/components/LinkTree.tsx:114-121 | a reorder exchanges the ids at the link's position and at its target |
| LinkTree.ReorderUpSwaps | src/components/LinkTree.tsx:115-116 | 'up' away from the top swaps exactly positions i − 1 and i |
| LinkTree.SwapSelf | src/components/LinkTree.tsx:115-119 | swapping a position with itself changes nothing |
| LinkTree.ReorderAtEnds | src/components/LinkTree.tsx:115-121 | 'up' on the first link and 'down' on the last only renumber |
| LinkTree.FoundAfterUp | src/components/LinkTree.tsx:111-116 | with distinct ids, after 'up' the link is found one place higher |
| LinkTree.UpThenDown | src/components/LinkTree.tsx:109-121 | with distinct ids, 'up' and then 'down' on a link that could move up restores the id sequence |
| LinkTree.TotalsAppend | src/components/LinkTree.tsx:134-135 | both totals add up over concatenation (`TotalClicks` and `TotalConversions`) |
| LinkTree.AddKeepsTotals | src/components/LinkTree.tsx:81-135 | a new link starts at zero, so adding one keeps both totals |
| LinkTree.UpdateKeepsTotals | src/components/LinkTree.tsx:92-135 | edits and toggles keep both totals |
| LinkTree.SampleTotals | src/components/LinkTree.tsx:27-135 | the sample links total 4862 clicks and 157 conversions |
| LinkTree.ReorderedRendersInPlace | src/components/LinkTree.tsx:189 | after a reorder the render's sort by order changes nothing |
| LinkTree.LinkTree.constructor | src/components/LinkTree.tsx:27-68 | the four sample links |
| LinkTree.LinkTree.AddLink | src/components/LinkTree.tsx:81-90 | exactly one link is appended, with order old length + 1 and zero analytics, built by `NewLink` |
| LinkTree.LinkTree.SubmitAdd | src/components/LinkTree.tsx:343-348 | the link is added exactly when title and URL are non-empty |
| LinkTree.LinkTree.UpdateLink | src/components/LinkTree.tsx:92-97 | the links become `UpdateById` of the old ones |
| LinkTree.LinkTree.SubmitEdit | src/components/LinkTree.tsx:438-443 | the edit is saved exactly when title and URL are non-empty |
| LinkTree.LinkTree.DeleteLink | src/components/LinkTree.tsx:99-101 | the links become `DeleteById` of the old ones |
| LinkTree.LinkTree.ToggleLinkActive | src/components/LinkTree.tsx:103-107 | the links become `ToggleById` of the old ones |
| LinkTree.LinkTree.ReorderLinks | src/components/LinkTree.tsx:109-123 | the links become `Reorder` of the old ones |
| LinkTree.LinkTree.SortForRender | src/components/LinkTree.tsx:189 | the in-place sort by order is the stable sort |
| PulseMetric.DaysLeft | src/components/PulseMetricIntegration.tsx:155 | the ceiling of the remaining time in days |
| PulseMetric.TokenStatus | src/components/PulseMetricIntegration.tsx:150-161 | "Not Connected" when disconnected, "Expired" at 0 days or fewer, "Expires in N days" for 1 to 30, "Valid for N days" above |
| PulseMetric.FreshTokenStatus | src/components/PulseMetricIntegration.tsx:132-160 | a token issued now reads "Valid for 90 days" and never shows more than 90 days later |
| PulseMetric.ExpiredAfterDeadline | src/components/PulseMetricIntegration.tsx:155-157 | once the expiry time has passed the token is "Expired" |
| PulseMetric.StatusColor | src/components/PulseMetricIntegration.tsx:163-170 | gray for "Not Connected", red for "Expired", then yellow, orange or green by substring |
| PulseMetric.SevenDays | src/components/PulseMetricIntegration.tsx:158-167 | a status text holds "7 days" exactly when its day count ends in 7 |
| PulseMetric.SevenDaysShown | src/components/PulseMetricIntegration.tsx:158-167 | a day count ending in 7 puts "7 days" in the text |
| PulseMetric.SevenDaysMeans | src/components/PulseMetricIntegration.tsx:158-167 | "7 days" in the text means the day count ends in 7 |
| PulseMetric.ThirtyDays | src/components/PulseMetricIntegration.tsx:158-168 | a status text holds "30 days" exactly when its day count ends in 30 |
| PulseMetric.ThirtyDaysShown | src/components/PulseMetricIntegration.tsx:158-168 | a day count ending in 30 puts "30 days" in the text |
| PulseMetric.ThirtyDaysMeans | src/components/PulseMetricIntegration.tsx:158-168 | "30 days" in the text means the day count ends in 30 |
| PulseMetric.ColorByDays | src/components/PulseMetricIntegration.tsx:150-170 | for a connected, unexpired token: yellow exactly when the day count ends in 7, orange when it ends in 30 (and not 7), green otherwise |
| PulseMetric.ColorMisranks | src/components/PulseMetricIntegration.tsx:163-170 | the colour as written: 3 days left is green, 37 yellow, 20 green |
| PulseMetric.TokenColor | src/components/PulseMetricIntegration.tsx:157-170 | gray when disconnected; red at 0 days or fewer, yellow for 1 to 7, orange for 8 to 30, green above |
| PulseMetric.TokenColorMonotone | src/components/PulseMetricIntegration.tsx:155-159 | as time passes the day count never rises and the corrected colour never gets milder |
| PulseMetric.ColorsAgreeAtThresholds | src/components/PulseMetricIntegration.tsx:163-170 | at exactly 7 and 30 days, when expired and when disconnected, both colourings agree |
| PulseMetric.FormatDuration | src/components/PulseMetricIntegration.tsx:172-176 | the text holds a colon |
| PulseMetric.FormatDurationRoundTrip | src/components/PulseMetricIntegration.tsx:172-176 | the text is two colon-separated fields; the seconds field has two digits, and minutes × 60 + seconds gives back the input |
| PulseMetric.PulseMetric.constructor | src/components/PulseMetricIntegration.tsx:73-94 | every service starts disconnected with expiry 0 |
| PulseMetric.PulseMetric.ConnectPlatform | src/components/PulseMetricIntegration.tsx:121-137 | only that service is connected, expiring 90 days from now, and then reads "Valid for 90 days" through `Status`, the status text per service |
| PulseMetric.PulseMetric.DisconnectPlatform | src/components/PulseMetricIntegration.tsx:139-148 | only that service is disconnected with expiry 0, and then reads "Not Connected" |
| SocialMediaConnect.InitialPlatforms | src/components/SocialMediaConnect.tsx:30-85 | Instagram, YouTube and TikTok have accounts; Facebook and Spotify have none |
| SocialMediaConnect.Connect | src/components/SocialMediaConnect.tsx:93-97 | accounts of that platform get both connection flags set, everything else unchanged |
| SocialMediaConnect.ConnectApi | src/components/SocialMediaConnect.tsx:108-112 | accounts of that platform get only the API flag set; connection state and metrics untouched |
| SocialMediaConnect.ConnectWithoutAccount | src/components/SocialMediaConnect.tsx:93-112 | a platform without an account connects nothing |
| SocialMediaConnect.ConnectIdempotent | src/components/SocialMediaConnect.tsx:93-112 | connecting twice is connecting once; an API connection after a full one changes nothing |
| SocialMediaConnect.ConnectOthersKept | src/components/SocialMediaConnect.tsx:93-97 | the accounts of every other platform are unchanged, in order |
| SocialMediaConnect.AllPosts | src/components/SocialMediaConnect.tsx:231-237 | exactly the posts of the given accounts, each tagged with its account's platform and username |
| SocialMediaConnect.Feed | src/components/SocialMediaConnect.tsx:229-239 | exactly nine entries, or every candidate when there are fewer, drawn from the candidates with copies counted; each a post of a connected account tagged with its platform and username; newest first, and no left-out candidate is newer than a shown one |
| SocialMediaConnect.NewestNineFacts | src/components/SocialMediaConnect.tsx:238-239 | the sort by descending timestamp and `slice(0, 9)` keep the nine newest candidates, newest first, taken from the candidates with copies counted |
| SocialMediaConnect.CandidateFrom | src/components/SocialMediaConnect.tsx:229-238 | every entry taken from the candidates is a tagged post of a connected account |
| SocialMediaConnect.FeedComplete | src/components/SocialMediaConnect.tsx:229-239 | with nine posts or fewer on connected accounts, the feed shows each of them |
| SocialMediaConnect.DisconnectedNotInFeed | src/components/SocialMediaConnect.tsx:230 | a post tagged with a platform whose accounts are all disconnected never reaches the feed |
| SocialMediaConnect.SocialMediaConnect.constructor | src/components/SocialMediaConnect.tsx:30-77 | the three starting accounts, nothing connecting |
| SocialMediaConnect.SocialMediaConnect.ConnectAccount | src/components/SocialMediaConnect.tsx:87-100 | the accounts become `Connect` of the old ones, and connecting ends |
| SocialMediaConnect.SocialMediaConnect.ConnectViaApi | src/components/SocialMediaConnect.tsx:102-115 | the accounts become `ConnectApi` of the old ones, and connecting ends |
| SocialMediaConnect.SocialMediaConnect.RefreshMetrics | src/components/SocialMediaConnect.tsx:117-121 | the state is left unchanged |
| SocialMediaConnect.SocialMediaConnect.RecentPosts | src/components/SocialMediaConnect.tsx:229-239 | the rendered feed is the feed of the current accounts, so it has the nine newest posts |
| ProfileSetup.Get | src/components/ProfileSetup.tsx:26-35 | every field holds a value of its own kind |
| ProfileSetup.WithFieldOnlyNamed | src/components/ProfileSetup.tsx:49-54 | only the named field changes, and it takes the given value |
| ProfileSetup.WithFieldOwnValue | src/components/ProfileSetup.tsx:49-54 | setting a field to its own value changes nothing |
| ProfileSetup.RemoveAt | src/components/ProfileSetup.tsx:78-81 | exactly the element at the index is removed and the rest keep their order; an index outside the list changes nothing |
| ProfileSetup.EnabledToggleKeepsCap | src/components/ProfileSetup.tsx:272 | a toggle through an enabled button keeps at most 5 categories |
| ProfileSetup.ProfileSetup.constructor | src/components/ProfileSetup.tsx:25-35 | step 1 with an empty form |
| ProfileSetup.ProfileSetup.NextStep | src/components/ProfileSetup.tsx:83-91 | below step 4 the step goes up by one; at step 4 it stays and exactly `{profileComplete: true}` is reported, with /dashboard as the target |
| ProfileSetup.ProfileSetup.PrevStep | src/components/ProfileSetup.tsx:93-97 | above step 1 the step goes down by one; at step 1 nothing changes |
| ProfileSetup.ProfileSetup.HandleInputChange | src/components/ProfileSetup.tsx:49-54 | the form becomes `WithField` of the old one |
| ProfileSetup.ProfileSetup.ToggleCategory | src/components/ProfileSetup.tsx:56-61 | the categories become their toggle, and an enabled toggle keeps the cap |
| ProfileSetup.ProfileSetup.ToggleInterest | src/components/ProfileSetup.tsx:63-68 | the interests become their toggle |
| ProfileSetup.ProfileSetup.UploadPhotos | src/components/ProfileSetup.tsx:70-76 | the new photo URLs are appended |
| ProfileSetup.ProfileSetup.RemovePhoto | src/components/ProfileSetup.tsx:78-81 | the photos become `RemoveAt` of the old ones |
| SwipeInterface.DragDecision | src/components/SwipeInterface.tsx:95-105 | like exactly beyond +100, pass exactly beyond −100, nothing for offsets in [−100, 100] |
| SwipeInterface.SwipeInterface.constructor | src/components/SwipeInterface.tsx:37-48 | the first profile, nothing swiped, no category chosen |
| SwipeInterface.SwipeInterface.CurrentProfile | src/components/SwipeInterface.tsx:123-125 | the profile at the index, absent exactly when the deck is exhausted |
| SwipeInterface.SwipeInterface.HandleLike | src/components/SwipeInterface.tsx:107-113 | with a profile left: its id is recorded and the index goes up by one; at the end nothing changes |
| SwipeInterface.SwipeInterface.HandlePass | src/components/SwipeInterface.tsx:115-121 | the same state change as a like |
| SwipeInterface.SwipeInterface.HandleDragEnd | src/components/SwipeInterface.tsx:95-105 | a drag within the threshold changes nothing; beyond it the current profile is recorded and the index goes up, and on an exhausted deck nothing changes |
| SwipeInterface.SwipeInterface.StartOver | src/components/SwipeInterface.tsx:136-138 | the index returns to 0, the swipe record is kept |
| SwipeInterface.SwipeInterface.ToggleCategory | src/components/SwipeInterface.tsx:93 | the chosen categories become their toggle |
| SwipeInterface.SwipeThrough | src/components/SwipeInterface.tsx:48-121 | a like, a pass, a short drag, a like and a pass on the mock deck record "1", "2", "3" |
| Matches.FilteredMatches | src/components/Matches.tsx:87-92 | an order-preserving subsequence holding exactly the matches the filter keeps, each with all its copies; `Matches.Shown` is this list for the current filter |
| Matches.AllOrUnknownKeepsEverything | src/components/Matches.tsx:88-91 | 'all' and any other unknown value return every match in order |
| Matches.HighScoreExact | src/components/Matches.tsx:90 | 'high-score' keeps exactly the matches scoring 90 or more |
| Matches.RecentExact | src/components/Matches.tsx:89 | 'recent' keeps exactly the matches strictly newer than a week ago |
| Matches.MockHighScore | src/components/Matches.tsx:30-90 | on the mock list 'high-score' drops only the 87 |
| Matches.MockRecentAfterAWeek | src/components/Matches.tsx:30-89 | a week after the newest mock match 'recent' shows nothing |
| Matches.FindMatch | src/components/Matches.tsx:94 | the first match with that id (no earlier entry has it), and none exactly when no match has it |
| Matches.Matches.constructor | src/components/Matches.tsx:24-30 | nothing selected, an empty message, the filter 'all' |
| Matches.Matches.SelectedMatchData | src/components/Matches.tsx:94 | nothing without a selection; with one, the first match carrying the selected id, and nothing exactly when no match has it |
| Matches.Matches.SelectMatch | src/components/Matches.tsx:94 | the selection becomes the id |
| Matches.Matches.SendMessage | src/components/Matches.tsx:96-102 | a non-blank message is handed on and the box cleared; a blank one changes nothing |
| AuthPage.WithField | src/components/AuthPage.tsx:33-38 | only the named form field changes |
| AuthPage.TestUser | src/components/AuthPage.tsx:50-57 | the test account: the given type, email test@example.com, profile incomplete, free plan |
| AuthPage.SubmittedUser | src/components/AuthPage.tsx:40-80 | no user exactly when email or password is empty; "test"/"test" gives the type's test account; otherwise id '1', the entered email and the entered name or the type's default; always incomplete and free |
| AuthPage.TestCredentialsAreQuickTest | src/components/AuthPage.tsx:45-96 | the test credentials give the same account as the quick-test button |
| AuthPage.TestUsersDiffer | src/components/AuthPage.tsx:51-92 | ids brand-1 and influencer-1, names Test Brand Company and Test Influencer |
| AuthPage.AuthPage.constructor | src/components/AuthPage.tsx:22-31 | sign-in mode, brand type, empty form, not loading |
| AuthPage.AuthPage.HandleInputChange | src/components/AuthPage.tsx:33-38 | the form becomes `WithField` of the old one |
| AuthPage.AuthPage.SetUserType | src/components/AuthPage.tsx:23 | the user type changes |
| AuthPage.AuthPage.HandleSubmit | src/components/AuthPage.tsx:40-80 | loading is switched on; the user logged in is `SubmittedUser`, and profile setup is the target exactly when there is one |
| AuthPage.AuthPage.QuickTest | src/components/AuthPage.tsx:82-100 | the type is set, loading on, and the type's test account logged in |
| AuthPage.AuthPage.ToggleAuthMode | src/components/AuthPage.tsx:102-110 | the mode flips and all four fields are cleared |

## Left out

- Floating point: the vendors' ratings and distances, the swipe deck's ratings and the social accounts' engagement are integers in tenths. They are only compared and used as sort keys, so only their order matters.
- The brand dashboard's engagement is a whole number in the source (62, 71, 58) and is used arithmetically in the score. It is modelled as an integer, and the score is computed in exact rational arithmetic (see the `Math.round` line below).
- The link tree's `conversionRate` and `toFixed` (src/components/LinkTree.tsx:136) are floating-point output and are not modelled.
- The link tree's `getCategoryColor` and `copyLink` are not modelled: a colour lookup and a clipboard call.
- The brand dashboard's `Math.round` is stated exactly in integers. `RoundedBaseIsRound` proves it equal to rounding the exact rational. The double-precision value of `0.6 * e` is not modelled.
- Clock and timers: `Date.now()` is a `now` parameter. Each `setTimeout` or `await` delay is dropped, and the update after it is a separate operation (EmailMVP's three bumps, connect delays, sign-in delays).
- EmailMVP's `SendMock` and `ImportCsv` take one `now` for the whole call. The source reads `Date.now()` separately for the campaign's id and creation time and for each contact `importCSV` pushes, so there the time part of ids in one import may differ; in the model they share it and the row index keeps them apart.
- Browser APIs are not modelled: FileReader (the CSV text is a parameter), Blob and object-URL downloads, `URL.createObjectURL` (the photo URLs are a parameter), `navigator.share` and `clipboard`, and `window.open`.
- `localStorage` exceptions and JSON encoding: the store is a map from keys to typed values, plus an empty-string slot. A corrupt value and the `catch` fallback are not modelled.
- `Date.toISOString` in the CSV export is an opaque function parameter.
- `toLowerCase` folds ASCII letters only. Locale-sensitive case mapping and `toLocaleString` are not modelled.
- The email prototype splits lines at `\n` only. Its `\r?\n` regular expression also strips the `\r`, and here `trim` removes it, so lines come out the same.
- CSV quoting: both CSV paths split on bare commas. There is no import/export round trip, because the export's third column is the source while the import reads tags from it. `ExportColumns` and `ExportLines` hold only when no field contains a comma or a line break.
- Navigation: `navigate(...)` calls and `<Navigate>` results are returned target values.
- React rendering, styling and framer-motion drag values are not modelled, except the colour choices stated above. The drag is reduced to its horizontal offset.
- `console.log` in the matches screen's `sendMessage` becomes the returned message.
- `src/brandview/utils/mock.ts` is not part of this model. It uses floating-point jitter and a JavaScript ToInt32-based hash.
- Routing, navigation bars and the static screens are not part of this model. These are `App.tsx`, `routes.tsx`, `Navigation.tsx`, `Dashboard.tsx`, `LandingPage.tsx`, `Analytics.tsx`, `CreatorDashboard.tsx`, `Overview.tsx`, and the placeholder `brandview/screens/Matches.tsx`.
- No message threads are modelled, because no code stores chat messages.
- The unique-id generators `Date.now().toString()` and `` `ct_${now}_${idx}` `` are modelled as given. Two adds in the same millisecond would get the same id, and no contract claims otherwise.
- Onboarding's `SetBio` requires at most 280 characters, because the textarea's `maxLength` enforces this before the handler runs.
- ProfileSetup's `HandleInputChange` requires the value to suit the field (text for text inputs, a list for list fields). The source does not type-check `any` at run time.
- SwipeInterface's `HandleLike` and `HandlePass` require `Valid()`: the index is at most the deck length, which every handler keeps.

## Findings

| source | as written | input that shows it | evidently intended | confidence | as-written member | corrected member |
|---|---|---|---|---|---|---|
| src/components/PulseMetricIntegration.tsx:163-170 | the status colour is chosen by testing the status text for the substrings "7 days" and "30 days" | a token 3 days from expiry shows green, 37 days shows yellow, 20 days shows green | colour by the day thresholds `getTokenStatus` uses at lines 157-159: red when expired, yellow up to 7 days, orange up to 30, green beyond | not executed | PulseMetric.ColorMisranks | PulseMetric.TokenColor |
