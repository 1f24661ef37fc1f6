# Onboarding wizard and course pages, modelled in Dafny

This project models the logic of the onboarding wizard of an e-learning site
and the in-memory course logic of the pages around it:

- the answer store (`useOnboardingStore`): the current step, three ordered
  answer lists (purpose, interests, skills), three free-text answers and the
  completion flag. The three toggle actions share one selection rule between
  the reserved answers `"unsure"` and `"custom"` and the concrete catalog
  values;
- the option catalogs (purposes, interests, skills per interest) as constants,
  with the data facts the rules rely on;
- the wizard page's derivations: the answer summaries, the next-button gate,
  the skill options of step 3, the header counter, and the skill and course
  paging counters;
- the older step components (purpose, interests, skills, result), which
  repeat most of these rules with small differences;
- the home page's filter chips, conjunctive filter and stable sort, the
  search results page's case-insensitive search and card configuration, the
  course card's price and badge rules, and the host application's three
  onboarding flags.

State that the source updates in place is modelled by classes: `Store`
(the answer store), `PageView`, `SkillsStepView`, `PurposeStepView`,
`InterestsStepView`, `HomeView` and `AppHost`. Their methods state the whole
new state in terms of the old one. The pure rules are functions, and lemmas
prove what the source promises about them.

Tapping a concrete answer removes `"custom"` as well as `"unsure"`
(`src/onboarding/store/useOnboardingStore.ts:72`), and `Toggled` models
exactly that. The summaries list the concrete answers in the order they were
selected, not in catalog order. The fallback skill list is not deduplicated;
`AllSkillsDistinct` proves that it has no duplicate anyway.

String primitives: `trim` strips the ECMAScript WhiteSpace and LineTerminator
code points. `toLowerCase` maps ASCII letters only. Prices are whole won
amounts, and ratings are integer tenths.

## Model

| member | source | states |
|---|---|---|
| OnboardingStore.Toggled | src/onboarding/store/useOnboardingStore.ts:50-146 | "unsure" switches between the only answer and no answer; "custom" drops "unsure", flips itself and keeps every concrete answer; a concrete value drops both reserved answers and flips its own membership, keeping every other concrete answer; a value other than "unsure" that joins goes last after a subsequence of the old list, and one that leaves leaves a subsequence of the old list behind |
| OnboardingStore.ToggledConsistent | src/onboarding/store/useOnboardingStore.ts:50-146 | every toggle keeps a list duplicate-free, with "unsure" only ever on its own |
| OnboardingStore.ToggleAllConsistent | src/onboarding/store/useOnboardingStore.ts:50-146 | any sequence of toggles from a consistent list (the empty one included) yields a consistent list |
| OnboardingStore.ToggledNeverMixesReserved | src/onboarding/store/useOnboardingStore.ts:53-77 | after a toggle, "unsure" and "custom" are never both selected |
| OnboardingStore.UnsureTwice | src/onboarding/store/useOnboardingStore.ts:53-60 | two "unsure" toggles from a list without "unsure" leave the list empty |
| OnboardingStore.CustomTwice | src/onboarding/store/useOnboardingStore.ts:62-70 | two "custom" toggles restore a list without reserved answers exactly |
| OnboardingStore.CustomKeepsConcrete | src/onboarding/store/useOnboardingStore.ts:62-70 | a "custom" toggle leaves the concrete answers unchanged, order included |
| OnboardingStore.ConcreteTwice | src/onboarding/store/useOnboardingStore.ts:72-77 | two toggles of an unselected concrete value restore a list of concrete answers exactly |
| OnboardingStore.SelectionCount | src/onboarding/steps/InterestsStep.tsx:44 | the "n selected" counter never exceeds the list length and is positive when "custom" is selected |
| OnboardingStore.SelectionCountConsistent | src/onboarding/steps/SkillsStep.tsx:67 | on a consistent list the counter is 0 with "unsure" and the list length otherwise |
| OnboardingStore.PrevStepOf | src/onboarding/store/useOnboardingStore.ts:150-153 | one step back, floored at 0 |
| OnboardingStore.Store.constructor | src/onboarding/store/useOnboardingStore.ts:31-44 | a fresh store is step 1 with empty lists, empty texts and not completed |
| OnboardingStore.Store.SetPurpose | src/onboarding/store/useOnboardingStore.ts:46 | replaces the purpose list and nothing else |
| OnboardingStore.Store.SetCustomPurposeText | src/onboarding/store/useOnboardingStore.ts:48 | stores the text verbatim and changes nothing else |
| OnboardingStore.Store.TogglePurpose | src/onboarding/store/useOnboardingStore.ts:50-78 | only the purpose list changes, to its toggled form, and stays consistent |
| OnboardingStore.Store.SetInterests | src/onboarding/store/useOnboardingStore.ts:80 | replaces the interest list and nothing else |
| OnboardingStore.Store.SetCustomInterestText | src/onboarding/store/useOnboardingStore.ts:82 | stores the text verbatim and changes nothing else |
| OnboardingStore.Store.ToggleInterest | src/onboarding/store/useOnboardingStore.ts:84-112 | only the interest list changes, to its toggled form, and stays consistent |
| OnboardingStore.Store.SetSkills | src/onboarding/store/useOnboardingStore.ts:114 | replaces the skill list and nothing else |
| OnboardingStore.Store.SetCustomSkillText | src/onboarding/store/useOnboardingStore.ts:116 | stores the text verbatim and changes nothing else |
| OnboardingStore.Store.ToggleSkill | src/onboarding/store/useOnboardingStore.ts:118-146 | only the skill list changes, to its toggled form, and stays consistent |
| OnboardingStore.Store.NextStep | src/onboarding/store/useOnboardingStore.ts:148 | the step grows by one and nothing else changes |
| OnboardingStore.Store.PrevStep | src/onboarding/store/useOnboardingStore.ts:150-153 | the step goes back one, never below 0, and nothing else changes |
| OnboardingStore.Store.GoToStep | src/onboarding/store/useOnboardingStore.ts:155 | the step becomes exactly the given one and nothing else changes |
| OnboardingStore.Store.Complete | src/onboarding/store/useOnboardingStore.ts:157 | sets the completion flag and nothing else, so a second call changes nothing |
| OnboardingStore.Store.Reset | src/onboarding/store/useOnboardingStore.ts:159 | every field returns to the initial state |
| OnboardingOptions.PurposeCatalog | src/onboarding/constants/onboardingOptions.ts:27-76 | 8 purposes with distinct values, "knowledge_sharing" among them, none reserved, all labelled |
| OnboardingOptions.PurposeLookup | src/onboarding/constants/onboardingOptions.ts:27-76 | looking up a purpose's value finds that purpose, and no two purposes share a label |
| OnboardingOptions.InterestCatalog | src/onboarding/constants/onboardingOptions.ts:78-91 | 12 interests with distinct values, none reserved, all labelled, "other" last |
| OnboardingOptions.InterestLookup | src/onboarding/constants/onboardingOptions.ts:78-91 | looking up an interest's value finds that interest, and no two interests share a label |
| OnboardingOptions.SkillCatalog | src/onboarding/constants/onboardingOptions.ts:98-196 | one skill list per interest, keyed in interest order; each has 4 to 8 distinct, non-reserved, labelled values; no two lists share a value |
| OnboardingOptions.SkillsOfInterest | src/onboarding/constants/onboardingOptions.ts:98-196 | every interest is a key of the skills record and yields its own list |
| OnboardingOptions.AllSkillsDistinct | src/onboarding/constants/onboardingOptions.ts:98-196 | the concatenation of all skill lists has 73 entries and no repeated value |
| SkillLabels.CollectSkillLabels | src/onboarding/OnboardingPage.tsx:51-62 | the nested loop over interests and chosen concrete skills computes the skill summary |
| SkillLabels.CollectUnder | src/onboarding/OnboardingPage.tsx:55-60 | the inner loop over the chosen concrete skills appends exactly what one interest contributes to the summary |
| SkillLabels.SkillLabelsOfFacts | src/onboarding/OnboardingPage.tsx:51-62 | the summary has no repeated label, and holds exactly the labels of chosen concrete skills found in a chosen interest's list |
| SkillLabels.ScanInterestsPrefix | src/onboarding/OnboardingPage.tsx:54-62 | the labels found under earlier interests come first: the summary grows in interest order |
| SkillLabels.ScanSkillsAppend | src/onboarding/OnboardingPage.tsx:55-60 | the inner loop goes skill by skill: scanning two runs of skills is scanning the first, then the second |
| SkillLabels.ScanSkillsOne | src/onboarding/OnboardingPage.tsx:56-59 | one skill appends its label iff the interest's list holds the skill and the label is not yet collected |
| SkillLabels.ScanSkillsInSkillOrder | src/onboarding/OnboardingPage.tsx:55-60 | what one interest appends is a subsequence of the found labels of the chosen skills, in selection order |
| SkillLabels.NoInterestsNoLabels | src/onboarding/steps/ResultStep.tsx:61 | with no interest the summary is empty, whatever skills are chosen |
| OnboardingPage.SummaryInChoiceOrder | src/onboarding/OnboardingPage.tsx:24-49 | the catalog part of both summaries goes answer by answer: the lines of a prefix of the answers come first, and each answer contributes its catalog line or nothing |
| OnboardingPage.PurposeAnswersConcrete | src/onboarding/OnboardingPage.tsx:27-29 | dropping "unsure" and "custom" before the lookup changes nothing, as no catalog purpose has a reserved value |
| OnboardingPage.ChoiceLabelTextsConcrete | src/onboarding/OnboardingPage.tsx:41-44 | likewise for a catalog of choices without reserved values |
| OnboardingPage.PurposeLabelsSpec | src/onboarding/OnboardingPage.tsx:24-39 | the summary is the catalog lines of the answers in selection order, followed by the reserved lines; a catalog purpose is summarised iff chosen; the quoted text iff "custom" is chosen and the raw text is non-empty; the "unsure" label iff "unsure" is chosen, and then last; nothing else |
| OnboardingPage.PurposeLabelsExample | src/onboarding/OnboardingPage.tsx:24-39 | job_seeking plus "custom" with text "AI" gives the job-seeking label with its description, then the quoted text |
| OnboardingPage.InterestLabelsSpec | src/onboarding/OnboardingPage.tsx:41-49 | the same rule for interests: the catalog labels of the answers in selection order (each iff chosen), then the quoted text, then the "unsure" label, nothing else |
| OnboardingPage.SkillLabelsFor | src/onboarding/OnboardingPage.tsx:51-66 | the skill summary followed by the quoted-text line and the "unsure" line under the same conditions |
| OnboardingPage.GateClosedInitiallyAndAtResults | src/onboarding/OnboardingPage.tsx:354-374 | the gate is closed on a fresh store and on every step outside 1 to 3 |
| OnboardingPage.ToggleOpensGate | src/onboarding/OnboardingPage.tsx:354-374 | choosing "unsure" or a new concrete value opens the gate whatever the text |
| OnboardingPage.CustomNeedsText | src/onboarding/OnboardingPage.tsx:354-374 | choosing "custom" opens the gate exactly when its text is not blank |
| OnboardingPage.TrimmedTextSameGate | src/onboarding/steps/PurposeStep.tsx:37-44 | storing the trimmed text instead of the raw one never changes the gate |
| OnboardingPage.AvailableSkillsSelected | src/onboarding/OnboardingPage.tsx:382-386 | with a concrete interest, the options are duplicate-free, a subsequence of the chosen interests' concatenated lists, offer every value of them, and each is the first entry of its value |
| OnboardingPage.AvailableSkillsFallback | src/onboarding/OnboardingPage.tsx:377-381 | with no concrete interest, the options are all skill lists concatenated in key order, with no repeated value |
| OnboardingPage.FrontendOnlyExample | src/onboarding/OnboardingPage.tsx:377-386 | choosing only "frontend" offers exactly the frontend skills in catalog order |
| OnboardingPage.StepCounter | src/onboarding/OnboardingPage.tsx:528-530 | the header shows min(step, 3) and is hidden on step 4 |
| OnboardingPage.SkillPaging | src/onboarding/OnboardingPage.tsx:389-390 | the shown skills are a prefix of the options, and the "more" button shows exactly when some option is not shown |
| OnboardingPage.ResultPanelFor | src/onboarding/OnboardingPage.tsx:784-830 | the knowledge-sharing panel shows iff that purpose is chosen and popular results were not asked for; otherwise min(count, 8) courses, with the "more" button iff count is below 8 |
| OnboardingPage.PageView.constructor | src/onboarding/OnboardingPage.tsx:192-194 | courses start at 4, skills at 20, no popular-results detour |
| OnboardingPage.PageView.LoadMoreSkills | src/onboarding/OnboardingPage.tsx:347-349 | 20 more skills are shown; nothing else changes |
| OnboardingPage.PageView.LoadMoreCourses | src/onboarding/OnboardingPage.tsx:343-345 | the course count becomes min(count + 4, 8), never past the number of courses |
| OnboardingPage.PageView.ShowPopularResults | src/onboarding/OnboardingPage.tsx:806 | the popular-results detour is taken; the counters stay |
| OnboardingPage.PageView.OnStepChange | src/onboarding/OnboardingPage.tsx:232-237 | entering step 4 resets the course count to 4 and drops the detour; other steps change nothing |
| OnboardingPage.PageView.OnSkillsContextChange | src/onboarding/OnboardingPage.tsx:239-243 | on step 3, a change of step or interests resets the skill count to 20 |
| OnboardingPage.HandleComplete | src/onboarding/OnboardingPage.tsx:338-341 | the store returns to its initial state, then the host records completion |
| OnboardingPage.HandleSkip | src/onboarding/OnboardingPage.tsx:334-336 | the host records a skip and the answers stay as they are |
| ResultStep.ResultPurposeLabelsSpec | src/onboarding/steps/ResultStep.tsx:81-83 | a catalog purpose's label is listed iff the purpose was chosen, and only such labels are listed |
| ResultStep.ResultInterestLabelsSpec | src/onboarding/steps/ResultStep.tsx:84-86 | a catalog interest's label is listed iff the interest was chosen, and only such labels are listed |
| ResultStep.ResultLabelsInChoiceOrder | src/onboarding/steps/ResultStep.tsx:81-86 | labels come in selection order: the labels of a prefix of the answers come first |
| ResultStep.ResultLabelsDropSentinels | src/onboarding/steps/ResultStep.tsx:81-86 | the reserved answers are dropped; the interest labels are the page's interest summary without its text and "unsure" lines |
| ResultStep.ResultSkillLabelsSpec | src/onboarding/steps/ResultStep.tsx:57-72 | no suffix line: only labels of chosen concrete skills found under a chosen interest, each once, in interest order, each interest's new labels in skill-selection order, empty without interests |
| SkillsStep.ValidInterests | src/onboarding/steps/SkillsStep.tsx:17 | the valid interests exclude "unsure", "custom" and "other" and keep every other chosen interest |
| SkillsStep.UniqueSkillsSpec | src/onboarding/steps/SkillsStep.tsx:24-26 | the offered skills are duplicate-free, a subsequence of the candidates and no longer, offer every candidate value, each the first entry of its value |
| SkillsStep.UniqueSkillsFallback | src/onboarding/steps/SkillsStep.tsx:18-26 | with no valid interest the whole catalog is offered, unchanged |
| SkillsStep.UniqueSkillsSelected | src/onboarding/steps/SkillsStep.tsx:17-21 | with a valid interest every offered skill belongs to a chosen valid interest |
| SkillsStep.OtherOnlyDiffersFromPage | src/onboarding/steps/SkillsStep.tsx:17-21 | with "other" alone, the wizard page offers the "other" skills and the step offers the whole catalog |
| SkillsStep.SkillsPaging | src/onboarding/steps/SkillsStep.tsx:29-30 | the shown skills are the first min(count, n) offered ones, and "more" shows iff n > count |
| SkillsStep.SkillsReadySpec | src/onboarding/steps/SkillsStep.tsx:46-47 | the gate holds iff a skill is chosen and "custom" comes with non-blank text; it agrees with the page's gate on step 3 |
| SkillsStep.SkillsCountSpec | src/onboarding/steps/SkillsStep.tsx:67 | the counter skips "unsure" and counts "custom" |
| SkillsStep.SkillsStepView.constructor | src/onboarding/steps/SkillsStep.tsx:12-13 | the box starts with the stored text and 20 skills are shown |
| SkillsStep.SkillsStepView.HandleShowMore | src/onboarding/steps/SkillsStep.tsx:32-34 | 20 more skills are shown |
| SkillsStep.SkillsStepView.OnStoredTextChange | src/onboarding/steps/SkillsStep.tsx:36-38 | the box follows the stored text |
| SkillsStep.SkillsStepView.HandleCustomInputChange | src/onboarding/steps/SkillsStep.tsx:49-56 | the box keeps the raw value; the store gets the trimmed value, or "" when blank, which is its own trim |
| PurposeStep.PurposeReadySpec | src/onboarding/steps/PurposeStep.tsx:30-31 | the gate holds iff a purpose is chosen and "custom" comes with non-blank text; it agrees with the page's gate on step 1 |
| PurposeStep.PurposeStepView.constructor | src/onboarding/steps/PurposeStep.tsx:15 | the box starts with the stored text |
| PurposeStep.PurposeStepView.OnStoredTextChange | src/onboarding/steps/PurposeStep.tsx:18-20 | the box follows the stored text |
| PurposeStep.PurposeStepView.HandleCustomClick | src/onboarding/steps/PurposeStep.tsx:33-35 | exactly a "custom" toggle of the purpose list |
| PurposeStep.PurposeStepView.HandleCustomInputChange | src/onboarding/steps/PurposeStep.tsx:37-44 | the box keeps the raw value; the store gets the trimmed value, or "" when blank, which is its own trim |
| InterestsStep.InterestsReadySpec | src/onboarding/steps/InterestsStep.tsx:23-24 | the gate holds iff an interest is chosen and "custom" comes with non-blank text; it agrees with the page's gate on step 2 |
| InterestsStep.OfferedInterestsSpec | src/onboarding/steps/InterestsStep.tsx:65 | the chips are the catalog minus "other", in catalog order: 11 of them |
| InterestsStep.InterestsCountSpec | src/onboarding/steps/InterestsStep.tsx:44 | the counter skips "unsure" and counts everything else |
| InterestsStep.InterestsStepView.constructor | src/onboarding/steps/InterestsStep.tsx:10 | the box starts with the stored text |
| InterestsStep.InterestsStepView.OnStoredTextChange | src/onboarding/steps/InterestsStep.tsx:13-15 | the box follows the stored text |
| InterestsStep.InterestsStepView.HandleCustomInputChange | src/onboarding/steps/InterestsStep.tsx:26-33 | the box keeps the raw value; the store gets the trimmed value, or "" when blank, which is its own trim |
| HomePage.ToggledFilter | src/onboarding/pages/HomePage.tsx:426-430 | the tapped chip flips its membership; every other chip keeps its own; a chip that joins goes last after the old list kept in order, and one that leaves leaves a subsequence of the old list |
| HomePage.ToggledFilterFacts | src/onboarding/pages/HomePage.tsx:426-430 | a tap keeps the chips duplicate-free, and tapping a chip that was off twice restores the list |
| HomePage.MatchesFilters | src/onboarding/pages/HomePage.tsx:432-452 | a course passes iff it meets every active chip's condition; with no chip every course passes |
| HomePage.MoreFiltersFewerCourses | src/onboarding/pages/HomePage.tsx:432-452 | one more chip keeps exactly the courses that passed before and meet its condition |
| HomePage.FilterCoursesSpec | src/onboarding/pages/HomePage.tsx:454-456 | each filtered list keeps exactly the passing courses, in order; with no chip it is the whole list |
| HomePage.FilteredAllJoins | src/onboarding/pages/HomePage.tsx:458 | filtering the joined lists equals joining the three filtered lists |
| HomePage.NumericPrice | src/onboarding/pages/HomePage.tsx:460-464 | free is 0, an amount is itself, a missing price is MAX_SAFE_INTEGER |
| HomePage.SortCoursesSpec | src/onboarding/pages/HomePage.tsx:466-482 | the sorted list is a permutation of the input, ordered by the selected key, and courses of equal key keep their input order |
| HomePage.SortOrderMeaning | src/onboarding/pages/HomePage.tsx:466-482 | students descending, rating descending, price ascending or descending, as selected |
| HomePage.SubmittedQuery | src/onboarding/pages/HomePage.tsx:404-408 | a blank query submits nothing; otherwise the trimmed, non-empty query is submitted |
| HomePage.CompactBannerFlags | src/onboarding/pages/HomePage.tsx:76-86 | the `OnboardingBanner` component's compact flag, fed the host's flags: compact at start, after a skip and when the wizard is reopened; after completion compact iff skipped before (the page itself no longer renders the banner) |
| HomePage.PopoverFlags | src/onboarding/pages/HomePage.tsx:423 | once completed the popover never shows; before that it shows iff the box is focused |
| HomePage.PromptFlags | src/onboarding/pages/HomePage.tsx:762 | once completed the invitation never shows; before that it shows iff a chip is on |
| HomePage.HomeView.constructor | src/onboarding/pages/HomePage.tsx:391-395 | no chip, "popular" order, empty query |
| HomePage.HomeView.TogglePopularFilter | src/onboarding/pages/HomePage.tsx:426-430 | the chip list becomes its toggled form and stays duplicate-free; nothing else changes |
| HomePage.HomeView.ResetFilters | src/onboarding/pages/HomePage.tsx:877 | all chips are turned off; nothing else changes |
| HomePage.HomeView.SetSortOrder | src/onboarding/pages/HomePage.tsx:834 | the order becomes the selected one; nothing else changes |
| HomePage.HomeView.SetSearchQuery | src/onboarding/pages/HomePage.tsx:630 | the query becomes the typed one; nothing else changes |
| HomePage.HomeView.SortedFilteredAll | src/onboarding/pages/HomePage.tsx:484 | the filtered joined list, sorted by the selected order |
| HomePage.HomeView.HandleSearch | src/onboarding/pages/HomePage.tsx:404-408 | submits what SubmittedQuery gives for the current query |
| SearchResultsPage.MatchesQueryFields | src/onboarding/pages/SearchResultsPage.tsx:199-201 | a course matches iff its lower-cased title, instructor or some tag contains the needle |
| SearchResultsPage.ResultsSpec | src/onboarding/pages/SearchResultsPage.tsx:197-202 | a course is a result iff one of its fields contains the trimmed, lower-cased query; results keep the list's order |
| SearchResultsPage.BlankQueryFindsAll | src/onboarding/pages/SearchResultsPage.tsx:197-202 | a blank query returns every course, in order |
| SearchResultsPage.MatchedLevel | src/onboarding/pages/SearchResultsPage.tsx:160 | the level keyword found, if any, is one the query contains; none is found iff the query contains none |
| SearchResultsPage.GetMetaConfig | src/onboarding/pages/SearchResultsPage.tsx:157-181 | compact iff a level keyword, a tag, "무료", "free" or "원" is in the query; level and price pass through; price emphasis only in compact mode and iff a price word is there; tags as described |
| SearchResultsPage.MetaConfigTags | src/onboarding/pages/SearchResultsPage.tsx:162-169 | the card's tags are a subsequence of the course's tags; when some tag matches, exactly the matched tags are shown |
| SearchResultsPage.ResultCardProps | src/onboarding/pages/SearchResultsPage.tsx:522-541 | a result card shows meta and inline students, with the configuration's tags, layout and price emphasis |
| SearchResultsPage.ResultCardShows | src/onboarding/pages/SearchResultsPage.tsx:522-541 | a result card always shows its price line, at most two tags in compact mode, and only the course's own tags in order |
| SearchResultsPage.HandleEnter | src/onboarding/pages/SearchResultsPage.tsx:343-347 | Enter submits nothing for a blank query and the trimmed query otherwise |
| CourseCard.PriceLabel | src/onboarding/components/CourseCard.tsx:44 | "무료" iff free, "" iff no price, the amount otherwise |
| CourseCard.DiscountRate | src/onboarding/components/CourseCard.tsx:47 | 0 without a discount; otherwise the saving in percent, rounded half up, at most 100 |
| CourseCard.RoundedPercent | src/onboarding/components/CourseCard.tsx:47 | the nearest whole percent of a part of a whole, halves rounded up |
| CourseCard.Render | src/onboarding/components/CourseCard.tsx:94-154 | review count iff asked and present; price line and discount only with meta; level badge and tags only with meta and a non-empty tag list; at most 2 or 4 tags, the first ones in order |
| CourseCard.DefaultCardIsBare | src/onboarding/components/CourseCard.tsx:35-41 | with default props the card shows only the review count |
| App.AfterComplete | src/App.tsx:41-44 | completion sets completed, closes the wizard, keeps skipped |
| App.AfterSkip | src/App.tsx:46-49 | a skip sets skipped, closes the wizard, keeps completed |
| App.AfterStart | src/App.tsx:58 | starting opens the wizard and keeps both outcome flags |
| App.CallbacksIdempotent | src/App.tsx:41-49 | completing or skipping twice equals doing it once |
| App.OutcomesStick | src/App.tsx:41-58 | once set, the completed and skipped flags stay set through every transition |
| App.AppHost.constructor | src/App.tsx:37-39 | the wizard starts open, not completed and not skipped |
| App.AppHost.HandleOnboardingComplete | src/App.tsx:41-44 | the flags become their after-completion form |
| App.AppHost.HandleOnboardingSkip | src/App.tsx:46-49 | the flags become their after-skip form; the modal's close handler is the same |
| App.AppHost.StartOnboarding | src/App.tsx:58 | the flags become their after-start form |
| Strings.TrimmedOrEmpty | src/onboarding/steps/PurposeStep.tsx:39-43 | the stored custom text is the trimmed value, and it is its own trim |

## Left out

- The intro animation phases, their timers, lottie events and the once-per-session intro flag: driven by timers and events.
- Scrolling, resize observers, chip width measurement, focus effects, drag-to-scroll and the scroll arrows: they depend on the DOM and layout.
- The purely presentational components (chips, cards, chat bubbles, layout) and all styling.
- The progress percentage: it is a floating-point value.
- CourseCard.DiscountRate: computed exactly and rounded half up, whereas the page divides in floating point before `Math.round`; at an exact half the two could differ.
- Locale formatting (`toLocaleString`, `toFixed`): a formatted amount stays abstract as `Amount(n)`.
- Strings.Trim, Strings.ToLower: `trim` covers the ECMAScript whitespace code points; `toLowerCase` covers ASCII letters only, not the rest of Unicode.
- The onboarding banner on the home page: `OnboardingBanner` is still defined, but the page no longer renders it (`src/onboarding/pages/HomePage.tsx:899`) and ignores its two flag props; only the component's compact rule is modelled.
- The network client (`onboardingApi.ts`) and the analytics hook: network and console only.
- The result step's simulated fetch, its error state and page reload: asynchronous and not part of the answer logic.
- Mock course data: the course lists are inputs; ratings are integer tenths rather than floats.
- Navigation between pages and the callbacks' effects outside this code (`onSearch`, `onGoHome`): the model stops at the value handed to the callback.
