# Creator Chart CMS — a verified model of its core

Creator Chart CMS is a content-operations dashboard for a creator team. Its
content items move through five stages: Ideation, Drafting, Design, Review
and Published. The team works with them in several views:

- a pipeline board with drag and drop and a quick-move menu;
- a filterable content database with a mocked "analyse with AI" action;
- an "add content" dialog;
- a creator-intake form that classifies a creator with a mocked AI;
- a team view of per-member workload;
- a notification panel;
- a ten-step onboarding tour;
- a keyboard-shortcut hook.

This project models that core in Dafny and proves what each piece promises.

## How the model is built

| module | file | what it holds |
|---|---|---|
| `Base` | `base.dfy` | `Option`, `Filter`, `Count`, subsequences, and their lemmas |
| `Text` | `text.dfy` | JavaScript whitespace, ASCII lower-casing, trimming, substring search, join/split, decimal printing and parsing |
| `Types` | `types.dfy` | content items, creator profiles, team members, activity entries and AI results |
| `MockAI` | `mock_ai.dfy` | topic extraction, summaries, title variations, niche detection, stage, platform focus, recommendations, and the two progress-reporting analyses |
| `Helpers` | `helpers.dfy` | the stuck tests, engagement, relative dates, content filtering and CSV text |
| `SampleData` | `sample_data.dfy` | the team roster, the 25 seed items, and the by-stage, stuck and high-performer queries |
| `AppState` | `app_state.dfy` | the application's shared content and creator lists (class `Store`) |
| `PipelineBoard`, `ContentDatabase`, `AddContentModal`, `CreatorIntake`, `TeamView`, `OnboardingTour`, `KeyboardShortcuts`, `Header` | one file each | one module per component |

A view that keeps state is a class. Its fields are the component's state
variables, and its methods are the event handlers. A handler that replaces
the shared list writes the `Store`'s field, and each handler is specified
by pure functions of the old state.

Inputs the code takes from its environment are parameters:

- the clock (`new Date()`) is `now`, in milliseconds;
- `generateId` is `newId`;
- the random summary template is `pick < 3`;
- a thrown analysis is `rejected`.

String case-folding covers ASCII letters only.

Three behaviours of the code are easy to miss, and each is proved about
the code as written:

- The follower count is read by deleting every non-digit. "45K" therefore
  counts as 45 followers, although the intake form offers "15K" as a way to
  write fifteen thousand (`MockAI.FollowerCountSuffix`). This is the second
  entry under Findings.
- The email check is not anchored to the whole string
  (`CreatorIntake.EmailUnanchored`).
- The letter x anywhere in a text, as in "next" or "experience", yields the
  topic "X/Twitter Engagement" (`MockAI.XTopicOnAnyX`).

## Model

| member | source | states |
|---|---|---|
| MockAI.TopicsSpec | src/utils/mockAI.ts:30-54 | exactly four topics when four or more patterns match, otherwise all of them; they are the first matched labels in table order, pairwise distinct, and each comes from a pattern that matches; with at most four matches, a topic is present exactly when its pattern matches |
| MockAI.ExtractTopics | src/utils/mockAI.ts:47-53 | the push loop returns exactly the table-order list of matched topics, cut to four |
| MockAI.XTopicOnAnyX | src/utils/mockAI.ts:38 | any x or X anywhere in the text triggers the X/Twitter topic |
| MockAI.SummaryMentions | src/utils/mockAI.ts:61-65 | each of the three templates names both the platform and the lower-cased main topic |
| MockAI.GenerateSummary | src/utils/mockAI.ts:57-68 | the summary is the chosen template filled with the platform and the first topic of title + " " + description, or "content strategy" |
| MockAI.TitleVariationsMention | src/utils/mockAI.ts:71-87 | all three variations contain the cleaned title |
| MockAI.StripLeadingNumberOf | src/utils/mockAI.ts:77 | a leading run of digits followed by whitespace is removed, leaving the rest |
| MockAI.StripLeadingNumberNoDigit | src/utils/mockAI.ts:77 | a title that does not start with a digit is left as it is |
| MockAI.StripLeadingWordOf | src/utils/mockAI.ts:77 | a leading "How to", "The", "A" or "An", in any ASCII case and followed by whitespace, is removed |
| MockAI.AnyKeywordIff | src/utils/mockAI.ts:94-102 | "some keyword occurs" holds exactly when the filtered keyword list is non-empty |
| MockAI.DetectNiche | src/utils/mockAI.ts:90-108 | the two loops return the first niche with two keyword hits, else the first with one, else General Creator |
| MockAI.ChoiceUnique | src/utils/mockAI.ts:93-107 | that choice is determined by the hit counts: two niches satisfying it are the same |
| MockAI.NicheChoiceDefault | src/utils/mockAI.ts:107 | with no keyword in the text the niche is General Creator |
| MockAI.StageFor | src/utils/mockAI.ts:114-117 | the four stages partition the counts at 1000, 10000 and 50000 |
| MockAI.StageMonotone | src/utils/mockAI.ts:111-118 | more followers never give an earlier stage |
| MockAI.FollowerCountOfNumeral | src/utils/mockAI.ts:112 | a printed number parses back to itself |
| MockAI.FollowerCountIgnores | src/utils/mockAI.ts:112 | inserting a non-digit anywhere does not change the count |
| MockAI.FollowerCountSuffix | src/utils/mockAI.ts:111-118 | as written, "nK" counts as n, not as n thousand, so "15K" gets the first stage while "15000" gets the third |
| MockAI.ScaledFollowerCountSpec | src/components/CreatorIntake.tsx:190 | with the scaling the form's example promises, "nK" and "nk" count n thousand, plain numerals count their value, and "15K" gets the same stage as "15000" |
| MockAI.FollowerCountNoDigits | src/utils/mockAI.ts:112 | text without digits counts as 0, which is Building Foundation |
| MockAI.PlatformFocusSpec | src/utils/mockAI.ts:221 | General Creator falls back to the creator's platform; every other niche joins its first two recommended platforms with " + " |
| MockAI.GenerateRecommendations | src/utils/mockAI.ts:121-169 | the push sequence returns the specified recommendation list |
| MockAI.RecommendationsShape | src/utils/mockAI.ts:127-168 | three stage lines come first, then the niche line for Tech/Business or Design/Creative, then the two goal lines, cut to five |
| MockAI.RecommendationsTruncated | src/utils/mockAI.ts:168 | a Tech/Business creator with both goals loses the monetisation line to the cut at five |
| MockAI.ProgressSequences | src/utils/mockAI.ts:179-224 | content analysis reports 20, 40, 60, 80, 100 and creator classification reports 25, 50, 75, 100, both strictly increasing |
| MockAI.AnalyzeContent | src/utils/mockAI.ts:172-199 | the result's summary, title variations and topics, and the reported progress |
| MockAI.ClassifyCreator | src/utils/mockAI.ts:202-233 | the stage comes from the digits-only follower count; niche, platform focus and recommendations all come from one niche chosen from the lower-cased description |
| Helpers.StuckLevels | src/utils/helpers.ts:44-51 | very stuck implies stuck; Published items are never stuck; stuck but not very stuck means 4 or 5 days |
| Helpers.StuckBorderColor | src/utils/helpers.ts:54-58 | red exactly when very stuck, yellow exactly when stuck only, none exactly when not stuck |
| Helpers.CalculateEngagement | src/utils/helpers.ts:31-33 | engagement is the reach score plus 20 per comment and 30 per share |
| Helpers.EngagementMonotone | src/utils/helpers.ts:31-33 | higher metrics never lower the engagement or the reach |
| Helpers.EngagementRateLabel | src/utils/helpers.ts:36-41 | "0%" exactly when there are no views |
| Helpers.RelativeDateUnits | src/utils/helpers.ts:5-16 | a day or more gives whole days, an hour or more gives hours, a minute or more gives minutes, else "Just now" |
| Helpers.RelativeDateExamples | src/utils/helpers.ts:5-16 | concrete labels, including "1 day ago" without a plural and "Just now" for a future date |
| Helpers.FilterContentSpec | src/utils/helpers.ts:110-124 | the filtered list is an order-preserving sublist holding exactly the items that pass all three filters, each as often as it occurs |
| Helpers.FilterContentAll | src/utils/helpers.ts:110-124 | an empty search with both filters on "all" returns the list unchanged |
| Helpers.SearchIgnoresCase | src/utils/helpers.ts:117-119 | the search result does not depend on the case of the search text |
| Helpers.CsvLines | src/utils/helpers.ts:129-141 | one line per item, each its row joined with commas |
| Helpers.CsvReadsBack | src/utils/helpers.ts:127-141 | when no field holds a comma or newline, splitting the text on newlines and then on commas gives back the header and every row |
| Helpers.CsvCommaInTitle | src/utils/helpers.ts:129-141 | a title containing one comma makes that line split into one cell more than the header |
| SampleData.FindMember | src/data/sampleData.ts:192-194 | the lookup returns the first member with the id, or nothing when no member has it |
| SampleData.RosterLookup | src/data/sampleData.ts:12-20 | the seven roster ids are distinct, each looks up its own member, and "tm8" finds nothing |
| SampleData.SeedContent | src/data/sampleData.ts:23-160 | the seed holds 25 items |
| SampleData.SeedIdsDistinct | src/data/sampleData.ts:23-160 | the seed item ids are pairwise distinct |
| SampleData.SeedPublishing | src/data/sampleData.ts:23-160 | unpublished seed items have zero metrics and no publish date; published ones have a publish date |
| SampleData.ContentByStatusSpec | src/data/sampleData.ts:197-199 | an order-preserving sublist holding exactly the items with that status, each as often as it occurs |
| SampleData.StuckItemsSpec | src/data/sampleData.ts:202-204 | an order-preserving sublist holding exactly the stuck items, each as often as it occurs |
| SampleData.SortByReach | src/data/sampleData.ts:210 | the sorted list is a permutation of the input |
| SampleData.SortByReachSorted | src/data/sampleData.ts:210 | the sorted list is ordered by non-increasing views + 10 × likes |
| SampleData.HighPerformersSorted | src/data/sampleData.ts:207-212 | at most five items, exactly five when more are published, sorted by reach, drawn from the published items |
| SampleData.HighPerformersPublished | src/data/sampleData.ts:209 | every high performer is a published item of the list |
| SampleData.HighPerformersLeftOut | src/data/sampleData.ts:207-212 | every published item left out reaches no more than any item kept |
| AppState.Store.constructor | src/App.tsx:56-57 | the shared lists start as the seed lists |
| AppState.UpdateById | src/components/PipelineBoard.tsx:35-39 | the copy has the same length; items with the id are replaced by the update and all other items are kept |
| PipelineBoard.Moved | src/components/PipelineBoard.tsx:37 | a moved card has the new status, a zero stage clock and the new update time; all other fields are kept, and it is not stuck |
| PipelineBoard.MoveByIdSpec | src/components/PipelineBoard.tsx:35-39 | a move keeps the length, the order and the ids; only the cards with the id change, and they keep their publish date and metrics |
| PipelineBoard.MoveIdempotent | src/components/PipelineBoard.tsx:44-50 | moving the same card to the same stage twice equals moving it once |
| PipelineBoard.MoveTargetColumn | src/components/PipelineBoard.tsx:14-15 | the target column grows by exactly the moved cards that were in other stages |
| PipelineBoard.MoveOtherColumn | src/components/PipelineBoard.tsx:14-15 | every other column shrinks by exactly the moved cards it held |
| PipelineBoard.ColumnsCoverContent | src/components/PipelineBoard.tsx:12-15 | the five columns together hold every card once |
| PipelineBoard.StuckCountSpec | src/components/PipelineBoard.tsx:64 | the column badge counts exactly that stage's stuck cards, is at most the column size, and is 0 on Published |
| PipelineBoard.QuickMoveOptions | src/components/PipelineBoard.tsx:157 | the menu offers the four other stages, in board order |
| PipelineBoard.Board.DragStart | src/components/PipelineBoard.tsx:22-25 | the picked-up card is remembered as it was |
| PipelineBoard.Board.Drop | src/components/PipelineBoard.tsx:32-42 | the remembered card moves unless its remembered status already is the target; the drag is then forgotten in every case |
| PipelineBoard.Board.MoveToStatus | src/components/PipelineBoard.tsx:44-50 | an unguarded move: even a move to the card's own stage resets its clock |
| PipelineBoard.Board.QuickMove | src/components/PipelineBoard.tsx:145-153 | the placeholder choice does nothing; any offered stage differs from the column and moves the card |
| ContentDatabase.TeamMemberName | src/components/ContentDatabase.tsx:46-49 | the roster name for a known id, "Unassigned" for an unknown one |
| ContentDatabase.WithAnalysis | src/components/ContentDatabase.tsx:68 | only the two AI fields change |
| ContentDatabase.AttachAnalysisSpec | src/components/ContentDatabase.tsx:66-70 | length, order and other items are kept; the item with the id gets the AI fields and keeps its status, stage clock and metrics |
| ContentDatabase.AttachAnalysisUndo | src/components/ContentDatabase.tsx:66-70 | clearing the AI fields again restores the list when they were empty before |
| ContentDatabase.Database.HandleAnalyze | src/components/ContentDatabase.tsx:52-84 | on success the analysis goes on the list and the selection and the results show; on failure the list is untouched; the busy flag is off in both cases |
| AddContentModal.ValidIff | src/components/AddContentModal.tsx:25-31 | no error entries exactly when title and description each hold a non-whitespace character |
| AddContentModal.NewItem | src/components/AddContentModal.tsx:37-51 | the new item is an idea with zero metrics, a zero stage clock, no publish date, no AI fields and both dates set to now |
| AddContentModal.NewItemColumns | src/components/AddContentModal.tsx:53 | prepending the new item puts it at the head of the Ideation column, changes no other column, and the item is not stuck |
| AddContentModal.Modal.constructor | src/components/AddContentModal.tsx:15-21 | the form opens as "", "", LinkedIn, tm1 with no errors |
| AddContentModal.Modal.Validate | src/components/AddContentModal.tsx:25-31 | the recorded errors are those of the form, and the result is true exactly when it is accepted |
| AddContentModal.Modal.HandleSubmit | src/components/AddContentModal.tsx:33-59 | a valid form prepends its item, resets the form, clears the errors and closes the dialog; an invalid one changes only the errors |
| CreatorIntake.IntakeValidIff | src/components/CreatorIntake.tsx:46-58 | validation succeeds exactly when no error entry was produced |
| CreatorIntake.IntakeAcceptedIff | src/components/CreatorIntake.tsx:48-54 | accepted exactly when name, follower count and description each hold a non-whitespace character, the email is email-shaped, a platform is chosen and a goal is selected |
| CreatorIntake.EmailUnanchored | src/components/CreatorIntake.tsx:50 | any text around an accepted address is accepted too |
| CreatorIntake.EmailNeeds | src/components/CreatorIntake.tsx:50 | an accepted address contains '@' and '.' and is not blank |
| CreatorIntake.EmailExamples | src/components/CreatorIntake.tsx:50 | a roster address passes, and a space before the '@' fails |
| CreatorIntake.GoalsToggled | src/components/CreatorIntake.tsx:107-113 | membership of the goal flips and other goals keep theirs; an absent goal is appended; a present one is removed as a real sublist |
| CreatorIntake.ToggleTwice | src/components/CreatorIntake.tsx:107-113 | toggling twice restores membership, and restores the list exactly for an absent goal |
| CreatorIntake.ToggleKeepsDistinct | src/components/CreatorIntake.tsx:107-113 | a duplicate-free goal list stays duplicate-free |
| CreatorIntake.NewCreator | src/components/CreatorIntake.tsx:77-85 | the profile copies the form, takes the four AI fields from the result, and is dated now |
| CreatorIntake.Intake.constructor | src/components/CreatorIntake.tsx:21-33 | an empty form, no errors, not busy, nothing shown |
| CreatorIntake.Intake.Validate | src/components/CreatorIntake.tsx:46-58 | the recorded errors are those of the form, and the result is true exactly when it is accepted |
| CreatorIntake.Intake.ToggleGoal | src/components/CreatorIntake.tsx:107-115 | the goal list is toggled and the goals error entry becomes the empty message |
| CreatorIntake.Intake.HandleSubmit | src/components/CreatorIntake.tsx:60-105 | an invalid form only records errors and never classifies; a failed classification leaves the creator list; on success a classified profile carrying every form field is prepended and shown, and the form is reset; after an accepted form the errors are empty |
| CreatorIntake.ClassifyForm | src/components/CreatorIntake.tsx:67-85 | the new profile carries all six form fields, the new id and the submission time, and the engine's classification of the form |
| CreatorIntake.Intake.AddClassified | src/components/CreatorIntake.tsx:67-99 | the classified profile, with all six form fields, the new id and the submission time, heads the creator list and is shown; the form is emptied; the content list is untouched |
| TeamView.WorkloadPlusPublished | src/components/TeamView.tsx:11-17 | a member's active and published figures add up to all items assigned to them |
| TeamView.ActivePlusPublished | src/components/TeamView.tsx:51-60 | the Active Tasks and Published Content totals add up to the length of the list |
| TeamView.MemberWithinTotals | src/components/TeamView.tsx:11-17 | no member's figure exceeds the matching team total |
| TeamView.EngagementSpec | src/components/TeamView.tsx:19-23 | engagement adds up over concatenated lists, includes each of the member's published items in full, and is 0 with nothing published |
| TeamView.EngagementIgnoresActive | src/components/TeamView.tsx:19-23 | an unpublished item adds to the workload and never to the engagement |
| OnboardingTour.KeyAction | src/components/OnboardingTour.tsx:130-136 | ArrowRight and Enter mean next, ArrowLeft means back, Escape means skip, and no other key means anything |
| OnboardingTour.KeySpec | src/components/OnboardingTour.tsx:128-137 | keys are ignored while the tour is closed; otherwise they dispatch to the matching button |
| OnboardingTour.NextSpec | src/components/OnboardingTour.tsx:100-110 | away from the last step, Next followed by its timer advances by exactly one; on the last step it closes the tour and does not advance |
| OnboardingTour.PrevSpec | src/components/OnboardingTour.tsx:112-120 | Back does nothing on the first step; elsewhere, followed by its timer, it goes back exactly one |
| OnboardingTour.ValidPreserved | src/components/OnboardingTour.tsx:100-124 | with the bounded updater, every action keeps the step among the ten steps |
| OnboardingTour.FireAgreesWhenSettled | src/components/OnboardingTour.tsx:104-108 | without overlapping presses, the updater as written and the bounded one agree |
| OnboardingTour.DoubleNextOverflows | src/components/OnboardingTour.tsx:100-110 | two fast Next presses on step 9 of 10 leave the step past the end as written, and on the last step with the bound |
| OnboardingTour.DoublePrevUnderflows | src/components/OnboardingTour.tsx:112-120 | two fast Back presses on step 2 leave the step at -1 as written, and at 0 with the bound |
| OnboardingTour.DotDuringFade | src/components/OnboardingTour.tsx:220 | a dot pressed while a Next is queued can push the step past the end as written |
| OnboardingTour.RestartAfterFinish | src/App.tsx:82-84 | re-opening the tour after finishing it shows the last step again |
| OnboardingTour.ClampStep | src/components/OnboardingTour.tsx:106 | the bounded step lies in range and equals the unbounded one when that is in range |
| OnboardingTour.Tour.constructor | src/components/OnboardingTour.tsx:92-93 | the tour starts on the first step, not fading, nothing queued |
| OnboardingTour.Tour.HandleNext | src/components/OnboardingTour.tsx:100-110 | the state becomes `Next` of the old state |
| OnboardingTour.Tour.HandlePrev | src/components/OnboardingTour.tsx:112-120 | the state becomes `Prev` of the old state |
| OnboardingTour.Tour.HandleSkip | src/components/OnboardingTour.tsx:122-124 | the tour closes and nothing else changes |
| OnboardingTour.Tour.ClickDot | src/components/OnboardingTour.tsx:220 | the step jumps to the dot's index |
| OnboardingTour.Tour.StartTour | src/App.tsx:82-84 | the tour opens without resetting the step |
| OnboardingTour.Tour.TimerFired | src/components/OnboardingTour.tsx:104-108 | the oldest queued change is applied, bounded (see Findings), and the fade ends |
| OnboardingTour.Tour.HandleKeyDown | src/components/OnboardingTour.tsx:127-141 | the state becomes `Key` of the old state |
| KeyboardShortcuts.CtrlOrMeta | src/hooks/useKeyboardShortcuts.tsx:16 | a shortcut without Ctrl never fires while Ctrl or Meta is held; one with Ctrl needs either, and the two are interchangeable |
| KeyboardShortcuts.ShiftAltExact | src/hooks/useKeyboardShortcuts.tsx:17-18 | a match has Shift and Alt exactly as the shortcut says |
| KeyboardShortcuts.CaseInsensitive | src/hooks/useKeyboardShortcuts.tsx:19 | matching does not depend on the ASCII case of either key |
| KeyboardShortcuts.CapitalKey | src/hooks/useKeyboardShortcuts.tsx:16-19 | Meta+"K" fires a Ctrl+"k" shortcut; Ctrl+"k" does not fire a plain "k" one |
| KeyboardShortcuts.HandleKeyDown | src/hooks/useKeyboardShortcuts.tsx:14-26 | exactly the matching shortcuts fire, in list order, and the default is suppressed once per match |
| KeyboardShortcuts.IncreasingUnique | src/hooks/useKeyboardShortcuts.tsx:15-25 | an in-order list of fired shortcuts is determined by which ones fire |
| Header.TimeAgoSpec | src/components/Header.tsx:39-46 | under a day gives "Today", one day gives "Yesterday", otherwise whole days rounded down; a future date gives a negative count |
| Header.WithoutNotificationSpec | src/components/Header.tsx:48-50 | dismissing removes every entry with the id, keeps the rest in order, shrinks the list by their number, and a second dismissal changes nothing |
| Header.BadgeSpec | src/components/Header.tsx:90-102 | the badge and "Clear All" show exactly when the list is non-empty; the badge shows the length, which drops by the dismissed count |
| Header.NotificationPanel.constructor | src/components/Header.tsx:14-15 | the panel starts closed, holding the activity log |
| Header.NotificationPanel.Toggle | src/components/Header.tsx:86 | the bell toggles the dropdown |
| Header.NotificationPanel.ClickOutside | src/components/Header.tsx:19-27 | a press outside the dropdown closes it |
| Header.NotificationPanel.ClearNotification | src/components/Header.tsx:48-50 | the list becomes the list without that id |
| Header.NotificationPanel.ClearAll | src/components/Header.tsx:52-54 | the list becomes empty |

## Findings

| source | as written | input that shows it | evidently intended | confidence | as-written member | corrected member |
|---|---|---|---|---|---|---|
| src/components/OnboardingTour.tsx:100-120 | Next and Back test the rendered step for last/first, then add or subtract one after 150 ms. Nothing stops a second press during the fade. | On step 9 of 10, press Enter twice within 150 ms. Both presses see "not last", the step becomes 10, and no step exists there, so reading its icon fails. Back twice on step 2 gives -1. | The step stays among the ten steps, as the Back button's disabled state and the Next/Get Started label assume. | not executed | OnboardingTour.DoubleNextOverflows | OnboardingTour.ValidPreserved |
| src/utils/mockAI.ts:112 | The count keeps only the digits of the text, so a K suffix is dropped. | "15K", which the intake form's placeholder offers as an example, counts 15 followers and gives "Building Foundation"; "15000" gives "Scaling & Monetizing". | A final K means thousands, as the placeholder "e.g., 15000 or 15K" promises. | not executed | MockAI.FollowerCountSuffix | MockAI.ScaledFollowerCountSpec |

The corrected updater bounds the step to the tour (`OnboardingTour.Fire`,
`OnboardingTour.ClampStep`), and the `Tour` class uses it.
`OnboardingTour.FireAsWritten` is the unbounded updater. The same race
through a step dot is `OnboardingTour.DotDuringFade`, and on Back it is
`OnboardingTour.DoublePrevUnderflows`.

The corrected follower count is `MockAI.ScaledFollowerCount`: a final K or k
multiplies the digits by a thousand, and `MockAI.DetermineStageScaled` is the
stage it gives. The creator classification keeps the stage the code computes,
`MockAI.DetermineStage` on the digits-only count, because that is the value
the program returns and shows. Decimal counts such as "1.5K" are beyond the
correction: their digits are still read as one number.

## Left out

- Simulated latency. The `delay` awaits and the 150 ms tour timer have no duration in the model; the tour keeps only the order in which the timers fire.
- Randomness. `Math.random` in the summary pick and in `generateId` is replaced by parameters.
- The clock and locale formatting. `new Date()` is a `now` parameter. `formatShortDate` is a function parameter of the CSV model, because its output depends on locale.
- Floating point. This covers `formatNumber`, the non-zero branch of the engagement rate, Dashboard averages, Analytics bar widths and pie angles, the team workload bars, and the tour's progress bar.
- Browser wiring. This covers:
  - the CSV download through a Blob;
  - `localStorage` for the theme and the tour flag (the tour's initial visibility is a constructor parameter);
  - event-listener registration;
  - `preventDefault` on drag-over;
  - `dataTransfer` effects.
- Pure rendering. This covers SystemDocs, Sidebar, the Dashboard and Analytics markup, and the badge and colour lookup tables.
- The creator-profile and activity-log seeds. They are constant data that no operation reads; the notification panel takes its initial list as a parameter.
- The in-progress analysis message and percentage (`analysisProgress` component state). The progress sequences themselves are returned and proved in `MockAI`.
- `KeyboardShortcutsHelp`. It is the help dialog in the shortcut hook's file, and no view mounts it.
- Dead code. This covers the unused locals of `extractTopics` (`words`) and `generateTitleVariations` (`mainConcept`), the unused `name` parameter of the classifier, and the unreachable default of the stage switch.
- Stability of the high-performer sort. The model's insertion sort keeps ties in list order, but only the ordering by reach and the permutation are claimed.
- Text.Lower: folds ASCII letters only. JavaScript's `toLowerCase` also folds other letters, such as the Kelvin sign.
- KeyboardShortcuts.HandleKeyDown: returns the positions of the shortcuts whose actions run. What each action then does belongs to its caller.
- OnboardingTour.Tour.TimerFired: uses the bounded updater; the unbounded one is `OnboardingTour.FireAsWritten`, kept for the finding above.
- ContentDatabase.Database.HandleAnalyze: discards the analysis's progress reports and topics, as the view does.
- Aging of the stage clock. No code advances `daysInStage`, so it is only seeded or reset to 0.
