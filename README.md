# nutriapp — a Dafny model of the nutrition-state core

nutriapp is a single-page nutrition tracker. A user first fills in a three-step
onboarding form: body data, then activity level and diet, then health conditions.
From that form a goal calculator derives daily targets for calories, protein,
carbohydrates and fat. The user then logs meals for the current day by letting a
generative-AI service read a description, a photo or a voice note. The add button
opens the meal dialog without a meal being edited (scr/App.tsx:184), and in that
case the dialog shows only the AI form (components/MealModal.tsx:152). The form with
the five numbers appears only when an existing meal is being edited
(components/MealModal.tsx:208-209), so typing the numbers adjusts a logged meal and
never adds a new one. The dashboard shows today's totals against the targets. The
history view shows a bar chart of the seven latest logged date keys, which need not
be seven consecutive calendar days. It also shows the last ten logged days as a list
of achievements.

This project models the parts of that behaviour that decide what the user sees
and stores:

- the data model (`Types`);
- the goal calculator (`Calculations`);
- the application-state updaters of the root component (`App`);
- the dashboard's totals and remaining calories (`Dashboard`);
- the history chart, the achievement list and the day labels (`History`);
- the progress-bar fill (`ProgressBar`);
- the numeric-field rules shared by the forms, on input and on display (`Forms`);
- the onboarding form (`Onboarding`): pure functions plus a class `OnboardingForm`
  whose `step` and `formData` the handlers update;
- the meal dialog (`MealModal`): a class `MealModalState` with one field per state
  hook, plus the rules for the AI submit button and the AI request;
- the local half of the AI service (`Gemini`): assembling the ordered request
  parts, stripping data-URL headers, the recipe prompt, and the fallbacks for an
  empty answer or a thrown error.

The `logs` record (`Record<string, DailyLog>`) is modelled as a list of
`LogEntry(key, log)` in property order. Writing a key with object spread keeps an
existing key in place and appends a new key at the end (`App.Put`). Numbers are
exact `real`s. `Math.round` is `Floor(x + 0.5)`. Every operation that reads the
clock, the random generator, storage or the network receives that value as a
parameter instead.

Points where the code does something other than one might expect. The model
follows the code in each case:

- Protein and fat calories are not bounded by the calorie target. For some
  extreme but accepted body data the protein target alone exceeds it, and
  carbohydrates are clamped to zero (`Calculations.ProteinCanExceedCalorieTarget`).
- The onboarding form offers no goal selector, and it offers only four of the
  five activity levels. The root component renders the form only while there is
  no profile, and it passes that absent profile as the initial one. So the form
  always starts from its defaults: `MAINTAIN`, `MODERATE`, diet "Ninguna".
- Blank AI text does not enable the submit button. If a photo or a recording
  enables it, the blank text is still sent untrimmed
  (`MealModal.BlankTextIsSentWithMedia`).
- Editing a meal writes today's log entry even when today had no log
  (`App.EditMeal`). Removing a meal leaves the state untouched in that case
  (`App.RemoveMeal`).
- The chart sorts days by date key. The achievement list uses the record's own
  property order, newest insertion first.

## Model

| member | source | states |
|---|---|---|
| Types.DataOf | scr/types.ts:36-44 | the five nutritional fields of a stored meal are copied unchanged |
| Types.NewMeal | scr/App.tsx:72-76 | a new meal carries exactly the submitted five fields plus the given id and timestamp |
| Types.WithData | scr/App.tsx:66 | `{ ...m, ...mealData }` replaces the five fields and keeps the id and timestamp |
| Types.ActivityMultipliersIncrease | scr/types.ts:7-13 | the activity multipliers strictly increase in declaration order and are pairwise distinct |
| Types.EnumerationsAreClosed | scr/types.ts:2-19 | gender has two values and goal has three; the gender strings differ |
| Types.MealIsDataPlusIdentity | scr/types.ts:36-44 | a meal is exactly its five fields plus its id and timestamp |
| Calculations.Round | scr/utils/calculations.ts:41 | `Math.round` returns the integer within half a unit, with halves going up |
| Calculations.Max | scr/utils/calculations.ts:50 | `Math.max` of two integers is one of them and at least both |
| Calculations.Bmr | scr/utils/calculations.ts:24-29 | the basal rate is the body-data part 10 w + 6.25 h − 5 a shifted by a sex term between −161 and +5 |
| Calculations.BmrResponds | scr/utils/calculations.ts:24-29 | each kilogram adds 10 kcal, each centimetre 6.25 kcal, each year takes 5 kcal, and a man's rate is 166 kcal above a woman's with the same data |
| Calculations.AdjustedTdee | scr/utils/calculations.ts:31-38 | expenditure is BMR × activity multiplier, minus 500 kcal to lose, plus 300 kcal to gain, unchanged to maintain |
| Calculations.CalorieTarget | scr/utils/calculations.ts:41 | the target is never below 1200 nor below the rounded expenditure, and is one of the two |
| Calculations.CalculateGoals | scr/utils/calculations.ts:4-64 | inputs are echoed; incomplete body data gives all-zero targets; otherwise calories ≥ 1200, protein ≥ 0, carbs ≥ 0 and fat > 0 |
| Calculations.RoundMonotone | scr/utils/calculations.ts:41 | rounding preserves order |
| Calculations.CaloriesFollowAdjustedTdee | scr/utils/calculations.ts:23-41 | the calorie target is Mifflin-St Jeor BMR × activity multiplier + goal adjustment, rounded, or 1200 when that falls below the floor |
| Calculations.CaloriesOrderedByGoal | scr/utils/calculations.ts:34-41 | for the same body data, the LOSE target ≤ the MAINTAIN target ≤ the GAIN target |
| Calculations.ProteinFollowsWeight | scr/utils/calculations.ts:44-45 | protein is weight × 1.8 when maintaining and weight × 2.0 otherwise, to the nearest gram |
| Calculations.FatIsQuarterOfCalories | scr/utils/calculations.ts:46 | 9 × fat is a quarter of the calorie target, within 4.5 kcal |
| Calculations.CarbsFillTheRemainder | scr/utils/calculations.ts:48-50 | positive carbs make 4P + 9F + 4C equal the target within 2 kcal; zero carbs only when 4P + 9F > target − 2 |
| Calculations.ProteinCanExceedCalorieTarget | scr/utils/calculations.ts:44-50 | a concrete accepted input whose protein and fat calories exceed the calorie target, with carbs clamped to 0 |
| Calculations.WorkedExample | scr/utils/calculations.ts:4-64 | a man of 30 y, 175 cm, 70 kg, moderate activity, maintaining, gets 2556 kcal, 126 g protein, 353 g carbs and 71 g fat |
| App.Keys | scr/App.tsx:62-63 | the record's keys in property order |
| App.Find | scr/App.tsx:56 | a key lookup finds a value exactly when the key is present, and the value is the one stored under it |
| App.Replace | scr/App.tsx:62-68 | overwriting an existing key keeps every key in place and changes no other key's value |
| App.FindAppend | scr/App.tsx:79-85 | a lookup after appending a new entry finds the old value for old keys and the new value for the new key |
| App.KeysAppend | scr/App.tsx:79-85 | appending an entry appends its key to the key list |
| App.AppendNewKey | scr/App.tsx:79-85 | appending under a new key makes that key find the new log and leaves every other lookup unchanged |
| App.Put | scr/App.tsx:79-85 | after `{ ...logs, [key]: log }` the key holds `log` and other keys are unchanged; a new key goes last, an existing key stays in place |
| App.PutKeepsWellFormed | scr/App.tsx:79-85 | writing a log whose date is its key keeps keys unique and each log's date equal to its key |
| App.InitialState | scr/App.tsx:16-31 | a parsed saved state is used as is; otherwise there is no profile, no logs, streak 0 and no recipes |
| App.TodayLog | scr/App.tsx:56 | today's log is the stored one, or an empty log dated today |
| App.ReplaceRecipes | scr/App.tsx:43 | the recipe list is replaced wholesale and nothing else changes |
| App.SetProfile | scr/App.tsx:47 | the profile is set and logs, streak and recipes are unchanged |
| App.ClearProfile | scr/App.tsx:204 | the profile is cleared and logs, streak and recipes are unchanged |
| App.EditMeals | scr/App.tsx:66 | every meal with the edited id gets the new fields, every other meal is kept, and the length is unchanged |
| App.RemoveMeals | scr/App.tsx:103 | filtering never lengthens the list |
| App.RemoveMealsMembers | scr/App.tsx:103 | the filter keeps exactly the meals whose id differs; if no meal has that id, the list is unchanged |
| App.RemoveMealsConcat | scr/App.tsx:103 | filtering distributes over concatenation, so the surviving meals keep their order |
| App.AddMeal | scr/App.tsx:70-86 | today's log gains the new meal at the end; other days, profile, streak and recipes are unchanged; today's key is appended if new |
| App.EditMeal | scr/App.tsx:58-69 | today's meals are edited by id; other days are unchanged; today's entry is written even when absent |
| App.SaveMeal | scr/App.tsx:52-90 | editing keeps today's meal count, and adding raises it by one |
| App.RemoveMeal | scr/App.tsx:92-108 | no log today leaves the state identical; otherwise the id is filtered out of today's meals and nothing else changes |
| App.EditKeepsIdentities | scr/App.tsx:66 | editing keeps the number of meals and every meal's id and timestamp |
| App.EditUnknownIdIsNoOp | scr/App.tsx:66 | editing an id that is not logged today leaves today's meals unchanged |
| App.AddThenRemoveRestores | scr/App.tsx:52-108 | adding a meal with a fresh id and removing it restores today's meals, and restores the whole state when today already had a log |
| App.ReplaceTwice | scr/App.tsx:62-68 | overwriting an existing key twice equals overwriting it once with the second value |
| App.ReplaceAppended | scr/App.tsx:79-85 | overwriting a key that was just appended changes only that last entry |
| App.PutTwice | scr/App.tsx:62-68 | a second write to the same key overrides the first |
| App.PutFoundIsIdentity | scr/App.tsx:97-105 | writing back the value a key holds leaves the record unchanged |
| App.TransitionsKeepWellFormed | scr/App.tsx:52-108 | add, edit and remove keep the record's keys unique and each day's date equal to its key |
| App.ReplaceKeepsMealIdsUnique | scr/App.tsx:62-67 | overwriting an existing day keeps meal ids unique when its new meals clash with no other day |
| App.AppendKeepsMealIdsUnique | scr/App.tsx:79-84 | appending a new day keeps meal ids unique when its meals clash with no other day |
| App.PutKeepsMealIdsUnique | scr/App.tsx:52-108 | writing a day whose meal ids are unique and shared with no other day keeps meal ids unique across the record |
| App.AddMealKeepsMealIdsUnique | scr/App.tsx:70-78 | adding a meal under an id that no meal of the record carries keeps meal ids unique across the record |
| App.AppendFreshMealKeepsIds | scr/App.tsx:72-83 | a meal under an id no meal uses keeps the day's ids unique and apart from the other days |
| App.EditMealsKeepsIds | scr/App.tsx:66 | editing keeps each id at its position, so unique ids stay unique and ids apart from another day stay apart |
| App.EditMealKeepsMealIdsUnique | scr/App.tsx:58-69 | editing a meal keeps meal ids unique across the record |
| App.RemoveMealsIds | scr/App.tsx:103 | no meal left by the filter carries the removed id, nor an id that no meal had before |
| App.RemoveAbsentIdIsIdentity | scr/App.tsx:103 | filtering out an id no meal carries changes nothing |
| App.RemoveMealsKeepsIdsUnique | scr/App.tsx:103 | filtering a day's meals keeps their ids unique |
| App.RemoveUniqueIdDropsOne | scr/App.tsx:103 | with unique ids, removing the id of one of the day's meals removes exactly that meal |
| App.RemoveMealKeepsMealIdsUnique | scr/App.tsx:92-108 | removing a meal keeps meal ids unique across the record |
| Dashboard.SumTotals | components/Dashboard.tsx:22-30 | no meals give all-zero totals; meals without negative numbers give no negative total |
| Dashboard.TotalsOfAppend | components/Dashboard.tsx:22-30 | the totals of meals + [m] are the old totals plus m's four numbers |
| Dashboard.TotalsOfConcat | components/Dashboard.tsx:22-30 | the totals of two concatenated lists are the sum of their totals |
| Dashboard.TotalsAreFieldSums | components/Dashboard.tsx:22-30 | each total is the plain sum of that field over the meals, and no meals give all zeros |
| Dashboard.RemainingCalories | components/Dashboard.tsx:32 | the remainder is never negative; it is zero exactly when consumption reaches the target, and otherwise remainder + consumption = target |
| Dashboard.AddingMealRaisesTotals | components/Dashboard.tsx:22-30 | logging a meal raises today's totals by exactly that meal's numbers |
| History.LexLe | components/History.tsx:16 | a prefix comes no later than any extension of it, and a string never comes before its own proper prefix |
| History.LexLeAtFirstDifference | components/History.tsx:16 | otherwise the first differing character decides the order of two keys |
| History.LexLeTotal | components/History.tsx:16 | any two date keys are comparable |
| History.LexLeTransitive | components/History.tsx:16 | the key order is transitive |
| History.LexLeAntisymmetric | components/History.tsx:16 | keys that compare both ways are equal |
| History.Insert | components/History.tsx:16 | inserting adds exactly that entry (as a multiset) |
| History.InsertedAllFollow | components/History.tsx:16 | an entry no later than everything in a list and than the inserted entry is no later than anything after the insertion |
| History.InsertKeepsSorted | components/History.tsx:16 | inserting into a date-sorted list keeps it sorted |
| History.SortByDate | components/History.tsx:15-16 | the sorted entries are a permutation of the record's entries, in ascending key order |
| History.SuffixHoldsLatest | components/History.tsx:17 | in a sorted list, every entry outside a suffix comes no later than every entry inside it |
| History.SameMultisetSameMembers | components/History.tsx:15-16 | reordering keeps the same entries |
| History.WeekSelection | components/History.tsx:15-17 | the chart shows min(7, n) entries of the record, ascending, none more often than it occurs in the record, and no left-out day is later than a shown one |
| History.DayCalories | components/History.tsx:21 | a day without meals has 0 calories; meals without negative calories give no negative sum |
| History.DayCaloriesIsDashboardTotal | components/History.tsx:21 | a day's calories in the history equal the dashboard's calorie total for that day |
| History.ChartData | components/History.tsx:15-22 | one bar per selected day, ascending by date, each carrying exactly that entry's key and its calorie sum |
| History.OverTarget | components/History.tsx:57 | a bar is red when its calories exceed the target, which under a non-negative target needs positive calories |
| History.Reverse | components/History.tsx:67 | reversal maps position i to position n−1−i |
| History.Achievements | components/History.tsx:67 | the list holds the last min(10, n) record entries, newest first |
| History.IsSuccess | components/History.tsx:69 | a day succeeds exactly when it has positive calories and is not over the target |
| History.DayLabel | components/History.tsx:82 | "Cumplido" iff 0 < calories ≤ target; "Sin Datos" iff calories = 0; "Excedido" otherwise |
| History.LabelAgreesWithColour | components/History.tsx:69-82 | a bar over the target is always labelled "Excedido"; a "Cumplido" day is never over it; negative calories are "Excedido" although under the target |
| ProgressBar.SafeMax | components/ui/ProgressBar.tsx:13 | the divisor is positive: the maximum when positive, otherwise 1 |
| ProgressBar.Percentage | components/ui/ProgressBar.tsx:13-14 | the fill is at most 100, is exactly 100 once current reaches the divisor, is current / divisor × 100 below it (the divisor being max, or 1 when max is not positive), and is never negative for non-negative progress |
| ProgressBar.PercentageMonotone | components/ui/ProgressBar.tsx:13-14 | more progress never shows a shorter bar |
| Forms.NumericField | components/Onboarding.tsx:123 | an emptied numeric input stores 0; any other text stores its parsed number |
| Forms.DisplayText | components/Onboarding.tsx:121 | a field shows empty exactly for a stored 0 (or an empty numeral), and otherwise shows the value's numeral |
| Forms.DisplayedTextStoresTheValue | components/Onboarding.tsx:121-123 | for every stored value, entering the text the field shows stores that value again |
| Forms.StoredTextDisplaysAs | components/Onboarding.tsx:121-123 | emptied text and any text that parses to 0 display as an empty field; other text displays as its number's numeral |
| Onboarding.InitialFormData | components/Onboarding.tsx:15-24 | no initial profile gives the defaults (MALE, 0, 0, 0, MODERATE, MAINTAIN, "Ninguna", no conditions); a profile is copied, with an empty diet falling back to "Ninguna" |
| Onboarding.IsStep1Valid | components/Onboarding.tsx:30 | step 1 is valid exactly when the calculator's body-data guard passes |
| Onboarding.Without | components/Onboarding.tsx:38 | filtering never lengthens the list |
| Onboarding.WithoutMembers | components/Onboarding.tsx:38 | filtering removes every copy of the label, keeps every other label, and changes nothing when the label is absent |
| Onboarding.WithoutConcat | components/Onboarding.tsx:38 | filtering distributes over concatenation |
| Onboarding.WithoutCommutes | components/Onboarding.tsx:38-42 | filtering out two labels gives the same list in either order |
| Onboarding.ToggleCondition | components/Onboarding.tsx:32-46 | the sentinel replaces everything; another label removes the sentinel and flips its own membership, a newly selected label going once at the end; so the sentinel is either alone or absent |
| Onboarding.ToggleKeepsOthersInOrder | components/Onboarding.tsx:37-45 | toggling a label leaves the other ordinary labels in the same order |
| Onboarding.ToggleTwiceRestores | components/Onboarding.tsx:32-46 | toggling an absent label twice restores a list that has no sentinel |
| Onboarding.SubmittedProfile | components/Onboarding.tsx:52-61 | a profile is emitted iff step 1 is valid; it carries the calculator's targets (≥ 1200 kcal) and the form's fields |
| Onboarding.OnboardingForm.constructor | components/Onboarding.tsx:14-24 | the form starts on step 1 with the initial form data |
| Onboarding.OnboardingForm.NextStep | components/Onboarding.tsx:26 | advances one step, reachable from step 1 only with valid body data |
| Onboarding.OnboardingForm.PrevStep | components/Onboarding.tsx:27 | goes back one step, keeping the form data |
| Onboarding.OnboardingForm.SelectGender | components/Onboarding.tsx:113-114 | sets the gender only |
| Onboarding.OnboardingForm.ChangeAge | components/Onboarding.tsx:123 | sets the age by the numeric-field rule |
| Onboarding.OnboardingForm.ChangeHeight | components/Onboarding.tsx:135 | sets the height by the numeric-field rule |
| Onboarding.OnboardingForm.ChangeWeight | components/Onboarding.tsx:146 | sets the weight by the numeric-field rule |
| Onboarding.OnboardingForm.SelectActivityLevel | components/Onboarding.tsx:171-172 | sets one of the four offered activity levels |
| Onboarding.OnboardingForm.SelectDiet | components/Onboarding.tsx:181-182 | sets one of the offered diets |
| Onboarding.OnboardingForm.ToggleHealthCondition | components/Onboarding.tsx:201-205 | applies the toggle to the conditions only |
| Onboarding.OnboardingForm.Submit | components/Onboarding.tsx:52-61 | emits the submitted profile; invalid data emits nothing and returns to step 1 |
| Gemini.CommaIndex | scr/services/geminiService.ts:20 | the first comma's position, or the length when there is none |
| Gemini.StripDataUrlPrefix | scr/services/geminiService.ts:20 | text without a comma is kept; otherwise the result is comma-free and shorter |
| Gemini.StripGivesPayload | scr/services/geminiService.ts:20 | `header,payload` (possibly followed by `,…`) yields exactly the payload |
| Gemini.AssembleRequest | scr/services/geminiService.ts:17-33 | one part per given input, in order text, image, audio, with fixed MIME types and stripped payloads, and the instruction last |
| Gemini.MealFromResponse | scr/services/geminiService.ts:51-57 | a meal is returned iff the call answered with non-empty text that parsed; errors and empty answers give nothing |
| Gemini.RecipesFromResponse | scr/services/geminiService.ts:95-101 | every failure gives the empty list; success gives the parsed list |
| Gemini.Join | scr/services/geminiService.ts:63 | joining no labels gives "" and joining one gives that label |
| Gemini.JoinAppend | scr/services/geminiService.ts:63 | one more label appends the separator and that label |
| Gemini.RecipePrompt | scr/services/geminiService.ts:63 | the prompt starts with the fixed head, the diet label and the goal's name, ends with ". JSON ARRAY.", and just before that lists the health conditions joined with ", ", with nothing else in between |
| Gemini.PromptListsConditions | scr/services/geminiService.ts:63 | each further health condition adds ", " and its label to the prompt's condition list |
| MealModal.TrimStart | components/MealModal.tsx:198 | drops exactly the leading white space |
| MealModal.TrimEnd | components/MealModal.tsx:198 | drops exactly the trailing white space |
| MealModal.Trim | components/MealModal.tsx:198 | trimmed text is empty iff the text is blank; otherwise it neither starts nor ends with white space |
| MealModal.SubmitDisabled | components/MealModal.tsx:198 | disabled iff loading, or the text is blank and there is neither image nor audio |
| MealModal.OrUndefined | components/MealModal.tsx:123-124 | only a non-empty value is passed on |
| MealModal.AiRequest | components/MealModal.tsx:121-125 | the text is sent untrimmed iff it is non-empty; image and audio only when non-empty; the inputs counted accordingly |
| MealModal.EnabledSubmitSendsInput | components/MealModal.tsx:118-125 | whenever the button can be pressed, the request carries at least one input |
| MealModal.BlankTextIsSentWithMedia | components/MealModal.tsx:121-125 | blank text alone disables the button, but with a photo the same blank text is sent |
| MealModal.WithAmount | components/MealModal.tsx:221 | exactly one numeric field of the manual meal is replaced |
| MealModal.MealModalState.constructor | components/MealModal.tsx:15-28 | the dialog starts reset, with no ads watched |
| MealModal.MealModalState.ResetStates | components/MealModal.tsx:52-58 | clears text, media, recording, loading and the manual meal, and keeps the ad counter |
| MealModal.MealModalState.PrefillFromEditing | components/MealModal.tsx:40-50 | a meal being edited fills the manual form with its five fields; nothing else changes |
| MealModal.MealModalState.ChangeAiInput | components/MealModal.tsx:157 | the AI text becomes what was typed |
| MealModal.MealModalState.ImageLoaded | components/MealModal.tsx:74 | the captured image becomes the loaded data URL |
| MealModal.MealModalState.StartRecording | components/MealModal.tsx:79-100 | recording is flagged only when the microphone opened |
| MealModal.MealModalState.StopRecording | components/MealModal.tsx:102-107 | the recording flag ends up clear |
| MealModal.MealModalState.AudioLoaded | components/MealModal.tsx:88-92 | the captured audio becomes the recording's data URL |
| MealModal.MealModalState.BeginWatchAd | components/MealModal.tsx:109-110 | loading starts |
| MealModal.MealModalState.FinishWatchAd | components/MealModal.tsx:111-115 | loading ends and the ad counter rises by one |
| MealModal.MealModalState.BeginMagicAdd | components/MealModal.tsx:118-125 | loading starts and the request is built from the current inputs |
| MealModal.MealModalState.CompleteMagicAdd | components/MealModal.tsx:126-138 | a result is saved and the dialog resets and closes; no result keeps every input and ends loading |
| MealModal.MealModalState.ChangeManualName | components/MealModal.tsx:212 | sets the manual meal's name only |
| MealModal.MealModalState.ChangeManualAmount | components/MealModal.tsx:218-257 | sets one numeric field by the numeric-field rule |
| MealModal.MealModalState.ManualSubmit | components/MealModal.tsx:209 | saves the manual meal as entered, then resets and reports the dialog closed |

## Left out

- Persistence: reading and writing local storage and the JSON (de)serialisation. `App.InitialState` receives the parsed saved state, or nothing when storage was empty or unparsable.
- The AI client, the model name, the response schemas and `JSON.parse`. The outcome of a call arrives as a `Gemini.Response` value. An absent response text is represented as the empty text, which the service treats the same way.
- Gemini.MealFromResponse: does not check the shape of the parsed value. A parsed value that JavaScript would treat as falsy (0, "", null) counts as no result, and the model abstracts that as a missing parse.
- Which request a given meal is analysed from, and the order in which asynchronous completions interleave. `BeginMagicAdd` and `CompleteMagicAdd` are two separate steps.
- Date and randomness: `getTodayKey`, `Date.now()` and `Math.random()` are parameters. The random meal id is what keeps meal ids unique across the record (`App.MealIdsUnique`); the model asks for that freshness as a precondition of `App.AddMealKeepsMealIdsUnique` instead of deriving it from the generator. `getFormattedDate` and the chart's short `date` label are not part of this model, because they depend on locale formatting.
- `localeCompare` is modelled as plain lexicographic order of characters. For ISO date keys the two orders agree.
- Media capture: the file picker, `FileReader`, `MediaRecorder` and microphone permissions. Their results arrive as data URLs or flags.
- MealModal.MealModalState: does not model which of the two forms the editing meal selects. `ManualSubmit` and `BeginMagicAdd` can be called in every state, although the dialog offers the manual form only while a meal is being edited and the AI form only otherwise.
- Alerts, focus handlers that select the input's text, the two-second ad timer itself, and the view, modal-open and editing-meal flags of the root component. They change no modelled data.
- Rendering: JSX, icons, recharts and the recipe list view.
- The streak. No code in the core computes it; it is only stored and displayed.
- IEEE-754 arithmetic. The model computes exactly, so rounding at exact halves may differ from a binary double in rare cases.
- `String.prototype.trim` is modelled over the white-space and line-terminator characters of ECMAScript. Characters outside the basic plane are not treated specially.
