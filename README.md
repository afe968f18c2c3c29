# Meal-planner component rules in Dafny

This project models the deterministic rules of the meal-planning front end
and of its small profile server, and proves properties of them:

- note classification, sharing and the draggable button of the notes panel;
- the star and stitch recipe pickers;
- the pantry list: its filter, its expiry-aware sort, the expiring set and the tab counts;
- the step-by-step "partner mode" and its share text;
- the shopping list;
- the three wizards (onboarding, week plan and new recipe);
- the week calendar and the planning tab's view state;
- the server's management-token cache and the profile metadata it stores.

Time (`Date.now()`), generated ids and the window size become parameters.
So do the answers of the identity provider.

Components that keep state (`useState`) are classes. Their handlers are
methods whose `ensures` give the whole new state in terms of `old(...)`.
A handler that asks the parent to change its data, or shows a toast,
returns the request and the toast's text. Display-only flags are left out,
as "## Left out" lists.
Derived lists and the rules they use are functions with named results, and
lemmas relate them. Partner-mode step generation pushes onto an array in a
loop, so it is a method with a loop. The token cache reassigns module
variables, so it is a class.

Files:

- `wrappers.dfy`: `Option`.
- `text.dfy`: `trim`, `toLowerCase`, `includes`, `split`, `join`, integer printing and `parseInt`.
- `lists.dfy`: `filter` and the add-or-remove toggle.
- `arith.dfy`: `Math.ceil` of a quotient.
- `types.dfy`: the records of `src/types/index.ts`.
- One file per component, and `server.dfy`.

## Model

| member | source | states |
|---|---|---|
| Text.Trim | src/components/NotesPanel.tsx:108 | `trim` is empty exactly for an all-whitespace string; otherwise it is the slice from the first to the last non-whitespace character, so it starts and ends with non-whitespace |
| Text.TrimIdempotent | src/components/Onboarding.tsx:79 | trimming a trimmed string changes nothing |
| Text.Lower | src/components/NotesPanel.tsx:120 | lower-casing keeps the length, maps every character, and leaves no ASCII capital |
| Text.Split | src/components/WeekPlanWorkflow.tsx:204 | `split` yields at least one piece and no piece contains the separator |
| Text.JoinSplit | src/components/WeekPlanWorkflow.tsx:201-204 | joining the pieces of a split with the separator gives the text back |
| Text.SplitJoin | src/components/WeekPlanWorkflow.tsx:201-204 | splitting a join of separator-free parts gives the parts back |
| Text.ParseInt | src/components/NewRecipeWorkflow.tsx:104 | `parseInt` is NaN exactly when no digit follows the leading whitespace and the sign |
| Text.ParseIntToString | src/components/NewRecipeWorkflow.tsx:104 | a printed integer parses back to itself |
| Text.DigitsOfNat | src/components/RecipeDetailView.tsx:44-46 | the printed digits of a number have that number as their value |
| Text.NatToString | src/components/RecipeDetailView.tsx:44-46 | a printed number is made of digits only and has no leading zero |
| Lists.Filter | src/components/NotesPanel.tsx:205 | `filter` keeps exactly the elements satisfying the predicate |
| Lists.FilterConcat | src/components/ShopView.tsx:42 | filtering distributes over concatenation, so the kept elements stay in order |
| Lists.FilterPartition | src/components/ShopView.tsx:45-46 | filtering with a predicate and with its negation together yields every element exactly as often as the list holds it |
| Lists.RemoveAll | src/components/WeekPlanWorkflow.tsx:64-69 | after removal the value is absent and every other value occurs exactly as often as before |
| Lists.FilterCount | src/components/WeekPlanWorkflow.tsx:64-69 | a value the filter keeps occurs in the result exactly as often as in the list |
| Lists.RemoveAllConcat | src/components/WeekPlanWorkflow.tsx:64-69 | removal keeps the other entries' order: it distributes over concatenation, and removes a lone occurrence entirely |
| Lists.Toggle | src/components/Onboarding.tsx:56-62 | toggling flips the value's membership, keeps every other value's membership, and appends an absent value at the end |
| Lists.ToggleTwiceAbsent | src/components/Onboarding.tsx:56-62 | toggling an absent value twice restores the list exactly |
| Lists.ToggleNoDups | src/components/SelectRecipeMode.tsx:26-32 | toggling keeps a duplicate-free list duplicate-free |
| Arith.CeilDiv | src/components/RecipeDetailView.tsx:47 | `Math.ceil(a / n)` for positive `n` is the least `r` with `a <= r * n` |
| NotesPanel.AnyIncluded | src/components/NotesPanel.tsx:121 | the chain of `includes` tests is true exactly when some keyword occurs in the text |
| NotesPanel.InferNoteType | src/components/NotesPanel.tsx:119-125 | the guess is "shopping" iff a shopping word occurs in the lower-cased content; otherwise it is "recipe" iff a cooking word occurs; otherwise it is "general" |
| NotesPanel.ForgetIsRedundant | src/components/NotesPanel.tsx:121 | the keyword "forget" never changes the guess, because it contains "get" |
| NotesPanel.NewNote | src/components/NotesPanel.tsx:113-138 | a selected type is used as is, and the guess is used only without one; the note carries the current recipe id exactly when it is a recipe note; author is "current-user"/"You" and both timestamps are `now` |
| NotesPanel.NoteIconsDistinct | src/components/NotesPanel.tsx:146-155 | each note type has its own icon |
| NotesPanel.NameOfEmail | src/components/NotesPanel.tsx:195 | the name is the prefix of the address before its first '@', or the whole address when it has none |
| NotesPanel.ClampToViewport | src/components/NotesPanel.tsx:86-87 | the clamped coordinate is never negative, at most `viewport - 64` when the window is that wide, and equal to the input when it already fits |
| NotesPanel.NotesPanel.constructor | src/components/NotesPanel.tsx:28-73 | the three seed notes, the partner as the only person, no draft, and the button at 100 px from the window's corner |
| NotesPanel.NotesPanel.SetNoteContent | src/components/NotesPanel.tsx:273 | the draft changes and every other field of the panel is unchanged |
| NotesPanel.NotesPanel.ClickTypeButton | src/components/NotesPanel.tsx:283-299 | a type button selects its type, or deselects it when it is already selected and every other field of the panel is unchanged |
| NotesPanel.NotesPanel.ClearType | src/components/NotesPanel.tsx:307 | "let AI decide" clears the selected type and every other field of the panel is unchanged |
| NotesPanel.NotesPanel.AddNote | src/components/NotesPanel.tsx:107-144 | blank content is refused and changes nothing; otherwise exactly one new note goes in front of the unchanged old ones, the draft and the type are reset, and every other field is unchanged |
| NotesPanel.NotesPanel.SetPersonEmail | src/components/NotesPanel.tsx:401 | the address field changes and every other field of the panel is unchanged |
| NotesPanel.NotesPanel.AddPerson | src/components/NotesPanel.tsx:181-202 | a blank address and an address without '@' are refused and change nothing; otherwise the person named after the address is appended and the field cleared; every other field is unchanged |
| NotesPanel.NotesPanel.RemovePerson | src/components/NotesPanel.tsx:204-207 | every entry with the id is removed, the others keep their order, every other field of the panel is unchanged |
| NotesPanel.NotesPanel.MouseDown | src/components/NotesPanel.tsx:76-82 | dragging starts with the grab offset recorded and every other field of the panel is unchanged |
| NotesPanel.NotesPanel.MouseMove | src/components/NotesPanel.tsx:84-90 | while dragging, the button moves to the clamped pointer position and never goes negative; otherwise it stays put; every other field is unchanged |
| NotesPanel.NotesPanel.MouseUp | src/components/NotesPanel.tsx:92-94 | dragging stops and every other field of the panel is unchanged |
| NotesPanel.NotesPanel.ClickButton | src/components/NotesPanel.tsx:215-219 | a click opens the sheet unless a drag is in progress and every other field of the panel is unchanged |
| NotesPanel.NotesPanel.SetOpen | src/components/NotesPanel.tsx:238-258 | the sheet's open-change callback and its close button set exactly whether the sheet is open; every other field of the panel is unchanged |
| NotesPanel.NotesPanel.SetShareDialog | src/components/NotesPanel.tsx:249-357 | the "Share" button and the dialog's open-change callback set exactly whether the share dialog is open; every other field of the panel is unchanged |
| SelectRecipeMode.MaxSelection | src/components/SelectRecipeMode.tsx:19-20 | the cap is at least one (1 for star, 4 for stitch) |
| SelectRecipeMode.ToggleSelection | src/components/SelectRecipeMode.tsx:22-34 | star mode: the selection becomes exactly `[id]`, even on a re-click. Stitch mode: a selected id is removed; an unselected one is appended below the cap and ignored at the cap |
| SelectRecipeMode.ToggleKeepsValid | src/components/SelectRecipeMode.tsx:17-34 | every click keeps the selection duplicate-free and within the cap |
| SelectRecipeMode.StitchClickTwice | src/components/SelectRecipeMode.tsx:26-31 | in stitch mode, a second click on an added card undoes the first |
| SelectRecipeMode.Chosen | src/components/SelectRecipeMode.tsx:36-39 | nothing can be handed on while nothing is selected; otherwise the recipes handed on are exactly those whose id is selected |
| SelectRecipeMode.ChosenKeepsListOrder | src/components/SelectRecipeMode.tsx:36-39 | the recipes are handed on in the recipe list's order, not the selection order: choosing distributes over concatenation of the list, and a single recipe is chosen exactly when its id is selected |
| SelectRecipeMode.SelectRecipeMode.constructor | src/components/SelectRecipeMode.tsx:17 | the selection starts empty, which is valid |
| SelectRecipeMode.SelectRecipeMode.ToggleRecipe | src/components/SelectRecipeMode.tsx:22-34 | the selection follows `ToggleSelection` and stays valid |
| SelectRecipeMode.SelectRecipeMode.Continue | src/components/SelectRecipeMode.tsx:36-39 | Continue hands on `Chosen`, and every recipe handed on is selected |
| PantryView.DaysUntilExpiration | src/components/PantryView.tsx:61-65 | there is no value exactly when there is no expiry date; otherwise the value is the ceiling of the remaining milliseconds over one day |
| PantryView.FilteredItems | src/components/PantryView.tsx:68-71 | 'all' returns the list unchanged; a location returns exactly the items stored there |
| PantryView.FilteredItemsConcat | src/components/PantryView.tsx:68-71 | the filter keeps the items' order |
| PantryView.CountAt | src/components/PantryView.tsx:150-152 | a location's count is the length of the list that location's tab shows |
| PantryView.CountAtAppend | src/components/PantryView.tsx:150-152 | one more item raises the count of its own location by one and leaves the other counts alone |
| PantryView.CountsAddUp | src/components/PantryView.tsx:145-152 | the three location counts add up to the 'all' count |
| PantryView.ExpiringItems | src/components/PantryView.tsx:96-100 | the expiring set is exactly the dated items outside the freezer that expire within three days, the expired ones included |
| PantryView.CompareAsWritten | src/components/PantryView.tsx:74-93 | between two dated perishables the comparator returns the difference in days; a dated perishable precedes an undated one; every other pair is ordered newest first |
| PantryView.CompareAsWrittenCycle | src/components/PantryView.tsx:74-93 | the comparator as written is not transitive: three concrete items form a cycle |
| PantryView.KeyOf | src/components/PantryView.tsx:74-93 | the intended sort key: dated perishables come first, by days left; all other items follow, newest first |
| PantryView.BeforeTotalPreorder | src/components/PantryView.tsx:74-93 | the corrected order is total and transitive |
| PantryView.BeforeAgreesWithComparator | src/components/PantryView.tsx:79-92 | wherever the written comparator is consistent, the corrected order agrees with its sign |
| PantryView.FreezerPairOrder | src/components/PantryView.tsx:74-93 | on a dated perishable and a freezer item the comparator is consistent but orders by date added, while the corrected order always puts the perishable first |
| PantryView.SortedItems | src/components/PantryView.tsx:74-93 | the sorted copy is ordered and is a permutation of its input; ties keep their input order (`SortedItemsStable`) |
| PantryView.DisplayedItems | src/components/PantryView.tsx:68-93 | the rendered list is sorted and is a permutation of the filtered items |
| PantryView.InsertWithKey | src/components/PantryView.tsx:74-93 | inserting an item puts it in front of every item already there with the same sort key, and keeps their order |
| PantryView.SortedItemsStable | src/components/PantryView.tsx:74-93 | the sort is stable: for every sort key, the items with that key appear in the same order as in the input, as with the stable `Array.prototype.sort` |
| PantryView.PantryView.constructor | src/components/PantryView.tsx:43-46 | the 'all' tab, both dialogs closed, no item marked for deletion |
| PantryView.PantryView.SelectFilter | src/components/PantryView.tsx:160 | a filter tab sets the filter; the dialogs and the marked item are unchanged |
| PantryView.PantryView.MoveStorage | src/components/PantryView.tsx:102-106 | asks the parent to move exactly this item to exactly this location, and the toast reads "Moved <name> to <location label>"; the view's state is untouched |
| PantryView.PantryView.DeleteClick | src/components/PantryView.tsx:108-111 | the item is marked and the delete dialog opens; the filter and the other dialog are unchanged |
| PantryView.PantryView.SetDeleteDialogOpen | src/components/PantryView.tsx:311 | the delete dialog's open-change callback sets exactly whether it is open; the marked item stays |
| PantryView.PantryView.ConfirmDelete | src/components/PantryView.tsx:113-120 | a delete request and the toast "Deleted <name>" come out exactly when an item is marked; then the mark is cleared and the dialog closes. Without a mark nothing changes |
| PantryView.PantryView.ClearExpiring | src/components/PantryView.tsx:122-124 | the clear-expiring dialog opens and nothing else changes |
| PantryView.PantryView.SetClearExpiringDialogOpen | src/components/PantryView.tsx:329 | the clear-expiring dialog's open-change callback sets exactly whether it is open |
| PantryView.PantryView.ConfirmClearExpiring | src/components/PantryView.tsx:126-130 | the toast counts the expiring items as the view computes them, "Cleared <n> expiring items", and the dialog closes; the filter and the delete dialog are unchanged |
| RecipeDetailView.GenerateSteps | src/components/RecipeDetailView.tsx:23-66 | for n instructions: n + 2 steps; first the prep step (number 1, 5 min); instruction i becomes step i + 2 with duration ⌈cookTime / n⌉; last the serving step numbered n + 2; numbers run 1..n + 2 |
| RecipeDetailView.JoinContainsPart | src/components/RecipeDetailView.tsx:31 | every part of a joined list occurs in the joined text |
| Text.JoinSnoc | src/components/RecipeDetailView.tsx:72-74 | joining one more part appends the separator and that part |
| RecipeDetailView.IngredientPreview | src/components/RecipeDetailView.tsx:31 | up to five ingredients are all joined with ", "; past five, only the first five are joined and "..." follows |
| RecipeDetailView.PreviewCutAfterFive | src/components/RecipeDetailView.tsx:31 | past five ingredients the rest does not affect the preview |
| RecipeDetailView.PreviewNamesIngredients | src/components/RecipeDetailView.tsx:31 | the prep description names each of the first five ingredients |
| RecipeDetailView.DurationsCoverCookTime | src/components/RecipeDetailView.tsx:47 | the instruction durations add up to at least the cooking time, and rounding adds less than a minute per step |
| RecipeDetailView.RenderStep | src/components/RecipeDetailView.tsx:71-73 | a step's text starts with "<number>. <title>\n<description>"; when there are tips, the tip lines ("\n💡 " before each tip) follow the heading directly and every tip occurs in the text; a set, non-zero duration ends the text with "\n⏱️ ~<minutes> min"; the exact text is given for each of the four tips/duration combinations |
| RecipeDetailView.ShareText | src/components/RecipeDetailView.tsx:72-74 | the share text starts with the recipe name and a blank line; for one step it is exactly that step's text |
| RecipeDetailView.ShareTextSnoc | src/components/RecipeDetailView.tsx:72-74 | the steps are shared in order separated by blank lines: one more step appends a blank line and its text |
| RecipeDetailView.ShareTextHasEveryStep | src/components/RecipeDetailView.tsx:72-74 | every step's text appears in the share text |
| ShopView.TogglePurchasedIn | src/components/ShopView.tsx:18-24 | exactly the items with the id have their purchased flag flipped; all others are unchanged |
| ShopView.TogglePurchasedTwice | src/components/ShopView.tsx:18-24 | ticking twice restores the list |
| ShopView.TogglePurchasedCommutes | src/components/ShopView.tsx:18-24 | ticking two items gives the same list in either order |
| ShopView.Unpurchased | src/components/ShopView.tsx:45 | the items to buy are exactly the unpurchased items |
| ShopView.Purchased | src/components/ShopView.tsx:46 | the bought list is exactly the purchased items |
| ShopView.PurchasedPartition | src/components/ShopView.tsx:45-46 | the two lists are disjoint and together hold every item once |
| ShopView.PurchasedKeepsListOrder | src/components/ShopView.tsx:45-46 | both lists keep the shopping list's order: each distributes over concatenation, and a single item goes to exactly the list its flag picks |
| ShopView.ShopView.constructor | src/components/ShopView.tsx:10-16 | the four seed items and an empty text box |
| ShopView.ShopView.SetNewItem | src/components/ShopView.tsx:69 | the text box changes and the list does not |
| ShopView.ShopView.TogglePurchased | src/components/ShopView.tsx:18-24 | the list becomes `TogglePurchasedIn` of the old list |
| ShopView.ShopView.AddItem | src/components/ShopView.tsx:26-39 | blank text does nothing; otherwise one unbought item (raw text, quantity 1, unit "item") is appended and the box cleared |
| ShopView.ShopView.RemoveItem | src/components/ShopView.tsx:41-43 | exactly the items with the id go; the rest keep their order |
| Onboarding.WeightFromInput | src/components/Onboarding.tsx:213 | `parseInt(text) \|\| undefined`: the weight is the parsed number unless that is NaN or 0 |
| Onboarding.WeightRoundTrip | src/components/Onboarding.tsx:213 | a typed non-zero whole number is kept as is |
| Onboarding.CompletedProfile | src/components/Onboarding.tsx:76-91 | the profile is complete, with layout breakfast-lunch-dinner, prep time 30 and no cooking days; the favourites are the trimmed text, or none when it is blank; activity defaults to moderate; all other fields are copied |
| Onboarding.Onboarding.constructor | src/components/Onboarding.tsx:18-28 | step 1, empty favourites text, the initial profile draft |
| Onboarding.Onboarding.ToggleGoal | src/components/Onboarding.tsx:51-54 | the goals become `[goalId]` |
| Onboarding.Onboarding.SelectActivity | src/components/Onboarding.tsx:191 | the activity level is set and nothing else changes |
| Onboarding.Onboarding.SetBodyWeight | src/components/Onboarding.tsx:213 | the weight becomes `WeightFromInput(text)` |
| Onboarding.Onboarding.SetFavoritesText | src/components/Onboarding.tsx:236 | the favourites text changes and nothing else does |
| Onboarding.Onboarding.ToggleStore | src/components/Onboarding.tsx:277-280 | the stores are toggled with `toggleItem` |
| Onboarding.Onboarding.Back | src/components/Onboarding.tsx:294-298 | the step becomes max(1, step − 1) and stays in 1..3 |
| Onboarding.Onboarding.Next | src/components/Onboarding.tsx:72-101 | nothing happens unless `canProceed`; before step 3 the step advances; at step 3 the completed profile is handed on and the step stays; the step stays in 1..3 |
| WeekPlanWorkflow.CleanPieces | src/components/WeekPlanWorkflow.tsx:204 | trim-then-drop-empty yields no more pieces than it gets, each non-empty and without whitespace at either end |
| WeekPlanWorkflow.TrimSubset | src/components/WeekPlanWorkflow.tsx:204 | trimming adds no character |
| WeekPlanWorkflow.CleanPiecesNoComma | src/components/WeekPlanWorkflow.tsx:204 | pieces without commas stay without commas |
| WeekPlanWorkflow.ParseAvoidList | src/components/WeekPlanWorkflow.tsx:204 | no entry of the avoid list is empty, contains ',' or has whitespace at either end |
| WeekPlanWorkflow.TrimLeadingSpace | src/components/WeekPlanWorkflow.tsx:204 | a leading space makes no difference to `trim` |
| WeekPlanWorkflow.CleanSplitJoin | src/components/WeekPlanWorkflow.tsx:199-205 | splitting on ',' and cleaning the ", "-joined list of clean entries gives the list back |
| WeekPlanWorkflow.ParseAvoidText | src/components/WeekPlanWorkflow.tsx:199-205 | re-parsing the ', '-joined text of a parsed list gives the list back |
| WeekPlanWorkflow.ParseAvoidIdempotent | src/components/WeekPlanWorkflow.tsx:199-205 | parsing is idempotent |
| WeekPlanWorkflow.TypedSeparatorVanishes | src/components/WeekPlanWorkflow.tsx:201-204 | with the textarea showing the parsed list, a typed ',' or ' ' after "a" is gone on the next render |
| WeekPlanWorkflow.WeekPlanWorkflow.constructor | src/components/WeekPlanWorkflow.tsx:19-30 | step 1; the must-use ingredients are the pantry prop and the anchors are the anchor prop; cooking days Mon, Wed and Fri; an empty avoid text whose parse is the empty avoid list |
| WeekPlanWorkflow.WeekPlanWorkflow.Next | src/components/WeekPlanWorkflow.tsx:40-46 | before step 3 the step advances; at step 3 the preferences are handed on and the step stays; the step stays in 1..3 |
| WeekPlanWorkflow.WeekPlanWorkflow.Back | src/components/WeekPlanWorkflow.tsx:48-50 | one step back, never below 1 |
| WeekPlanWorkflow.WeekPlanWorkflow.SetVibe | src/components/WeekPlanWorkflow.tsx:52-54 | only the vibe changes |
| WeekPlanWorkflow.WeekPlanWorkflow.AddMustUse | src/components/WeekPlanWorkflow.tsx:56-62 | whitespace-only input is ignored; anything else is appended untrimmed, duplicates allowed |
| WeekPlanWorkflow.WeekPlanWorkflow.RemoveMustUse | src/components/WeekPlanWorkflow.tsx:64-69 | every equal entry goes; no other preference changes |
| WeekPlanWorkflow.WeekPlanWorkflow.ToggleCookingDay | src/components/WeekPlanWorkflow.tsx:71-79 | the day is removed if present and appended otherwise |
| WeekPlanWorkflow.WeekPlanWorkflow.SetAvoidText | src/components/WeekPlanWorkflow.tsx:199-205 | the field keeps the text exactly as typed, and the avoid list becomes its parse, every entry clean |
| WeekPlanWorkflow.WeekPlanWorkflow.SetCookingDays | src/components/WeekPlanWorkflow.tsx:221 | only the number of meals changes |
| WeekPlanWorkflow.WeekPlanWorkflow.SetTimePerDay | src/components/WeekPlanWorkflow.tsx:251-254 | only the time per meal changes |
| NewRecipeWorkflow.TimeFromInput | src/components/NewRecipeWorkflow.tsx:104 | unreadable minutes give 0; otherwise the parsed number |
| NewRecipeWorkflow.TimeFromPrintedNumber | src/components/NewRecipeWorkflow.tsx:104 | a typed whole number is read back as itself |
| NewRecipeWorkflow.NewRecipeWorkflow.constructor | src/components/NewRecipeWorkflow.tsx:17-25 | step 1; 30 minutes, diet ["Vegetarian"], no flavours |
| NewRecipeWorkflow.NewRecipeWorkflow.Next | src/components/NewRecipeWorkflow.tsx:48-54 | before step 4 the step advances; at step 4 the preferences are handed on and the step stays; the step stays in 1..4 |
| NewRecipeWorkflow.NewRecipeWorkflow.Back | src/components/NewRecipeWorkflow.tsx:56-58 | one step back, never below 1 |
| NewRecipeWorkflow.NewRecipeWorkflow.ToggleFlavor | src/components/NewRecipeWorkflow.tsx:30-37 | the flavour's membership flips and no other field changes |
| NewRecipeWorkflow.NewRecipeWorkflow.ToggleDiet | src/components/NewRecipeWorkflow.tsx:39-46 | the diet's membership flips and no other field changes |
| NewRecipeWorkflow.NewRecipeWorkflow.SetTimeFromInput | src/components/NewRecipeWorkflow.tsx:104 | the time becomes `parseInt(text) \|\| 0` |
| NewRecipeWorkflow.NewRecipeWorkflow.SetTimeFromSlider | src/components/NewRecipeWorkflow.tsx:110-116 | the time becomes the slider value |
| NewRecipeWorkflow.NewRecipeWorkflow.SetQuickMealPercent | src/components/NewRecipeWorkflow.tsx:164-169 | the ratio becomes percent / 100, between 0 and 1 |
| WeekPlanView.RecipeById | src/components/WeekPlanView.tsx:18 | none exactly when no recipe has the id; otherwise the first recipe with it |
| WeekPlanView.MealsForDay | src/components/WeekPlanView.tsx:20-25 | a day lists no more meals than the plan has |
| WeekPlanView.MealsForDayExact | src/components/WeekPlanView.tsx:20-25 | a day lists exactly the plan's meals for that day whose recipe resolves, each paired with that recipe |
| WeekPlanView.MealsForDayConcat | src/components/WeekPlanView.tsx:20-25 | the grouping keeps the plan's order |
| WeekPlanView.Calendar | src/components/WeekPlanView.tsx:69-80 | seven columns, Monday to Sunday; a column says "Leftover day" exactly when none of its meals can be shown |
| WeekPlanView.NoMealsShown | src/components/WeekPlanView.tsx:78-79 | a day's list is empty exactly when none of the plan's meals is shown on it |
| WeekPlanView.CalendarShowsOnlyResolvableMeals | src/components/WeekPlanView.tsx:20-25 | every meal on the calendar is a meal of the plan whose recipe exists |
| WeekPlanView.OffCalendarMealsHidden | src/components/WeekPlanView.tsx:15 | a meal planned for a day outside the seven appears nowhere |
| PlanView.SliceTo | src/components/PlanView.tsx:41 | `slice(0, end)` clamps the end and counts a negative end from the back |
| PlanView.WeekRecipes | src/components/PlanView.tsx:37-42 | with no anchors, the demo recipes; otherwise the anchors followed by `slice(0, 7 − k)` of them |
| PlanView.WeekRecipesShape | src/components/PlanView.tsx:37-42 | with up to seven anchors, the week starts with the anchors in order, then demo recipes in order, and has at most seven recipes |
| PlanView.ToggleFavoriteIn | src/components/PlanView.tsx:80-86 | only recipes with the id change, and only in `isFavorite`, which becomes the negation of its truthiness |
| PlanView.ToggleFavoriteTwice | src/components/PlanView.tsx:80-86 | toggling twice restores every recipe except an unset flag, which becomes an explicit false |
| PlanView.HistoryRecipes | src/components/PlanView.tsx:234-236 | a past week shows exactly the favourites used by one of its meals |
| PlanView.HistoryKeepsFavoritesOrder | src/components/PlanView.tsx:234-236 | a past week's recipes keep the favourites' order: the selection distributes over concatenation, and a single favourite is shown exactly when a meal uses it |
| PlanView.ScreenFor | src/components/PlanView.tsx:116-153 | the pickers show for the two select modes (star for 'select-star'); the wizard for 'workflow'; the calendar exactly for 'week-plan' with a plan |
| PlanView.PlanView.CurrentScreen | src/components/PlanView.tsx:143 | in 'week-plan' the current plan's calendar is shown |
| PlanView.PlanView.constructor | src/components/PlanView.tsx:22-29 | 'empty' mode, no plan, no anchors, the given favourites and history |
| PlanView.PlanView.GenerateWeek | src/components/PlanView.tsx:34-61 | the week's recipes are `WeekRecipes(anchors)`; the demo plan becomes current; the mode becomes 'week-plan'; favourites, anchors and the dialog flag are unchanged |
| PlanView.PlanView.Regenerate | src/components/PlanView.tsx:63-66 | the wizard, with the anchors cleared and every other field is unchanged |
| PlanView.PlanView.StartFresh | src/components/PlanView.tsx:170-173 | the wizard, with the anchors cleared and every other field is unchanged |
| PlanView.PlanView.AddToWeek | src/components/PlanView.tsx:88-92 | the wizard, with the anchors exactly `[recipe]` and every other field is unchanged |
| PlanView.PlanView.SelectRecipes | src/components/PlanView.tsx:102-105 | the wizard, with the anchors exactly the picked recipes and every other field is unchanged |
| PlanView.PlanView.StartPicker | src/components/PlanView.tsx:94-100 | the star or the stitch picker and every other field is unchanged |
| PlanView.PlanView.LeavePicker | src/components/PlanView.tsx:124 | the pickers' back button returns to 'empty' and every other field is unchanged |
| PlanView.PlanView.OpenWorkflow | src/components/PlanView.tsx:148 | the wizard, with the anchors kept and every other field is unchanged |
| PlanView.PlanView.CancelWorkflow | src/components/PlanView.tsx:133-136 | 'week-plan' when a plan exists and 'empty' otherwise; the anchors are cleared; the plan, the week's recipes, the favourites and the dialog flag are unchanged |
| PlanView.PlanView.AddFavoriteRecipe | src/components/PlanView.tsx:74-78 | exactly one recipe, marked favourite, is appended and every other field is unchanged |
| PlanView.PlanView.ToggleFavorite | src/components/PlanView.tsx:80-86 | the favourites become `ToggleFavoriteIn` of the old ones and every other field is unchanged |
| PlanView.PlanView.SetShowAddRecipe | src/components/PlanView.tsx:181 | the dialog flag is set and every other field is unchanged |
| Server.BuildMetadata | server/server.js:78-85 | the stored metadata has exactly the keys `hasCompletedOnboarding` (true) and `profile`, an object |
| Server.MetadataProfile | server/server.js:78-85 | whatever the client sends, the stored `profile.userId` is the JWT subject and `profile.hasCompletedOnboarding` is true; an object profile keeps every other property unchanged |
| Server.ExpiryFrom | server/server.js:34 | the expiry is `now + expires_in·1000 − 300000`, or NaN when `expires_in` is missing |
| Server.FreshUntilFiveMinutesBefore | server/server.js:16-34 | a fetched token is reused exactly until five minutes before the provider's expiry |
| Server.Server.constructor | server/server.js:11-12 | no token, expiry 0 |
| Server.Server.GetManagementToken | server/server.js:15-36 | a fresh cached token is returned without fetching and the cache is unchanged; otherwise a failed fetch leaves the cache alone, and a received token and its expiry replace it |
| Server.Server.Post | server/server.js:68-100 | no truthy `profile` gives 400 with the error "Profile data is required", nothing sent and the cache untouched. Otherwise the update is sent exactly when a token is cached fresh or received; it goes to the subject, carries `BuildMetadata` and the fresh cached token or else the received one, and the cache changes as in `GetManagementToken`. 200 exactly when the update was sent and succeeded; every other failure gives 500 with the endpoint's error message |

## Left out

- I/O: the fetch calls, Express routing, CORS, JWT validation, toasts, the clipboard and `navigator.share`, and DOM listeners. The server takes the token endpoint's answer and the metadata update's outcome as parameters.
- The `details` field of the 500 replies: it is the text of a runtime error.
- Ids from `Date.now()`, the time, and the window size: they are parameters.
- Floating point: `estimateCalories`, progress percentages, and the quick/prep day split derived from `quickMealRatio`. The ratio itself is kept as a `real`.
- Onboarding: the weight-unit toggle and `handleUseLocation` only set display flags.
- PantryView: the parent's `onUpdateItem`, `onDeleteItem` and `onClearExpiring` callbacks are not part of this model. The handlers return the request they would pass (`StorageUpdate`, the deleted id) and the toast's text; `ConfirmClearExpiring` stands for the call to `onClearExpiring`, whose effect on the items is the parent's.
- PlanView: the favourites and the week history start from demo data, which the constructor takes as arguments.
- PlanView: the demo recipe list (PlanView.tsx:248) is copied into `MockRecipes`.
- WeekPlanWorkflow: `prepStyle` is never changed by the wizard, so there is no handler for it.
- Text.Lower: lower-cases ASCII letters only; other scripts are left unchanged.
- Text.ParseInt: decimal only; hexadecimal prefixes are not recognised. The number inputs cannot produce them.
- PantryView.SortedItems: sorts by the corrected order, not by the comparator as written. The two differ beyond the cycle in Findings: the comparator orders every dated perishable against a freezer item by date added, so every engine puts a freezer item added later first, while the corrected order always puts the dated perishable first (`PantryView.FreezerPairOrder`).
- WeekPlanWorkflow.WeekPlanWorkflow.SetAvoidText: keeps the typed text in its own field, as the corrected behaviour in Findings; the source shows the re-joined parsed list instead (`WeekPlanWorkflow.TypedSeparatorVanishes`).
- PlanView.WeekRecipesShape: assumes at most seven anchors, which is all the pickers allow. With more, the negative slice end is modelled by `SliceTo` but the shape lemma does not cover it.
- NewRecipeWorkflow.NewRecipeWorkflow.SetTimeFromSlider and NewRecipeWorkflow.NewRecipeWorkflow.SetQuickMealPercent: require the slider's range, because the slider cannot produce anything else.
- Server.Server.Post: a PATCH response that is ok but whose body is not JSON also throws and gives 500. That case is folded into the upstream outcome parameter.
- Server.Server.Post: the request body is taken as a parsed JSON object; a body that is not an object is not modelled.
- Server.Server.Post: each request is one atomic step with a single clock reading `now`. The source reads the clock again after the token fetch when it computes the expiry, and concurrent requests can interleave at each `await`, so two may both fetch a token and the last one to finish wins the cache.
- `src/services/api.ts`, the hooks, `App.tsx`, `main.tsx`, the auth components and the display-only views are not part of this model.
- The recipe-consolidation engine behind the generate endpoint is not part of this model.

## Findings

| source | as written | input that shows it | evidently intended | confidence | as-written member | corrected member |
|---|---|---|---|---|---|---|
| src/components/PantryView.tsx:74-93 | the sort comparator compares a freezer item with anything by date added, but two dated perishables by days left, so it is not transitive and `Array.prototype.sort` may order the list inconsistently | at `now = 0`: milk in the fridge, expiring on day 1, added at 1; eggs in the fridge, expiring on day 5, added at 3; peas in the freezer, undated, added at 2. Then milk < eggs, eggs < peas and peas < milk | dated perishables first, by days left, then every other item newest first: a total preorder | not executed | PantryView.CompareAsWrittenCycle | PantryView.BeforeTotalPreorder |
| src/components/WeekPlanWorkflow.tsx:201-204 | the avoid textarea is controlled by the parsed list: its value is the list joined with ", ", so every keystroke is parsed and re-rendered | type "a," or "a ": the list becomes ["a"] and the field shows "a" again, so a second entry or a two-word entry such as "olive oil" cannot be typed in order | the field keeps the text as typed and the list is parsed from it | not executed | WeekPlanWorkflow.TypedSeparatorVanishes | WeekPlanWorkflow.WeekPlanWorkflow.SetAvoidText |
