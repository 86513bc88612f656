# ChefMate, modelled in Dafny

ChefMate is a cooking assistant. It has a static web front-end with these pages:

- home page, which loads recipe cards lazily;
- search page, with a search history;
- favourites list;
- shopping basket;
- recipe detail page, with a portion counter and a transfer of ingredients to the basket;
- step-by-step cooking page, with swipe and voice navigation;
- profile editor;
- settings page.

A Python backend serves `/api/ask`. It cuts the microphone stream into utterances and keeps a short chat history for the language model. It also tracks the speech files it generates and deletes them.

This project models the logic of those parts as Dafny. The browser's `localStorage`, the DOM, the socket and the backend's dictionaries become:

- typed fields of classes, when the source updates them in place;
- datatypes and functions, when the source only computes.

The project proves what each part promises. Some examples:

- the search history holds at most ten entries, without duplicates;
- favourites stay sorted, newest first;
- the portion counter stays within 1..10;
- the utterance cutter follows its start/segment/end protocol;
- the audio bookkeeping never lists a file it has no time stamp for.

Anything the code reads from outside becomes a parameter of the operation instead of being read:

- clocks;
- random identifiers;
- `confirm`/`prompt` answers;
- the page geometry;
- the model's reply;
- the synthesised file's name;
- the voice detector's verdict.

Module layout, one file per module:

| file | module | models |
|---|---|---|
| base.dfy | Base | JSON values, JS/Python truthiness, `Option`, checkboxes, a generic filter |
| text.dfy | Text | string primitives: `toLowerCase`, `trim`/`strip`, `split`/`join`, `parseInt`, integer rendering, `padStart`, UTF-16 length |
| relative_time.dfy | RelativeTime | `formatTime` (search.js) and `getTimeAgo` (favorites.js) |
| home.dfy | Home | js/script.js: lazy recipe loading, scroll guard, bottom navigation |
| search.dfy | Search | js/search.js: recipe loading, quantity stripping, search, search history |
| favorites.dfy | Favorites | js/favorites.js |
| basket.dfy | ShoppingBasket | js/shopping-basket.js |
| recipe_detail.dfy | RecipeDetail | js/recipe-detail.js |
| cooking_steps.dfy | CookingSteps | js/recipe-cooking.js: recipe to step groups |
| cooking_navigation.dfy | CookingNavigation | js/recipe-cooking.js: sub-step navigation, completion record, voice commands, swipes |
| cooking_audio.dfy | CookingAudio | js/recipe-cooking.js: the voice socket's audio queue and silence timer |
| profile.dfy | EditProfile | js/edit-profile.js |
| settings.dfy | Settings | js/settings.js |
| csv_recipes.dfy | RecipeCsv | generate_recipes.py |
| audio_files.dfy | AudioFiles | backend/main.py `AudioFileManager` |
| segmentation.dfy | Segmentation | backend/main.py `_audio_processing_loop` |
| conversation.dfy | Conversation | backend/main.py `ConversationManager` and `/api/ask` |

## Model

| member | source | states |
|---|---|---|
| AudioFiles.WithoutFiles | backend/main.py:115-116 | discarding names from every session keeps every session, and each session's set loses just those names |
| AudioFiles.WithoutNothing | backend/main.py:115-116 | discarding no names leaves the sessions as they were |
| AudioFiles.WithoutTwice | backend/main.py:93-95 | discarding two batches in turn equals discarding their union, so deleting files one at a time agrees with deleting the set |
| AudioFiles.RemoveFromSessions | backend/main.py:115-116 | the loop over all sessions removes the file name from each set and from nowhere else |
| AudioFiles.AudioFileManager.constructor | backend/main.py:54-56 | the manager starts with no sessions and no time stamps, on the folder as it is |
| AudioFiles.AudioFileManager.SessionFiles | backend/main.py:143 | an unknown session has no files; a known one has its recorded set |
| AudioFiles.AudioFileManager.GetSessionFileCount | backend/main.py:141-143 | the count is the size of the session's set, 0 for an unknown session |
| AudioFiles.AudioFileManager.RegisterFile | backend/main.py:77-84 | the file joins its session's set (created when missing), gets the current time stamp, the folder is untouched, and every listed file still has a stamp |
| AudioFiles.AudioFileManager.DeleteFile | backend/main.py:102-122 | deletion succeeds exactly when the file is in the folder; then it leaves the folder, the stamps and every session, otherwise nothing changes |
| AudioFiles.AudioFileManager.DeleteFiles | backend/main.py:93-95 | deleting a batch in turn counts exactly the files that were present and removes just those from folder, stamps and sessions |
| AudioFiles.AudioFileManager.CleanupSession | backend/main.py:86-100 | an unknown session changes nothing; otherwise its present files are deleted everywhere and the session is forgotten |
| AudioFiles.AudioFileManager.Expired | backend/main.py:128-131 | a tracked file is expired exactly when it is older than `AUDIO_MAX_AGE` |
| AudioFiles.AudioFileManager.CleanupOldFiles | backend/main.py:124-139 | every expired file is removed from the folder, its stamp and its sessions; afterwards no file in the folder is tracked as older than the maximum age |
| Segmentation.ProcessFrame | backend/main.py:421-458 | one turn of the loop on its three variables agrees with the step function `Step`, events included |
| Segmentation.SegmentAudio | backend/main.py:414-458 | the loop over a stream ends in the state and with the events of the fold `Run` over that stream |
| Segmentation.Step | backend/main.py:421-458 | defined by its body; its meaning is proved by `StepKeepsInv`, `CloseRule` and `StepProtocol` |
| Segmentation.Run | backend/main.py:414-458 | defined by its body; its meaning is proved by `RunKeepsInv` and `RunFollowsProtocol` |
| Segmentation.StepKeepsInv | backend/main.py:428-456 | one turn keeps the loop invariant: nothing buffered before speech, the buffer starts with speech and ends with its current quiet run of at most `max_silence` frames |
| Segmentation.RunKeepsInv | backend/main.py:414-458 | the invariant holds after any stream |
| Segmentation.LeadingSilenceDropped | backend/main.py:436-440 | quiet frames before any speech are never buffered and emit nothing |
| Segmentation.CloseRule | backend/main.py:443-458 | an utterance closes only on a quiet frame that takes the quiet run past `max_silence` (31); the state resets, `speech_end` comes last, and the buffer, a speech frame first and the 32 quiet frames last, always holds more than `min_frames` (15) frames, so every close emits a segment and the length guard of line 446 never refuses one |
| Segmentation.ProtocolAppend | backend/main.py:430-458 | the event protocol of a concatenation is the protocol of the second part continued from the first |
| Segmentation.RunFollowsProtocol | backend/main.py:430-458 | every stream's events alternate `speech_start`, segments, `speech_end` correctly, and an utterance is open at the end exactly when speech is detected |
| Segmentation.StepProtocol | backend/main.py:430-458 | one turn's events follow the protocol from the current open/closed state to the next one |
| Conversation.Trimmed | backend/main.py:303-304 | a history longer than 10 keeps its last 8 messages; a shorter one is kept whole |
| Conversation.NextHistory | backend/main.py:300-319 | defined by its body; its meaning is proved by `HistoryBounded`, `HistoryKeepsNewest` and `HistoryHasNoSystemPrompt` |
| Conversation.HistoryBounded | backend/main.py:300-319 | a history of at most 11 messages stays at most 11 after a turn |
| Conversation.HistoryKeepsNewest | backend/main.py:300-319 | after a turn the history ends with the user's message and, when the model answered, the stripped answer; what remains before them is a suffix of the old history |
| Conversation.HistoryHasNoSystemPrompt | backend/main.py:305-307 | the system prompt is never stored in the history |
| Conversation.ConversationManager.constructor | backend/main.py:287-294 | a new manager has an empty history and the given system prompt |
| Conversation.ConversationManager.GetResponse | backend/main.py:296-327 | the request is the system prompt followed by the trimmed history; the answer is the stripped reply, or the apology when the call fails (then no reply is stored) |
| Conversation.FilterLeavesAllowed | backend/main.py:563-565 | every character left by the cleaning `re.sub` is in the white-listed class |
| Conversation.FilterIdempotent | backend/main.py:563-565 | cleaning an already cleaned answer changes nothing |
| Conversation.FilterOneChar | backend/main.py:563-565 | a single character survives exactly when it is in the class |
| Conversation.FilterAnswer | backend/main.py:563-565 | defined by its body; its meaning is proved by `FilterLeavesAllowed`, `FilterIdempotent` and `FilterOneChar` |
| Conversation.Ask | backend/main.py:541-590 | a body that is not an object is a 500; a 400 comes exactly when `userText` is falsy or a non-initial request lacks `systemContent`; an initial request answers its own text, others the model's stripped reply or the apology, always cleaned |
| Conversation.AskAudioUrl | backend/main.py:576-580 | an answered request carries an audio URL exactly when a speech file was produced, and the URL is `/audio/` followed by that file's name |
| Conversation.InitialIgnoresModel | backend/main.py:552-553 | an initial request's result does not depend on the model's reply |
| CookingSteps.StepText | js/recipe-cooking.js:53 | a string step shows itself; an object step shows its description, else its name, else "操作步骤", so only a string step can show empty text |
| CookingSteps.GroupSize | js/recipe-cooking.js:40 | the group size is 0 only for no steps, otherwise 1 to 3, and three groups cover up to nine steps |
| CookingSteps.StartIsProduct | js/recipe-cooking.js:42 | the loop's index after j groups is `j * k` |
| CookingSteps.StartMonotone | js/recipe-cooking.js:42 | later groups start later |
| CookingSteps.StartDiv | js/recipe-cooking.js:44 | `Math.floor(i / stepsPerGroup) + 1` recovers the group's number from its start index |
| CookingSteps.GroupAtIsGroupOf | js/recipe-cooking.js:42-61 | the step the loop pushes for a slice is that group of the conversion: its name, subtitle and one sub-step per flat step |
| CookingSteps.ConvertRecipeDataToSteps | js/recipe-cooking.js:32-65 | no data or no step array gives null; a `cookingSteps` array is returned as it is; otherwise the result is a grouping of the flat steps into consecutive slices of the group size |
| CookingSteps.Texts | js/recipe-cooking.js:53 | the texts are one per flat step, in order |
| CookingSteps.GroupLines | js/recipe-cooking.js:51-57 | the sub-steps of a group read back the texts of its slice |
| CookingSteps.GroupingKeepsTexts | js/recipe-cooking.js:42-61 | reading the sub-steps of all groups in order gives back every flat step's text, none lost, none repeated |
| CookingSteps.PrefixLines | js/recipe-cooking.js:42-61 | the first q groups read back the texts up to the q-th group's start |
| CookingSteps.GroupingShape | js/recipe-cooking.js:42-43 | every group has 1 to 3 sub-steps and every group but the last has exactly the group size |
| CookingSteps.AtMostThreeGroups | js/recipe-cooking.js:40-42 | a recipe of at most nine flat steps is shown in at most three steps |
| CookingNavigation.NextMove | js/recipe-cooking.js:587-610 | "next" is ignored exactly without step data or outside it; otherwise it moves to the next sub-step, to the start of the next step, or finishes the recipe |
| CookingNavigation.PrevPos | js/recipe-cooking.js:612-632 | "previous" steps back one sub-step, or to the last sub-step of the previous step, and stays put at the very beginning; without step data the step index drops and the script then throws |
| CookingNavigation.NextStaysInRange | js/recipe-cooking.js:587-610 | from a valid position "next" lands on a valid position, and finishes exactly at the last sub-step of the last step |
| CookingNavigation.PrevStaysInRange | js/recipe-cooking.js:612-632 | from a valid position "previous" lands on a valid position |
| CookingNavigation.PrevUndoesNext | js/recipe-cooking.js:587-632 | "previous" after a "next" that moved returns to where it started |
| CookingNavigation.NextUndoesPrev | js/recipe-cooking.js:587-632 | "next" after "previous" returns to where it started, except at the first sub-step |
| CookingNavigation.NextAdvancesOne | js/recipe-cooking.js:589-598 | each "next" that moves advances exactly one sub-step in reading order |
| CookingNavigation.LastOrdinal | js/recipe-cooking.js:598-607 | the position where "next" finishes is the last sub-step in reading order |
| CookingNavigation.UnsetCountFinishesEarly | js/recipe-cooking.js:7 | with the step count the script declares and never assigns (0), "next" at the last sub-step of any step finishes the recipe |
| CookingNavigation.Pad2Value | js/recipe-cooking.js:657-658 | `padStart(2, '0')` of a number below 100 is two digits denoting that number |
| CookingNavigation.DateKeyFields | js/recipe-cooking.js:655-660 | the date key is the year, a dash, two digits for month + 1, a dash and two digits for the day |
| CookingNavigation.DateKeyInjective | js/recipe-cooking.js:655-660 | different dates have different keys |
| CookingNavigation.FormatDateKey | js/recipe-cooking.js:655-660 | defined by its body; its meaning is proved by `DateKeyFields` and `DateKeyInjective` |
| CookingNavigation.RecordCompletion | js/recipe-cooking.js:634-653 | a completion adds today's key to the counters and leaves every other day's counter alone, appends one record to the completed list and sets the real-data flag |
| CookingNavigation.CompletionCountsOne | js/recipe-cooking.js:638-642 | today's counter goes up by exactly one, a missing counter counting as zero |
| CookingNavigation.CompletionName | js/recipe-cooking.js:645-649 | with no recipe title the record is named "这道菜" and carries the given date and time |
| CookingNavigation.ClassifyTranscript | js/recipe-cooking.js:134-153 | a transcript goes forward exactly when it mentions a "next" word, and back exactly when it mentions a "previous" word and no "next" word |
| CookingNavigation.LowerIdempotent | js/recipe-cooking.js:136 | lower-casing twice is lower-casing once |
| CookingNavigation.ClassifyIgnoresCase | js/recipe-cooking.js:136-141 | lower-casing a transcript first does not change what it asks for |
| CookingNavigation.ClassifyCarryOn | js/recipe-cooking.js:135-136 | "好的继续" goes forward |
| CookingNavigation.ClassifyGoBack | js/recipe-cooking.js:140-141 | "返回" goes back |
| CookingNavigation.ClassifyBothDirections | js/recipe-cooking.js:146-149 | a transcript naming both directions goes forward |
| CookingNavigation.ClassifyShortRemark | js/recipe-cooking.js:134-153 | a one-character transcript moves nothing |
| CookingNavigation.ClassifySwipe | js/recipe-cooking.js:433-446 | outside a scroll, a swipe goes forward exactly on an upward drag of more than 50 px (30 px when quicker than 300 ms), back on the same drag downwards |
| CookingNavigation.SwipeSymmetric | js/recipe-cooking.js:439-444 | swiping down mirrors swiping up, and a drag of at most 30 px never moves |
| CookingNavigation.UpdateStepDisplay | js/recipe-cooking.js:519-546 | with no cards nothing happens; otherwise every card gets the style for its index |
| CookingNavigation.CardStacking | js/recipe-cooking.js:533-537 | of two finished cards, the earlier one is lifted higher, shrunk more and stacked lower |
| CookingNavigation.CardRoles | js/recipe-cooking.js:528-541 | exactly the current index is current, the one after it is next, and those before it are completed |
| CookingNavigation.CookingPage.constructor | js/recipe-cooking.js:5-7 | the page starts at step 0, sub-step 0, with the given step data and step count and no recipe title; it is on track when the count is the number of steps |
| CookingNavigation.CookingPage.GoToNextSubStep | js/recipe-cooking.js:587-610 | the page's progress becomes the effect of one "next", and an on-track position stays on track |
| CookingNavigation.AfterNext | js/recipe-cooking.js:587-610 | defined by its body; its meaning is proved by `NextMove`, `NextAdvancesOne`, `RecordCompletion` and `CompletionCountsOne`, and `GoToNextSubStep` performs it |
| CookingNavigation.CookingPage.GoToPrevSubStep | js/recipe-cooking.js:612-632 | the position becomes the "previous" position, with nothing else changed; an on-track position stays on track |
| CookingNavigation.CookingPage.ProcessUserTranscript | js/recipe-cooking.js:144-153 | a transcript performs "next", "previous" or nothing as its classification says |
| CookingNavigation.CookingPage.HandleTouchStart | js/recipe-cooking.js:397-411 | the gesture starts at the touch point and time, and counts as scrolling exactly when the container's content overflows |
| CookingNavigation.CookingPage.HandleTouchMove | js/recipe-cooking.js:413-431 | without a started gesture nothing changes; otherwise the finger position is tracked and scrolling stops once the content is pulled past its edge |
| CookingNavigation.CookingPage.HandleTouchEnd | js/recipe-cooking.js:433-450 | a gesture ends with the move its swipe classifies, and then the gesture is forgotten |
| CookingAudio.DeletedFileName | js/recipe-cooking.js:168 | the file name asked for deletion has no "/" and is the suffix of the reply's URL after a "/" or the whole URL |
| CookingAudio.VoiceSession.constructor | js/recipe-cooking.js:127-131 | the session starts with an empty queue, nothing playing and nothing sent |
| CookingAudio.VoiceSession.PlayFromQueue | js/recipe-cooking.js:156-183 | nothing happens while a reply is speaking or when the queue is empty; otherwise the oldest reply leaves the queue and plays, so replies play in arrival order with none skipped or repeated |
| CookingAudio.VoiceSession.StopAndClearAudio | js/recipe-cooking.js:185-194 | the player is dropped, the queue emptied and the speaking flag cleared |
| CookingAudio.VoiceSession.OnAudio | js/recipe-cooking.js:317-320 | an audio message joins the tail of the queue, and plays at once when nothing is speaking |
| CookingAudio.VoiceSession.OnEndOfResponse | js/recipe-cooking.js:321-324 | end-of-response clears the speaking flag and starts the oldest waiting reply, if any |
| CookingAudio.VoiceSession.OnPlayerEnded | js/recipe-cooking.js:166-171 | a finished reply requests deletion of its file and the next reply starts |
| CookingAudio.VoiceSession.OnPlayerError | js/recipe-cooking.js:173-177 | a player error starts the next reply without requesting a deletion |
| CookingAudio.VoiceSession.OnPlayRejected | js/recipe-cooking.js:179-182 | a refused play clears the speaking flag and changes nothing else |
| CookingAudio.VoiceSession.OnLoudFrame | js/recipe-cooking.js:276-287 | the first loud frame of an utterance interrupts a speaking reply, clearing the queue and sending one interrupt (frames are handled only while the socket is open) |
| CookingAudio.VoiceSession.OnSilenceTimeout | js/recipe-cooking.js:288 | one second after the last loud frame the user counts as silent again, with nothing else changed |
| CookingAudio.HandleMessage | js/recipe-cooking.js:311-329 | a transcript moves the page as its classification says, audio and end-of-response drive the queue, and an error or unknown message changes neither |
| Home.FetchAllRecipes | js/script.js:208-264 | a successful response is used as it is; a failed one falls back to the six built-in recipes |
| Home.NextBatch | js/script.js:274 | the next batch is the at most three recipes after the loaded ones, and empty once all are loaded |
| Home.LoadedAfterCount | js/script.js:266-298 | after k completed loads from the start, the first `3k` recipes, or all of them, are shown |
| Home.EveryRecipeShown | js/script.js:266-298 | `ceil(n / 3)` loads show all n recipes, and one load fewer does not |
| Home.RecipeLoader.constructor | js/script.js:194-204 | once the recipes are fetched, none are loaded, no load is pending and the container is empty |
| Home.RecipeLoader.BeginLoad | js/script.js:266-270 | a load starts exactly when none is pending, and afterwards one is pending |
| Home.RecipeLoader.FinishLoad | js/script.js:272-297 | the next batch is appended to the container when it exists and the cursor moves past it, so the container always holds exactly the loaded prefix; the pending flag is cleared |
| Home.RecipeLoader.ScrollWantsMore | js/script.js:327-362 | scrolling asks for more exactly when the container has cards and recipes remain, judged on the third card's visibility when there are three cards or more, otherwise on nearness to the page's bottom |
| Home.RecipeLoader.HandleScroll | js/script.js:327-362 | a load is started exactly when the scroll asks for more and no load is pending; nothing else changes |
| Home.CurrentPage | js/script.js:474-492 | the page is the basket or the profile exactly when the path's last segment names it, and home otherwise |
| Home.NavIndex | js/script.js:501-512 | the highlighted index is below 3, and it is 1 exactly for "shopping" and 2 exactly for "profile" |
| Home.NavIndexOfPage | js/script.js:474-512 | home, basket and profile are highlighted at positions 0, 1 and 2 |
| Home.UnknownPathIsHome | js/script.js:489-490 | an unknown file name or a directory path highlights the home item |
| Home.ActiveFlags | js/script.js:494-521 | after highlighting, exactly the item at the chosen index is active, and none when there are fewer items |
| RelativeTime.Classify | js/search.js:364-378 | the label's bucket is "just now" below one minute, whole minutes below an hour, whole hours below a day, whole days below a week, and the stamped calendar date after that; each count is the floor of the difference in its unit |
| RelativeTime.TimeAgo | js/favorites.js:203-217 | a time stamp less than a minute old, or in the future, reads "刚刚" |
| RelativeTime.RenderInjective | js/search.js:371-377 | two labels print alike only when they have the same bucket and the same count |
| Search.RemoveFirst | js/search.js:63 | a string without the pattern is unchanged; otherwise exactly one occurrence is removed |
| Search.LoadRecord | js/search.js:52-78 | the id and uuid are the file name without its first ".json"; each absent or empty field takes its default (the key for the title, "images/placeholder.jpg", "30min", "0", "其他", "家常菜" from the category, an empty ingredient list) |
| Search.IdRecoversKey | js/search.js:63 | for a key without ".json", the id of the file `key + ".json"` is the key again |
| Search.LoadAll | js/search.js:52-82 | at most one record per listed file |
| Search.LoadAllAppend | js/search.js:52-82 | loading a concatenated file list loads each part, in order |
| Search.FailedFileDropped | js/search.js:57-82 | a file that failed to load leaves no trace in the records |
| Search.EveryFileLoaded | js/search.js:52-82 | when every file loads, there is exactly one record per file, in list order, each built from its own file |
| Search.DigitRun | js/search.js:246 | the leading digit run is maximal: all digits, followed by a non-digit or the end |
| Search.StripQuantities | js/search.js:246-252 | the result never shortens an initial non-digit away and contains no digit directly followed by a unit character |
| Search.StripKeepsPlain | js/search.js:246-252 | a text without quantities is left unchanged |
| Search.StripIdempotent | js/search.js:246-252 | stripping quantities twice is stripping once |
| Search.QuantityStripped | js/search.js:251-252 | "五花肉500克" strips to "五花肉" |
| Search.SearchRecipes | js/search.js:220-263 | searching never adds recipes |
| Search.SearchKeepsMatches | js/search.js:220-263 | every result is a recipe of the list that matches on title, category, cuisine or an ingredient, and every matching recipe is a result |
| Search.Matches | js/search.js:222-260 | defined by its body; its meaning is proved by `SearchKeepsMatches` |
| Search.SearchAppend | js/search.js:223 | the results keep the list's order: searching a concatenation searches each part |
| Search.EmptyKeywordKeepsAll | js/search.js:221-226 | the empty keyword keeps every recipe |
| Search.WithoutKeyword | js/search.js:310 | no entry for the keyword remains, and nothing is added |
| Search.WithoutKeywordMembers | js/search.js:310 | exactly the entries for other keywords remain |
| Search.WithoutKeywordAppend | js/search.js:310 | removing the keyword keeps the order of the other entries |
| Search.SavedHistoryShape | js/search.js:306-325 | after a search the history holds 1 to 10 entries, the new keyword first with the current time, no other entry for it, then the old entries for other keywords in order, cut to fit |
| Search.SavedHistory | js/search.js:306-325 | defined by its body; its meaning is proved by `SavedHistoryShape` |
| Search.SaveAgain | js/search.js:306-325 | searching again for the same keyword only refreshes its time stamp |
| Search.RemoveAt | js/search.js:391-396 | deleting at a shown index removes that entry; an index past the end removes nothing |
| Search.RemoveAtRemovesOne | js/search.js:393 | deleting at a shown index removes exactly one entry, the one at that index |
| Search.SearchPage.constructor | js/search.js:119-126 | the page's records are the loaded files and its history is the stored one |
| Search.SearchPage.SaveSearchHistory | js/search.js:306-325 | the stored history becomes the saved history for the keyword and time; the records are unchanged |
| Search.SearchPage.DeleteHistoryItem | js/search.js:391-396 | the stored history loses the entry at the index; the records are unchanged |
| Search.SearchPage.ClearSearchHistory | js/search.js:380-383 | the history reads as empty afterwards; the records are unchanged |
| Search.SearchPage.EntryTime | js/search.js:342 | an entry saved less than a minute ago shows "刚刚" |
| Favorites.DefaultFavorites | js/favorites.js:10-31 | the sample list is the two recipes `recipe_1` and `recipe_2`, added one and two days before the current time |
| Favorites.WithoutId | js/favorites.js:442 | no entry with the id remains, nothing is added, and every entry with another id remains |
| Favorites.WithoutAbsentId | js/favorites.js:442 | removing an id that is not there changes nothing |
| Favorites.RemoveUndoesAdd | js/favorites.js:427-442 | removing a favourite just added in front gives the list back as it was |
| Favorites.FindById | js/favorites.js:252 | the search finds nothing exactly when no entry has the id, and what it finds is an entry with that id |
| Favorites.FindByIdIsFirst | js/favorites.js:252 | the entry found is the first one with the id |
| Favorites.OfKind | js/favorites.js:79-81 | exactly the entries of the chosen type are kept |
| Favorites.Insert | js/favorites.js:84 | one insertion step of the sort adds exactly the one entry |
| Favorites.InsertKeepsOrder | js/favorites.js:84 | inserting into a newest-first list keeps it newest first |
| Favorites.SortNewest | js/favorites.js:84 | sorting by `b.addedTime - a.addedTime` yields a newest-first permutation of the list |
| Favorites.SortNewestStable | js/favorites.js:84 | entries of the same age keep their original order, as the built-in stable sort keeps them |
| Favorites.ShownEntries | js/favorites.js:74-91 | the listed entries are newest first; category "all" lists every favourite, any other exactly those of its type |
| Favorites.SortedStaysPut | js/favorites.js:84 | a list that is already newest first is listed as it is |
| Favorites.CategoryIdByName | js/favorites.js:287-298 | every name maps to one of the seven basket categories, and to "vegetables" exactly for 蔬菜 and for names the table does not know |
| Favorites.CategoryIdsDistinct | js/favorites.js:288-296 | different known names map to different basket categories |
| Favorites.IngredientEmoji | js/favorites.js:233-245 | a category gets 📦 exactly when it is not one of the seven known ones (其他 included) |
| Favorites.EmojisDistinct | js/favorites.js:234-243 | different known categories get different icons |
| Favorites.WithIngredient | js/favorites.js:261-282 | afterwards the shopping list has an entry with the ingredient's name; an existing entry of that name leaves the list unchanged, otherwise one unchecked entry of quantity 1 is appended |
| Favorites.WithIngredientKeepsNamesDistinct | js/favorites.js:264-279 | the transfer never creates a second entry with the same name |
| Favorites.WithIngredientTwice | js/favorites.js:264-279 | offering the same ingredient twice adds it once |
| Favorites.FavoritesPage.constructor | js/favorites.js:36-45 | an empty stored list is replaced by the two samples; the category starts as "all" |
| Favorites.FavoritesPage.IsFavorited | js/favorites.js:434-437 | an id is favourited exactly when some entry has it |
| Favorites.FavoritesPage.SelectCategory | js/favorites.js:48-59 | choosing a tab sets the current category and changes no stored data |
| Favorites.FavoritesPage.AddToFavorites | js/favorites.js:415-431 | adding is refused exactly when the id is already present; otherwise the item goes in front, stamped with the current time |
| Favorites.FavoritesPage.RemoveFromFavorites | js/favorites.js:440-446 | every entry with the id goes, and the call reports success |
| Favorites.FavoritesPage.RemoveFavorite | js/favorites.js:330-349 | the entries with the id go only when the user confirms |
| Favorites.FavoritesPage.AddToBasket | js/favorites.js:248-284 | only a favourite of type "ingredients" found by its id is offered to the shopping list; the favourites stay as they were |
| Favorites.FavoritesPage.AddedAgo | js/favorites.js:100 | an entry added less than a minute ago shows "刚刚" |
| ShoppingBasket.VisibleCount | js/shopping-basket.js:108-113 | the count is the number of items that are tracked and visible, so at most all items |
| ShoppingBasket.CheckedVisibleCount | js/shopping-basket.js:118 | the ticked visible items are never more than the visible items |
| ShoppingBasket.AllSelectedMeans | js/shopping-basket.js:116-129 | the select-all flag holds exactly when some item is visible and every visible item is checked |
| ShoppingBasket.CountsZero | js/shopping-basket.js:108-113 | no checkbox is visible exactly when no tracked item is visible |
| ShoppingBasket.CountsEqual | js/shopping-basket.js:116-129 | the checked count equals the visible count exactly when every visible item is checked |
| ShoppingBasket.Filtered | js/shopping-basket.js:24-30 | choosing a tab keeps the number of items |
| ShoppingBasket.VisibleSetTo | js/shopping-basket.js:86-100 | select-all keeps the number of items |
| ShoppingBasket.Cleared | js/shopping-basket.js:154-162 | clearing keeps the number of items |
| ShoppingBasket.FilteredShows | js/shopping-basket.js:24-30 | after a tab is chosen, a tracked item is visible exactly when the tab is "all" or its category; nothing but visibility changes |
| ShoppingBasket.SelectAllAgrees | js/shopping-basket.js:81-105 | when something is visible, the flag select-all sets agrees with the one recomputed from the boxes |
| ShoppingBasket.SelectAllOnEmptyView | js/shopping-basket.js:94-104 | with nothing visible, select-all raises its flag although no visible box is checked |
| ShoppingBasket.ClearedUnchecks | js/shopping-basket.js:145-166 | clearing leaves nothing checked, resets every cleared item's quantity to 1 and leaves unchecked items alone |
| ShoppingBasket.ClearedIdempotent | js/shopping-basket.js:145-166 | clearing twice is clearing once |
| ShoppingBasket.Bumped | js/shopping-basket.js:48-62 | plus adds one, minus subtracts one only above 0, reaching 0 unchecks, and nothing else changes |
| ShoppingBasket.MinusUndoesPlus | js/shopping-basket.js:48-62 | minus after plus restores the item, unless it was checked at quantity 0 |
| ShoppingBasket.PlusUndoesMinus | js/shopping-basket.js:48-62 | plus after a minus that did not reach 0 restores the item |
| ShoppingBasket.SharedItems | js/shopping-basket.js:170-185 | exactly the checked items found at load are shared, hidden ones included, in page order |
| ShoppingBasket.ShareLinesAppend | js/shopping-basket.js:194-196 | the lines for a split list are the first part's lines followed by the second part's, with numbering that continues |
| ShoppingBasket.ShareLinesSnoc | js/shopping-basket.js:194-196 | one more item adds one line with the next number |
| ShoppingBasket.NothingSharedAfterClear | js/shopping-basket.js:145-185 | after clearing, sharing is refused |
| ShoppingBasket.NoneCheckedNoneShared | js/shopping-basket.js:185-190 | with nothing checked, nothing is shared |
| ShoppingBasket.BasketPage.constructor | js/shopping-basket.js:364-371 | at load the active tab's filter is applied to the items and the flag is computed from them |
| ShoppingBasket.BasketPage.UpdateSelectAllButton | js/shopping-basket.js:116-129 | the flag becomes true exactly when some visible box is checked and all visible boxes are; the items are unchanged |
| ShoppingBasket.BasketPage.SelectCategory | js/shopping-basket.js:14-42 | the items are filtered for the tab and the flag recomputed |
| ShoppingBasket.BasketPage.ChangeQuantity | js/shopping-basket.js:45-64 | only the clicked item changes, as one plus or minus step does; the flag is left as it was |
| ShoppingBasket.BasketPage.SetChecked | js/shopping-basket.js:67-78 | only the clicked box changes, and the flag is recomputed |
| ShoppingBasket.BasketPage.SelectAll | js/shopping-basket.js:81-105 | every visible tracked box takes the negation of the flag, and the flag flips |
| ShoppingBasket.BasketPage.ClearSelected | js/shopping-basket.js:145-166 | checked items are cleared only when some are checked and the user confirms; the flag is left as it was |
| ShoppingBasket.BasketPage.Share | js/shopping-basket.js:169-197 | sharing is refused exactly when no tracked item is checked; otherwise the text holds the header, one numbered line per shared item and the footer |
| ShoppingBasket.BasketPage.AddItem | js/shopping-basket.js:215-256 | a non-blank answer appends one trimmed, unchecked custom item of quantity 1; a cancelled or blank answer changes nothing |
| ShoppingBasket.BuildShareText | js/shopping-basket.js:193-197 | the text is the header, the items' numbered lines from 1, and the footer |
| ShoppingBasket.ShareText | js/shopping-basket.js:193-197 | defined by its body; its meaning is proved by `BuildShareText` and `NothingSharedAfterClear` |
| ShoppingBasket.UntrackedIsIgnored | js/shopping-basket.js:228-250 | an item added after load changes neither the counts nor the shared text |
| RecipeDetail.SelectRecipe | js/recipe-detail.js:73-74 | a known `name` parameter selects its recipe and a missing or empty one the salad; an unknown one selects the salad unless it names one of the twelve properties inherited from `Object.prototype`, which is then selected |
| RecipeDetail.CookingType | js/recipe-detail.js:188-191 | the cooking page is sent "paigu" exactly for the sweet-and-sour ribs, and "salad" otherwise, also for an inherited property, whose title is undefined |
| RecipeDetail.SelectedRecipeOrInherited | js/recipe-detail.js:73-74 | an inherited property is selected exactly when the name is one; every other selection is a recipe of the table; a missing or empty name gives the salad |
| RecipeDetail.CookingTypeOfSelected | js/recipe-detail.js:188-191 | the cooking page gets "paigu" exactly when the ribs were asked for by name |
| RecipeDetail.Decreased | js/recipe-detail.js:167-172 | the decrease button lowers the count only above 1 |
| RecipeDetail.Increased | js/recipe-detail.js:174-179 | the increase button raises the count only below 10 |
| RecipeDetail.PortionStaysInRange | js/recipe-detail.js:165-179 | both buttons keep the count within 1 to 10 |
| RecipeDetail.PortionStepsUndo | js/recipe-detail.js:165-179 | a step up undoes a step down and vice versa, away from the ends |
| RecipeDetail.PortionCounter.constructor | js/recipe-detail.js:165 | the counter starts at one portion |
| RecipeDetail.PortionCounter.Decrease | js/recipe-detail.js:167-172 | a click on decrease applies one decrease and keeps the count in range |
| RecipeDetail.PortionCounter.Increase | js/recipe-detail.js:174-179 | a click on increase applies one increase and keeps the count in range |
| RecipeDetail.ParsePortionText | js/recipe-detail.js:116 | `parseInt` of the counter's text `${portion}份` gives the count back |
| RecipeDetail.Portion | js/recipe-detail.js:115-116 | the portion sent is never 0 |
| RecipeDetail.PortionFallsBack | js/recipe-detail.js:115-116 | a missing or empty counter, and a count of 0, fall back to one portion |
| RecipeDetail.ZeroPortionFallsBack | js/recipe-detail.js:116 | a counter reading `0份` gives a portion of 1, since the fallback to 1 treats a parsed 0 as missing |
| RecipeDetail.PortionReadsCounter | js/recipe-detail.js:115-116 | the portion sent with the entries is the counter's value |
| RecipeDetail.FirstWord | js/recipe-detail.js:122 | the name is the longest prefix without a space |
| RecipeDetail.FirstWordIsFirstPiece | js/recipe-detail.js:122 | that prefix is the first piece of `split(' ')` |
| RecipeDetail.FirstDigitRunMeans | js/recipe-detail.js:123-127 | a quantity is found exactly when the line has a digit, and it is the maximal digit run at the first digit |
| RecipeDetail.FirstUnitMeans | js/recipe-detail.js:128 | the unit is empty exactly when none of 颗根片勺 occurs, and otherwise it is the first that does |
| RecipeDetail.ParseIngredientMeans | js/recipe-detail.js:121-130 | an entry's name is the trimmed line's first word, its quantity defaults to 1 exactly when the line has no digit, and its unit is empty exactly when it has no unit character |
| RecipeDetail.ParseIngredient | js/recipe-detail.js:121-130 | defined by its body; its meaning is proved by `ParseIngredientMeans` |
| RecipeDetail.FirstDigitRunSkip | js/recipe-detail.js:123 | a digit-free prefix does not change the quantity found |
| RecipeDetail.FirstUnitSkip | js/recipe-detail.js:128 | a prefix without unit characters does not change the unit found |
| RecipeDetail.TomatoLineTrimmed | js/recipe-detail.js:121 | the built-in ingredient "西红柿 2 颗" (js/recipe-detail.js line 27) is unchanged by trimming |
| RecipeDetail.TomatoLineWords | js/recipe-detail.js:122 | its name is "西红柿" |
| RecipeDetail.TomatoLineCount | js/recipe-detail.js:123 | its quantity is "2" |
| RecipeDetail.TomatoLineUnit | js/recipe-detail.js:128 | its unit is "颗" |
| RecipeDetail.ParseCountedLine | js/recipe-detail.js:121-130 | the tomato line becomes the entry 西红柿, "2", 颗 |
| RecipeDetail.RibsLineTrimmed | js/recipe-detail.js:121 | the built-in ingredient "排骨 500g" (js/recipe-detail.js line 49) is unchanged by trimming |
| RecipeDetail.RibsLineWords | js/recipe-detail.js:122 | its name is "排骨" |
| RecipeDetail.RibsLineCount | js/recipe-detail.js:123 | its quantity is "500" |
| RecipeDetail.RibsLineUnit | js/recipe-detail.js:128 | it has no unit |
| RecipeDetail.ParseWeighedLine | js/recipe-detail.js:121-130 | a line whose unit is not one of the four gets an empty unit |
| RecipeDetail.DressingLineTrimmed | js/recipe-detail.js:121 | the built-in dressing line (js/recipe-detail.js line 33) is unchanged by trimming |
| RecipeDetail.DressingLineUnit | js/recipe-detail.js:128 | its unit is "勺", found in its bracketed remark |
| RecipeDetail.ParseRemarkUnit | js/recipe-detail.js:128 | a unit mentioned anywhere on the line, even inside a remark, becomes the entry's unit |
| RecipeDetail.MapSeqMeans | js/recipe-detail.js:120-131 | the collected list has one value per ticked line, the k-th made from the k-th line |
| RecipeDetail.MapSeqSnoc | js/recipe-detail.js:120-131 | pushing one more line's entry extends the list by that entry |
| RecipeDetail.EntriesMeans | js/recipe-detail.js:119-131 | there is one stored entry per ticked line, the k-th parsed from the k-th line with the page's portion |
| RecipeDetail.Entries | js/recipe-detail.js:119-131 | defined by its body; its meaning is proved by `EntriesMeans` |
| RecipeDetail.CollectEntries | js/recipe-detail.js:119-131 | the loop pushes exactly the entries of the ticked lines, in page order |
| RecipeDetail.AppendEntries | js/recipe-detail.js:134-138 | the new basket is the stored one followed by the new entries, and the count reported is the number of ticked lines |
| RecipeDetail.AddToBasket | js/recipe-detail.js:111-144 | the button appends one entry per ticked line with the portion read from the counter, and reports how many |
| RecipeDetail.InitialBoxes | js/recipe-detail.js:90-96 | the page first renders one line per ingredient and condiment |
| RecipeDetail.AllTickedAddsEveryLine | js/recipe-detail.js:113 | with nothing unticked, every line is added, in order |
| RecipeDetail.FreshPageAddsEveryLine | js/recipe-detail.js:90-113 | on a freshly rendered page the ingredients and then the condiments are all added |
| EditProfile.Validate | js/edit-profile.js:110-136 | the trimmed username must be non-empty and 2 to 20 UTF-16 units long, a non-empty phone must match the mobile pattern and a non-empty e-mail the address pattern, checked in that order; the first failure is the verdict |
| EditProfile.ValidateForm | js/edit-profile.js:110-136 | defined by its body; its meaning is the verdict `Passed` of `Validate` |
| EditProfile.PhoneIsElevenDigits | js/edit-profile.js:125 | a phone number the pattern accepts is exactly eleven ASCII digits |
| EditProfile.EmailShape | js/edit-profile.js:130 | an accepted address has no whitespace and exactly one `@`, neither first nor last |
| EditProfile.NoDotRefused | js/edit-profile.js:130 | text without a `.` is never an accepted address |
| EditProfile.LeadingAtRefused | js/edit-profile.js:130 | text starting with `@` is never an accepted address |
| EditProfile.EmailExamples | js/edit-profile.js:130 | `chef@mate.cn` is accepted; `chef@mate` and `@mate.cn` are refused |
| EditProfile.DefaultPhoneRefused | js/edit-profile.js:125 | the form filled from the default profile is refused for its phone `00000000000` |
| EditProfile.CharCountColour | js/edit-profile.js:94-105 | the counter is red above 180 units, orange above 150 up to 180, grey otherwise; exactly one holds |
| EditProfile.CharCountMonotone | js/edit-profile.js:98-104 | a longer bio never gets a milder colour |
| EditProfile.Spread | js/edit-profile.js:28 | an object contributes its fields; an array its elements and a string its one-character strings, under exactly their decimal indices; `null`, a boolean or a number contributes nothing |
| EditProfile.LoadUserData | js/edit-profile.js:26-29 | without a stored profile the defaults; with one, the union of the default keys and the stored keys, stored values winning and defaults filling the rest |
| EditProfile.SaveThenLoad | js/edit-profile.js:26-34 | a stored profile that has every default field loads back unchanged |
| EditProfile.LoadIdempotent | js/edit-profile.js:26-34 | storing a loaded profile and loading it again gives the same profile |
| EditProfile.NonObjectKeepsDefaults | js/edit-profile.js:26-29 | a stored array or string never changes a default field, because its keys are digit strings |
| EditProfile.CheckAvatar | js/edit-profile.js:70-91 | no file: nothing; a non-`image/` type: refused; over 5 MiB: refused; otherwise accepted; exactly one verdict, as an if-and-only-if each |
| EditProfile.CollectDietary | js/edit-profile.js:157-161 | the collected values are those of the ticked boxes, in document order |
| EditProfile.ProfileObjectKeys | js/edit-profile.js:139-164 | a collected profile has exactly the default profile's ten fields |
| EditProfile.CollectFormData | js/edit-profile.js:139-164 | the username, phone, e-mail and bio are trimmed, the selects and birthday stored as given, the avatar is the preview's source and the dietary list the ticked values |
| EditProfile.CollectedProfileLoadsBack | js/edit-profile.js:139-180 | what saving stores is exactly what the next load returns |
| Settings.NumberJson | js/settings.js:140 | a number is written as that number, and NaN (only NaN) as `null` |
| Settings.SpeedLabel | js/settings.js:41-50 | 慢 exactly below 0.8, 快 exactly above 1.2, 正常 exactly in between, bounds included |
| Settings.NumberLabel | js/settings.js:41-50 | on a parsed rate the label is the numeric rule, and NaN, failing both comparisons, is 正常 |
| Settings.SpeedLabelOrdered | js/settings.js:44-47 | a slower rate than a slow one is slow; a faster rate than a fast one is fast |
| Settings.StoredRate | js/settings.js:82-85 | a stored number compares as itself; `null`, `false` and `[]` as 0 and `true` as 1; a string as the number its text denotes; a one-element array as that element, except a boolean one, which is NaN; a longer array and an object as NaN |
| Settings.StringToNumber | js/settings.js:82-85 | blank text converts to 0; what other texts convert to is proved by `DigitsToNumber`, `DecimalFractionNumber` and `StoredWordRate` |
| Settings.DigitsToNumber | js/settings.js:82-85 | a run of ASCII digits converts to its decimal value, leading zeros included |
| Settings.DecimalFractionNumber | js/settings.js:82-85 | digits, a point and digits (one side may be empty) convert to the number they denote |
| Settings.StoredDigitsRate | js/settings.js:82-85 | a rate stored as decimal digits compares as that number, alone or as an array's only element |
| Settings.StoredFractionLabel | js/settings.js:82-87 | a rate stored as the text `w.f`, alone or as an array's only element, gets the label of the number it denotes |
| Settings.StoredWordRate | js/settings.js:81-87 | a rate stored as a word is NaN and keeps the label 正常 |
| Settings.VolumeNumber | js/settings.js:134 | `parseInt` of the slider value: the integer it reads, or NaN when it reads none |
| Text.ParseInt | js/settings.js:134 | defined by its body; its meaning is proved by `ParsePortionText`, `VolumeNumber` and `ParseUnsignedRendering` |
| Settings.GetSettings | js/settings.js:121-124 | the stored settings value when the key is present, `{}` when it is absent |
| Settings.KeyCount | js/settings.js:107 | `Object.keys` throws exactly on `null`, and counts zero exactly on booleans, numbers, the empty string, `[]` and `{}` |
| Settings.SavedSettings | js/settings.js:133-138 | exactly the four settings; each control's value, or 70, 1.0, `true`, `true` for an absent control |
| Settings.NoControlsSavesDefaults | js/settings.js:133-138 | saving with no controls on the page writes exactly the defaults |
| Settings.StoredSettingsAreNotReplaced | js/settings.js:107-117 | the defaults and every saved settings object have four keys, so `setDefaultValues` is a no-op once either is stored |
| Settings.Prop | js/settings.js:71-97 | a property exists exactly when the value is an object with that key, and is that key's value |
| Settings.ApplySettings | js/settings.js:65-100 | each control takes the stored value when the property exists and keeps its own otherwise; the label follows the stored rate; the switches take its truthiness |
| Settings.InputSpeedLabel | js/settings.js:40-50 | the slider's input label for a parsed rate is the numeric rule |
| Settings.ReloadShowsInputLabel | js/settings.js:79-88 | after a save, reloading shows the label the slider showed on input |
| Settings.UnreadableRateReloadsSlow | js/settings.js:82-85 | a rate `parseFloat` cannot read is labelled 正常 on input, saved as `null`, and labelled 慢 on reload |
| Settings.ClearedMeans | js/settings.js:180-188 | a key is removed exactly when it starts with `chefmate_` and is not the settings key; the others keep their values |
| Settings.Cleared | js/settings.js:180-188 | defined by its body; its meaning is proved by `ClearedMeans`, `ClearingKeepsSettings` and `ClearingTwiceIsClearingOnce` |
| Settings.ClearingKeepsSettings | js/settings.js:183 | the settings and every key outside the application's prefix survive clearing |
| Settings.ClearingTwiceIsClearingOnce | js/settings.js:177-192 | clearing again removes nothing more |
| Settings.SettingsPage.constructor | js/settings.js:4-7 | the page starts from the given store and controls |
| Settings.SettingsPage.LoadSettings | js/settings.js:65-100 | a stored `null` throws and changes nothing; otherwise the controls become the applied settings; the store is unchanged |
| Settings.SettingsPage.SetDefaultValues | js/settings.js:103-118 | throws on `null`; writes and loads the defaults exactly when the settings have no keys; otherwise changes nothing |
| Settings.SettingsPage.InitializeSettings | js/settings.js:10-16 | load, then fill in the defaults: the store gains the defaults exactly when the settings had no keys, and the controls then show the defaults; a stored `null` throws and leaves the controls as they were |
| Settings.SettingsPage.SaveSettings | js/settings.js:127-144 | the settings key now holds the controls' values; nothing else changes |
| Settings.SettingsPage.ClearCache | js/settings.js:177-192 | once confirmed, the keys removed are exactly the removable ones and the store becomes the cleared store; unconfirmed, nothing changes |
| Settings.ClearingKeepsSavedSettings | js/settings.js:180-188 | after saving and clearing, the stored settings still have four keys, so the defaults never overwrite them |
| RecipeCsv.ListField | generate_recipes.py:26-27 | a missing field is the empty list; a present one is split into at least one item, and joining the items with the list separator gives the field back |
| RecipeCsv.EmptyFieldIsOneEmptyItem | generate_recipes.py:26-27 | an empty field becomes one empty item, not an empty list |
| RecipeCsv.FieldWithoutSeparator | generate_recipes.py:26-27 | a field without the separator is a single item |
| RecipeCsv.ConvertRow | generate_recipes.py:26-41 | an empty row fails (as `row[0]` raises); otherwise the key and title are the first field, the category the second or empty, the lists the split third and fourth fields, and the fixed image, time, likes and empty condiments |
| RecipeCsv.FullRowRoundTrip | generate_recipes.py:26-41 | a row with all four fields keeps its category, and its ingredient and step fields join back to the CSV text |
| RecipeCsv.TitleOnlyRow | generate_recipes.py:26-41 | a title-only row gets an empty category and empty lists |
| RecipeCsv.FileJson | generate_recipes.py:30-45 | the written object has the recipe's title as its only key, holding exactly the eight recipe fields |
| RecipeCsv.ConvertRows | generate_recipes.py:20-45 | a run over the data rows ends normally or on `IndexError` and writes at most one file per row |
| RecipeCsv.Generate | generate_recipes.py:13-20 | an empty file raises `StopIteration` before any write; otherwise the header is skipped and the data rows are converted |
| RecipeCsv.OneFilePerRow | generate_recipes.py:20-45 | without empty rows, the run ends normally with exactly one file per row, in order, each its row's conversion |
| RecipeCsv.EmptyRowStops | generate_recipes.py:20-31 | the first empty row stops the run with `IndexError` after the files of the rows before it |
| RecipeCsv.HeaderOnly | generate_recipes.py:17-20 | a file with only the header writes nothing and ends normally |
| Base.Field | backend/main.py:545-547 | `dict.get`: the stored value for a present key, `None` for an absent one |
| Base.Strs | generate_recipes.py:37-39 | a list of strings as a JSON array, element by element |
| Base.OrDefault | js/recipe-cooking.js:53 | a string or its fallback: the string when it is non-empty, the fallback when it is empty or absent |
| Base.CheckedValues | js/recipe-detail.js:113 | the values collected from the ticked boxes are at most as many as the boxes |
| Base.CheckedValuesMeans | js/edit-profile.js:157-161 | every collected value belongs to a ticked box, and every ticked box's value is collected |
| Base.CheckedValuesSnoc | js/edit-profile.js:158-161 | a box at the end adds its value at the end exactly when it is ticked |
| Base.Filter | js/search.js:223 | `Array.prototype.filter` never lengthens the list |
| Base.FilterLeavesKept | js/favorites.js:80 | every element left by the filter passes the test |
| Base.FilterMembers | js/favorites.js:442 | the filter keeps only members of the list and every member that passes the test |
| Base.FilterAppend | js/search.js:310 | filtering a concatenation is the concatenation of the filtered parts |
| Base.FilterKeepsAll | js/shopping-basket.js:109 | a list whose every element passes is left as it is |
| Text.Lower | js/recipe-cooking.js:136 | `toLowerCase` keeps the length and maps each character |
| Text.AfterLastSlash | js/script.js:476 | the text after the last `/`: a suffix without `/` that starts the string or follows a `/` |
| Text.Trim | js/edit-profile.js:111-113 | `trim` / `strip`: the result starts and ends with a non-space character or is empty, and text without spaces is unchanged |
| Text.TrimKeepsEnds | js/edit-profile.js:111-113 | text that starts and ends with a non-space character is its own trim |
| Text.Split | generate_recipes.py:26-27 | `str.split` on a non-empty separator gives at least one piece |
| Text.JoinSplit | generate_recipes.py:26-27 | joining the pieces with the same separator gives the text back |
| Text.Join | generate_recipes.py:26-27 | defined by its body; its meaning is proved by `JoinSplit` |
| Text.SplitAny | js/search.js:244 | `split(/[、，,]/)` gives at least one piece and no piece holds a separator |
| Text.SplitAnyNoSeparator | js/search.js:244 | text without separators is one piece |
| Text.NatToString | js/recipe-cooking.js:657-658 | `String(n)` is a non-empty run of decimal digits |
| Text.IntToString | js/recipe-cooking.js:655-660 | `String(i)`: the digits of a non-negative integer, `-` and the digits of a negative one |
| Text.DigitsValueNatToString | js/recipe-cooking.js:657-658 | reading the decimal rendering back gives the number |
| Text.IntToStringInjective | js/recipe-cooking.js:655-660 | different integers have different renderings |
| Text.PadStart | js/recipe-cooking.js:657-658 | `padStart`: a string at least as wide is unchanged; a shorter one is filled on the left up to the width |
| Text.Utf16Length | js/edit-profile.js:120 | `length` counts UTF-16 units: between one and two per character, exactly one for the basic plane |
| Text.LeadingRun | js/recipe-detail.js:116 | the longest prefix of digits: it is a prefix, all digits, and followed by a non-digit or the end |
| Text.ParseUnsigned | js/recipe-detail.js:116 | a value is read only from text holding a digit |
| Text.ParseUnsignedRendering | js/recipe-detail.js:116 | a rendered number followed by a non-digit (such as `份`) reads back as that number |

## Left out

- Home.FetchAllRecipes: the fallback is stated by its length (the six built-in cards are the constant `MockRecipes`); the network request and JSON parsing become the `Option` parameter.
- Search.LoadAll: its own contract only bounds the length; which records it keeps is stated by `LoadAllAppend`, `FailedFileDropped` and `EveryFileLoaded`.
- RelativeTime.TimeAgo: its contract states only the "just now" case; the other ranges are stated by `Classify` and `RenderInjective`.
- Search.EntryTime and Favorites.AddedAgo: they state only the "just now" case, like `TimeAgo`, which they call.
- Base.CheckedValues and Base.Filter: their own contracts only bound the length; what they keep is stated by the lemmas beside them.
- Text.ParseUnsigned: its own contract says only that a value needs a digit; the reading of rendered numbers is stated by `ParseUnsignedRendering`.
- Text.Lower: only ASCII letters are lowered; full Unicode case mapping is not modelled, and the texts this model lowers are Chinese keywords and recipe names.
- Text.ParseInt: digit runs are read as exact integers; the loss of precision of JavaScript numbers above 2^53 is not modelled.
- Clocks, timers and randomness: `Date.now()`, `time.time()`, the `setTimeout` delays and `Math.random` ids are parameters or left out; times are integers (milliseconds in the front-end, microseconds in the audio file manager), and the local time zone is given as a calendar date.
- `JSON.parse` failures on a malformed stored value are not modelled: stored values are given already parsed.
- The DOM: page geometry (scroll positions, the third card's visibility, swipe distances), element creation, CSS classes other than those the models state, toasts, alerts, confirm dialogs and navigation become parameters or are left out.
- Sharing and the clipboard (the share and copy actions of the favourites and basket pages, the recipe detail's share alert) are left out: they only show text the models already compute (`BuildShareText`) or none.
- The recipe detail page's steps overview HTML, image zoom and `encodeURIComponent` of the link are left out.
- The search page's result rendering, keyword highlighting, the input debounce and the detail navigation are left out; so are the hard-coded fallback file list and the two built-in records used when loading throws, and field values that are not strings.
- Favorites.CategoryIdByName and Favorites.IngredientEmoji: a name that is a property of `Object.prototype` (such as `constructor`) finds that property in the JavaScript lookup tables; the model treats it as an unknown name.
- RecipeDetail.SelectRecipe: the rendering of an inherited property as a recipe is not modelled; it reads undefined fields and throws where it maps over the missing ingredient list, and then binds no button, so `CookingType` of it is reached only on a page without that list.
- EditProfile.Spread: a character above U+FFFF is one index, where JavaScript spreads a string by UTF-16 code unit and gives it two, one per surrogate half.
- Settings.StringToNumber: `Infinity`, `+Infinity` and `-Infinity` read as NaN, where JavaScript reads plus or minus infinity; decimal texts denote exact reals, not the nearest double.
- Settings.StoredRate: a stored object whose own `toString` field is not a function makes the comparison throw in JavaScript; the model reads every object as NaN.
- The favourites page's `window.addIngredientToBasket` branch is left out; the model takes the branch that writes the basket in `localStorage`.
- The cooking page's WebSocket lifecycle (connect, reconnect, close), microphone capture, PCM conversion and the RMS computation are left out: a frame arrives as the boolean "loud" and a server message as a datatype value.
- The cooking page's scroll limiter, `scrollTo`, the sub-step flow dots, toasts and the recipe image are left out.
- `initializeStepData` and `generateStepPages` are called by the cooking page but defined nowhere in its script; the step data is a parameter. The step count `totalSteps` is declared as 0 and assigned nowhere in the script, so it is a parameter too; with the script's own 0, "next" at the last sub-step of any step finishes the recipe (`CookingNavigation.UnsetCountFinishesEarly`).
- CookingNavigation.PrevPos: on a step boundary without step data the script throws a TypeError right after `currentStep--`; the model keeps the position that leaves and does not model the exception.
- CookingSteps.RawStep: a `null` or undefined flat step throws a TypeError where its `description` is read, aborting the conversion; this error path is not modelled.
- The cooking page never assigns `recipeTitle`; the model's page holds it as an absent constant, so a completion record always names the dish 这道菜, as the script does.
- `handleScroll` is defined on the home page but never registered as a listener; the model states what it would do when called.
- The basket page captures its item list once, so items added later are not counted by select-all or the counters, but clearing (which queries again) reaches them; the model marks each item as tracked or not. The programmatic untick by clearing does not recompute the select-all state, and the model does not either.
- The backend's threads, locks and the cleanup loop's timing are left out; the cleanup is one call at a given time.
- A removal that raises (the source then returns False and keeps every record) is not modelled; deleting a present file always succeeds.
- Speech recognition, the chat model and speech synthesis (Whisper, the OpenAI client, TTS) are left out: their answers are parameters. So is a side effect of synthesis: every speech file produced for `/api/ask` is also registered with the audio file manager under a fresh `api_session_…` id, so it adds one tracked file, which `Conversation.Ask` does not show.
- The voice-activity detector itself and the recorder's audio queue are left out: segmentation receives the detector's verdict per frame.
- The recipe generator's CSV quoting rules and byte-order mark, the UUID file names, the file writes and `os.makedirs` are left out: rows are given as field lists and the files as values.
- The settings page's `parseFloat` results are given as numbers; `playTestSound`, `showToast`, `showAbout` and the `settingsUpdated` event are left out.
- The avatar's `FileReader` preview is left out: the accepted file becomes the preview source given as a parameter.
- backend/api.py, backend/app.py and js/profile.js are not part of this model.
