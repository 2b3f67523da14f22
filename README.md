# TweetwallFX step engine: session selection, settings and the cloud-to-tweet step

This project models three parts of TweetwallFX's step engine in Dafny and proves what they promise.

- **`ConferenceSessions`** (`session_data.dfy`) models `SessionData.from`. From a conference's schedule slots it picks the session each room shows next. The pipeline keeps:
  - the slots that have a talk;
  - that end more than ten minutes after `now`;
  - and that start before `now + startsWithinMinutes`.

  All of these comparisons are made as times of day (`OffsetTime`). The first such slot of every room becomes a `SessionData` record, and the records are sorted by begin time and then by room. The private `SessionData(ScheduleSlot)` constructor is modelled too, with its favourites-count rule, and so is the comparator `COMP`.
- **`StepEngineConfig`** (`step_engine_settings.dfy`) models `StepEngineSettings`, the configuration holder stored under the key `"stepEngine"`. It holds the step definitions and the data-provider settings, with their getters and setters. The setter for steps refuses `null`; the one for data-provider settings stores anything. The module also has the `StepDefinition` and `DataProviderSetting` class-name holders and the `Converter`'s responsible key.
- **`CloudToTweet`** (`cloud_to_tweet_step.dfy`) models the bookkeeping of `CloudToTweetStep`, which turns the word cloud into the displayed tweet:
  - its skip rule, preferred duration and declared data providers;
  - which cloud word nodes the tweet's words take over, since `word2TextMap` is drained as `tweetWordList` is built;
  - the lower-left corner the info box is placed at;
  - the cap of three media images.

`wrappers.dfy` holds `Option`, which stands for Java's `null` or an empty `Optional`, and `Outcome`, which stands for a call that may throw.

How the model represents things:
- **Times of day.** An `OffsetTime` is a second of the day in `[0, 86400)` plus a UTC offset. `isAfter` and `isBefore` compare the time of day shifted back to UTC, as Java's `toEpochNano` does. `plusMinutes` wraps at midnight. A `ZoneId` is the function that gives each instant its UTC offset.
- **Order of the groups.** `groupingBy` yields its groups in an unspecified order. The model keeps them in the order the rooms first occur, and `FromIndependentOfGroupOrder` proves that sorting any arrangement gives the same list.
- **Classes.** The settings objects are classes whose setters change their fields. `doStep` is a method that changes a `WordleSkin` object (its word map, word list, info box and media box) through a loop over the layout words. That loop is proved against two functions: `Assign`, which node each word is shown with, and `Place`, the positions and the lower-left corner.
- **`createMediaBox`** is a method with its bounded `for` loop.

## Model

| member | source | states |
|---|---|---|
| ConferenceSessions.PlusMinutes | conference-stepengine/src/main/java/org/tweetwallfx/conference/stepengine/dataprovider/SessionData.java:86-87 | the offset is kept; the new time of day differs from the old one by the added minutes modulo a day, and equals their plain sum when that sum stays within the day |
| ConferenceSessions.OfInstant | conference-stepengine/src/main/java/org/tweetwallfx/conference/stepengine/dataprovider/SessionData.java:86-87 | the result carries the offset the zone has at that instant, and its time of day is the instant plus that offset, modulo a day |
| ConferenceSessions.Positives | conference-stepengine/src/main/java/org/tweetwallfx/conference/stepengine/dataprovider/SessionData.java:76 | the filter keeps exactly the positive counts |
| ConferenceSessions.FavouritesCount | conference-stepengine/src/main/java/org/tweetwallfx/conference/stepengine/dataprovider/SessionData.java:74-78 | the favourites count is never negative |
| ConferenceSessions.FavouritesCountRule | conference-stepengine/src/main/java/org/tweetwallfx/conference/stepengine/dataprovider/SessionData.java:74-78 | the count is the slot's count if present and positive, else the talk's if present and positive, else 0 |
| ConferenceSessions.FullNames | conference-stepengine/src/main/java/org/tweetwallfx/conference/stepengine/dataprovider/SessionData.java:69 | the speaker names have the speakers' length and order, and name i is speaker i's full name |
| ConferenceSessions.NewSessionData | conference-stepengine/src/main/java/org/tweetwallfx/conference/stepengine/dataprovider/SessionData.java:64-81 | room, title, begin and end time, speakers, track image URL and tags are copied from the slot and its talk; there is one name per speaker, in order; the favourites count follows the rule and is at least 0 |
| ConferenceSessions.Compare | conference-stepengine/src/main/java/org/tweetwallfx/conference/stepengine/dataprovider/SessionData.java:50-52 | negative, zero or positive exactly when `a` orders before, with or after `b`: by begin time, then by room |
| ConferenceSessions.Insert | conference-stepengine/src/main/java/org/tweetwallfx/conference/stepengine/dataprovider/SessionData.java:92 | inserting into a sorted list gives a sorted list holding the old elements and the new one |
| ConferenceSessions.SortSessions | conference-stepengine/src/main/java/org/tweetwallfx/conference/stepengine/dataprovider/SessionData.java:92 | the sorted list is ordered by the comparator and is a permutation of its input |
| ConferenceSessions.Filter | conference-stepengine/src/main/java/org/tweetwallfx/conference/stepengine/dataprovider/SessionData.java:85-87 | a slot is kept exactly when it is in the input and the predicate accepts it; the result is no longer than the input |
| ConferenceSessions.QualifiesIgnoresDate | conference-stepengine/src/main/java/org/tweetwallfx/conference/stepengine/dataprovider/SessionData.java:85-87 | `Qualifies`, the conjunction of the three filter lambdas, drops the date: in a zone with a fixed offset, moving a slot by any whole number of days does not change whether it qualifies |
| ConferenceSessions.Upcoming | conference-stepengine/src/main/java/org/tweetwallfx/conference/stepengine/dataprovider/SessionData.java:85-87 | a slot passes exactly when it has a talk, ends after `now + 10` minutes and starts before `now + startsWithinMinutes`, as times of day |
| ConferenceSessions.FirstPerRoom | conference-stepengine/src/main/java/org/tweetwallfx/conference/stepengine/dataprovider/SessionData.java:88-90 | one slot per room: the kept slots come from the input, their rooms are distinct, and they cover every room of the input |
| ConferenceSessions.NewSessions | conference-stepengine/src/main/java/org/tweetwallfx/conference/stepengine/dataprovider/SessionData.java:91 | one record per kept slot, in order, each built by the constructor |
| ConferenceSessions.Kept | conference-stepengine/src/main/java/org/tweetwallfx/conference/stepengine/dataprovider/SessionData.java:84-90 | every slot the grouping keeps has a talk and lies in the time window |
| ConferenceSessions.From | conference-stepengine/src/main/java/org/tweetwallfx/conference/stepengine/dataprovider/SessionData.java:83-97 | the result is sorted by begin time, then room |
| ConferenceSessions.FirstPerRoomOfFilter | conference-stepengine/src/main/java/org/tweetwallfx/conference/stepengine/dataprovider/SessionData.java:85-90 | filtering and then keeping the first slot per room keeps exactly the first accepted slot of each room |
| ConferenceSessions.KeptSlots | conference-stepengine/src/main/java/org/tweetwallfx/conference/stepengine/dataprovider/SessionData.java:85-90 | the kept slots are exactly the first qualifying slot of each room |
| ConferenceSessions.FromSelectsFirstQualifyingSlotPerRoom | conference-stepengine/src/main/java/org/tweetwallfx/conference/stepengine/dataprovider/SessionData.java:84-93 | a record is returned exactly when it is built from the first qualifying slot of its room (both directions), so every record comes from a slot with a talk |
| ConferenceSessions.FromWithinWindow | conference-stepengine/src/main/java/org/tweetwallfx/conference/stepengine/dataprovider/SessionData.java:86-87 | every returned session ends after `now + 10` minutes and starts before `now + startsWithinMinutes`, as times of day |
| ConferenceSessions.InsertKeepsRoomsDistinct | conference-stepengine/src/main/java/org/tweetwallfx/conference/stepengine/dataprovider/SessionData.java:92 | inserting a record of a new room keeps the rooms distinct |
| ConferenceSessions.SortKeepsRoomsDistinct | conference-stepengine/src/main/java/org/tweetwallfx/conference/stepengine/dataprovider/SessionData.java:92 | sorting keeps the rooms distinct |
| ConferenceSessions.FromRoomsDistinctAndStrictlySorted | conference-stepengine/src/main/java/org/tweetwallfx/conference/stepengine/dataprovider/SessionData.java:88-92 | no room appears twice in the result, and the result is strictly increasing in (begin time, room) |
| ConferenceSessions.SortedWithSameElementsAreEqual | conference-stepengine/src/main/java/org/tweetwallfx/conference/stepengine/dataprovider/SessionData.java:92 | a strictly sorted list and a sorted list with the same elements are equal |
| ConferenceSessions.FromIndependentOfGroupOrder | conference-stepengine/src/main/java/org/tweetwallfx/conference/stepengine/dataprovider/SessionData.java:88-93 | sorting the records in any order the grouping map yields them gives the same result |
| ConferenceSessions.DistinctRoomsCardinality | conference-stepengine/src/main/java/org/tweetwallfx/conference/stepengine/dataprovider/SessionData.java:88-90 | a list of slots with distinct rooms has as many rooms as slots |
| ConferenceSessions.FromSize | conference-stepengine/src/main/java/org/tweetwallfx/conference/stepengine/dataprovider/SessionData.java:84-93 | the result has one session per room with a qualifying slot, so it is no longer than the input and has no more entries than the input has rooms |
| ConferenceSessions.MidnightWrapDropsLateSlot | conference-stepengine/src/main/java/org/tweetwallfx/conference/stepengine/dataprovider/SessionData.java:87 | at 23:55 UTC, with a 60-minute window, a talk starting at 23:56 is not selected, because the window end wraps to 00:55 |
| StepEngineConfig.ResponsibleKey | controls/src/main/java/org/tweetwallfx/controls/stepengine/config/StepEngineSettings.java:107-109 | the converter answers for the configuration key `"stepEngine"` |
| StepEngineConfig.StepDefinition.constructor | controls/src/main/java/org/tweetwallfx/controls/stepengine/config/StepEngineSettings.java:124 | a new step definition has no class name (null) |
| StepEngineConfig.StepDefinition.SetStepClassName | controls/src/main/java/org/tweetwallfx/controls/stepengine/config/StepEngineSettings.java:131-142 | after setting a class name, the getter returns it |
| StepEngineConfig.DataProviderSetting.constructor | controls/src/main/java/org/tweetwallfx/controls/stepengine/config/StepEngineSettings.java:161 | a new data-provider setting has no class name (null) |
| StepEngineConfig.DataProviderSetting.SetDataProviderClassName | controls/src/main/java/org/tweetwallfx/controls/stepengine/config/StepEngineSettings.java:168-180 | after setting a class name, the getter returns it |
| StepEngineConfig.StepEngineSettings.constructor | controls/src/main/java/org/tweetwallfx/controls/stepengine/config/StepEngineSettings.java:47-48 | new settings have empty step and data-provider lists |
| StepEngineConfig.StepEngineSettings.SetSteps | controls/src/main/java/org/tweetwallfx/controls/stepengine/config/StepEngineSettings.java:57-71 | a non-null list is stored and returned by the getter; null fails with "steps must not be null!" and keeps the old steps; the data-provider settings never change |
| StepEngineConfig.StepEngineSettings.SetDataProviderSettings | controls/src/main/java/org/tweetwallfx/controls/stepengine/config/StepEngineSettings.java:78-90 | stores exactly its argument, null included, and leaves the steps unchanged |
| CloudToTweet.RequiredDataProviders | controls/src/main/java/org/tweetwallfx/controls/steps/CloudToTweetStep.java:358-363 | the declared providers are exactly the tweet, media-image and profile-image providers |
| CloudToTweet.ShouldSkip | controls/src/main/java/org/tweetwallfx/controls/steps/CloudToTweetStep.java:74-76 | the step is skipped exactly when there is no current tweet |
| CloudToTweet.PreferredStepDuration | controls/src/main/java/org/tweetwallfx/controls/steps/CloudToTweetStep.java:79-81 | always five seconds |
| CloudToTweet.LookupsAreDeclared | controls/src/main/java/org/tweetwallfx/controls/steps/CloudToTweetStep.java:358-363 | every provider lookup of shouldSkip, doStep, createInfoBox and createMediaBox is for a declared provider; every declared provider is looked up on some path; with the providers registered, every lookup succeeds |
| CloudToTweet.TrimStart | controls/src/main/java/org/tweetwallfx/controls/steps/CloudToTweetStep.java:108 | the result is no longer than the text and does not start with a character up to U+0020 |
| CloudToTweet.TrimStartIsSuffix | controls/src/main/java/org/tweetwallfx/controls/steps/CloudToTweetStep.java:108 | the result is a suffix of the text, and every character dropped before it is one up to U+0020 |
| CloudToTweet.TrimEnd | controls/src/main/java/org/tweetwallfx/controls/steps/CloudToTweetStep.java:108 | the result is no longer than the text, does not end with a character up to U+0020, and keeps the first character |
| CloudToTweet.TrimEndIsPrefix | controls/src/main/java/org/tweetwallfx/controls/steps/CloudToTweetStep.java:108 | the result is a prefix of the text, and every character dropped after it is one up to U+0020 |
| CloudToTweet.Trim | controls/src/main/java/org/tweetwallfx/controls/steps/CloudToTweetStep.java:108 | the trimmed text neither starts nor ends with a character up to U+0020 and is no longer than the text |
| CloudToTweet.TrimIsSubstring | controls/src/main/java/org/tweetwallfx/controls/steps/CloudToTweetStep.java:108 | `String.trim`: the result is the substring `s[a..b]`, every character outside `[a, b)` is one up to U+0020, and (with `Trim`'s ensures) `a` and `b` bound the first and last character above it |
| CloudToTweet.FindFirst | controls/src/main/java/org/tweetwallfx/controls/steps/CloudToTweetStep.java:116 | a found word is a layout word whose trimmed text is the one looked up |
| CloudToTweet.TrimmedTexts | controls/src/main/java/org/tweetwallfx/controls/steps/CloudToTweetStep.java:107-108 | the key of layout word i is its trimmed text |
| CloudToTweet.FindFirstFindsFirstOccurrence | controls/src/main/java/org/tweetwallfx/controls/steps/CloudToTweetStep.java:116 | looking a layout word's trimmed text up always finds a word, and finds the word itself when no earlier word has that text |
| CloudToTweet.AssignCloud | controls/src/main/java/org/tweetwallfx/controls/steps/CloudToTweetStep.java:108-110 | after n words of `Assign`, the cloud map is the original minus the keys of those n words; at the end its remaining entries are the ones nobody reused, which fade out |
| CloudToTweet.AssignAdded | controls/src/main/java/org/tweetwallfx/controls/steps/CloudToTweetStep.java:107-145 | `Assign`, which iterates the one-word step `AssignStep` (lines 108-130), appends exactly one tweet word list entry per layout word, in layout order; entry i pairs word i with the cloud node of its key if that key is in the cloud and occurs at no earlier word, otherwise with a created node; there are n moves and fade-ins together |
| CloudToTweet.AssignMovedAndCreated | controls/src/main/java/org/tweetwallfx/controls/steps/CloudToTweetStep.java:108-130 | the moves of `Assign` (iterating `AssignStep`) are the reused cloud nodes and its fade-ins are the created nodes, each in layout order (`MovedNodes`, `CreatedNodes`, defined from the keys alone) |
| CloudToTweet.MovedOrCreated | controls/src/main/java/org/tweetwallfx/controls/steps/CloudToTweetStep.java:108-130 | every word's node either moves (when the word reuses a cloud node) or fades in (otherwise); nothing else moves or fades in; there are n of them together |
| CloudToTweet.ReusedWordLooksUpItsOwnBounds | controls/src/main/java/org/tweetwallfx/controls/steps/CloudToTweetStep.java:109-116 | a word that takes over a cloud node finds itself when its bounds are looked up by text |
| CloudToTweet.EachCloudEntryReusedOnce | controls/src/main/java/org/tweetwallfx/controls/steps/CloudToTweetStep.java:108-110 | no two words take over the same cloud entry, and a repeated word gets a fresh node |
| CloudToTweet.MaxY | controls/src/main/java/org/tweetwallfx/controls/steps/CloudToTweetStep.java:120-122 | the largest y among the start value and the positions: an upper bound that is attained |
| CloudToTweet.LoweredIsLower | controls/src/main/java/org/tweetwallfx/controls/steps/CloudToTweetStep.java:120-122 | the corner keeps its x; its new y is the larger of its old y and the word's |
| CloudToTweet.PlaceLowerLeft | controls/src/main/java/org/tweetwallfx/controls/steps/CloudToTweetStep.java:100-141 | `Place`, which iterates the one-word step `PlaceStep` (lines 118-122), computes one position per word; the lower-left corner keeps its x and ends at the largest y among its start and all word positions |
| CloudToTweet.LowerLeftNeverRises | controls/src/main/java/org/tweetwallfx/controls/steps/CloudToTweetStep.java:120-122 | the lower-left y never decreases from one word to a later one |
| CloudToTweet.CreateMediaBox | controls/src/main/java/org/tweetwallfx/controls/steps/CloudToTweetStep.java:193-251 | no media box (null) exactly when the origin tweet has no media entries; otherwise the box holds min(3, n) images, and image i is the one for media entry i |
| CloudToTweet.PlaceWord | controls/src/main/java/org/tweetwallfx/controls/steps/CloudToTweetStep.java:107-145 | given the state of `Assign` and `Place` after the words before `i`, one loop iteration leaves the state after word `i`: the cloud map, the tweet word list, the moves and fade-ins, the lower-left corner and the line offset; it leaves the info and media boxes alone |
| CloudToTweet.PlaceWords | controls/src/main/java/org/tweetwallfx/controls/steps/CloudToTweetStep.java:107-145 | after the loop, the cloud map, the appended entries, the moved and created nodes and the lower-left corner are those of `Assign` and `Place` over all layout words |
| CloudToTweet.DoStep | controls/src/main/java/org/tweetwallfx/controls/steps/CloudToTweetStep.java:84-184 | with no tweet it fails before changing anything; otherwise the cloud map ends empty, the fade-outs are the unreused entries, the tweet word list grows by the assigned entries, the info box sits at the final lower-left corner with the origin user's profile image, the media box is as above, and the provider lookups are the tweet, profile and (with media) media-image providers |

## Left out

- `SessionData.toString`, `StepEngineSettings.toString` and the nested classes' `toString`: they depend on a `ToString` utility that is not part of this model.
- `LOG.info` in `from`: logging.
- `ConfigurableObjectBase.getConfig`: that class is not part of this model. `StepEngineSettings.Converter.getDataClass`, `FactoryImpl.create` and `FactoryImpl.getStepClass` return a class object or a new step and state nothing to prove.
- Step-engine internals (the scheduler, the resolver and `MachineContext`): these are not part of this model. The context is reduced to the set of registered providers, the current tweet and the two image lookups.
- Wired: doStep requires every declared provider to be registered. This models what the engine is assumed to guarantee, since a missing provider would make `getDataProvider` return nothing usable. ShouldSkip likewise requires the providers it looks up (`ShouldSkipLookups`).
- JavaFX work in `CloudToTweetStep` is not modelled: transitions and their timing, font sizes, bindings, node construction, the info box's labels, icons and date format, adding nodes to the pane, and the asynchronous `context.proceed()` when the animation ends. Text nodes are modelled as values (a cloud node or a created node), and the media box as its list of images.
- The tweet layout's arithmetic (`minPosTweetText`, `width`, `tweetWordLineOffset`, `layoutTweetWord`): arbitrary functions held in `TweetLayout`. Positions are reals, not doubles, so floating-point rounding is not modelled.
- `Word` equality: the cloud map is keyed by the trimmed text. This assumes `Word` equality is by text, as the lookup at line 116 also compares by text.
- Instants and times of day are in whole seconds; nanoseconds are not modelled. Zone rules are reduced to their offset at each instant. `Room` is a key ordered by an integer id, and room equality is id equality.
- Java list aliasing: the settings store the list value they are given, so a caller that later mutates its list is not modelled.
- PlaceStep: lays each word out with its own bounds. The loop looks a reused word's bounds up by text, and `ReusedWordLooksUpItsOwnBounds` proves that this lookup finds the word itself, so the two agree.
- CreatedText: a created node is a value, so it could equal a value already in the cloud map. The model does not capture that `createTextNode` returns a new object distinct from every cloud node.
