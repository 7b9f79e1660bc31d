# MemoryGarden core in Dafny

MemoryGarden is a journaling app. Each memory is planted as a plant chosen by its emotion. Weather is simulated, and it makes the plants grow stage by stage. This project models the app's rules as pure functions over immutable datatypes, and proves their properties:

- **Plants** (`plants.dfy`): the seven-plant catalog, the emotion-to-plant table with its sunflower fallback, and the uniform pick among rare and legendary plants.
- **Weather** (`weather.dfy`): the starting sample, the sample each tick generates, the season of a month, and the rolling history of the last 24 samples.
- **Growth** (`growth.dfy`): the growth timer's per-memory state machine. It has a bloom event, and the stage is capped at the plant's last stage.
- **Memories** (`memories.dfy`): planting a memory, including the rare-plant discovery, and liking a memory by id.
- **Stats** (`stats.dfy`): the statistics block. This covers counts, the average mood, the most frequent emotion and location with their tie rule, and the highest stage.
- **Listing** (`listing.dfy`): the search and emotion filter, followed by the stable sort by date, mood or growth.
- **MemoryForm** (`memory_form.dfy`) with **Text** (`text.dfy`): the form's trimmed, duplicate-free tag and companion lists, and the submit guard.
- **Types** and **Seqs**: the record shapes, plus an order-preserving filter with its subsequence, count and distinctness facts.

Randomness, the clock, new ids, the calendar month, the search match and the date parser all become explicit parameters.

- Every `Math.random()` is a draw: a real number in [0, 1).
- Every timestamp or id is a string argument.
- The month is an integer.

The weather numbers and growth factors are Dafny reals, an idealisation of JavaScript doubles.

Two facts about the code shape the model:
- `Math.random()` returns values in [0, 1) and never 1, so over the reals every generated sample range is half-open, for example temperature in [65, 90).
- The growth timer reads `plantTypes[memory.plantType]` without a guard, so an unknown plant key makes it throw. The model makes catalog membership a precondition of the tick rather than inventing a fallback plant.

## Model

| member | source | states |
|---|---|---|
| Plants.PlantKeysEnumerateCatalog | src/data/plants.ts:3-67 | the catalog has exactly seven plants; the key order (sunflower, lavender, wildflower, oak, rose, cactus, cherry) lists each key once and nothing else |
| Plants.CatalogShape | src/data/plants.ts:3-67 | every plant has five stages, so its top stage is 4, and every growth factor lies in [0, 1] |
| Plants.GetPlantByEmotion | src/data/plants.ts:69-79 | the result is always a catalog key, and any string that names no emotion falls back to the sunflower |
| Plants.EmotionTable | src/data/plants.ts:70-77 | joy, peaceful, adventurous, nostalgic, romantic and energetic map to sunflower, lavender, wildflower, oak, rose and cactus |
| Plants.EmotionPlantsInjective | src/data/plants.ts:69-79 | distinct emotions give distinct plants, and no emotion gives the legendary cherry |
| Plants.RarePlantsAre | src/data/plants.ts:82-84 | the rare candidates, filtered in key order, are exactly oak, cactus and cherry |
| Plants.PickIndex | src/data/plants.ts:85 | scaling a draw in [0, 1) by n and flooring gives an index below n, namely the floor of draw·n |
| Plants.GetRandomRarePlant | src/data/plants.ts:81-86 | for every draw, the pick is a catalog key of rarity rare or legendary, i.e. one of oak, cactus, cherry |
| Plants.PickIndexBand | src/data/plants.ts:85 | index i is picked exactly for draws in [i/n, (i+1)/n) |
| Plants.RarePickBand | src/data/plants.ts:81-86 | the rare pick is uniform: candidate i is chosen exactly for draws in [i/3, (i+1)/3), so each rare plant is reachable |
| Weather.Initial | src/hooks/useWeather.ts:5-14 | the feed starts at 75/60/80/5/10 with season summer and an empty history, and that sample lies in the generated ranges |
| Weather.NewSample | src/hooks/useWeather.ts:18-25 | with draws in [0, 1), over the reals: temperature in [65, 90), humidity in [40, 80), sunlight in [60, 100), wind in [0, 15), precipitation in [0, 30), season of the month |
| Weather.GetCurrentSeason | src/hooks/useWeather.ts:34-40 | spring exactly for months 2-4, summer 5-7, fall 8-10, and winter for every other integer |
| Weather.SeasonBlocks | src/hooks/useWeather.ts:34-40 | on months 0-11 the seasons are three-month blocks starting at December: winter, spring, summer, fall |
| Weather.Tick | src/hooks/useWeather.ts:27-28 | the sample becomes current; the history grows to min(old + 1, 24), ends with the sample, and before it keeps the newest old entries in order |
| Weather.HistoryAfterTicks | src/hooks/useWeather.ts:28 | after any ticks, the history is the last 24 of the old history followed by the samples |
| Weather.HistoryFromStart | src/hooks/useWeather.ts:14-28 | from start-up, after n ticks the history is exactly the newest min(n, 24) samples in order, and the current sample is the last one |
| Growth.WeatherMatch | src/App.tsx:35-40 | for a non-negative sample and factors in [0, 1], the match is non-negative and at most the unweighted sum of the normalised fields |
| Growth.ShouldGrow | src/App.tsx:42 | a draw in [0, 1) never succeeds when the match is 0 or less, and always succeeds once the match reaches 12.5 |
| Growth.GrowthChanceBelow | src/App.tsx:35-42 | for a catalog plant and a generated sample, the weather match lies in [0, 4), so a draw of 0.32 or more never grows a plant |
| Growth.GrowMemory | src/App.tsx:43-65 | the stage rises by exactly one when the draw succeeds below the top stage and is unchanged otherwise; it never falls or passes the top; a bloom is reported exactly when the top is reached; the sample is always recorded, the timestamp only on growth; nothing else changes |
| Growth.TickMemory | src/App.tsx:33-66 | for the memory's catalog plant, the stage rises by one exactly when the draw is below 8% of the weather match and the stage is below the top; the timestamp becomes now exactly then; bloom is reported exactly when the rise reaches the top; the sample is recorded; nothing else changes |
| Growth.GrowthTick | src/App.tsx:31-70 | the list keeps its length and order; memory i is ticked with draw i; it rises by one, and takes the new timestamp, exactly when draw i is below 8% of its plant's weather match and it is below stage 4; it keeps id, input, plant, likes and creation time, records the sample, and is flagged bloomed exactly when it reaches 4 |
| Growth.Grow | src/App.tsx:54-65 | over any run of ticks, a memory's plant, id, input, likes and creation time never change |
| Growth.StageMonotone | src/App.tsx:43-46 | over any run of ticks the stage never falls and never passes the top; the run ends at the top exactly when the memory started there or bloomed |
| Growth.BloomsAtMostOnce | src/App.tsx:45-52 | a memory emits the bloom event at most once over any run of ticks; it emits none if it starts at the top; after the bloom it stays at the top |
| Growth.SunflowerBloomsInSun | src/App.tsx:35-52 | a stage-3 sunflower in a 90/20/100/0/0 sample grows with chance 0.1344: a draw below it gives stage 4 and the bloom, any other draw leaves stage 3 |
| Memories.ChoosePlant | src/App.tsx:73-82 | a rare discovery happens exactly when mood is at least 9 and the draw is below 0.15, and then the plant is rare or legendary; otherwise it is the emotion's plant; a discovery plants the uniform pick `GetRandomRarePlant` makes from the second draw |
| Memories.AddMemory | src/App.tsx:72-94 | exactly one record is appended at the end, with earlier records untouched; the new record has the input, the new id, stage 0, no likes, no weather, the first clock reading as creation time and the second as update time, and a catalog plant; below mood 9 its plant is the emotion's plant; on a rare discovery it is the uniform rare pick from the second draw |
| Memories.AddKeepsGrowable | src/App.tsx:84-94 | planting keeps every memory's plant in the catalog and every stage within its plant's range, so the growth tick stays defined |
| Memories.JoyfulMemoryPlantsSunflower | src/App.tsx:72-94 | a joyful memory with mood 5 plants a sunflower at stage 0 with no likes and no rare discovery |
| Memories.LikeMemory | src/App.tsx:103-108 | records with the id get exactly one more like and the new timestamp; all others are identical; an absent id leaves the list unchanged |
| Memories.LikeAddsMatches | src/App.tsx:103-108 | a like raises the garden's total likes by the number of records with that id |
| Stats.TallyOf | src/App.tsx:118 | the tally of a key list holds each key at most once, as the keys of a counting object do |
| Stats.Bump | src/App.tsx:118 | counting a key adds one to its entry in place, or appends it with count 1 when it is new; no other count changes |
| Stats.TallyCovers | src/App.tsx:118 | the tally's keys are exactly the keys seen |
| Stats.TallyCounts | src/App.tsx:118 | every tally entry holds the number of occurrences of its key |
| Stats.TallyOrder | src/App.tsx:118-119 | the tally lists keys in order of first occurrence, as the entries of the counting object enumerate |
| Stats.HeaviestIndex | src/App.tsx:119 | the chosen entry has the largest count, and every earlier entry has a strictly smaller one, as a stable descending sort puts first |
| Stats.MostCommon | src/App.tsx:117-123 | for no keys the result is empty; otherwise it is a key that occurs most often, and the first seen among equally frequent keys |
| Stats.HeaviestKey | src/App.tsx:117-119 | the first heaviest tally entry's key is a most frequent key and precedes every other key of equal frequency |
| Stats.PlantsGrown | src/App.tsx:115 | the result is exactly the number of memories past stage 0, so it is at most the number of memories and is zero exactly when no plant has left stage 0 |
| Stats.AverageMood | src/App.tsx:116 | an empty garden averages 0; otherwise the average times the number of memories is the total mood |
| Stats.AverageMoodBounds | src/App.tsx:116 | when every mood lies in [lo, hi], so does the average of a non-empty garden |
| Stats.LongestGrowthStreak | src/App.tsx:120 | the result is at least 0 and at least every stage, and is either 0 or some memory's stage |
| Stats.GardenStatsOf | src/App.tsx:113-125 | total is the list length; grown plants are exactly the memories past stage 0; the average is the mean mood, 0 when empty; an empty garden gives 0, 0, "" and ""; the emotion and the location each come from the garden, occur most often, and are the first seen among equally frequent values; the streak is the highest stage and never below 0: it is 0 or some memory's stage, and no stage exceeds it |
| Listing.Visible | src/App.tsx:128-135 | the visible list is a subsequence whose every element passes the search and emotion filter, and it keeps every element that passes; its length is the number of memories that pass; with no filter and a matching search it is the whole list |
| Listing.Comparator | src/App.tsx:136-145 | for each sort choice, the comparator is negative exactly when the first memory's mood, stage or parsed date is larger, and zero exactly when they tie |
| Listing.NeverSwaps | src/App.tsx:136-145 | in a list ordered by descending key, the comparator is never positive on a pair taken in list order |
| Listing.SortDescending | src/App.tsx:136-145 | the sort result is a permutation of its input, with keys never increasing |
| Listing.InsertKeepsOrder | src/App.tsx:136-145 | inserting into a key-descending list keeps it key-descending |
| Listing.InsertKeepsTies | src/App.tsx:136-145 | insertion keeps the order of each equal-key group and puts the new element first in its group |
| Listing.SortKeepsTies | src/App.tsx:136-145 | the sort is stable: for every key value, the elements carrying it keep their input order |
| Listing.FilteredMemories | src/App.tsx:128-145 | the displayed list is a permutation of the visible list; every element passes both filters; keys by the chosen order never increase, so the comparator never asks for a displayed pair to be swapped |
| Listing.ListingKeepsTies | src/App.tsx:128-145 | memories tying on the chosen key are displayed in stored-list order |
| Text.Trim | src/components/MemoryForm.tsx:37 | the result is trimmed and is the slice of the input with only white space around it; it is empty exactly when the input is all white space |
| Text.TrimTrimmed | src/components/MemoryForm.tsx:37 | trimming a string that is already trimmed returns it unchanged |
| Text.TrimIdempotent | src/components/MemoryForm.tsx:37 | trimming twice equals trimming once |
| MemoryForm.InitialForm | src/components/MemoryForm.tsx:12-25 | a fresh form has empty text fields, today's date, no emotion, no tags or companions, mood 5, not public, and empty inputs |
| MemoryForm.AddEntry | src/components/MemoryForm.tsx:36-44 | the trimmed input is appended exactly when it is non-empty and not yet listed, and the input is cleared exactly then; otherwise nothing changes |
| MemoryForm.RemoveEntry | src/components/MemoryForm.tsx:46-51 | every copy of the value is removed, every other element is kept, and the order is preserved |
| MemoryForm.AddTag | src/components/MemoryForm.tsx:36-44 | an input that trims to empty or is already a tag changes nothing; otherwise the trimmed tag is appended and the input cleared; no other field changes |
| MemoryForm.RemoveTag | src/components/MemoryForm.tsx:46-51 | the tag is gone, the others stay in order, and no other field changes |
| MemoryForm.AddCompanion | src/components/MemoryForm.tsx:53-61 | the same add rule for companions; no other field changes |
| MemoryForm.RemoveCompanion | src/components/MemoryForm.tsx:63-68 | the same remove rule for companions; no other field changes |
| MemoryForm.HandleSubmit | src/components/MemoryForm.tsx:70-78 | nothing is submitted exactly when no emotion is chosen; otherwise the form's fields are submitted with the season forced to summer |
| MemoryForm.AddEntryKeepsClean | src/components/MemoryForm.tsx:36-44 | adding keeps a list duplicate-free, with every entry non-empty and trimmed |
| MemoryForm.RemoveEntryKeepsClean | src/components/MemoryForm.tsx:46-51 | removing keeps a list duplicate-free, with every entry non-empty and trimmed |
| MemoryForm.ListsStayClean | src/components/MemoryForm.tsx:36-68 | under any sequence of typing, adding and removing, clean tag and companion lists stay clean |
| MemoryForm.FreshFormStaysClean | src/components/MemoryForm.tsx:12-68 | starting from a fresh form, the tag and companion lists are always duplicate-free, with no empty or untrimmed entry |

## Left out

- Timers and their teardown (`setInterval`/`clearInterval` for the growth and weather ticks) are left out. One tick is a function, and a run of ticks is a sequence.
- `Math.random()`, `Date.now()` ids, ISO timestamps, `new Date().getMonth()` and the form's `today` are parameters, not modelled.
- Weather.NewSample: the ranges are half-open over the reals only. In doubles, the largest `Math.random()` values (1 − 2⁻⁵² or 1 − 2⁻⁵³) make `65 + r * 25`, `40 + r * 40` and `60 + r * 40` round to exactly 90, 80 and 100, so the source's temperature, humidity and sunlight can reach their upper bounds.
- Floating point is idealised as real arithmetic. Rounding in the weather match and in the `Math.floor(Math.random() * n)` pick is not modelled.
- Toast notifications are not modelled, except the bloom and rare-discovery events, which are returned as flags.
- Persistence through `useLocalStorage` is storage plumbing and is not modelled. The memory list is an explicit value passed in and returned.
- The case-insensitive search match and `new Date(...).getTime()` are not modelled. They are a predicate and a key function supplied by the caller.
- The export dialog, the memory card, the statistics and weather widgets, and all markup are display and foreign I/O only, so they are left out.
- Plant colours, descriptions and benefits are display-only and are not modelled.
- `memoryTrends` is always empty in the source and is not modelled.
- The optional record fields (user id, coordinates, photos, audio note) are not modelled. No modelled operation reads or writes them.
- A memory whose plant key is missing from the catalog makes the source's growth timer fail. The model makes catalog membership a precondition instead of inventing a fallback.
- The growth timer reads the current weather through its closure. The model passes the current sample to each tick explicitly.
- Plants.GetPlantByEmotion: strings that name `Object.prototype` members, such as "constructor", give a non-string in the source; the model sends them to the sunflower like every other unknown string. The form only ever submits one of the six emotions.
- Stats.MostCommon: the tally is kept in first-seen order. The source's `Object.entries` puts integer-like keys (a location such as "42") first, in ascending order, and this is not modelled. Keys that name inherited object members ("toString", "constructor", "__proto__") are not modelled either. The source's `acc[k] || 0` reads the inherited member, so such a key's count becomes a string and the sort on it is unreliable. For the locations "a", "toString", "toString" the source picks "a", while the model picks "toString". The emotion keys are never such names.
- Stats.TallyOrder: the first-seen order holds for the model's tally. It is not promised for the source's object when a key is integer-like or names an inherited object member, for the reasons given under Stats.MostCommon.
- MemoryForm.AddTag: the duplicate check reads the list the form was rendered with, while the update applies to the latest list. The model applies each edit to the latest state, as one edit per render does.
- MemoryForm.AddCompanion: the same render-time read as for tags is not modelled.
- Listing.FilteredMemories: date keys are whatever the supplied parser returns. Invalid dates, which compare as NaN in the source, are not modelled.
