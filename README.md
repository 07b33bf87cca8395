# action-parser in Dafny

A model of the statistics pipeline of MinoMuncher's action-parser, a
service that turns the placement logs of TETR.IO replays into per-player
statistics. The model covers:

- the board analyzer (stack height, bottom garbage height, well, cheese);
- the placement pass `CumulativePlacementStats::from`, a single loop that
  counts clear and shape kinds, attributes damage and lines to garbage,
  stack and cheese, tracks the opener, records the per-placement series
  and runs two automata that cut the game into combo and back-to-back
  segments;
- `absorb`, the merge of two statistics bundles, both as a value and as the
  in-place update of an object that holds the two fixed-size counter arrays;
- the integer fields of `PlayerStats::from`;
- the `auto_muncher` client: the line protocol with the parser service,
  one analysis thread per game and the joins, the table of parsed files and
  its update on watcher events, and the merge by player name in
  `output_data`;
- the TCP server in `main.rs`: reading a request, the name filter, the
  grouping of placements by player and the summary of each player;
- the answer checks of `download_replay`;
- the replay cache: read, write, the start-up expiry sweep and the trim
  that deletes the 800 oldest files once there are more than 1000.

Each loop of the source that the model covers is a method proved equal
to a declarative definition; the declarative definitions carry the properties: the
counters sum to the number of placements, the segments are exactly the
maximal runs of their chains, the merge is associative with the default
bundle as its identity, a replay is `Corrupt` exactly when every game line
is `CORRUPT`, the trim removes the oldest files, and so on.

The definitions of `replay_response.rs` (the placement record, `MinoType`,
`ClearType`), `solver.rs` and the `blockfish` crate are not part of this
model: the placement record is restated with the fields the statistics
read, the order of the mino and clear kinds is the model's own, and
`solve_state`, the blockfish analysis and `is_multipliable` are given as
functions in an `Oracles` value.

Behaviours of the code that the model keeps as written:

- a trim deletes exactly 800 files (`for i in 0..MAX_TRIMMED_FILES`,
  src/cache.rs:34-36), so 1001 files become 201 (`Cache.TrimCount`);
- `absorb` concatenates lists in operand order, so it is associative with
  an identity but not commutative on bundle values;
- `error_for_status` rejects only 4xx and 5xx statuses;
- `auto_muncher` sends the parser the number of all names and requests
  every name; it does no name filtering;
- `download_replay` checks `success` before it looks at `game`;
- `main.rs` neither consults the cache nor sends a status line per replay:
  it reads every replay inline, answers once, and answers nothing when a
  replay does not decode.

## Model

| member | source | states |
|---|---|---|
| BoardAnalyzer.TopRowFrom | src/board_analyzer.rs:4-10 | the row found lies between y and 40 (meaning in TopRowFromMeaning) |
| BoardAnalyzer.TopRowFromMeaning | src/board_analyzer.rs:4-10 | the row found is non-empty unless it is 40, and every row from y down to it is empty |
| BoardAnalyzer.Height | src/board_analyzer.rs:3-12 | the height is at most 40 (meaning in HeightMeaning) |
| BoardAnalyzer.HeightMeaning | src/board_analyzer.rs:3-12 | the height is 0 exactly for an empty board; otherwise row 40 - h is occupied and every row above it is empty |
| BoardAnalyzer.GetHeight | src/board_analyzer.rs:3-12 | the top-down scan returns Height: 40 minus the first occupied row, 0 for an empty board |
| BoardAnalyzer.TopRowIs | src/board_analyzer.rs:3-12 | a non-empty row y with all rows above it empty fixes the height at 40 - y |
| BoardAnalyzer.GarbageRowsFrom | src/board_analyzer.rs:15-26 | the streak counted from k lowest garbage rows lies between k and 40 |
| BoardAnalyzer.GarbageRows | src/board_analyzer.rs:15-26 | the bottom garbage streak is at most 40 rows |
| BoardAnalyzer.GarbageRowsMeaning | src/board_analyzer.rs:15-26 | the r lowest rows hold garbage and, unless r is 40, the row above them does not |
| BoardAnalyzer.GarbageStreakEnds | src/board_analyzer.rs:15-26 | a streak of r garbage rows followed by a row without garbage has length exactly r |
| BoardAnalyzer.GarbageHeight | src/board_analyzer.rs:14-28 | below 40, and the bottom garbage streak modulo 40: a board of forty garbage rows falls through the scan and reports 0 |
| BoardAnalyzer.GetGarbageHeight | src/board_analyzer.rs:14-28 | the bottom-up scan returns GarbageHeight |
| BoardAnalyzer.GarbageHeightAtMostHeight | src/placement_stats.rs:128-130 | garbage height never exceeds height, so the stack height `height - garbage_height` cannot underflow |
| BoardAnalyzer.ColumnTopFrom | src/board_analyzer.rs:32-36 | the first occupied row of the column at or below y lies between y and 40 |
| BoardAnalyzer.ColumnHeight | src/board_analyzer.rs:31-38 | a column height is at most 40 |
| BoardAnalyzer.MinColumnHeight | src/board_analyzer.rs:39-40 | the minimum over the first n columns is at most 40 |
| BoardAnalyzer.Well | src/board_analyzer.rs:30-41 | the well is at most 40 (bounds and attainment in the lemmas below) |
| BoardAnalyzer.MinColumnHeightBelow | src/board_analyzer.rs:39-40 | the minimum over the first n columns is at most each of their heights |
| BoardAnalyzer.MinColumnHeightAttained | src/board_analyzer.rs:39-40 | the minimum over the first n columns equals the height of one of them |
| BoardAnalyzer.GetWell | src/board_analyzer.rs:30-41 | the column-height map followed by `min` returns Well, a lower bound attained by some column |
| BoardAnalyzer.WellBounds | src/board_analyzer.rs:30-41 | the well never exceeds the stack height, and an empty column makes it 0 |
| BoardAnalyzer.RightmostEmpty | src/board_analyzer.rs:48-55 | the hole column of a row is 10 or one of the first n columns |
| BoardAnalyzer.HoleColumns | src/board_analyzer.rs:46-58 | one hole column per row, bottom row first, each the rightmost Empty column of its row |
| BoardAnalyzer.TailStreak | src/board_analyzer.rs:59-63 | the streak is at most the length and at least 1 for a non-empty sequence |
| BoardAnalyzer.TailStreakMeaning | src/board_analyzer.rs:59-64 | the last n elements agree, and the one before them, if any, differs |
| BoardAnalyzer.NoBottomGarbageNoCheese | src/board_analyzer.rs:43-72 | a board whose bottom row has no garbage has no cheese |
| BoardAnalyzer.HasCheese | src/board_analyzer.rs:43-72 | the bottom-up walk returns Cheese: the topmost run of garbage rows sharing a hole column is 1 to 3 rows long |
| ReplayResponse.MinoIndex | src/placement_stats.rs:89 | the index of a kind is below 9 and MinoAt maps it back |
| ReplayResponse.MinoAtIndex | src/placement_stats.rs:89 | MinoAt and MinoIndex are inverse on the nine indices |
| ReplayResponse.ClearIndex | src/placement_stats.rs:93-95 | the index of a clear kind is below 16 and ClearAt maps it back |
| ReplayResponse.ClearAtIndex | src/player_stats.rs:99-101 | `try_from` on 0..16 and `as usize` are inverse, so the unwrap never fails |
| PlacementStats.NewBtbSegment | src/placement_stats.rs:273-289 | a one-block segment within the segment bounds, with the opening damage and well, I and T counted by shape |
| PlacementStats.NewComboSegment | src/placement_stats.rs:304-322 | a one-block segment within the bounds, no frames, one multiplier exactly when the opening clear is multipliable |
| PlacementStats.DefaultBundle | src/placement_stats.rs:5-30 | the default bundle is sound |
| PlacementStats.Merge | src/placement_stats.rs:34-62 | merging two well-formed bundles gives a well-formed one (laws in the Accumulator lemmas) |
| PlacementStats.Analyzed | src/placement_stats.rs:80 | one analysed step per placement, in order, each holding its placement |
| PlacementStats.Pieces | src/placement_stats.rs:220-224 | at most as long as the queue, and only placeable kinds |
| PlacementStats.ScorerQueue | src/placement_stats.rs:220-225 | a prefix of the queue's pieces, at most five, and all of them when there are fewer |
| PlacementStats.SeriesOf | src/placement_stats.rs:125-131 | exactly one sample per placement, in order |
| PlacementStats.Scores | src/placement_stats.rs:241-243 | at most one score per placement, every kept score positive |
| PlacementStats.OpenerEnd | src/placement_stats.rs:81-87 | the first step ending the opener, with none before it, or n when none does |
| PlacementStats.ChainRuns | src/placement_stats.rs:133-208 | closed runs end before n; a run is open exactly when the last step extends the chain, and it ends at n |
| PlacementStats.Runs | src/placement_stats.rs:133-208 | the runs lie within the first n steps (maximality in StatsProperties.RunsMaximal) |
| PlacementStats.WellsOf | src/placement_stats.rs:196-203 | one well per step of the range, in order |
| PlacementStats.Changes | src/placement_stats.rs:200-202 | there are fewer changes than entries |
| PlacementStats.GrowCombo | src/placement_stats.rs:145-150 | one more block, multipliers unchanged |
| PlacementStats.GrowBtb | src/placement_stats.rs:174-205 | one more block, and the well becomes that of the new placement |
| PlacementStats.ComboOf | src/placement_stats.rs:133-158 | the segment of a run is within the bounds and spans the run's blocks |
| PlacementStats.BtbOf | src/placement_stats.rs:160-208 | the segment of a run is within the bounds, spans the run, and keeps the well of its last step |
| PlacementStats.ComboOfMeaning | src/placement_stats.rs:133-158 | a combo segment holds the whole run's damage, the delays after its first placement, one multiplier exactly for a multipliable opener, and its opening and previous delays |
| PlacementStats.BtbOfTotals | src/placement_stats.rs:174-177 | a back-to-back segment holds the whole run's damage and the delays after its first placement |
| PlacementStats.BtbOfKept | src/placement_stats.rs:178-179 | its count of kept clears is the number of multipliable clears after the first placement |
| PlacementStats.BtbOfWastedI | src/placement_stats.rs:180-182 | wasted I pieces are the non-multipliable I placements after the first |
| PlacementStats.BtbOfWastedT | src/placement_stats.rs:183-185 | wasted T pieces are the non-multipliable T placements after the first |
| PlacementStats.BtbOfPieces | src/placement_stats.rs:188-192 | the I and T counts cover every placement of the run, the first included |
| PlacementStats.BtbOfWellshifts | src/placement_stats.rs:196-203 | well shifts count the changes of well between consecutive placements of the run |
| PlacementStats.ComboStep | src/placement_stats.rs:133-158 | one placement moves the combo automaton from its state after i steps to its state after i + 1 |
| PlacementStats.BtbStep | src/placement_stats.rs:160-208 | the same for the back-to-back automaton |
| PlacementStats.BuildMatrix | src/placement_stats.rs:227-234 | the nested scan returns Matrix: the occupied cells above the garbage, row 0 the lowest handed over |
| PlacementStats.MatrixBelowStack | src/placement_stats.rs:227-234 | every matrix cell lies below the height above the garbage and within the ten columns |
| PlacementStats.TallyOpener | src/placement_stats.rs:81-108 | after step i the opener flag and opener totals are those of the first i + 1 steps |
| PlacementStats.TallyCounts | src/placement_stats.rs:89-126 | shape and clear counters (empty board counted as a perfect clear), lines, damage and key presses advance to i + 1 steps |
| PlacementStats.TallyAttribution | src/placement_stats.rs:110-123 | garbage, stack and cheese attributions advance to i + 1 steps |
| PlacementStats.RecordSeries | src/placement_stats.rs:125-243 | delay, stack and garbage heights, both potentials and the positive score advance to i + 1 steps |
| PlacementStats.AdvanceCombo | src/placement_stats.rs:133-158 | the closed combo segments and the open one advance to i + 1 steps |
| PlacementStats.ExtendBtb | src/placement_stats.rs:174-205 | the open back-to-back segment becomes GrowBtb of it |
| PlacementStats.AdvanceBtb | src/placement_stats.rs:160-208 | the closed back-to-back segments and the open one advance to i + 1 steps |
| PlacementStats.TallyPlacement | src/placement_stats.rs:81-123 | the counters, attributions and opener totals advance one placement |
| PlacementStats.TrackPlacement | src/placement_stats.rs:125-243 | the series and the two chains advance one placement |
| PlacementStats.PassStart | src/placement_stats.rs:74-78 | the default bundle and no open segment describe the empty prefix |
| PlacementStats.PassComplete | src/placement_stats.rs:245-251 | closing the open segments after the last placement yields the reference bundle GameStats |
| PlacementStats.FromGame | src/placement_stats.rs:66-253 | the pass returns GameStats of the game, the declarative bundle whose properties StatsProperties proves |
| StatsProperties.ShapeCountsSum | src/placement_stats.rs:89 | the shape counters after n placements sum to n |
| StatsProperties.ClearCountsSum | src/placement_stats.rs:92-96 | the clear counters after n placements sum to n |
| StatsProperties.CountsSumToLength | src/placement_stats.rs:89-96 | both counter arrays of a bundle sum to the number of placements |
| StatsProperties.PerfectClearWhenEmpty | src/placement_stats.rs:90-96 | counted as a perfect clear iff the board is empty after the placement or it was reported as one; otherwise its reported kind |
| StatsProperties.AttributionStep | src/placement_stats.rs:110-123 | per placement: lines go to garbage or stack, damage to at most one of them, cheese within garbage, none for the first placement |
| StatsProperties.LinesSplit | src/placement_stats.rs:110-116 | over a range, garbage clears plus stack clears equal all cleared lines |
| StatsProperties.DamageSplit | src/placement_stats.rs:110-116 | over a range, damage attributed to garbage and stack is at most the damage sent |
| StatsProperties.CheeseWithinGarbage | src/placement_stats.rs:118-123 | cheese damage and lines are parts of garbage damage and lines |
| StatsProperties.CheeseSkipsFirst | src/placement_stats.rs:118-119 | the first placement never counts as cheese |
| StatsProperties.AttributionBounds | src/placement_stats.rs:110-123 | the four facts above for a whole bundle |
| StatsProperties.OpenerStable | src/placement_stats.rs:81-87 | once the opener has ended, longer prefixes agree on where |
| StatsProperties.OpenerBounds | src/placement_stats.rs:81-108 | opener blocks are the index of the first ending placement, or the whole game; damage and frames are those before it |
| StatsProperties.RunsMaximal | src/placement_stats.rs:133-208 | the automaton's runs are, in order, exactly the maximal runs of steps extending the chain |
| StatsProperties.CombosMeaning | src/placement_stats.rs:133-158 | what each combo segment of a list of runs holds |
| StatsProperties.BtbsMeaning | src/placement_stats.rs:160-208 | what each back-to-back segment of a list of runs holds |
| StatsProperties.CombosAreMaximalRuns | src/placement_stats.rs:133-158 | combo segments are, one to one and in order, the maximal runs of clearing placements, with their damage, delays and multiplier |
| StatsProperties.BtbsAreMaximalRuns | src/placement_stats.rs:160-208 | back-to-back segments are, one to one and in order, the maximal runs of non-breaking placements, with their damage and bounds |
| StatsProperties.StatsSound | src/placement_stats.rs:66-253 | every bundle of the pass is sound: array sizes and segment bounds |
| StatsProperties.StatsSeries | src/placement_stats.rs:125-243 | one delay, stack and garbage height per placement, stack height = height - garbage height, every kept score positive |
| StatsProperties.GameSeries | src/placement_stats.rs:90-131 | for a game, the heights are those of the boards the placements leave |
| Accumulator.MergeDefaultRight | src/placement_stats.rs:34-62 | absorbing the default bundle changes nothing |
| Accumulator.MergeDefaultLeft | src/placement_stats.rs:34-62 | absorbing into the default bundle yields the absorbed bundle |
| Accumulator.MergeAssociative | src/placement_stats.rs:34-62 | absorbing b then c equals absorbing the merge of b and c |
| Accumulator.MergeSound | src/placement_stats.rs:50-51 | merging sound bundles gives a sound bundle |
| Accumulator.MergeCounts | src/placement_stats.rs:35-36 | merging adds the counter sums of both bundles |
| Accumulator.MergeByFields | src/placement_stats.rs:34-62 | a bundle whose fields are the sums and concatenations of two others is their merge |
| Accumulator.CumulativeStats.Contents | src/placement_stats.rs:5-30 | the bundle value holds exactly the two arrays' contents |
| Accumulator.CumulativeStats.constructor | src/placement_stats.rs:5 | a valid object whose contents are the default bundle, with fresh arrays |
| Accumulator.CumulativeStats.Absorb | src/placement_stats.rs:34-62 | the new contents are Merge of the old contents and the argument; validity is kept |
| Accumulator.CumulativeStats.AddArrays | src/placement_stats.rs:35-36 | both arrays become the element-wise sums |
| Accumulator.CumulativeStats.AddAttributed | src/placement_stats.rs:40-45 | each attributed counter grows by the argument's |
| Accumulator.CumulativeStats.AddCounters | src/placement_stats.rs:37-56 | the plain and opener counters grow by the argument's |
| Accumulator.CumulativeStats.ExtendLists | src/placement_stats.rs:47-60 | each list is followed by the argument's list |
| Accumulator.AddInto | src/placement_stats.rs:35-36 | the array becomes the element-wise sum with the argument |
| PlayerStats.ClearTypeTable | src/player_stats.rs:97-101 | one entry per clear kind holding its counter |
| PlayerStats.TspinsAtMostClears | src/player_stats.rs:72-79 | the T-spin total is at most the number of placements counted by clear kind |
| PlayerStats.MaxOr0 | src/player_stats.rs:129-136 | an upper bound of every element, attained by one, and 0 for an empty list |
| PlayerStats.ComboLengths | src/player_stats.rs:135 | one length per segment, each one less than its blocks |
| PlayerStats.TrueCombos | src/player_stats.rs:88 | no longer than the input; a single segment is kept iff it has more than four blocks |
| PlayerStats.TrueCombosSnoc | src/player_stats.rs:88 | one more segment at the end is kept, at the end, iff it has more than four blocks |
| PlayerStats.TrueCombosCount | src/player_stats.rs:88 | a segment is kept iff it is in the input with more than four blocks, and as often as it occurs there |
| PlayerStats.TrueCombosAppend | src/player_stats.rs:88 | the filter keeps input order: filtering a concatenation concatenates the filtered parts |
| PlayerStats.TrueBtbs | src/player_stats.rs:92 | no longer than the input; a single segment is kept iff it kept the chain at least four times |
| PlayerStats.TrueBtbsSnoc | src/player_stats.rs:92 | one more segment at the end is kept, at the end, iff it kept the chain at least four times |
| PlayerStats.TrueBtbsCount | src/player_stats.rs:92 | a segment is kept iff it is in the input with at least four kept clears, and as often as it occurs there |
| PlayerStats.TrueBtbsAppend | src/player_stats.rs:92 | the filter keeps input order: filtering a concatenation concatenates the filtered parts |
| PlayerStats.TrueBtbWellshifts | src/player_stats.rs:92-93 | the true chains' well shifts are part of all well shifts |
| PlayerStats.TrueComboTotals | src/player_stats.rs:88-90 | the true combos' blocks and attack are parts of all combos' |
| PlayerStats.FromBundle | src/player_stats.rs:69-145 | the integer fields of `PlayerStats::from` satisfy Summarises: the clear table, true-chain well shifts, and the four maxima, each an upper bound attained by some segment and 0 when there is none |
| PlayerStats.MergeKeepsOpenerWithin | src/player_stats.rs:119 | absorbing keeps opener attack within total attack, so the midgame subtraction stays defined |
| Lines.LineAt | examples/auto_muncher.rs:146-147 | the line at i, or an empty line past the end of the input |
| Lines.Sanitize | examples/auto_muncher.rs:130-132 | a sanitised line never ends in a carriage return |
| Lines.SanitizeSteps | examples/auto_muncher.rs:130-132 | sanitising is the three-step strip pipeline |
| Lines.SanitizeSubstring | examples/auto_muncher.rs:130-132 | the result is the contiguous piece of the input after the leading marks |
| Lines.SanitizeClean | examples/auto_muncher.rs:130-132 | a line without a leading mark or trailing line break is unchanged |
| AutoMuncher.Names | examples/auto_muncher.rs:154-159 | at least one name; an empty line names one empty player |
| AutoMuncher.ScanGames | examples/auto_muncher.rs:181-191 | errors are only Unparsable or Unmunchable; at most one game per line |
| AutoMuncher.ScanGamesEmpty | examples/auto_muncher.rs:181-191 | no game iff every line of the player is CORRUPT |
| AutoMuncher.ScanGamesOk | examples/auto_muncher.rs:181-191 | reading succeeds iff every line is readable and CORRUPT or decodable |
| AutoMuncher.ScanStopped | examples/auto_muncher.rs:181-191 | once reading stops, more lines do not change the error |
| AutoMuncher.GameSound | examples/auto_muncher.rs:190 | the bundle of a game is sound |
| AutoMuncher.Thread | examples/auto_muncher.rs:190-194 | a joined thread yields a sound bundle, if any |
| AutoMuncher.ThreadsSound | examples/auto_muncher.rs:190-194 | every game's thread yields a sound bundle, if any |
| AutoMuncher.Spawned | examples/auto_muncher.rs:175-191 | one sound handle per game |
| AutoMuncher.SpawnedAt | examples/auto_muncher.rs:190 | the k-th handle is the thread of the k-th game |
| AutoMuncher.JoinHandles | examples/auto_muncher.rs:193-196 | an error is only Unmunchable; a success is sound |
| AutoMuncher.JoinHandlesPanics | examples/auto_muncher.rs:193-196 | joining fails iff some thread panicked |
| AutoMuncher.JoinPanics | examples/auto_muncher.rs:190-196 | a player's threads fail to join iff some game leaves the scorer no piece |
| AutoMuncher.JoinCounts | examples/auto_muncher.rs:193-196 | a player's bundle counts every placement of every game once and holds one delay per placement |
| AutoMuncher.LineOf | examples/auto_muncher.rs:173-183 | the i-th player's lines start i * num_games lines after the first player's |
| AutoMuncher.Players | examples/auto_muncher.rs:173-198 | one outcome per player |
| AutoMuncher.PlayersAt | examples/auto_muncher.rs:173-198 | the i-th outcome comes from the i-th player's own lines |
| AutoMuncher.PlayersPrefix | examples/auto_muncher.rs:173-198 | outcomes of fewer players are a prefix |
| AutoMuncher.PlayerOutcomeNoGame | examples/auto_muncher.rs:181-197 | a player saw no game iff reading succeeded with no game |
| AutoMuncher.PlayerOutcomeOk | examples/auto_muncher.rs:174-197 | a player succeeds iff reading and joining do, and then holds the joined bundle |
| AutoMuncher.AllCorruptPlayers | examples/auto_muncher.rs:181-187 | all lines are CORRUPT iff each player's own lines are |
| AutoMuncher.PlayersCorrupt | examples/auto_muncher.rs:169-201 | no player saw a game iff every game line is CORRUPT |
| AutoMuncher.PlayerCorrupt | examples/auto_muncher.rs:181-187 | the i-th player saw no game iff its own lines are CORRUPT |
| AutoMuncher.PlayersErrors | examples/auto_muncher.rs:181-196 | a player fails only with Unparsable or Unmunchable |
| AutoMuncher.NamesAfter | examples/auto_muncher.rs:173-198 | while going on, one pair per player with its name, and each name written in order |
| AutoMuncher.NamesBundles | examples/auto_muncher.rs:173-198 | while going on, every player succeeded and the pairs hold their bundles |
| AutoMuncher.NamesCorrupt | examples/auto_muncher.rs:169-201 | still fully corrupt iff no player saw a game; no failure and no game keeps it going |
| AutoMuncher.NamesStopped | examples/auto_muncher.rs:173-198 | after a stop, later players change neither the error nor the lines written |
| AutoMuncher.NamesErrors | examples/auto_muncher.rs:173-198 | the stopping error is that of the first failing player |
| AutoMuncher.OutcomeAfterHeader | examples/auto_muncher.rs:165-202 | after a sound header the name count is echoed and every player follows |
| AutoMuncher.OutcomeHeader | examples/auto_muncher.rs:139-163 | header failures: Connection, Unsupported for `false`, Unparsable for unreadable or malformed lines |
| AutoMuncher.OutcomeCorrupt | examples/auto_muncher.rs:199-201 | Corrupt iff the header is sound and every game line is CORRUPT |
| AutoMuncher.PlayersBundles | examples/auto_muncher.rs:173-198 | the i-th pair holds the bundle joined from that player's own lines |
| AutoMuncher.OutcomeOk | examples/auto_muncher.rs:135-202 | success writes the replay, the name count and every name, and gives one pair per name holding that player's analyses |
| AutoMuncher.OutcomeSound | examples/auto_muncher.rs:135-202 | every bundle a successful exchange returns is sound |
| AutoMuncher.Spawn | examples/auto_muncher.rs:190 | the handle is Thread of the game |
| AutoMuncher.ReadGames | examples/auto_muncher.rs:181-191 | returns ScanGames and keeps `fully_corrupt` only when no game was seen |
| AutoMuncher.SpawnAll | examples/auto_muncher.rs:190 | the handles are Spawned of the games |
| AutoMuncher.JoinAll | examples/auto_muncher.rs:193-196 | the pop loop returns JoinHandles into a fresh accumulator |
| AutoMuncher.ProcessPlayer | examples/auto_muncher.rs:174-197 | the player's part equals PlayerOutcome of its scan |
| AutoMuncher.ServePlayer | examples/auto_muncher.rs:173-198 | one round extends NamesAfter by one player |
| AutoMuncher.ServePlayers | examples/auto_muncher.rs:173-198 | the loop ends in NamesAfter over all players |
| AutoMuncher.ProcessReplay | examples/auto_muncher.rs:135-202 | the exchange and its result equal Outcome, whose properties the Outcome lemmas state |
| ResultTable.FileName | examples/auto_muncher.rs:40 | the part after the last separator: no separator, a suffix of the path |
| ResultTable.NameExtensionSuffix | examples/auto_muncher.rs:40 | a name has extension e iff it is a non-empty stem, a dot and e |
| ResultTable.ReplayPathMeaning | examples/auto_muncher.rs:39-41 | a path is a replay iff its file name is a stem followed by .ttrm or .ttr |
| ResultTable.Parsed | examples/auto_muncher.rs:61-76 | a successful parse inserts or replaces the path's entry, a failed one changes nothing, other paths untouched |
| ResultTable.ReplayPaths | examples/auto_muncher.rs:39-41 | exactly the event's replay paths |
| ResultTable.HandledEntry | examples/auto_muncher.rs:45-54 | per path: unchanged if not handled, gone if the file is missing, else the parse result or unchanged |
| ResultTable.EventEntry | examples/auto_muncher.rs:38-57 | a non-replay path's entry is never changed by an event |
| ResultTable.FileTable.constructor | examples/auto_muncher.rs:19 | an empty valid table |
| ResultTable.FileTable.ParseFile | examples/auto_muncher.rs:61-76 | the table becomes Parsed of the old table; validity kept |
| ResultTable.FileTable.Scan | examples/auto_muncher.rs:21-26 | the table becomes Handled over the listing's replay paths, every one of them present |
| ResultTable.FileTable.HandleEvent | examples/auto_muncher.rs:38-57 | the table becomes Handled over the replay paths; rewrite iff some path is a replay |
| ResultTable.FileTable.HandleReplays | examples/auto_muncher.rs:45-54 | the table becomes Handled over the given paths |
| ResultTable.Keep | examples/auto_muncher.rs:39-41 | returns the replay paths in order |
| ResultTable.Flatten | examples/auto_muncher.rs:80-81 | every flattened bundle is sound |
| ResultTable.BundlesNamed | examples/auto_muncher.rs:81-89 | the bundles of a sound list are sound |
| ResultTable.MergeAll | examples/auto_muncher.rs:81-89 | absorbing sound bundles gives a sound bundle |
| ResultTable.Collect | examples/auto_muncher.rs:79-91 | every merged value is sound |
| ResultTable.CollectMeaning | examples/auto_muncher.rs:79-91 | exactly the names that occur, each holding the in-order merge of all of its bundles |
| ResultTable.OutputData | examples/auto_muncher.rs:78-103 | raw is Collect over the files, and summary has the same names, each summarising its raw bundle |
| ResultTable.MergeFiles | examples/auto_muncher.rs:80-91 | returns Collect over the flattened files |
| ResultTable.CollectSnoc | examples/auto_muncher.rs:81-89 | one more pair copies a new name's bundle or merges into a known one |
| ResultTable.MergePlayers | examples/auto_muncher.rs:81-90 | extends the merged map to Collect over the new pairs |
| ResultTable.SummariseAll | examples/auto_muncher.rs:95-98 | same names, each summarising its bundle |
| StrUtil.Split | examples/auto_muncher.rs:156-158 | at least one piece, none containing the separator, and joining them gives the string back |
| StrUtil.SplitJoin | examples/auto_muncher.rs:156-158 | splitting a join of separator-free parts gives the parts |
| StrUtil.TrimStart | src/main.rs:26 | no longer than the input, and no leading whitespace |
| StrUtil.TrimEnd | src/main.rs:26 | no longer than the input, and no trailing whitespace |
| StrUtil.Trim | src/main.rs:26 | no longer than the input, and no whitespace at either end |
| StrUtil.TrimStartMeaning | src/main.rs:26 | what is dropped is a whitespace prefix |
| StrUtil.TrimEndMeaning | src/main.rs:26 | what is dropped is a whitespace suffix |
| StrUtil.StripLeading | examples/auto_muncher.rs:131 | no leading c is left |
| StrUtil.StripTrailing | examples/auto_muncher.rs:131 | no trailing c is left |
| StrUtil.StripLeadingMeaning | examples/auto_muncher.rs:131 | what is dropped is a prefix of c only |
| StrUtil.StripTrailingMeaning | examples/auto_muncher.rs:131 | what is dropped is a suffix of c only |
| StrUtil.ToAsciiLowercase | src/main.rs:29 | same length, no ASCII capitals, capitals shifted by 32 and other characters kept |
| StrUtil.ParseBool | examples/auto_muncher.rs:148 | true exactly for "true", false exactly for "false" |
| StrUtil.ParseUsize | examples/auto_muncher.rs:163 | accepted iff the text is an optional + followed by one or more digits whose value fits a usize, and then the value is that of the digits; empty input fails |
| StrUtil.NatToString | examples/auto_muncher.rs:165 | a non-empty digit string without a leading zero |
| StrUtil.ParseRendered | examples/auto_muncher.rs:163-165 | parsing a rendered usize gives it back |
| Client.FilterMembers | src/main.rs:25-31 | the filter lists exactly the non-empty normalised pieces of the line |
| Client.FilterEntriesNormal | src/main.rs:25-31 | every entry is non-empty, comma-free, lower-cased and trimmed |
| Client.KeptMeaning | src/main.rs:73-75 | a player is kept iff no piece names anybody or some normalised piece is the lower-cased name |
| Client.KeptLogs | src/main.rs:72-75 | exactly the kept logs of all replays |
| Client.GatherMeaning | src/main.rs:76-83 | a name is a key iff some log has it, and it holds all of its placements in order |
| Client.PlacementsNamedAppend | src/main.rs:68-85 | later logs' placements come after earlier ones' |
| Client.GroupedMeaning | src/main.rs:67-85 | one entry per kept name, with its placements from every replay in replay order |
| Client.GroupedAppend | src/main.rs:68-85 | one more replay appends its kept placements to each player's list |
| Client.Decoded | src/main.rs:68-70 | succeeds iff every line decodes, giving each line's decoding in order |
| Client.ProcessReplays | src/main.rs:63-99 | Malformed when a replay does not decode; else Panicked iff a kept player's pass panics; else one summary per grouped name |
| Client.GroupReplay | src/main.rs:72-84 | the map becomes Grouped with the replay's logs added |
| Client.SummarisedAll | src/main.rs:89-93 | once every player is summarised, the summaries are those of the passes and none panicked |
| Client.PlayerSummary | src/main.rs:89-92 | a summary exists iff the pass does not panic, and then summarises the pass's bundle |
| Client.SummariseGroups | src/main.rs:89-93 | Ok or Panicked; Panicked iff some pass panics; Ok gives the same names, each summarising its pass |
| Client.AddPlayer | src/main.rs:89-93 | nothing only when the pass panics; else the passes and summaries gain player n |
| Client.SummariseEach | src/main.rs:89-93 | Panicked only when some pass panics; Ok covers every name with its pass and summary |
| Client.ReadLines | src/main.rs:42-46 | succeeds iff each of the n lines is readable, giving them in order |
| Client.Request | src/main.rs:20-46 | BadCount exactly for an unparsable count; a success holds the filter of line 0 and exactly the counted replay lines |
| Client.ReadsExactly | src/main.rs:20-46 | lines after the last replay line are never read |
| Client.Delivered | src/main.rs:50-58 | output is written iff processing succeeded and the write and flush succeed, and then it is the processed map; WriteFailed iff processing succeeded but writing failed; Dropped iff a replay did not decode; Aborted iff a pass panicked |
| Client.ReadReplays | src/main.rs:40-46 | the loop returns ReadLines of the n replay lines |
| Client.ReadRequest | src/main.rs:20-46 | returns Request of the input |
| Client.HandleClient | src/main.rs:20-61 | a read error is returned; otherwise the result is Delivered of a ProcessReplays outcome and of whether the write succeeds |
| Download.Get | src/io.rs:63 | some value iff the value is an object with that key, and then that field |
| Download.Classify | src/io.rs:51-86 | Request iff sending failed or the status is 4xx/5xx; Unsuccessful iff success is false; Ok iff success is true and game is an object, giving it |
| Download.CorruptedMeaning | src/io.rs:61-86 | Corrupted iff the status passed and the body, success or game is missing or of the wrong kind |
| Download.UnsuccessfulFirst | src/io.rs:69-75 | success: false gives Unsuccessful whatever game holds |
| Download.OnlyTwoFields | src/io.rs:61-86 | only status, success and game decide the answer |
| Cache.FileNames | src/cache.rs:29 | exactly the names of regular files |
| Cache.FilesListed | src/cache.rs:29 | exactly the listed names of regular files, no longer than the listing |
| Cache.FilesListedNoDup | src/cache.rs:29 | filtering a repeat-free listing stays repeat-free |
| Cache.FilesListedCount | src/cache.rs:29-30 | the filtered listing holds each regular file once, so its length is the file count |
| Cache.Lookup | src/cache.rs:12-20 | the parse of the file's contents when the handle names a regular file, nothing when it is missing or not a file |
| Cache.Written | src/cache.rs:22-27 | the handle is a file with the new text and modified time; created kept on overwrite; other entries unchanged |
| Cache.ReadAfterWrite | src/cache.rs:12-27 | reading back gives the parse of the written text; other handles read as before |
| Cache.WriteOverwrites | src/cache.rs:22-27 | writing twice leaves the second write |
| Cache.SweptMeaning | src/cache.rs:50-59 | exactly the non-files and the files at most 18000 whole seconds old are kept, unchanged |
| Cache.SweepIdempotent | src/cache.rs:50-59 | sweeping again at the same time removes nothing more |
| Cache.SweepLater | src/cache.rs:55-57 | a later sweep keeps a subset of an earlier one |
| Cache.WholeSeconds | src/cache.rs:55 | a file 18000 s and 999999999 ns old survives; one 18001 s old does not |
| Cache.Sweep | src/cache.rs:50-59 | the loop returns Swept of the directory |
| Cache.Insert | src/cache.rs:33 | a permutation of the sequence plus x |
| Cache.SortByModified | src/cache.rs:33 | a permutation of the input |
| Cache.InsertSorted | src/cache.rs:33 | inserting into a sorted sequence keeps it sorted |
| Cache.SortSorted | src/cache.rs:33 | the sort is sorted by modification time, as long as its input |
| Cache.Victims | src/cache.rs:33-36 | exactly 800 names |
| Cache.VictimsOldest | src/cache.rs:33-36 | every victim was pending and is modified no later than any surviving pending file |
| Cache.VictimsDistinct | src/cache.rs:34-36 | the 800 victims are distinct |
| Cache.TrimCount | src/cache.rs:34-36 | a trim removes exactly 800 regular files, not down to 800 |
| Cache.ReplayCache.Initialize | src/cache.rs:42-60 | valid, not trimming; empty if the directory was absent, else the sweep of it |
| Cache.ReplayCache.CachedStats | src/cache.rs:12-20 | the parse of the file's contents when the handle names a regular file, nothing when it is missing or not a file |
| Cache.ReplayCache.SetCachedStats | src/cache.rs:22-40 | entries become Written; a running trim is kept; otherwise a trim starts iff more than 1000 files, holding the listed files |
| Cache.ReplayCache.RunTrim | src/cache.rs:32-38 | the 800 victims are removed, the file count drops by 800, the flag clears and validity holds |
| Cache.ReplayCache.RemoveFirst | src/cache.rs:34-36 | the first n listed names are removed and nothing else changes |

## Left out

- Sockets, files, threads and the clock are not executed: what a read
  returns is an input (`Line` sequences, `Reply`, a `Directory` map, the
  time `now`), and threads are modelled by what joining them yields, in the
  order the source joins them.
- Concurrency between the trim thread and other cache writes is not
  modelled: `RunTrim` runs as one step on the state the trigger left, and
  `Valid` records that only a trim deletes files.
- Floating point: frame delays and frame sums are whole frame counts, and
  the `f64` ratios of `PlayerStats::from` (efficiencies, per-minute rates,
  averages, variance) are left out; `PlayerStats.FromBundle` computes the
  integer fields only.
- Serialisation with serde: decoding a replay, a game line or a cached
  file is a `decode`/`parse` parameter, and writing JSON output is the
  map it would serialise. `Download.Classify` returns the `game` object
  rather than its text.
- The `notify` watcher, the command-line paths and the start-up scan's
  directory reading: `ResultTable.FileTable.Scan` takes the directory
  listing and `ResultTable.FileTable.HandleEvent` the event's paths and
  whether each exists. After the scan the output is written whatever the
  scan found (examples/auto_muncher.rs:27); after an event, only when it
  named a replay path.
- `io_auth` (a login request whose only logic is `unwrap`s) is not modelled.
- `HashMap` and `read_dir` iteration orders are parameters (`order`,
  `listing`) or chosen with `:|`; results are proved for every order.
- Path joining is not normalised: a cache handle is a file name in one
  directory, and `Path::file_name`/`extension` work on `/`-separated text.
- `Cache.SortByModified`: `sort_by` on a `Vec` in place is modelled on
  values as a stable insertion sort; sortedness and permutation are proved,
  stability is not.
- Cache panics become preconditions: a file created after `now`
  (`duration_since` fails), writing a handle that names a directory, and
  failing metadata reads.
- `PlacementStats.FromGame`: requires every placement to leave the scorer a
  piece; where `bf_queue.remove(0)` would panic the thread, the callers
  model the panic (`Unmunchable` in `auto_muncher`, `Panicked` in
  `main.rs`, which ends that connection with `Aborted`).
- `Client.Delivered`: a panicking pass ends only that connection with
  `Aborted`; in the source `handle_client` runs inline in the accept loop
  of `main` (src/main.rs:101-108), so the panic stops the whole server and
  no later connection is served.
- `AutoMuncher.Outcome`, `AutoMuncher.OutcomeHeader`,
  `AutoMuncher.ProcessReplay`: a write or flush that fails after the
  connection is made or the stream is cloned (examples/auto_muncher.rs:140-144, 165-167, 177-179) gives
  `Connection` in the source; the model treats every write after connecting
  as successful, so `Connection` arises only when connecting fails.
- Counters and sums are unbounded `nat`: a `usize` overflow in the `+=`
  updates (src/placement_stats.rs:35-56, src/player_stats.rs:72-79 and 93),
  a panic in debug builds and wrap-around in release builds, is not
  modelled.
- `Lines.LineAt`: a game line past the end of the input is the empty
  text, whose decoding is left to the `decode` parameter; with a decoder
  that rejects empty text, as serde_json does, that game is `Unmunchable`.
- The watcher loop's end (`rx.recv` failing) and the printing are left out.
