# A Dafny model of the TUMIX run registry, the planner's JSON extraction and the session picker

This project models four parts of the Codex CLI's Rust code. Each part is stated in Dafny and proved against its contract:

- **The run registry** (`tumix/src/control.rs`). This is a table from session id to the run in progress. It allows at most one run per session, and each run carries a cancellation token.
  - The table is the class `RunControl.RunRegistry`.
  - A token is identified by a number, and the registry records which numbers have been cancelled.
  - Dropping a `RunGuard` is the explicit method `Release`.
  - "At most one entry per session" holds by construction, because the table is a `map`.
- **The planner's answer handling** (`tumix/src/meta.rs`).
  - `extract_json` works in three stages:
    1. a "```json" fence;
    2. any "```" fence, skipping a language tag;
    3. the first `[` to the last `]`.
  - The checks `generate_agents` makes once the worker process has returned: blank stdout, the exit status, extraction, decoding, an empty list, and the advisory id check.
  - String search, trimming (with Rust's white-space set) and decimal formatting are in `Text`. Each comes with the lemmas that pin down its meaning.
- **The session picker** (`tui/src/cxresume_picker_widget.rs`).
  - `Pagination` and its page arithmetic.
  - `CacheLayer`, with its hit and miss counters.
  - `PickerState`: navigation, the delete confirmation dialog and `handle_event`.
  - The trimming of a session's messages to the most recent ones.
  - `format_relative_time`.
  - Mutating code is modelled as classes with `modifies` clauses. Each state change is stated once as a two-state predicate. The method that performs the change and `handle_event` share that predicate.
  - Prefetching is specified by the pure fold `PickerCache.Prefetch` over the sessions visited. Lemmas relate it to the cache's keys, contents and counters.
- **The git graph glyphs** (`tui/src/git_graph_widget.rs`). The chain of eleven `str::replace` calls in `convert_to_round_style` is proved equal to one per-character substitution.

Some design notes:

- Character positions are counted in characters, where Rust counts bytes. Every marker searched for is ASCII, so the substrings found are the same.
- Integers are unbounded. The preview scroll offset's saturation at `usize::MAX` is modelled explicitly.
- A deletion does not clamp the page shown (`cxresume_picker_widget.rs:588`). After enough deletions, going back a page can therefore select an index past the end of the list. `Picker.StalePagePrev` states this behaviour. Nothing is proved about `current_page < total_pages` across deletions, because it does not hold.

## Model

| member | source | states |
|---|---|---|
| RunControl.RunRegistry.constructor | codex-rs/tumix/src/control.rs:18-19 | the table starts empty and nothing is cancelled |
| RunControl.RunGuard.Token | codex-rs/tumix/src/control.rs:28-30 | the token a guard hands out is the one stored for its run. It has no contract of its own; `RegistrationLifecycle` uses it to observe cancellation |
| RunControl.RunRegistry.RegisterRun | codex-rs/tumix/src/control.rs:40-65 | fails with the session's error exactly when the session already has a run, and then changes nothing. Otherwise it stores the run under a new, uncancelled token and returns a guard with the given session id and run id and that token. The token is the next number in sequence, so it differs from every token handed out before, including those of released runs |
| RunControl.RunRegistry.Release | codex-rs/tumix/src/control.rs:33-38 | dropping the guard removes its session's entry and nothing else |
| RunControl.RunRegistry.CancelSession | codex-rs/tumix/src/control.rs:67-83 | returns the session's descriptor, with the stored run id, exactly when the session is in the table, and then cancels exactly that run's token. The table never changes |
| RunControl.RunRegistry.Snapshot | codex-rs/tumix/src/control.rs:86-99 | the collected entries list every table entry exactly once, each as its token and descriptor |
| RunControl.RunRegistry.CancelTokens | codex-rs/tumix/src/control.rs:101-103 | the loop cancels every collected token and changes no entry |
| RunControl.RunRegistry.CancelAll | codex-rs/tumix/src/control.rs:85-106 | returns one descriptor per entry, each session once, with its run id. Every current run's token is cancelled, and the table keeps its entries |
| RunControl.SnapshotTokens | codex-rs/tumix/src/control.rs:86-103 | the tokens of the snapshot are exactly the tokens of the table |
| RunControl.SnapshotDescriptors | codex-rs/tumix/src/control.rs:86-105 | the descriptors of the snapshot list each run once |
| RunControl.RegistrationLifecycle | codex-rs/tumix/src/control.rs:40-83 | a second registration for a session fails while the first run is in progress. Cancelling the session returns the first run and cancels its token. After the guard is released, registering again succeeds with an uncancelled token numbered after the first, and the table holds the new run |
| Text.FindFromFirst | codex-rs/tumix/src/meta.rs:216-217 | `str::find` from a position returns the first occurrence at or after it, or none when there is none |
| Text.Find | codex-rs/tumix/src/meta.rs:216-217 | `str::find` returns an index at which the pattern occurs. That it is the first, and that `None` means absent, is `FindFirst` |
| Text.FindFirst | codex-rs/tumix/src/meta.rs:216-217 | `str::find` returns the first occurrence, and `None` only when the pattern does not occur |
| Text.RFindCharLast | codex-rs/tumix/src/meta.rs:241 | `str::rfind` returns the last occurrence of the character, and `None` only when it does not occur |
| Text.RFindChar | codex-rs/tumix/src/meta.rs:241 | `str::rfind` returns an index holding the character. That it is the last, and that `None` means absent, is `RFindCharLast` |
| Text.Trim | codex-rs/tumix/src/meta.rs:219 | `str::trim` returns no more than it is given, and what it returns neither starts nor ends with white space. That only white space was removed is `TrimStartRemovesWhitespace` and `TrimEndRemovesWhitespace` |
| Text.TrimStartRemovesWhitespace | codex-rs/tumix/src/meta.rs:219 | trimming the start removes exactly a white-space prefix |
| Text.TrimEndRemovesWhitespace | codex-rs/tumix/src/meta.rs:219 | trimming the end removes exactly a white-space suffix |
| Text.TrimEmptyIffBlank | codex-rs/tumix/src/meta.rs:141 | `trim().is_empty()` holds exactly when every character is white space |
| Text.TrimKeepsSolidText | codex-rs/tumix/src/meta.rs:244 | a text that starts and ends with non-white-space trims to itself |
| Text.ParseNatToString | codex-rs/tui/src/cxresume_picker_widget.rs:824 | the decimal text of a number reads back as that number |
| Text.NatToString | codex-rs/tui/src/cxresume_picker_widget.rs:824 | `format!("{}", n)` gives at least one digit and no leading zero, with one digit exactly below 10. It reads back as `n` by `ParseNatToString` |
| Text.NatToStringInjective | codex-rs/tui/src/cxresume_picker_widget.rs:824 | different numbers have different decimal texts |
| Text.ParseZeroPad2 | codex-rs/tumix/src/meta.rs:194 | `format!("{:02}", n)` reads back as `n` |
| Text.ZeroPad2 | codex-rs/tumix/src/meta.rs:194 | `format!("{:02}", n)` is all digits, two of them below 10 and otherwise as many as `n` has. It reads back as `n` by `ParseZeroPad2` |
| MetaAgent.ExtractJson | codex-rs/tumix/src/meta.rs:214-252 | the text `extract_json` returns is trimmed, and its only error is the no-array message. Its stages are given by `ExtractByStages`, and its failure by `ExtractFailsIffNoBracketPair` |
| MetaAgent.TaggedFenceBody | codex-rs/tumix/src/meta.rs:216-221 | the "```json" stage. It has no contract of its own; its result is given by `ExtractTaggedFence` and `ExtractTaggedBlock` |
| MetaAgent.AnyFenceBody | codex-rs/tumix/src/meta.rs:224-237 | the plain fence stage. It has no contract of its own; its result is given by `ExtractAnyFence`, `FenceContentAfterNewline` and `FenceContentWithoutNewline` |
| MetaAgent.BracketedArray | codex-rs/tumix/src/meta.rs:239-249 | the bracket stage returns text of at least two characters starting with `[` and ending with `]`. When it applies and what it returns is `BracketedArrayExact` |
| MetaAgent.ExtractByStages | codex-rs/tumix/src/meta.rs:214-252 | the three stages are tried in order, the first that applies decides, and failure comes only when none applies |
| MetaAgent.ExtractTaggedFence | codex-rs/tumix/src/meta.rs:216-221 | with "```json" followed later by "```", the result is the trimmed text strictly between them |
| MetaAgent.ExtractAnyFence | codex-rs/tumix/src/meta.rs:224-237 | otherwise, with a "```" fence closed by a later "```", the result is the trimmed body |
| MetaAgent.FenceContentAfterNewline | codex-rs/tumix/src/meta.rs:225-231 | the body starts after the first newline that follows the marker |
| MetaAgent.FenceContentWithoutNewline | codex-rs/tumix/src/meta.rs:225-231 | with no newline after the marker, the body starts directly after it |
| MetaAgent.BracketedArrayExact | codex-rs/tumix/src/meta.rs:240-249 | stage 3 applies exactly when the first `[` precedes the last `]`. Its result is then that inclusive slice, unchanged by trimming, so the `starts_with`/`ends_with` check always passes |
| MetaAgent.ExtractBareArray | codex-rs/tumix/src/meta.rs:240-249 | without a fence, the result is the slice from the first `[` to the last `]`, which starts with `[` and ends with `]` |
| MetaAgent.NoFenceNoTaggedFence | codex-rs/tumix/src/meta.rs:216-224 | a text without "```" has no "```json" either, so stage 1 cannot apply where stage 2 does not |
| MetaAgent.ExtractFailsIffNoBracketPair | codex-rs/tumix/src/meta.rs:239-251 | without a fence, extraction fails exactly when no `[` stands before a `]` |
| MetaAgent.ExtractTaggedBlock | codex-rs/tumix/src/meta.rs:216-221 | a backtick-free preamble and body inside a "```json" fence yield the trimmed body, whatever follows the fence |
| MetaAgent.ExtractBareBlock | codex-rs/tumix/src/meta.rs:240-249 | an array with no `[` before it and no `]` after it, in backtick-free text, is extracted as it stands |
| MetaAgent.TrimNewlineFramed | codex-rs/tumix/src/meta.rs:219 | a solid text framed by newlines trims to itself |
| MetaAgent.TestArrayShape | codex-rs/tumix/src/meta.rs:264-266 | the test array starts with `[`, ends with `]`, has no backtick and contains `"id"` |
| MetaAgent.ExtractFencedExample | codex-rs/tumix/src/meta.rs:258-274 | the fenced test text yields the array, which contains `"id"` |
| MetaAgent.ExtractPlainExample | codex-rs/tumix/src/meta.rs:276-286 | the bare test text yields the array, which starts with `[` |
| MetaAgent.Take | codex-rs/tumix/src/meta.rs:158 | `chars().take(n)` is the prefix of at most `n` characters, the whole text when it is short enough |
| MetaAgent.PlanOutcome | codex-rs/tumix/src/meta.rs:114-190 | planning fails with the launch error exactly when the process could not be started. A plan returned is never empty and comes from non-blank stdout. The full conditions are `PlanSucceedsIff`, `BlankOutputIsFatal` and `ExitStatusToleratedWithOutput` |
| MetaAgent.ReadPlan | codex-rs/tumix/src/meta.rs:162-190 | fails only by extraction, decoding or an empty list. Extraction failure is reported exactly when `extract_json` fails, and a success is never empty |
| MetaAgent.BlankOutputIsFatal | codex-rs/tumix/src/meta.rs:141-160 | planning stops before extraction exactly when stdout is blank. That error is the execution error after a failed exit and the no-output error after a successful one |
| MetaAgent.ExitStatusToleratedWithOutput | codex-rs/tumix/src/meta.rs:141-168 | with non-blank stdout, a failed exit is treated exactly like a successful one, and the output goes to extraction |
| MetaAgent.PlanSucceedsIff | codex-rs/tumix/src/meta.rs:141-210 | planning returns a list exactly when stdout is not blank, an array is extracted, it decodes to that list and the list is not empty. The list is returned as decoded |
| MetaAgent.EmptyPlanRefused | codex-rs/tumix/src/meta.rs:184-190 | an empty decoded list is an error |
| MetaAgent.IdWarnings | codex-rs/tumix/src/meta.rs:193-203 | the reference fold over the agents gives at most one warning per agent. Its meaning is `IdWarningsSound`, `IdWarningsComplete` and `IdWarningsOrdered` |
| MetaAgent.CheckSequentialIds | codex-rs/tumix/src/meta.rs:193-203 | the loop's warnings are those of the reference fold over the agents |
| MetaAgent.IdWarningsSound | codex-rs/tumix/src/meta.rs:193-203 | every warning names a position whose id differs from `format!("{:02}", i+1)`, with the ids found and expected |
| MetaAgent.IdWarningsComplete | codex-rs/tumix/src/meta.rs:193-203 | every position whose id differs is warned about |
| MetaAgent.IdWarningsOrdered | codex-rs/tumix/src/meta.rs:193-203 | warnings come in increasing position order, each position once |
| MetaAgent.IdWarningIff | codex-rs/tumix/src/meta.rs:193-203 | a position is warned about exactly when its id is not the expected one |
| MetaAgent.ExpectedIdsDistinct | codex-rs/tumix/src/meta.rs:194 | different positions expect different ids |
| MetaAgent.FirstExpectedIds | codex-rs/tumix/src/meta.rs:194 | the first five expected ids are "01" to "05" |
| MetaAgent.SequentialIdsNoWarning | codex-rs/tumix/src/meta.rs:193-203 | ids "01" to "05" in order draw no warning |
| MetaAgent.ShuffledIdsWarn | codex-rs/tumix/src/meta.rs:193-210 | shuffled ids draw warnings at exactly the misplaced positions, and a process answer that decodes to that list is still returned as the plan |
| GitGraph.ReplaceAll | codex-rs/tui/src/git_graph_widget.rs:26-40 | `str::replace` keeps the length when the replacement is as long as the pattern. What it does is `ReplaceCharIsSubstitution` and `ReplaceWithItself` |
| GitGraph.ConvertToRoundStyle | codex-rs/tui/src/git_graph_widget.rs:22-43 | the chain of eleven replacements keeps the line's length. It equals the glyph map by `ConvertIsGlyphMap` |
| GitGraph.Substitute | codex-rs/tui/src/git_graph_widget.rs:26-30 | the per-character substitution keeps the length and replaces exactly the given character |
| GitGraph.ReplaceCharIsSubstitution | codex-rs/tui/src/git_graph_widget.rs:26-30 | replacing one character by one character is that substitution |
| GitGraph.ReplaceWithItself | codex-rs/tui/src/git_graph_widget.rs:33-40 | replacing a pattern by itself changes nothing |
| GitGraph.RoundStyle | codex-rs/tui/src/git_graph_widget.rs:22-43 | the reference per-character glyph map keeps the line's length |
| GitGraph.ConvertIsGlyphMap | codex-rs/tui/src/git_graph_widget.rs:22-43 | the chain of eleven replacements equals the single per-character glyph map |
| GitGraph.ConvertMapsEachCharacter | codex-rs/tui/src/git_graph_widget.rs:22-43 | each of `*`, `\|`, `\`, `/`, `-` becomes its glyph, every other character is kept, and the length is unchanged |
| GitGraph.ConvertLeavesNoAsciiGlyph | codex-rs/tui/src/git_graph_widget.rs:26-30 | no ASCII graph character survives the conversion |
| GitGraph.RoundStyleIdempotent | codex-rs/tui/src/git_graph_widget.rs:26-30 | mapping glyphs twice is mapping them once |
| GitGraph.ConvertIdempotent | codex-rs/tui/src/git_graph_widget.rs:22-43 | converting twice is converting once |
| Sessions.KeepLast | codex-rs/tui/src/cxresume_picker_widget.rs:1253-1256 | the trimmed messages are the last `min(limit, len)` messages, in order |
| Sessions.KeepLastIdempotent | codex-rs/tui/src/cxresume_picker_widget.rs:1253-1256 | trimming twice to one limit is trimming once |
| Sessions.KeepLastShrinks | codex-rs/tui/src/cxresume_picker_widget.rs:806-809 | trimming to a limit and then to a smaller one is trimming to the smaller one |
| Sessions.KeepLastKeepsNewest | codex-rs/tui/src/cxresume_picker_widget.rs:1253-1256 | the newest message survives a trim to a positive limit |
| Sessions.SaturatingSub | codex-rs/tui/src/cxresume_picker_widget.rs:821 | `saturating_sub` is the difference when it is non-negative and zero otherwise |
| Sessions.FormatAge | codex-rs/tui/src/cxresume_picker_widget.rs:823-837 | the chain of comparisons. It has no contract of its own; `FormatAgeByUnit` and `AgeLabelCount` say what it returns |
| Sessions.FormatRelativeTime | codex-rs/tui/src/cxresume_picker_widget.rs:815-837 | `format_relative_time` with the clock as a parameter. It has no contract of its own; `FutureTimeIsNow` and `AgeLabelCount` say what it returns |
| Sessions.UnitFor | codex-rs/tui/src/cxresume_picker_widget.rs:823-837 | every age has a unit: the largest not longer than the age, or seconds below a minute |
| Sessions.UnitForUnique | codex-rs/tui/src/cxresume_picker_widget.rs:823-837 | an age has only one unit |
| Sessions.FormatAgeByUnit | codex-rs/tui/src/cxresume_picker_widget.rs:823-837 | the chain of comparisons gives the age in whole units of its unit, followed by that unit's suffix and " ago" |
| Sessions.AgeCountRange | codex-rs/tui/src/cxresume_picker_widget.rs:825-836 | above seconds, the count is at least one and that many units stay below the next unit |
| Sessions.AgeLabelCount | codex-rs/tui/src/cxresume_picker_widget.rs:821-837 | the number in the label reads back as the age divided by its unit's length |
| Sessions.FutureTimeIsNow | codex-rs/tui/src/cxresume_picker_widget.rs:821-824 | a modification time not in the past shows as "0s ago" |
| Paging.PageCount | codex-rs/tui/src/cxresume_picker_widget.rs:267-269 | `total_pages`. It has no contract of its own; `PageCountIsCeiling` says it is the ceiling |
| Paging.FirstIndex | codex-rs/tui/src/cxresume_picker_widget.rs:272-274 | `page_start`. It has no contract of its own; `ItemOnItsPage` and `PageOfItem` relate it to item indices |
| Paging.EndIndex | codex-rs/tui/src/cxresume_picker_widget.rs:277-279 | `page_end` never passes the end of the list. `PageSizes` gives the size of each page |
| Paging.PageCountIsCeiling | codex-rs/tui/src/cxresume_picker_widget.rs:267-269 | `total_pages` is the ceiling of items over page size: the pages hold every item, one page fewer would not, and it is zero only for no items |
| Paging.ItemOnItsPage | codex-rs/tui/src/cxresume_picker_widget.rs:272-284 | every item lies in the range of the page its index divided by the page size names, and that page exists |
| Paging.PageOfItem | codex-rs/tui/src/cxresume_picker_widget.rs:272-284 | page ranges do not overlap |
| Paging.PageSizes | codex-rs/tui/src/cxresume_picker_widget.rs:267-279 | every page but the last is full, and every existing page is non-empty |
| Paging.Pagination.constructor | codex-rs/tui/src/cxresume_picker_widget.rs:258-264 | a new pagination starts on the first page |
| Paging.Pagination.TotalPages | codex-rs/tui/src/cxresume_picker_widget.rs:267-269 | `total_pages` on the object's fields, that is, `PageCount` |
| Paging.Pagination.PageStart | codex-rs/tui/src/cxresume_picker_widget.rs:272-274 | `page_start` on the object's fields, that is, `FirstIndex` |
| Paging.Pagination.PageEnd | codex-rs/tui/src/cxresume_picker_widget.rs:277-279 | `page_end` on the object's fields, that is, `EndIndex` |
| Paging.Pagination.HasNext | codex-rs/tui/src/cxresume_picker_widget.rs:320-322 | `has_next`. It has no contract of its own; `NextPage` moves exactly when it holds and `LastPage` makes it false |
| Paging.Pagination.HasPrev | codex-rs/tui/src/cxresume_picker_widget.rs:326-328 | `has_prev`. It has no contract of its own; `PrevPage` moves exactly when it holds and `FirstPage` makes it false |
| Paging.Pagination.NextPage | codex-rs/tui/src/cxresume_picker_widget.rs:287-294 | moves on one page and returns true exactly when `has_next` holds, and otherwise leaves the page unchanged |
| Paging.Pagination.PrevPage | codex-rs/tui/src/cxresume_picker_widget.rs:297-304 | moves back one page and returns true exactly when the page is not the first, and otherwise leaves the page unchanged |
| Paging.Pagination.FirstPage | codex-rs/tui/src/cxresume_picker_widget.rs:308-310 | goes to page 0, after which `has_prev` is false |
| Paging.Pagination.LastPage | codex-rs/tui/src/cxresume_picker_widget.rs:314-316 | goes to the last page, or to page 0 when there are none, after which `has_next` is false |
| Paging.NextThenPrev | codex-rs/tui/src/cxresume_picker_widget.rs:287-304 | moving to the next page and back returns to the page left |
| PickerCache.PrefetchAllKeys | codex-rs/tui/src/cxresume_picker_widget.rs:495-503 | after prefetching, the cached ids are those cached before plus those prefetched |
| PickerCache.PrefetchAllKeeps | codex-rs/tui/src/cxresume_picker_widget.rs:497-498 | a preview already cached is never replaced by a prefetch |
| PickerCache.PrefetchAllLoads | codex-rs/tui/src/cxresume_picker_widget.rs:497-500 | each new preview holds the last six messages of the file of a prefetched session with that id |
| PickerCache.MissCountIsNewEntries | codex-rs/tui/src/cxresume_picker_widget.rs:103-111 | the misses counted while prefetching are exactly the previews added, at most one per session |
| PickerCache.PrefetchSingle | codex-rs/tui/src/cxresume_picker_widget.rs:495-503 | prefetching one session caches its trimmed messages unless its id is cached, and counts one miss exactly then |
| PickerCache.PrefetchSnoc | codex-rs/tui/src/cxresume_picker_widget.rs:521-525 | prefetching a list and then one more session is prefetching the longer list |
| PickerCache.PrefetchConcat | codex-rs/tui/src/cxresume_picker_widget.rs:507-525 | prefetching one list after another is prefetching both in order, and the misses add up |
| PickerCache.PrefetchCounts | codex-rs/tui/src/cxresume_picker_widget.rs:103-111 | every prefetch lookup counts once as a hit or a miss. The cache gains the prefetched ids, and each miss adds one preview |
| PickerCache.PrefetchNothing | codex-rs/tui/src/cxresume_picker_widget.rs:521-525 | an empty range prefetches nothing and counts nothing |
| PickerCache.PrefetchThen | codex-rs/tui/src/cxresume_picker_widget.rs:507-525 | two prefetches in a row, with their counters, are one prefetch of both lists |
| PickerCache.CacheLayer.constructor | codex-rs/tui/src/cxresume_picker_widget.rs:73-83 | empty caches and zero counters |
| PickerCache.CacheLayer.GetOrInsertMeta | codex-rs/tui/src/cxresume_picker_widget.rs:87-100 | a hit returns the cached entry, leaves the map unchanged and counts a hit. A miss inserts and returns the default and counts a miss. Exactly one counter moves |
| PickerCache.CacheLayer.GetPreview | codex-rs/tui/src/cxresume_picker_widget.rs:103-111 | returns the cached preview exactly when present and counts a hit, and otherwise counts a miss. The cache does not change |
| PickerCache.CacheLayer.CachePreview | codex-rs/tui/src/cxresume_picker_widget.rs:114-131 | stores or replaces one preview and nothing else changes |
| PickerCache.CacheLayer.GetSummary | codex-rs/tui/src/cxresume_picker_widget.rs:135-137 | `get_summary` reads the summary cache and counts nothing. `CacheSummary` states that it returns what was stored |
| PickerCache.CacheLayer.CacheSummary | codex-rs/tui/src/cxresume_picker_widget.rs:141-160 | stores or replaces one summary, which `get_summary` then returns |
| PickerCache.CacheLayer.Stats | codex-rs/tui/src/cxresume_picker_widget.rs:177-184 | the four counters in the source's order. The methods that move them say how they move |
| PickerCache.CacheLayer.RemovePreview | codex-rs/tui/src/cxresume_picker_widget.rs:163-165 | forgets exactly one preview |
| PickerCache.CacheLayer.Clear | codex-rs/tui/src/cxresume_picker_widget.rs:169-173 | empties the three caches and keeps the counters |
| PickerCache.MetaLookupTwice | codex-rs/tui/src/cxresume_picker_widget.rs:87-100 | a miss then a lookup of the same path returns the first default both times. The path is stored with that default, and one miss and one hit are counted |
| Picker.NextViewMode | codex-rs/tui/src/cxresume_picker_widget.rs:443-447 | the successor of each view mode. It has no contract of its own; `ViewModeCycle` says it is a cycle of three |
| Picker.DeleteMessage | codex-rs/tui/src/cxresume_picker_widget.rs:454-457 | the dialog text. It has no contract of its own; `ConfirmDelete` and `HandleEvent` keep it tied to the selected session's id |
| Picker.ViewModeCycle | codex-rs/tui/src/cxresume_picker_widget.rs:442-448 | every toggle changes the view mode, two do not return to it, and three do |
| Picker.SaturatingInc | codex-rs/tui/src/cxresume_picker_widget.rs:437-438 | `saturating_add(1)` stops at `usize::MAX` |
| Picker.RemoveAt | codex-rs/tui/src/cxresume_picker_widget.rs:580 | `Vec::remove` drops exactly the element at the index and keeps the others in order |
| Picker.RemoveAtMultiset | codex-rs/tui/src/cxresume_picker_widget.rs:580 | the removal loses exactly the removed element |
| Picker.SelectionAfterRemove | codex-rs/tui/src/cxresume_picker_widget.rs:583-585 | the selection stays or steps back by one. It stays when still in range, and it is in range whenever the list is not empty |
| Picker.DeleteSelectsNeighbour | codex-rs/tui/src/cxresume_picker_widget.rs:580-585 | after a delete the selection lands on the session that followed the deleted one, or on the one before when the last was deleted |
| Picker.SliceSnoc | codex-rs/tui/src/cxresume_picker_widget.rs:522-525 | a range one index longer visits one more session |
| Picker.PickerState.RecentMessages | codex-rs/tui/src/cxresume_picker_widget.rs:1221-1259 | a preview read from a file holds at most `limit` messages, and no more than the file has |
| Picker.PickerState.SelectedSession | codex-rs/tui/src/cxresume_picker_widget.rs:368-370 | a session is returned exactly when the index is in range, and it is the session at that index |
| Picker.PickerState.VisibleSessions | codex-rs/tui/src/cxresume_picker_widget.rs:522-523 | the sessions the page range visits: at most 30, in order from the page's first index |
| Picker.PickerState.AdjacentSessions | codex-rs/tui/src/cxresume_picker_widget.rs:507-517 | at most two sessions, each from the list: the next one, then the previous one, where they exist |
| Picker.PickerState.CacheStats | codex-rs/tui/src/cxresume_picker_widget.rs:483-485 | `cache_stats` forwards the cache's counters |
| Picker.PickerState.CurrentPageSessions | codex-rs/tui/src/cxresume_picker_widget.rs:374-377 | the sessions of the page range, in order |
| Picker.PickerState.constructor | codex-rs/tui/src/cxresume_picker_widget.rs:348-365 | the first session on the first page of 30, split view, no dialog, and the first page's previews prefetched into empty caches |
| Picker.PickerState.PrefetchPreviewForIndex | codex-rs/tui/src/cxresume_picker_widget.rs:495-503 | an index out of range changes nothing. Otherwise one lookup is counted and, on a miss, the last six messages are cached |
| Picker.PickerState.PrefetchAdjacentSessions | codex-rs/tui/src/cxresume_picker_widget.rs:507-517 | prefetches the next session, then the previous one, where they exist |
| Picker.PickerState.PrefetchVisiblePage | codex-rs/tui/src/cxresume_picker_widget.rs:521-526 | prefetches every session of the page range, in order. A page past the end prefetches nothing |
| Picker.PickerState.PrefetchRange | codex-rs/tui/src/cxresume_picker_widget.rs:522-525 | the loop over an index range prefetches exactly the sessions of that range, in order |
| Picker.PickerState.NextPage | codex-rs/tui/src/cxresume_picker_widget.rs:380-387 | when the page object moves on, the selection goes to the first index of the new page, the preview scroll resets and that page is prefetched. Otherwise nothing changes |
| Picker.PickerState.PrevPage | codex-rs/tui/src/cxresume_picker_widget.rs:390-397 | the same for the previous page |
| Picker.PickerState.SelectPrev | codex-rs/tui/src/cxresume_picker_widget.rs:400-407 | moves up by exactly one unless on the first session, resetting the scroll and prefetching the neighbours only when it moves |
| Picker.PickerState.SelectNext | codex-rs/tui/src/cxresume_picker_widget.rs:410-417 | moves down by exactly one only while a session follows, resetting the scroll and prefetching the neighbours only when it moves |
| Picker.PickerState.SelectFirst | codex-rs/tui/src/cxresume_picker_widget.rs:420-423 | selects index 0 and resets the scroll |
| Picker.PickerState.SelectLast | codex-rs/tui/src/cxresume_picker_widget.rs:426-429 | selects `len - 1`, saturating at 0, and resets the scroll |
| Picker.PickerState.ScrollPreviewUp | codex-rs/tui/src/cxresume_picker_widget.rs:432-434 | scrolls up by one, stopping at 0 |
| Picker.PickerState.ScrollPreviewDown | codex-rs/tui/src/cxresume_picker_widget.rs:437-439 | scrolls down by one, stopping at `usize::MAX` |
| Picker.PickerState.ToggleViewMode | codex-rs/tui/src/cxresume_picker_widget.rs:442-448 | only the view mode changes, to the next in the cycle |
| Picker.PickerState.ConfirmDelete | codex-rs/tui/src/cxresume_picker_widget.rs:451-459 | with a selection, opens the dialog asking about the selected session's id. Without one, nothing changes |
| Picker.PickerState.CloseModal | codex-rs/tui/src/cxresume_picker_widget.rs:462-465 | closes the dialog and clears its text |
| Picker.PickerState.DeleteSelected | codex-rs/tui/src/cxresume_picker_widget.rs:572-595 | removes exactly the selected session, keeping the others in order. It clears the dialog flag but keeps its text, steps the selection back when it fell off the end, sets the page count to the new length and forgets only that session's preview. Without a selection nothing changes |
| Picker.PickerState.GetOrFetchPreview | codex-rs/tui/src/cxresume_picker_widget.rs:469-479 | a cached preview is returned as stored, counting a hit. Otherwise the last `limit` messages are read, cached and returned, counting a miss |
| Picker.PickerState.ClearCache | codex-rs/tui/src/cxresume_picker_widget.rs:489-491 | empties the caches and keeps the statistics |
| Picker.PickerState.HandleEvent | codex-rs/tui/src/cxresume_picker_widget.rs:568-653 | With the dialog open, it always returns `None`: confirm deletes the selected session, cancel closes the dialog, and any other event changes nothing. With the dialog closed, each event runs its operation with that operation's contract; `Resume` returns the selected id when a session is selected, `Exit` returns `Some("")`, and the remaining events change nothing. It keeps the dialog asking about an existing selected session |
| Picker.ThreeToggles | codex-rs/tui/src/cxresume_picker_widget.rs:617-619 | three presses of the view key restore the view mode |
| Picker.DeleteAndConfirm | codex-rs/tui/src/cxresume_picker_widget.rs:572-595 | delete then confirm removes the selected session, closes the dialog and leaves the selection in range in a non-empty list |
| Picker.DeleteAndCancel | codex-rs/tui/src/cxresume_picker_widget.rs:597-599 | delete then cancel leaves the list and the selection as they were, with the dialog closed and cleared |
| Picker.StalePagePrev | codex-rs/tui/src/cxresume_picker_widget.rs:390-397 | with 60 sessions left while page 3 is shown, going back a page selects index 60, so no session is selected |

## Left out

- The registry's process-wide `Mutex`/`LazyLock` and the waking of tasks when a token is cancelled are left out. These are concurrency concerns; the registry is one object used from one thread, and cancellation is a recorded flag per token.
- From `generate_agents`, the following are left out because they are I/O with no logic to model:
  - the prompt text;
  - environment and working-directory lookups;
  - the debug-file writes and `tracing` output;
  - the `tokio::process` launch.
- The process's answer is a `ProcessOutput` value, taken as already decoded text because `from_utf8_lossy` is not modelled.
- The `serde_json` decoding of the agent list is the function parameter `parse`.
- The id check only logs, so the model returns the warnings it would log.
- The following picker file I/O is left out:
  - `extract_session_meta` and the directory walk of `get_cwd_sessions`;
  - the JSON-lines parsing inside `extract_recent_messages*`;
  - `fs::remove_file`.
- The messages a session file holds are the function `load`, fixed when the picker is built. Deleting a session does not change what `load` returns.
- `SystemTime::now` is a parameter `now` of `format_relative_time`.
- The `cached_at` and `last_update` time stamps are dropped: they come from the clock and nothing reads them.
- The following are left out entirely:
  - the ratatui and ANSI rendering functions;
  - the crossterm `key_to_event` table;
  - `SplitLayout`, which computes with `f32`.
- In Rust, `pagination` and `cache` are fields inside `PickerState`. Here they are separate objects reached through constant fields, and nothing else refers to them.
- `usize` and `u64` arithmetic is unbounded. Only the preview scroll's saturation is modelled; the selection index and the counters cannot come near their limits for a list that fits in memory.
- Paging.PageCount: requires a page size above zero, because Rust's division would panic on 0. The picker always uses 30.
- Paging.Pagination.constructor: requires a page size above zero for the same reason. `Pagination::new` accepts 0, and `total_pages` would then panic.
- Picker.PickerState.CurrentPageSessions: requires the page start not to pass its end, because the Rust slice panics there. That happens after deletions shrink the list below the page shown.
- Picker.PickerState.DialogAsksSelected: the invariant that an open dialog asks about the selected session holds through `handle_event` only. The navigation methods are public and may be called while the dialog is open.
- Sessions.KeepLast: the trim at lines 806-809 keeps (role, content) pairs rather than `Message` triples. It is the same operation on a different element type and is modelled once.
