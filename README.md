# tlv2app decision core, modelled in Dafny

tlv2app is a League of Legends companion. It has two parts:

- a Tauri desktop shell, written in Rust;
- a Yew front-end, compiled to WebAssembly.

The shell creates a game session with the calculator backend at startup. It exposes two commands: one returns the session's game code, the other relays a live game. It also owns a Windows low-level keyboard hook, which toggles the main window on Ctrl+Comma. The front-end polls the relay once a second and stops after failures. It renders the realtime damage tables, and its calculator form edits a simulated fight.

This project models the decision rules and state changes of those parts. Every network call, SQL query, JSON decode and Win32 call is replaced by its outcome, given as an input. Where the code records what it sends or stores, the model returns that record as a value. Modules follow the source files:

| module | source |
|---|---|
| `Keyboard` | `src-tauri/src/wnd_system/keyboard.rs`: the hook procedure, `install_hook` and `uninstall_hook` over `HOOK_HANDLE` |
| `Shell` | `src-tauri/src/lib.rs`: `get_game_code`, `get_realtime_game` with its `get_game_data` envelope mapping, the startup bootstrap, and the message loop |
| `Database` | `src-tauri/src/database/db.rs`: `commit_game_register` |
| `Invokers` | `frontend/src/externcalls/invokers.rs`: `get_realtime_game` and `get_code` on the front-end side |
| `RealtimePage` | `frontend/src/pages/realtime.rs`: the polling interval, the failure counter, the hide toggle, the visible-enemy filter, the scoreboard partition and the game clock |
| `Stats` | `frontend/src/macros/stats.rs` (`apply_stat!`) and `StatsValue::get_labels` |
| `CalculatorModel` | `frontend/src/model/calculator.rs`: `ActivePlayerX::new` and `EnemyPlayersX::new` |
| `CalculatorPage` | `frontend/src/pages/calculator.rs`: the calculator page's form state and callbacks |
| `CalculatorComponent` | `frontend/src/components/calculator.rs`: the component variant of the same form |
| `Stacker` | `frontend/src/components/stacker.rs`: the damage stack and its per-enemy totals |
| `Selector` | `frontend/src/components/selector.rs`: option order and click semantics |
| `BaseTable` | `frontend/src/components/base_table.rs`: `create_image` and `make_table_body` |
| `RealtimeTable` | `frontend/src/components/realtime.rs`: the realtime table's header and body |
| `ComparisonHeader` | `frontend/src/components/comparison_header.rs`: the stat list of a compared item |
| `Numeric`, `Ordering`, `RealtimeData`, `Wrappers` | shared helpers |

The helpers do the following:

- `Numeric`:
  - `usize` and `i32` casts from `f64`, saturating. The front-end is built for `wasm32`, so its `usize` is 32 bits wide and its bound is 2^32 - 1;
  - truncating `/` and `%`;
  - `parse::<usize>` and `to_string`.
- `Ordering`:
  - `String::cmp` as lexicographic order on characters;
  - an in-place insertion sort on an `array`, proved sorted and a permutation.
- `RealtimeData`: the payload records.
- `Wrappers`: `Option` and `Result`.

Yew state handles are modelled with one assumption: each callback reads the state committed by the previous event, as if a render happened in between. The one place where the code observably depends on a stale render-time snapshot is modelled as such: the code-change effect (see Findings).

In these places the model follows the code as written, although the code's own names and messages point elsewhere or a reader might expect otherwise:

- Every failed relay call writes `MAX_FAILURES` into the failure counter. The counter is never incremented, so a single failure stops polling on the next tick. The constant's name, and the message "Parando após 10 falhas" ("stopping after 10 failures") that frontend/src/pages/realtime.rs:70-71 logs when polling stops, point to a count of failures instead.
- `get_game_data` ignores the envelope's `success` flag: present `data` is returned as `Ok` whatever `success` says.
- A code change does not restart live polling (see Findings).
- A settled relay call writes the counter and the game data even after polling was stopped. The code has no liveness check.
- The Multiple-mode selector starts with an empty selection, not with the items the player already has.

## Model

| member | source | states |
|---|---|---|
| `Keyboard.CtrlHeldIsNegative` | src-tauri/src/wnd_system/keyboard.rs:30 | the `& 0x8000` test on the Ctrl key state holds iff the state, read as an `i16`, is negative |
| `Keyboard.KeyboardProc` | src-tauri/src/wnd_system/keyboard.rs:18-38 | a hotkey event makes two OS calls, any other event one; the last is always `CallNextHookEx` with the event's own code, wparam and lparam; the hotkey's first call posts `WM_USER + 1` with zero wparam and lparam to the given thread |
| `Keyboard.ForwardedOncePostedIffHotkey` | src-tauri/src/wnd_system/keyboard.rs:23-37 | every event is forwarded exactly once; exactly one message is posted for the hotkey, none otherwise |
| `Keyboard.HotkeySpecificity` | src-tauri/src/wnd_system/keyboard.rs:23-30 | an event is the hotkey iff code is `HC_ACTION` (0), the low 32 bits of wparam are `WM_KEYDOWN` (0x100), vkCode is 0xBC and the Ctrl state is negative |
| `Keyboard.InstallIdempotent` | src-tauri/src/wnd_system/keyboard.rs:40-54 | after a successful install the handle is valid; a second install keeps it and makes no OS call |
| `Keyboard.UninstallAsWrittenKeepsHook` | src-tauri/src/wnd_system/keyboard.rs:56-63 | as written, `uninstall_hook` never changes the handle, and the only handle it ever unhooks is the null one |
| `Keyboard.InstallThenUninstallStaysInstalled` | src-tauri/src/wnd_system/keyboard.rs:40-63 | counterexample: install with hook 7, then the uninstall as written, leaves a valid handle and makes no unhook call |
| `Keyboard.IntendedUninstallRemovesHook` | src-tauri/src/wnd_system/keyboard.rs:56-63 | with the guard the right way round, a successful install followed by uninstall unhooks that handle once and leaves none; uninstall with nothing installed does nothing |
| `Keyboard.IntendedUninstallAlwaysClears` | src-tauri/src/wnd_system/keyboard.rs:56-63 | after the corrected uninstall the handle is invalid, a valid handle was unhooked exactly once, and a second uninstall changes nothing |
| `Keyboard.HookSystem.constructor` | src-tauri/src/wnd_system/keyboard.rs:16 | `HOOK_HANDLE` starts as the null handle, which is invalid, with no OS calls made |
| `Keyboard.HookSystem.InstallHook` | src-tauri/src/wnd_system/keyboard.rs:40-54 | a valid handle is kept untouched; an invalid one becomes the registered hook; it panics iff the handle was invalid and `GetModuleHandleW` or `SetWindowsHookExW` failed; `SetWindowsHookExW` is called only once the module handle was found |
| `Keyboard.HookSystem.UninstallHook` | src-tauri/src/wnd_system/keyboard.rs:56-63 | the corrected uninstall: a valid handle is unhooked and reset to null, an invalid one is left alone without an OS call |
| `Keyboard.HookSystem.OnKeyboardEvent` | src-tauri/src/wnd_system/keyboard.rs:18-38 | the OS calls made for one event are exactly `KeyboardProc`'s, appended in order; the handle is not changed |
| `Shell.EnvelopeMapping` | src-tauri/src/lib.rs:60-66 | the result never depends on `success`; it is `Ok(data)` iff data is present, else `Err` with the message, or "Unknown error" when there is none |
| `Shell.EnvelopeExamples` | src-tauri/src/lib.rs:60-66 | `{false, "X", "M"}` gives `Ok("X")`; `{true, none, "M"}` gives `Err("M")`; `{false, none, none}` gives `Err("Unknown error")` |
| `Shell.Routing` | src-tauri/src/lib.rs:69-106 | the session's own code first GETs the local game client, then POSTs game id, code, game data and `[3115]` to the realtime endpoint; any other code sends one POST, of the code and `[3115]`, to get-by-code |
| `Shell.LocalSendFailureSkipsBackend` | src-tauri/src/lib.rs:71-80 | a failed local request returns its prefixed error, and the only request sent is the local one |
| `Shell.UnreadableBodyRelaysEmpty` | src-tauri/src/lib.rs:82 | an unreadable local body is relayed as `""` and gives the same result as an empty body |
| `Shell.BackendFailuresAreErrors` | src-tauri/src/lib.rs:39-58 | on every path that reaches the backend (a code other than the session's, or a local reply that was read), a backend send failure and a JSON decode failure become `Err`, each with its descriptive prefix; a POST is sent exactly on those paths, whatever the backend answers |
| `Shell.BootstrapFallback` | src-tauri/src/lib.rs:151-176 | each of these gives the session `(0, "")`: a send failure, a decode failure, `success` false, or missing data; a successful envelope with data gives its code and id |
| `Shell.UnreachableBackendStillAnswers` | src-tauri/src/lib.rs:29-32 | after an unreachable backend at startup, `get_game_code` answers 0, and code 0 takes the local route |
| `Shell.Window.constructor` | src-tauri/src/lib.rs:132-138 | the window starts with the given visibility and without focus |
| `Shell.MessageLoop` | src-tauri/src/lib.rs:124-143 | the task panics iff no hook was installed and `GetModuleHandleW` or `SetWindowsHookExW` failed; a panic ends it before the loop, with the handle untouched, no quit and no toggle; otherwise the loop quits and dispatches toggles as `LoopRun` says, and on quit uninstalls the hook (corrected guard), leaving none; the window's visibility flips once per toggle; a toggle that shows the window also focuses it; with no toggle, focus is unchanged |
| `Shell.QuitIffRetrieved` | src-tauri/src/lib.rs:127-130 | the loop reaches quit iff some fetch retrieved `WM_QUIT` |
| `Shell.OtherMessagesDoNothing` | src-tauri/src/lib.rs:131-140 | with no `WM_USER + 1` among the fetches, the window is never toggled |
| `Shell.FailedFetchRepeatsToggle` | src-tauri/src/lib.rs:126-141 | a `GetMessageW` error right after a toggle dispatches the stale toggle message again |
| `Database.FindChampion` | src-tauri/src/database/db.rs:80-86 | the champion of the first player whose riot id matches, or "" when no player matches |
| `Database.CalculationResult` | src-tauri/src/database/db.rs:127-134 | `Err` iff `success` is false, with "Erro ao calcular dados: " and the message (or ""); otherwise the data's text, `"null"` when absent |
| `Database.CommitGameRegister` | src-tauri/src/database/db.rs:51-135 | each failing step returns its own prefixed error and nothing after it runs; the games row is updated only while the latch is false, and the latch becomes true only when that update succeeded; the `game_data` row is inserted on every call that gets that far, with the fetched body, the champion found, the game time and the riot id; the final POST carries the code and `[4645]`; its envelope is mapped by `CalculationResult` |
| `Database.FindChampionExamples` | src-tauri/src/database/db.rs:80-86 | with two players matching, the first wins; with no match, the result is "" |
| `Invokers.FailureCounter.constructor` | frontend/src/pages/realtime.rs:90 | the shared counter starts at 0 |
| `Invokers.GameDataHandle.constructor` | frontend/src/pages/realtime.rs:86 | the game data starts absent |
| `Invokers.GetRealtimeGame` | frontend/src/externcalls/invokers.rs:25-117 | the counter becomes 0 on a success and `MAX_FAILURES` on any failure; the data becomes the decoded payload on a success and is untouched otherwise; the get-by-code fallback is tried, with the same code, iff the invoke resolved with a non-string |
| `Invokers.PublishesExactlyOnSuccess` | frontend/src/externcalls/invokers.rs:33-89 | exactly two paths publish data: a non-empty string that parses, and a fallback envelope with data; each publishes its own payload |
| `Invokers.SettleAllInvariants` | frontend/src/externcalls/invokers.rs:30-116 | over any run of settled calls, the counter is only ever 0 or `MAX_FAILURES`, never an increment; data once present is never cleared; after failures only, the data is unchanged and the counter is `MAX_FAILURES` |
| `Invokers.OneFailureReachesThreshold` | frontend/src/pages/realtime.rs:70 | one failure puts the counter at or above the stop threshold `MAX_FAILURES - 1` |
| `Invokers.GetCodeCases` | frontend/src/externcalls/invokers.rs:119-127 | `undefined` keeps the code; a non-number gives 0; a number below 2^32 - 1 is truncated; a number below 1 gives 0; a number at or above 2^32 - 1, such as 5e9, gives the 32-bit `usize::MAX` 4294967295 |
| `Invokers.CodeHandle.constructor` | frontend/src/externcalls/invokers.rs:119 | the handle holds the given code |
| `Invokers.GetCode` | frontend/src/externcalls/invokers.rs:119-127 | the stored code is `CodeAfter` of the reply and the old code, whose cases `GetCodeCases` states |
| `RealtimePage.StartCases` | frontend/src/pages/realtime.rs:102-106 | a live interval is kept; with none, one for the code is started iff the code has 6 characters; starting twice is starting once |
| `RealtimePage.TickStopsAfterOneFailure` | frontend/src/pages/realtime.rs:63-74 | the tick after a failed call always stops polling; the tick after a success leaves no interval only when there was none or `MAX_FAILURES` is 1 |
| `RealtimePage.CodeChangeStopsLivePolling` | frontend/src/pages/realtime.rs:129-134 | counterexample: changing a live session from "123456" to "654321" leaves nothing polling, while the intended effect polls "654321" |
| `RealtimePage.CodeChangeIntendedPolls` | frontend/src/pages/realtime.rs:129-134 | the intended effect polls the new code iff it has 6 characters; the effect as written agrees with it exactly when nothing was live or the new code is invalid |
| `RealtimePage.RemoveAll` | frontend/src/pages/realtime.rs:238 | `retain(\|i\| i != x)` never lengthens the list, and keeps exactly the elements other than `x` |
| `RealtimePage.RemoveAllKeepsNoDuplicates` | frontend/src/pages/realtime.rs:238 | removing from a list without duplicates leaves no duplicates |
| `RealtimePage.RemoveAllAbsent` | frontend/src/pages/realtime.rs:238 | removing an absent index changes nothing |
| `RealtimePage.RemoveAllConcat` | frontend/src/pages/realtime.rs:238 | removing distributes over concatenation |
| `RealtimePage.ToggleFlipsOnlyItsIndex` | frontend/src/pages/realtime.rs:235-243 | a toggle flips the membership of its own index only, and keeps the hidden list free of duplicates |
| `RealtimePage.ToggleTwiceRestores` | frontend/src/pages/realtime.rs:235-243 | two toggles of one index restore every membership; when the index was not hidden, they restore the list itself |
| `RealtimePage.KeptFrom` | frontend/src/pages/realtime.rs:146-152 | the positions kept are exactly the in-range positions not hidden, in increasing order |
| `RealtimePage.VisibleFromIsKept` | frontend/src/pages/realtime.rs:146-152 | the filtered enemies are the enemies at the kept positions, one for one |
| `RealtimePage.VisibleEnemiesExact` | frontend/src/pages/realtime.rs:146-152 | the visible enemies are exactly those at the non-hidden positions, in their order; nothing hidden is shown and nothing else is dropped |
| `RealtimePage.NothingHiddenShowsAll` | frontend/src/pages/realtime.rs:146-152 | with no hidden index in range, every enemy is shown |
| `RealtimePage.TeamFilter` | frontend/src/pages/realtime.rs:157-166 | every entry of the ally column shares the player's team, and no entry of the enemy column does |
| `RealtimePage.PartitionScoreboard` | frontend/src/pages/realtime.rs:157-166 | the loop's two vectors are the order-preserving team filters of the scoreboard |
| `RealtimePage.PartitionIsExact` | frontend/src/pages/realtime.rs:157-166 | every scoreboard entry lands in exactly one column: together the columns form the same multiset as the scoreboard |
| `RealtimePage.PartitionLengths` | frontend/src/pages/realtime.rs:157-166 | the two columns together are as long as the scoreboard |
| `RealtimePage.GameClockSplitsSeconds` | frontend/src/pages/realtime.rs:153-155 | for a non-negative game time, `0 <= seconds < 60`, and `minutes * 60 + seconds` is the game time truncated to whole seconds |
| `RealtimePage.ChampionSplash` | frontend/src/pages/realtime.rs:174-178 | the centred splash URL, or the uncentred one once the image failed to load |
| `RealtimePage.RealtimeDisplay.constructor` | frontend/src/pages/realtime.rs:86-92 | no interval, nothing hidden, counter 0 and no game data |
| `RealtimePage.RealtimeDisplay.Mount` | frontend/src/pages/realtime.rs:126-135 | the code effect's run at mount, with no interval yet: as written and as intended agree, and polling starts iff the initial code has 6 characters, exactly as `start_game` would |
| `RealtimePage.RealtimeDisplay.Render` | frontend/src/pages/realtime.rs:100 | every render resets the failure counter to 0 |
| `RealtimePage.RealtimeDisplay.StartGame` | frontend/src/pages/realtime.rs:94-107 | the interval becomes `StartAfter` of the old interval and the code (see `StartCases`); nothing else changes |
| `RealtimePage.RealtimeDisplay.StopGame` | frontend/src/pages/realtime.rs:109-116 | unconditionally no interval afterwards; nothing else changes, so stopping twice is stopping once |
| `RealtimePage.RealtimeDisplay.CodeChanged` | frontend/src/pages/realtime.rs:126-135 | the new code is stored, the counter is reset, and the interval is the intended one for the new code |
| `RealtimePage.RealtimeDisplay.Tick` | frontend/src/pages/realtime.rs:63-74 | each tick issues exactly one relay call for the interval's code, then clears the interval iff the counter is at least `MAX_FAILURES - 1` |
| `RealtimePage.RealtimeDisplay.Settle` | frontend/src/pages/realtime.rs:64-68 | one issued call settles and writes the counter and data as `get_realtime_game` does; the interval is not touched |
| `RealtimePage.RealtimeDisplay.ToggleHidden` | frontend/src/pages/realtime.rs:233-243 | the hidden list becomes `Toggle` of the old one (see `ToggleFlipsOnlyItsIndex`), keeping it free of duplicates |
| `Stats.GetLabels` | frontend/src/pages/calculator.rs:122-141 | the carried text is returned unchanged |
| `Stats.KindIsTheVariant` | frontend/src/pages/calculator.rs:102-119 | two values have the same `Kind` iff they are the same `StatsValue` variant, differing at most in their text |
| `Stats.LabelsIdentifyVariants` | frontend/src/components/calculator.rs:137-156 | two values get the same label iff they are the same variant; `CurrentHealth` is "Health", `MaxHealth` is "Max Health", both with the text unchanged |
| `Stats.ApplyStatWritesOneField` | frontend/src/macros/stats.rs:4-29 | the field the variant names reads back as the stored value (`Level` truncated to usize); every field of another variant and every other part of the player is unchanged; `Level` leaves the stat block untouched |
| `Stats.ApplyStatIdempotent` | frontend/src/macros/stats.rs:4-29 | applying the same variant and value twice is applying it once |
| `Stats.HealthFieldsAreDistinct` | frontend/src/macros/stats.rs:8-9 | `MaxHealth` and `CurrentHealth` write different fields |
| `Stats.ApplyParsedStat` | frontend/src/pages/calculator.rs:419-426 | text that did not parse leaves the player unchanged; a parsed value writes the chosen field and no other |
| `CalculatorModel.ActivePlayerDefaults` | frontend/src/model/calculator.rs:60-75 | Neeko, abilities 5/5/5/3, items `[4645, 3115, 3153]`, no runes, level 18, no stacks, zero stats |
| `CalculatorModel.EnemyDefaults` | frontend/src/model/calculator.rs:88-103 | 0 gives Gwen, 1 Nasus, 2 Gnar, 3 Kayn and any other index Caitlyn; every enemy has items `[4645, 3115, 3153]`, level 14, zero stats and no stacks; `new(n) == new(4)` for `n >= 4`; the first five positions get five different champions |
| `CalculatorPage.AbilityEditSetsOneLevel` | frontend/src/pages/calculator.rs:36-48 | a parsed value sets exactly the level named by Q/W/E/R and keeps the other three; text that does not parse, or another name, changes nothing |
| `CalculatorPage.AbilityEditOfShownLevel` | frontend/src/pages/calculator.rs:298-305 | typing in the level a box shows sets that level |
| `CalculatorPage.EnemyStatEditCases` | frontend/src/pages/calculator.rs:672-685 | only level (truncated), health, armor and magic resist are written, and only when the text parsed; the champion, items and stacks never change |
| `CalculatorPage.UpdateAt` | frontend/src/pages/calculator.rs:620-626 | the enemy at `i` is replaced and every other enemy is unchanged |
| `CalculatorPage.CountOrZero` | frontend/src/pages/calculator.rs:315-318 | the parsed count, or 0 when the text does not parse |
| `CalculatorPage.OversizedCountIsZero` | frontend/src/pages/calculator.rs:315-318 | a count above 2^32 - 1, such as 5000000000, overflows the 32-bit `parse::<usize>` and sets 0 |
| `CalculatorPage.PagePayloadInjective` | frontend/src/pages/calculator.rs:193-208 | two posted bodies are equal iff the player, the roster, the three dragon counts and the simulated items are, so the body records the effect's dependencies exactly |
| `CalculatorPage.RosterInvariant` | frontend/src/pages/calculator.rs:530-567 | after any sequence of "+" and "-" clicks, the roster has 1 to 5 enemies, and position `i` holds the default enemy for `i` |
| `CalculatorPage.PageKindsInOrder` | frontend/src/pages/calculator.rs:350-414 | the page's sixteen stat boxes come in its display order of variants |
| `CalculatorPage.PageEntriesOnePerVariant` | frontend/src/pages/calculator.rs:350-414 | each of the sixteen variants has exactly one box |
| `CalculatorPage.PageEntriesShowTheirField` | frontend/src/pages/calculator.rs:350-414 | each box shows the value of the field its edits write |
| `CalculatorPage.EnemyBoxesEditWhatTheyShow` | frontend/src/pages/calculator.rs:650-685 | each of the four enemy boxes writes back the field it shows; the health box does so through `MaxHealth` |
| `CalculatorPage.CalculatorDisplay.VisiblePanel` | frontend/src/pages/calculator.rs:600-601 | a panel is visible iff `enemy_index` is in range, and it is the one at `enemy_index` |
| `CalculatorPage.CalculatorDisplay.Request` | frontend/src/pages/calculator.rs:193-208 | every posted body has an empty `stack_exceptions` map and the page's simulated items, whatever the form holds |
| `CalculatorPage.CalculatorDisplay.constructor` | frontend/src/pages/calculator.rs:146-155 | the default player, a roster of the one default enemy for position 0, index 0, zero stacks and dragons, simulated items `[3115, 3153, 4645, 3089]`; panel 0 is visible; the first body posted is the defaults' |
| `CalculatorPage.CalculatorDisplay.EditAbility` | frontend/src/pages/calculator.rs:36-48 | the player's abilities become `AbilityEdit` of the old ones (see `AbilityEditSetsOneLevel`), and nothing else changes; the posted body changes in its player only |
| `CalculatorPage.CalculatorDisplay.EditStat` | frontend/src/pages/calculator.rs:419-426 | the player becomes `ApplyParsedStat` of the old player; the posted body changes in its player only |
| `CalculatorPage.CalculatorDisplay.SelectChampion` | frontend/src/pages/calculator.rs:246-251 | only the champion id changes; the posted body changes in its player only |
| `CalculatorPage.CalculatorDisplay.SelectItems` | frontend/src/pages/calculator.rs:260-265 | only the item list changes; the posted body changes in its player only |
| `CalculatorPage.CalculatorDisplay.SelectRunes` | frontend/src/pages/calculator.rs:274-279 | only the rune list changes; the posted body changes in its player only |
| `CalculatorPage.CalculatorDisplay.SetAllyEarthDragons` | frontend/src/pages/calculator.rs:315-318 | the count becomes the parsed number, or 0; the posted body changes in that count only |
| `CalculatorPage.CalculatorDisplay.SetAllyFireDragons` | frontend/src/pages/calculator.rs:328-331 | the count becomes the parsed number, or 0; the posted body changes in that count only |
| `CalculatorPage.CalculatorDisplay.SetActiveStacks` | frontend/src/pages/calculator.rs:340-344 | the stacks become the parsed number, or 0; the posted body does not change, since the stacks are not sent |
| `CalculatorPage.CalculatorDisplay.Prev` | frontend/src/pages/calculator.rs:517-524 | the index goes down by one only when it is above 0; the posted body does not change |
| `CalculatorPage.CalculatorDisplay.Next` | frontend/src/pages/calculator.rs:585-593 | the index goes up by one only when it is below `len - 1`, so an index in range stays in range; the posted body does not change |
| `CalculatorPage.CalculatorDisplay.AddEnemy` | frontend/src/pages/calculator.rs:530-540 | below 5 enemies, pushes the default enemy for the current length; the roster stays within 1 to 5; the posted body changes in its roster only |
| `CalculatorPage.CalculatorDisplay.RemoveEnemy` | frontend/src/pages/calculator.rs:558-567 | above 1 enemy, pops the last; the roster stays within 1 to 5; the index is not adjusted, so popping the visible last enemy leaves no panel visible; the posted body changes in its roster only |
| `CalculatorPage.CalculatorDisplay.EditEnemyStat` | frontend/src/pages/calculator.rs:672-685 | only the enemy at `player_index` changes, as `EnemyStatEdit` says; the posted body changes in its roster only |
| `CalculatorPage.CalculatorDisplay.SelectEnemyChampion` | frontend/src/pages/calculator.rs:620-626 | only that enemy's champion id changes; the posted body changes in its roster only |
| `CalculatorPage.CalculatorDisplay.SelectEnemyItems` | frontend/src/pages/calculator.rs:637-644 | only that enemy's item list changes; the posted body changes in its roster only |
| `CalculatorComponent.ComponentPostIsPagePostWithoutDragons` | frontend/src/components/calculator.rs:176-189 | the component's body is the page's body for the same player and roster, without `stack_exceptions`, iff the page's three dragon counts are 0 and it simulates `[3115, 3153, 4645, 3089]`; the two games agree iff the dragon counts are 0 |
| `CalculatorComponent.ComponentKindsInOrder` | frontend/src/components/calculator.rs:246-310 | the component's sixteen boxes come in its own display order of variants |
| `CalculatorComponent.ComponentEntriesOnePerVariant` | frontend/src/components/calculator.rs:246-310 | each variant has exactly one box |
| `CalculatorComponent.ComponentEntriesShowTheirField` | frontend/src/components/calculator.rs:246-310 | each box shows the field it edits, except `CurrentHealth`, which shows `max_health` |
| `CalculatorComponent.CurrentHealthBoxDiffersFromPage` | frontend/src/components/calculator.rs:287-290 | the component's current-health box agrees with the page's iff the two health values format alike |
| `CalculatorComponent.CalculatorForm.Request` | frontend/src/components/calculator.rs:172-189 | the form posts the page's body for no dragons and the page's initial items, without `stack_exceptions` |
| `CalculatorComponent.CalculatorForm.constructor` | frontend/src/components/calculator.rs:166-167 | the default player and a roster of the default enemy |
| `CalculatorComponent.CalculatorForm.EditAbility` | frontend/src/components/calculator.rs:33-46 | the same single-level rule as the page; the posted body changes in its player only |
| `CalculatorComponent.CalculatorForm.EditStat` | frontend/src/components/calculator.rs:87-94 | `apply_stat!` only when the text parsed, otherwise no change; the posted body changes in its player only |
| `Stacker.ContributionCases` | frontend/src/components/stacker.rs:60-76 | each instance adds its maximum damage if `is_maximum`, else its minimum, looked up by source; an unknown source or a missing key adds 0 |
| `Stacker.StackTotalAppend` | frontend/src/components/stacker.rs:60-77 | the total of two stacks laid end to end is the sum of their totals |
| `Stacker.TotalNonNegative` | frontend/src/components/stacker.rs:79 | with non-negative damages the total is non-negative, so the health left never exceeds the current health |
| `Stacker.TotalDamage` | frontend/src/components/stacker.rs:54-77 | the accumulation loop computes the stack's total |
| `Stacker.StackerRows` | frontend/src/components/stacker.rs:53-79 | one row per enemy, in enemy order, with the enemy's id and name, the stack's total against that enemy, and final health = current health - total |
| `Stacker.Position` | frontend/src/components/stacker.rs:231 | the index of the first instance with the id, if any; `None` only when no instance has it |
| `Stacker.RemoveFirstAt` | frontend/src/components/stacker.rs:231-233 | removing at the first match deletes exactly that element |
| `Stacker.RemoveFirstAbsent` | frontend/src/components/stacker.rs:231-233 | with no instance of that id the stack is unchanged |
| `Stacker.FirstMatch` | frontend/src/components/stacker.rs:231 | the first index whose id matches |
| `Stacker.RemoveFirstProperties` | frontend/src/components/stacker.rs:229-235 | only the first match is deleted and the length drops by one; with no match nothing changes |
| `Stacker.RemoveFirstOnDistinctIds` | frontend/src/components/stacker.rs:229-235 | with distinct ids, after removal the ids stay distinct and the id is gone |
| `Stacker.StackHeading` | frontend/src/components/stacker.rs:213-221 | the "Stack" heading is shown iff the stack is non-empty |
| `Stacker.SelectorButtons` | frontend/src/components/stacker.rs:124-125 | the buttons are the map's entries, each once, in ascending key order |
| `Stacker.StackState.constructor` | frontend/src/pages/realtime.rs:88 | the stack starts empty |
| `Stacker.StackState.Push` | frontend/src/components/stacker.rs:136-147 | appends one instance, with the given key and source, not at maximum and with a fresh id; the earlier entries are unchanged; ids stay distinct |
| `Stacker.StackState.Drop` | frontend/src/components/stacker.rs:228-235 | the stack becomes `RemoveFirst` of the old stack (see `RemoveFirstProperties`); ids stay distinct |
| `Selector.SortOptions` | frontend/src/components/selector.rs:31-43 | the options are a permutation of the map's entries, sorted by key in Single mode and by label in Multiple mode |
| `Selector.MultipleClickProperties` | frontend/src/components/selector.rs:107-113 | the selection never shrinks (the old one is a prefix of the new), grows by at most one, stays duplicate-free and holds the key; a list is emitted iff the key was added, and it is the new selection |
| `Selector.ClickAllKeepsAndCovers` | frontend/src/components/selector.rs:107-113 | after any sequence of clicks, the selection is duplicate-free, extends the old one, and holds exactly the old and the clicked keys |
| `Selector.SelectorState.constructor` | frontend/src/components/selector.rs:45-47 | closed, empty selection, nothing emitted |
| `Selector.SelectorState.ToggleOpen` | frontend/src/components/selector.rs:64-67 | the title button inverts `is_open` |
| `Selector.SelectorState.ClickOutside` | frontend/src/components/selector.rs:49-55 | an outside click closes the dropdown |
| `Selector.SelectorState.ClickSingle` | frontend/src/components/selector.rs:86-99 | a single-choice click emits exactly the clicked key |
| `Selector.SelectorState.ClickMultiple` | frontend/src/components/selector.rs:107-113 | the selection and the emissions change as `MultipleClick` says; the selection stays duplicate-free |
| `BaseTable.RemoveChar` | frontend/src/components/base_table.rs:46 | `replace(c, "")` leaves no `c` and never lengthens the string |
| `BaseTable.RemoveCharAbsent` | frontend/src/components/base_table.rs:46 | a string without `c` is unchanged |
| `BaseTable.RemoveCharConcat` | frontend/src/components/base_table.rs:46 | removal distributes over concatenation |
| `BaseTable.RemoveCharIdempotent` | frontend/src/components/base_table.rs:46 | removing twice is removing once |
| `BaseTable.CreateImage` | frontend/src/components/base_table.rs:23-56 | the key must be non-empty; a letter appears iff the key is an ability not starting with C or A; the letter is the key's first character; the subscript is absent iff the key is one character long |
| `BaseTable.SubscriptIsRestOfKey` | frontend/src/components/base_table.rs:41-56 | the subscript is the rest of the key without underscores |
| `BaseTable.AbilityIconIsByLetter` | frontend/src/components/base_table.rs:27-37 | keys of one ability that share a first letter share the icon |
| `BaseTable.OtherIconsAreDistinct` | frontend/src/components/base_table.rs:38-40 | items and runes are drawn under their own key, so distinct keys get distinct images |
| `BaseTable.SubscriptExample` | frontend/src/components/base_table.rs:23-56 | "Q_MAX" for Neeko gives `img/abilities/NeekoQ.png` with Q and subscript "MAX" |
| `BaseTable.AttackExample` | frontend/src/components/base_table.rs:26-29 | "A" gives `img/abilities/A.png` with no letter |
| `BaseTable.ItemExample` | frontend/src/components/base_table.rs:38-40 | item "3089" gives `img/items/3089.png` with no letter |
| `BaseTable.SubtextCases` | frontend/src/components/base_table.rs:108-116 | the change line is empty iff there is no minimum change and no positive maximum change; a positive maximum change alone gives " - " and that change |
| `BaseTable.CellTextCases` | frontend/src/components/base_table.rs:103-107 | the text starts with the minimum; it continues with " - " and the maximum iff the maximum is positive |
| `BaseTable.MakeSubtext` | frontend/src/components/base_table.rs:108-116 | the two conditional `push_str`s build exactly `Subtext`, whose cases `SubtextCases` states |
| `BaseTable.MakeTableBody` | frontend/src/components/base_table.rs:98-134 | every ordered key must be in the damages; one cell per key, in order, with that instance's text, change line and damage type |
| `RealtimeTable.HeaderImageOf` | frontend/src/components/realtime.rs:22-63 | the key must be non-empty, and a champion must be present for a non-C/A ability (`unwrap`); every ability gets a letter (C and A included), with the first character and a subscript present iff the key is longer than one character; items and runes get none |
| `RealtimeTable.HeaderAgreesWithBaseTable` | frontend/src/components/realtime.rs:25-63 | the same image path as `create_image`, and the same header except over C/A abilities, where only the realtime header draws a letter |
| `RealtimeTable.CellIsStartOfBaseText` | frontend/src/components/realtime.rs:93-99 | the realtime cell shows only the minimum, a prefix of the base cell's text, and the whole text when the maximum is not positive |
| `RealtimeTable.Header` | frontend/src/components/realtime.rs:17-80 | one header image per key, in the map's order |
| `RealtimeTable.Body` | frontend/src/components/realtime.rs:88-107 | every key must be in the damages; one cell per key, in order, with that instance's minimum damage and damage type |
| `RealtimeTable.Display` | frontend/src/components/realtime.rs:109-169 | one row per enemy; every row has one cell per header column; the header has one column per damaging ability, item and rune |
| `RealtimeTable.AbilityColumnsMatch` | frontend/src/components/realtime.rs:121-152 | under the header of ability `j`, every enemy's row shows that enemy's damage from ability `j` |
| `RealtimeTable.ItemColumnsMatch` | frontend/src/components/realtime.rs:126-156 | the same for the item columns, which follow the abilities |
| `RealtimeTable.RuneColumnsMatch` | frontend/src/components/realtime.rs:131-160 | the same for the rune columns, which follow the items |
| `RealtimeTable.KeysCounted` | frontend/src/components/realtime.rs:151 | a map's key order lists as many keys as the map has |
| `ComparisonHeader.Split` | frontend/src/components/comparison_header.rs:33-36 | no piece of `split(' ')` holds the separator |
| `ComparisonHeader.ConcatSplitRemoves` | frontend/src/components/comparison_header.rs:33-37 | split then `join("")` removes every occurrence of the separator and nothing else |
| `ComparisonHeader.StatImageName` | frontend/src/components/comparison_header.rs:33-37 | the icon name is the stat name with every space removed |
| `ComparisonHeader.TrimEndMatches` | frontend/src/components/comparison_header.rs:46 | the result does not end in ".0" and is a prefix of the input |
| `ComparisonHeader.TrimmedTailIsCopies` | frontend/src/components/comparison_header.rs:46 | the input is the result followed by some number of copies of ".0" |
| `ComparisonHeader.TrimKeepsCleanValue` | frontend/src/components/comparison_header.rs:46 | a value not ending in ".0" is shown as it is |
| `ComparisonHeader.StatImageJoinsWords` | frontend/src/components/comparison_header.rs:33-42 | a two-word stat name such as "Ability Power" names the icon of the two words run together, "AbilityPower" |
| `ComparisonHeader.TrimExamples` | frontend/src/components/comparison_header.rs:46 | "80.0" gives "80"; "2.5" is unchanged |
| `ComparisonHeader.MakeHeader` | frontend/src/components/comparison_header.rs:5-56 | the item icon is `<backend>/cdn/items/<item_id>.png` and the gold icon `GoldPer10Seconds`; the name and cost are the item's; one stat row per prettified stat, in ascending name order; every stat has its row, and every row comes from a stat |
| `Numeric.RealToUsize` | frontend/src/externcalls/invokers.rs:125 | `as usize` truncates toward zero, gives 0 below 1, and saturates at the 32-bit `usize::MAX`, 2^32 - 1 |
| `Numeric.TruncReal` | frontend/src/pages/realtime.rs:154 | truncation toward zero, for either sign |
| `Numeric.RealToI32` | frontend/src/pages/realtime.rs:154 | `as i32` stays within the i32 bounds and truncates any value that fits |
| `Numeric.TruncDivRem` | frontend/src/pages/realtime.rs:154-155 | Rust's `/` and `%` satisfy `q * b + r == a`, with `r` taking the sign of `a` and `\|r\| < b` |
| `Numeric.NatToString` | frontend/src/pages/calculator.rs:352 | `to_string` of an unsigned value is a non-empty run of decimal digits |
| `Numeric.ParseUsize` | frontend/src/pages/calculator.rs:39 | a successful `parse::<usize>` fits in a 32-bit `usize` and starts with a digit, or with '+' followed by more |
| `Numeric.DigitsOfNatToString` | frontend/src/pages/calculator.rs:352 | the digits of `to_string` read back as the number |
| `Numeric.ParseShownUsize` | frontend/src/pages/calculator.rs:39 | the text a box shows for a 32-bit usize parses to that usize |
| `Numeric.ParseRejectsAboveBound` | frontend/src/pages/calculator.rs:39 | the decimal text of any number above 2^32 - 1 fails to parse as a usize |
| `Ordering.LexLeTotal` | frontend/src/components/comparison_header.rs:7 | `String::cmp` puts any two strings in some order |
| `Ordering.LexLeTransitive` | frontend/src/components/comparison_header.rs:7 | the order is transitive |
| `Ordering.LexLeAntisymmetric` | frontend/src/components/comparison_header.rs:7 | the order is antisymmetric |
| `Ordering.LexLeIsTotalPreorder` | frontend/src/components/comparison_header.rs:7 | the string order is a total preorder, as `sort_by` needs |
| `Ordering.ByFirstIsTotalPreorder` | frontend/src/components/selector.rs:38 | comparing pairs by their first part is a total preorder |
| `Ordering.BySecondIsTotalPreorder` | frontend/src/components/selector.rs:41 | comparing pairs by their second part is a total preorder |
| `Ordering.SwapAdjacent` | frontend/src/components/selector.rs:38 | one swap of neighbours exchanges exactly those two elements and keeps the multiset |
| `Ordering.SortBy` | frontend/src/components/selector.rs:36-43 | the in-place sort leaves the array sorted by the comparator and a permutation of what it held |
| `Ordering.SortByKey` | frontend/src/components/comparison_header.rs:6-7 | entries sorted by key: a permutation, in ascending key order |

## Left out

- HTTP (`reqwest`, `reqwasm`), SQL (`sqlx`), serde decoding, the Tauri runtime and the `invoke` glue: each call is an outcome given as an input, and the requests or queries issued are returned as values.
- `create_game_register` in `src-tauri/src/database/db.rs`: a single SQL insert with no decision in it.
- Win32 calls: handles are natural numbers, 0 being the null handle. The Ctrl state is the 16-bit value `GetAsyncKeyState` returns. `GetMessageW` is a sequence of fetches. A fetch list that ends before `WM_QUIT` stands for a loop still blocked.
- Concurrency: `spawn_local` ordering, the timer and the async task that hosts the hook. A tick and the settling of a relay call are separate discrete steps, in any order the caller chooses.
- Floating point: f64 values are reals, with NaN and infinity not modelled. `{:.0}` and `f64::to_string` are a formatting function given as a parameter. `parse::<f64>` is an `Option<real>` given as a parameter. The stacker's health percentage column is not modelled.
- `String::len` counts bytes. The start and code-change rules compare it with 6 on the character count, which agrees on ASCII codes.
- The backend URL and `MAX_FAILURES` are parameters. `MAX_FAILURES` is defined outside the modelled files and is required to be at least 1.
- A `unwrap` that panics is a precondition of the member that models it: an empty header key, a key missing from the damages, or the champion of a realtime ability header.
- A v4 uuid is modelled as a precondition that the new id is not already in the stack.
- Iteration order of a `HashMap` is an input sequence, required to list each key once.
- The files come from different snapshots and do not type-check together. Each is modelled on its own terms:
  - the realtime page passes its `String` code to a `usize` API, so `Settle` takes the number the call was made with;
  - the component calls `EnemyPlayersX::new()` with no index, modelled as index 0;
  - the base table's `DamageLike` change fields are modelled as optional minimum and maximum changes;
  - the realtime header receives the player's champion id as `Some`;
  - the page builds its `GameX` with a `stack_exceptions` field that the `GameX` of frontend/src/model/calculator.rs:107-113 does not declare, so the page's body carries the field and the component's does not.
- The realtime page's hide list indexes the enemy scoreboard column, while the enemy filter indexes `game_data.enemies`. The model follows each use as written and does not relate the two orders.
- Markup, CSS, images on error other than the splash fallback, the clipboard button, and the static maps of `context/core.rs`.
- `Shell.GetGameCode` carries no ensures of its own: it is the stored code (see `UnreachableBackendStillAnswers`).
- The contents of `stack_exceptions`: the page always sends an empty map, so the model gives it string keys and count values without further meaning.
- `BaseTable.RemoveChar`: states that no `c` is left and the length does not grow, not that the other characters keep their order. That is implied by `RemoveCharAbsent` and `RemoveCharConcat`.
- `ComparisonHeader.Split`: states only that no piece holds the separator; how many pieces there are is not stated separately.
- `Numeric.ParseUsize`: states only the shape and bound of a successful parse; the round trip through `to_string` is `ParseShownUsize`.
- `Ordering.SortBy`: does not state that `sort_by` is stable. Map keys are distinct, so stability matters only for equal labels in Multiple mode, whose order already depends on the map's iteration order.

## Findings

| source | as written | input that shows it | evidently intended | confidence | as-written member | corrected member |
|---|---|---|---|---|---|---|
| src-tauri/src/wnd_system/keyboard.rs:57-62 | `uninstall_hook` unhooks and resets only when `HOOK_HANDLE.is_invalid()` | a successful `install_hook` (handle 7), then `uninstall_hook`: the hook stays installed and `UnhookWindowsHookEx` is never called | unhook and reset when the handle is valid | not executed | `Keyboard.UninstallAsWritten`, `Keyboard.InstallThenUninstallStaysInstalled` | `Keyboard.UninstallIntended`, `Keyboard.IntendedUninstallRemovesHook` |
| frontend/src/pages/realtime.rs:129-134 | the code-change effect calls `interval_state.set(None)`, then tests `is_none()` on the handle captured at render time, which still holds the live interval | polling "123456", then changing the code to "654321": nothing polls afterwards | drop the old interval and start polling the new code when it has 6 characters | not executed | `RealtimePage.CodeChangeAsWritten`, `RealtimePage.CodeChangeStopsLivePolling` | `RealtimePage.CodeChangeIntended`, `RealtimePage.CodeChangeIntendedPolls` |

The rest of the model uses the corrected members:

- `Keyboard.HookSystem.UninstallHook` and `Shell.MessageLoop` uninstall with the guard the right way round.
- `RealtimePage.RealtimeDisplay.CodeChanged` restarts polling for a valid new code.
