# Feather front end: key-driven state, modelled in Dafny

Feather is a terminal music client. This project models the key-driven
state of its front end as pure step functions over immutable records:

- the **top-level state machine** of `main.rs`: the `:` chords that switch
  between the Search, History, UserPlaylist, SongPlayer and help views, Esc
  leaving help mode, the view the player remembers, the exit flag, and the
  routing of every other key to the active view (`App`);
- the **frame decisions** of `main.rs`: which view fills the main area,
  whether the player bar is drawn, and the top bar's spans and highlighted
  title (`Screen`);
- the **playlist-search pane** of `playlist_search.rs`: the `[` focus
  toggle and the selection relay between the two halves (`PlaylistSearch`);
  the search half with its Tab mode toggle, query submission, saturating
  result cursor and result drain (`SearchComponent`); the selected-playlist
  half with its paging, page cursor, id receipt and the four critical
  sections of a completed load (`PlaylistView`);
- the page arithmetic of that view (`Paging`) and Rust's `str::trim`
  (`Text`), which turns the first text-area line into the query.

Background tasks, channels and locks are replaced by plain inputs and
outputs. A spawned query task is recorded in the log `queries`, and a relay
send in the log `relayOut`. A message a task delivers is an `Option` argument
of a tick. A playlist load's result is the argument of `CompleteLoad`. The
text-area widget's editing is the parameter `edit`, and the song database's
`next_page` is the parameter `page`. `PAGE_SIZE` is a constant whose value is
unknown; only that it is a positive `usize` is used, so every fact holds for
every such page size.

The model follows the code as written, including its quirks:

- Right clamps the offset to the page count itself (`playlist_search.rs:310`),
  not to the page count minus one page. With 7 songs on pages of 5, a second
  Right therefore goes on from offset 5 to offset 10, past the last song
  (`Paging.SevenItemsOnPagesOfFive`).
- A new playlist id resets the cursor but not the offset (lines 369-370). A
  reload of a shorter playlist can leave the offset beyond the new bound
  (`PlaylistView.ReloadStrandsOffset`), so the old offset is kept.
- Submitting a query tests whether the text area has any line (line 142),
  not whether the line is empty, so an empty query is submitted.
- Loads are not tagged with the id they were requested for: whichever
  finishes last is installed (`PlaylistView.LastCompletedLoadWins`). The old
  page stays visible while a new load is in flight. Because each load takes
  the database, bound and content locks separately, two loads in flight can
  interleave, and one playlist's songs can end up installed under the other
  playlist's page bound (`PlaylistView.InterleavedLoadsMixBounds`). The
  unwrap at line 310 still never panics under any interleaving
  (`PlaylistView.RightNeverPanicsFromInit`).
- The help flag and the help state can disagree: `:?` then `:s` leaves the
  flag set with the state at Search, so help is drawn while keys go to the
  search view (`Screen.HelpDrawnWhileSearchRouted`).
- Down in the result list computes `len - 1` on `usize` (line 181), which
  underflows for an empty result list. An empty list is reachable
  (`SearchComponent.EmptyResultsReachUnderflow`). Down there is modelled only
  under the precondition `!DownUnderflows`. Likewise Right unwraps the page
  bound (line 310), and the model requires it to be present; the lemmas about `PlaylistView.Valid`
  prove that it always is.

## Model

| member | source | states |
|---|---|---|
| `Base.SatInc` | feather_frontend/src/playlist_search.rs:179 | `saturating_add(1)` on `usize` (also at line 355): one more, except at the largest `usize`, which stays put |
| `Base.SatDec` | feather_frontend/src/playlist_search.rs:187 | `saturating_sub(1)` on `usize` (also at line 361): one less, except at zero, which stays put |
| `Text.TrimStart` | feather_frontend/src/playlist_search.rs:143 | the result is a suffix of the input, does not start with whitespace, and only whitespace was dropped |
| `Text.TrimEnd` | feather_frontend/src/playlist_search.rs:143 | the result is a prefix of the input, does not end with whitespace, and only whitespace was dropped |
| `Text.Trim` | feather_frontend/src/playlist_search.rs:143 | the query is a contiguous piece of the line with whitespace, and only whitespace, cut from both ends |
| `Text.TrimAllWhitespace` | feather_frontend/src/playlist_search.rs:143 | a line of only whitespace gives the empty query |
| `Text.TrimIdempotent` | feather_frontend/src/playlist_search.rs:143 | trimming a trimmed query changes nothing |
| `Paging.PageCount` | feather_frontend/src/playlist_search.rs:384 | the bound is a multiple of the page size and lies in `[n, n + P)` |
| `Paging.PageCountUnique` | feather_frontend/src/playlist_search.rs:384 | any multiple of `P` in `[n, n + P)` is the bound, so the rounding is the least multiple not below `n` |
| `Paging.PageCountOfAligned` | feather_frontend/src/playlist_search.rs:384 | a song count that is a whole number of pages is its own bound |
| `Paging.PageCountZeroIff` | feather_frontend/src/playlist_search.rs:384 | the bound is zero exactly for an empty playlist |
| `Paging.NextOffset` | feather_frontend/src/playlist_search.rs:310 | one page on, never past the bound: the result is the bound or the offset plus a page, and at most both |
| `Paging.PrevOffset` | feather_frontend/src/playlist_search.rs:333 | one page back, or zero when less than a page remains; never above the offset |
| `Paging.StepsKeepAlignment` | feather_frontend/src/playlist_search.rs:306-351 | with an aligned bound, both steps keep the offset a multiple of the page size |
| `Paging.ForwardThenBack` | feather_frontend/src/playlist_search.rs:306-351 | from within the bound, a forward step that moved advanced exactly one page, and the backward step returns to the start |
| `Paging.StepsAtBoundaries` | feather_frontend/src/playlist_search.rs:306-351 | Right at the bound and Left at offset 0 compute the offset they started from, so the `new_offset != self.offset` tests at lines 314 and 337 leave the view unchanged |
| `Paging.SevenItemsOnPagesOfFive` | feather_frontend/src/playlist_search.rs:310 | seven songs on pages of five: bound 10, steps 0 to 5 to 10 |
| `SearchComponent.Init` | feather_frontend/src/playlist_search.rs:109-126 | the search bar is focused, the cursor is at 0, nothing is displayed, no results and nothing sent |
| `SearchComponent.Toggle` | feather_frontend/src/playlist_search.rs:127-133 | Tab always changes the mode |
| `SearchComponent.KeySearchBar` | feather_frontend/src/playlist_search.rs:135-165 | Enter sets the cursor to 0 and hides content; with a line present it submits the trimmed first line as the query and spawns one query task; any other key only edits the text |
| `SearchComponent.CursorDown` | feather_frontend/src/playlist_search.rs:177-184 | Down moves one row on with `usize` saturation when the length is unknown; with a known length it stays on the list, advances when a row is left, and otherwise lands on the last row |
| `SearchComponent.KeySearchResult` | feather_frontend/src/playlist_search.rs:166-192 | Enter sends the highlighted id to the relay exactly when there is one; Down and Up move the cursor; nothing else changes |
| `SearchComponent.HandleKey` | feather_frontend/src/playlist_search.rs:193-203 | Tab flips the mode; other keys go to the handler of the current mode and keep the mode; no key changes results, list length or highlighted id |
| `SearchComponent.HandleKeys` | feather_frontend/src/playlist_search.rs:177-203 | a key sequence handled one key at a time fails only if the list length is known to be zero and a Down key occurs, never otherwise; a run that completes keeps the results, the list length and the highlighted id, and only appends to the query and relay logs |
| `SearchComponent.Drain` | feather_frontend/src/playlist_search.rs:213-220 | a received list replaces the results, a received error replaces them with the message, either sets the display flag; no message changes nothing |
| `SearchComponent.Refresh` | feather_frontend/src/playlist_search.rs:239-250 | with displayed results the length becomes known and the row under the cursor, if any, becomes the highlighted id; nothing else is written |
| `SearchComponent.Tick` | feather_frontend/src/playlist_search.rs:213-250 | a received list is displayed with its length known; an error keeps the old length and highlighted id; mode, cursor, query and logs are kept |
| `SearchComponent.RefreshIdempotent` | feather_frontend/src/playlist_search.rs:239-250 | a second render without a new message changes nothing |
| `SearchComponent.KeyKeepsCursorInRange` | feather_frontend/src/playlist_search.rs:177-189 | once the cursor is on the list, no key takes it off |
| `SearchComponent.KeysKeepCursorInRange` | feather_frontend/src/playlist_search.rs:177-189 | from a cursor on the list, any key sequence runs without failing and leaves the cursor in `[0, len - 1]` |
| `SearchComponent.TabTwiceRestores` | feather_frontend/src/playlist_search.rs:193-203 | Tab twice restores the component |
| `SearchComponent.EnterSendsDisplayedRow` | feather_frontend/src/playlist_search.rs:168-175 | after a list is displayed, Enter sends the id of the row under the cursor |
| `SearchComponent.ErrorKeepsStaleSelection` | feather_frontend/src/playlist_search.rs:213-220 | after a provider error, Enter still sends the previously highlighted id |
| `SearchComponent.ShorterResultsStrandCursor` | feather_frontend/src/playlist_search.rs:239-250 | a shorter new list leaves the cursor past its end and the old highlighted id in place |
| `SearchComponent.EmptyResultsReachUnderflow` | feather_frontend/src/playlist_search.rs:180-181 | an empty result list makes Down's `len - 1` underflow |
| `SearchComponent.ThreeResultsScenario` | feather_frontend/src/playlist_search.rs:135-189 | "lofi" with three results: cursor at 0, two Downs reach 2, a third stays at 2 |
| `PlaylistView.Init` | feather_frontend/src/playlist_search.rs:291-303 | nothing loaded, cursor and offset 0, list length one page |
| `PlaylistView.PageRight` | feather_frontend/src/playlist_search.rs:306-329 | without a database nothing changes; with one the offset becomes the next offset, a move shows the page there, and no move changes nothing |
| `PlaylistView.PageLeft` | feather_frontend/src/playlist_search.rs:330-351 | the same for the previous offset |
| `PlaylistView.HandleKey` | feather_frontend/src/playlist_search.rs:304-366 | Right and Left page; Down clamps the cursor to `PAGE_SIZE - 1`; Up saturates at 0; no key touches the database, the bound or the list length |
| `PlaylistView.Receive` | feather_frontend/src/playlist_search.rs:368-375 | a received id sets the cursor to 0 and spawns one load; offset, page and database are kept |
| `PlaylistView.DropDb` | feather_frontend/src/playlist_search.rs:380-382 | the first section takes the old database out and changes nothing else |
| `PlaylistView.SetMaxPage` | feather_frontend/src/playlist_search.rs:383-386 | the second section installs an aligned bound in `[n, n + PAGE_SIZE)` for `n` songs and changes nothing else |
| `PlaylistView.InstallDb` | feather_frontend/src/playlist_search.rs:400-402 | the third section installs the new database and changes nothing else |
| `PlaylistView.InstallContent` | feather_frontend/src/playlist_search.rs:403-405 | the fourth section installs the new first page and changes nothing else |
| `PlaylistView.LoadStages` | feather_frontend/src/playlist_search.rs:378-407 | the four critical sections run in order: the old database is dropped first, the new bound is set before the new database appears, the old page stays shown until the new first page is installed, and cursor, offset and loads are never touched |
| `PlaylistView.CompleteLoad` | feather_frontend/src/playlist_search.rs:376-409 | a fetch that succeeds and runs to the end installs bound, database and first page; a failed fetch changes nothing; cursor, offset and loads are never touched |
| `PlaylistView.InitValid` | feather_frontend/src/playlist_search.rs:291-303 | the initial view is valid |
| `PlaylistView.HandleKeyKeepsValid` | feather_frontend/src/playlist_search.rs:304-366 | keys keep the cursor on the page, the offset aligned and the list length fixed |
| `PlaylistView.ReceiveKeepsValid` | feather_frontend/src/playlist_search.rs:369-370 | receiving an id keeps the view valid |
| `PlaylistView.LoadStagesKeepValid` | feather_frontend/src/playlist_search.rs:378-407 | every intermediate state of a load has a bound whenever it has a database, which the unwrap at line 310 relies on |
| `PlaylistView.CompleteLoadKeepsValid` | feather_frontend/src/playlist_search.rs:376-409 | a completed load keeps the view valid |
| `PlaylistView.RightThenLeft` | feather_frontend/src/playlist_search.rs:306-351 | from within the bound, a Right that moved followed by Left restores the offset and shows its page; the cursor is untouched |
| `PlaylistView.PagingKeepsOffsetInBound` | feather_frontend/src/playlist_search.rs:306-351 | keys never take an offset within the bound past it |
| `PlaylistView.ReloadStrandsOffset` | feather_frontend/src/playlist_search.rs:369-386 | a reload of a shorter playlist leaves the offset past the new bound, and Right then moves back |
| `PlaylistView.LastCompletedLoadWins` | feather_frontend/src/playlist_search.rs:376-409 | the load completed last is installed, whatever was requested last |
| `PlaylistView.Apply` | feather_frontend/src/playlist_search.rs:304-409 | one key, receipt or load section: only load sections change the database and the bound, only keys move the offset, only a received id spawns a load, and the list length is fixed |
| `PlaylistView.Run` | feather_frontend/src/playlist_search.rs:304-409 | events applied in order; a run fails only if it contains a Right key, and a run that completes keeps the list length |
| `PlaylistView.RunKeepsValid` | feather_frontend/src/playlist_search.rs:304-409 | along any interleaving of keys, id receipts and the critical sections of concurrent loads, where each database install follows some bound install, the view stays valid and the unwrap at line 310 never panics |
| `PlaylistView.RightNeverPanicsFromInit` | feather_frontend/src/playlist_search.rs:291-409 | from the initial view, every such interleaving is free of panics and ends in a valid view |
| `PlaylistView.InterleavedLoadsMixBounds` | feather_frontend/src/playlist_search.rs:378-396 | two interleaved loads can leave one playlist's database installed under the other playlist's page bound |
| `PlaylistView.LoadStoppedAtDbConstruction` | feather_frontend/src/playlist_search.rs:380-387 | a load that stops at `SongDatabase::new()` leaves no database, the new playlist's bound and the old page, and the view stays valid |
| `PlaylistSearch.Init` | feather_frontend/src/playlist_search.rs:45-52 | the pane starts focused on search with both halves initial and nothing relayed |
| `PlaylistSearch.Toggle` | feather_frontend/src/playlist_search.rs:68-74 | `[` always changes the focus |
| `PlaylistSearch.HandleKey` | feather_frontend/src/playlist_search.rs:54-67 | `[` flips the focus; other keys go to the focused half only and keep the focus |
| `PlaylistSearch.Tick` | feather_frontend/src/playlist_search.rs:76-83 | a render drains the search half, then delivers the oldest undelivered relay id to the view if its send has landed |
| `PlaylistSearch.CompleteLoad` | feather_frontend/src/playlist_search.rs:376-409 | a completed load changes the view half only |
| `PlaylistSearch.InitRelayInOrder` | feather_frontend/src/playlist_search.rs:45-52 | initially no id is sent or received |
| `PlaylistSearch.HandleKeyKeepsRelayInOrder` | feather_frontend/src/playlist_search.rs:168-175 | keys keep the loads equal to the sent ids already delivered |
| `PlaylistSearch.TickKeepsRelayInOrder` | feather_frontend/src/playlist_search.rs:369-375 | delivery keeps the relay first-in first-out with nothing lost |
| `PlaylistSearch.CompleteLoadKeepsRelayInOrder` | feather_frontend/src/playlist_search.rs:376-409 | completed loads do not disturb the relay |
| `PlaylistSearch.InitViewValid` | feather_frontend/src/playlist_search.rs:45-52 | the pane starts with a valid view half |
| `PlaylistSearch.HandleKeyKeepsViewValid` | feather_frontend/src/playlist_search.rs:54-67 | keys routed by the pane keep the view half valid |
| `PlaylistSearch.TickKeepsViewValid` | feather_frontend/src/playlist_search.rs:76-83 | a render, with its relay delivery, keeps the view half valid |
| `PlaylistSearch.CompleteLoadKeepsViewValid` | feather_frontend/src/playlist_search.rs:376-409 | a completed load keeps the view half valid |
| `PlaylistSearch.ValidViewOnlySearchFails` | feather_frontend/src/playlist_search.rs:54-67 | with a valid view half, a key panics exactly when it is the search half's underflowing Down, so the Right unwrap never fires at the pane level |
| `PlaylistSearch.BracketTwiceRestores` | feather_frontend/src/playlist_search.rs:54-74 | `[` twice restores the pane |
| `PlaylistSearch.BracketNeverTyped` | feather_frontend/src/playlist_search.rs:54-56 | `[` never reaches the text area |
| `App.Init` | feather_frontend/src/main.rs:97-111 | state Global, help flag off, exit off, no remembered view |
| `App.Chord` | feather_frontend/src/main.rs:114-137 | `:s`/`:u`/`:h` change only the state, `:p` remembers the old state and opens the player, `:?` sets flag and help state, `:q` sets only the exit flag, any other selector changes nothing |
| `App.RouteOf` | feather_frontend/src/main.rs:144-167 | each of Search, History, SongPlayer and UserPlaylist routes to its own view, and only that state routes there |
| `App.GlobalKey` | feather_frontend/src/main.rs:144-167 | Esc in the help state returns to Global with the flag off; every other key keeps the state and is forwarded by the state's route |
| `App.HandleKey` | feather_frontend/src/main.rs:114-141 | `:` takes the chord path and forwards nothing; every other key takes the global path |
| `App.PlainKeysKeepState` | feather_frontend/src/main.rs:139-167 | non-chord keys change nothing but Esc in the help state |
| `App.OnlyPlayerChordSetsPrevState` | feather_frontend/src/main.rs:123-126 | only `:p` writes the remembered view |
| `App.OnlyEscLeavesHelp` | feather_frontend/src/main.rs:149-155 | only Esc in the help state clears the help flag, and it returns to Global |
| `App.HelpIgnoresOtherKeys` | feather_frontend/src/main.rs:149-155 | in the help state other keys are ignored and forwarded nowhere |
| `App.ExitFlag` | feather_frontend/src/main.rs:131-133 | nothing clears the exit flag and only `:q` sets it |
| `App.HelpFlagOutlivesHelpState` | feather_frontend/src/main.rs:120-130 | `:?` then `:s` leaves the flag set in state Search |
| `App.HandleKeyKeepsHelpStateHasFlag` | feather_frontend/src/main.rs:127-155 | the help state always has the flag set |
| `App.NothingEntersHome` | feather_frontend/src/main.rs:114-167 | no key enters the Home state |
| `App.Replay` | feather_frontend/src/main.rs:170-233 | presses handled in order: the exit flag once set stays set, the help state keeps its flag, and `Home` is never entered |
| `App.Run` | feather_frontend/src/main.rs:170-233 | presses are handled in order until one sets the exit flag, and none after it |
| `Screen.Compose` | feather_frontend/src/main.rs:195-218 | help alone is drawn with the flag set, and the player bar exactly without it; otherwise the state picks the view, and the player borrows only a Search or History origin |
| `Screen.DrawnViewReceivesKeys` | feather_frontend/src/main.rs:195-218 | outside help, the drawn search, history or user-playlist view is the one receiving keys |
| `Screen.PlayerKeepsKeys` | feather_frontend/src/main.rs:200-212 | the player draws its origin's view but keeps the keys |
| `Screen.HelpDrawnWhileSearchRouted` | feather_frontend/src/main.rs:195-218 | after `:?` then `:s`, help is drawn without the player bar while keys go to search |
| `Screen.Highlight` | feather_frontend/src/main.rs:253-258 | title `i` is highlighted exactly when the index is `i`: 0 to 3 for Home, Search, History, UserPlaylist; none otherwise |
| `Screen.TopBarSpans` | feather_frontend/src/main.rs:243-266 | seven spans: the four titles at even positions, styled by the highlight, with `" \| "` between them |
| `Screen.HomeHighlightedButBlank` | feather_frontend/src/main.rs:253-254 | Home lights its title but draws no main view |

## Left out

- Rendering: layout, styles, blocks, lists and scrollbars. Only the choice of view, the player bar, the top bar's spans and the state changes made during `render` are modelled.
- The scrollbar position updates after cursor moves: presentation only.
- The text-area widget: its editing is the parameter `edit`. Its initial content is taken to be one empty line.
- Concurrency: tasks, debounce sleeps, channel capacity and locks. A spawned task is a log entry and its result an input. The relay is a FIFO whose sends land at an arbitrary later tick. A relay send is recorded at the key press, not when the spawned task runs, so sends are never reordered among themselves.
- Lock failure (`if let Ok(...) = lock()`): a poisoned lock would skip a step; this is not modelled.
- The song database crate: `PAGE_SIZE` has an unknown positive `usize` value. `next_page` is the total parameter `page`, so its failure (a panic on paging, an empty first page on load) is not modelled, and nothing is proved about page contents.
- The content provider: fetch results are inputs.
- `PlaylistView.HandleKey`: offsets, page counts and song counts are unbounded naturals, so the overflows of `offset + PAGE_SIZE` and `len + page_size - 1` are not modelled; the `i64` cast at line 333 is exact for offsets below `2^63`.
- The `println!` of the new offset at lines 312 and 335: terminal output.
- Crossterm I/O: `poll`, `read` and the 250 ms redraw interval. A chord is a key together with the result of the blocking read.
- Process setup in `main` and the backend and history construction in `App::new`. Only the initial flag values are modelled.
- The views behind the routing targets (search, history, player, user playlists, help, home): they are opaque.
- PlaylistView.CompleteLoad: the successful branch always runs all four sections. The `expect` on `SongDatabase::new()` at line 387 can end the task after the first two sections, leaving no database, the new bound and the old page. `CompleteLoad` does not cover that path; `PlaylistView.Run` does, as a load whose events stop after its `SetMaxPageEvent` (`PlaylistView.LoadStoppedAtDbConstruction`).
- SearchComponent.CursorDown: requires a non-empty known length. The `len - 1` underflow of an empty list is not modelled: it is a panic in debug builds and a wrap-around in release builds.
