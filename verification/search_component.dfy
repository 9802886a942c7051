/** The search half of the playlist-search pane: a text area holding the
    query, a result list with a cursor, and two outgoing channels, the
    debounced query task and the selection relay. The text-area widget is
    external: its reaction to a key is the parameter `edit`. Spawned query
    tasks and relay sends are recorded, in order, in the logs `queries` and
    `relayOut`; the results a query task delivers come back as the message
    argument of `Tick`. */
module SearchComponent {
  import opened Base
  import Text

  datatype Mode = SearchBar | SearchResult

  /** How the text-area widget changes its lines on a key it is handed. */
  type TextEdit = (seq<string>, Key) -> seq<string>

  datatype Component = Component(
    lines: seq<string>,
    query: string,
    mode: Mode,
    displayContent: bool,
    selected: Usize,
    results: Result<Option<Vec<Listing>>>,
    maxLen: Option<Usize>,
    selectedId: Option<string>,
    queries: seq<string>,
    relayOut: seq<string>)

  /** The component as constructed: an empty text area (one empty line), the
      search bar focused, no results and nothing sent. */
  function Init(): (c: Component)
    ensures c.mode == SearchBar && c.selected == 0 && !c.displayContent
    ensures c.results == Ok(None) && c.maxLen == None && c.selectedId == None
    ensures c.query == [] && c.queries == [] && c.relayOut == []
  {
    Component([""], "", SearchBar, false, 0, Ok(None), None, None, [], [])
  }

  /** The Tab toggle between the search bar and the result list. */
  function Toggle(m: Mode): (r: Mode)
    ensures r != m
  {
    if m == SearchBar then SearchResult else SearchBar
  }

  /** `len - 1` on `usize` underflows when the result list is empty: a Down
      key in the result list is only defined for a non-empty known length. */
  predicate DownUnderflows(c: Component, key: Key) {
    c.mode == SearchResult && IsDownKey(key) && c.maxLen == Some(0)
  }

  /** Enter in the search bar: hide the old results, put the cursor on the
      first row and, when the text area has a line, submit its trimmed text
      as the new query. Every other key goes to the text area. */
  function KeySearchBar(c: Component, key: Key, edit: TextEdit): (r: Component)
    ensures key == Enter ==> r.selected == 0 && !r.displayContent
    ensures key == Enter && |c.lines| > 0 ==>
      r.query == Text.Trim(c.lines[0]) && r.queries == c.queries + [r.query]
    ensures key == Enter && |c.lines| == 0 ==> r.query == c.query && r.queries == c.queries
    ensures key == Enter ==>
      r.(selected := c.selected, displayContent := c.displayContent,
         query := c.query, queries := c.queries) == c
    ensures key != Enter ==> r.lines == edit(c.lines, key) && r.(lines := c.lines) == c
  {
    if key == Enter then
      var reset := c.(displayContent := false, selected := 0);
      if |c.lines| > 0 then
        var q := Text.Trim(c.lines[0]);
        reset.(query := q, queries := c.queries + [q])
      else
        reset
    else
      c.(lines := edit(c.lines, key))
  }

  /** Down in the result list: one row on, saturating at `usize::MAX`, and
      clamped to the last row once the list length is known. */
  function CursorDown(selected: Usize, maxLen: Option<Usize>): (r: Usize)
    requires maxLen != Some(0)
    ensures maxLen.None? ==> r == SatInc(selected)
    ensures maxLen.Some? ==> r < maxLen.value
    ensures maxLen.Some? && selected + 1 < maxLen.value ==> r == selected + 1
    ensures maxLen.Some? && selected + 1 >= maxLen.value ==> r == maxLen.value - 1
  {
    var up := SatInc(selected);
    match maxLen
    case None => up
    case Some(len) => if up < len - 1 then up else len - 1
  }

  /** Enter in the result list hands the highlighted playlist id to the
      selection relay, if a row has been highlighted; `j`/Down and `k`/Up move
      the cursor; other keys do nothing. */
  function KeySearchResult(c: Component, key: Key): (r: Component)
    requires !DownUnderflows(c, key) && c.mode == SearchResult
    ensures key == Enter && c.selectedId.Some? ==> r.relayOut == c.relayOut + [c.selectedId.value]
    ensures key != Enter || c.selectedId.None? ==> r.relayOut == c.relayOut
    ensures IsDownKey(key) ==> r.selected == CursorDown(c.selected, c.maxLen)
    ensures IsUpKey(key) ==> r.selected == SatDec(c.selected)
    ensures !IsDownKey(key) && !IsUpKey(key) ==> r.selected == c.selected
    ensures r.(selected := c.selected, relayOut := c.relayOut) == c
  {
    if key == Enter then
      match c.selectedId
      case Some(id) => c.(relayOut := c.relayOut + [id])
      case None => c
    else if IsDownKey(key) then
      c.(selected := CursorDown(c.selected, c.maxLen))
    else if IsUpKey(key) then
      c.(selected := SatDec(c.selected))
    else
      c
  }

  /** Tab flips the mode; every other key goes to the handler of the current
      mode and leaves the mode alone. No key touches the results, the list
      length or the highlighted id. */
  function HandleKey(c: Component, key: Key, edit: TextEdit): (r: Component)
    requires !DownUnderflows(c, key)
    ensures key == Tab ==> r == c.(mode := Toggle(c.mode))
    ensures key != Tab ==> r.mode == c.mode
    ensures key != Tab && c.mode == SearchBar ==> r == KeySearchBar(c, key, edit)
    ensures key != Tab && c.mode == SearchResult ==> r == KeySearchResult(c, key)
    ensures r.results == c.results && r.maxLen == c.maxLen && r.selectedId == c.selectedId
  {
    if key == Tab then
      c.(mode := Toggle(c.mode))
    else if c.mode == SearchBar then
      KeySearchBar(c, key, edit)
    else
      KeySearchResult(c, key)
  }

  /** The non-blocking receive at the start of `render`: a delivered result
      replaces the stored one wholesale (an error replaces it with the
      message) and marks the content for display; no message changes
      nothing. */
  function Drain(c: Component, msg: Option<Result<Vec<Listing>>>): (r: Component)
    ensures msg == None ==> r == c
    ensures msg.Some? && msg.value.Ok? ==> r.results == Ok(Some(msg.value.value))
    ensures msg.Some? && msg.value.Err? ==> r.results == Err(msg.value.msg)
    ensures msg.Some? ==> r.displayContent
    ensures r.(results := c.results, displayContent := c.displayContent) == c
  {
    match msg
    case None => c
    case Some(Ok(hits)) => c.(results := Ok(Some(hits)), displayContent := true)
    case Some(Err(e)) => c.(results := Err(e), displayContent := true)
  }

  /** The state `render` leaves behind while it lists displayed results: the
      list length becomes known, and the row under the cursor, if there is
      one, becomes the highlighted id. Nothing else is written. */
  function Refresh(c: Component): (r: Component)
    ensures c.displayContent && c.results.Ok? && c.results.value.Some? ==>
      var hits := c.results.value.value;
      && r.maxLen == Some(|hits|)
      && (c.selected < |hits| ==> r.selectedId == Some(hits[c.selected].id))
      && (c.selected >= |hits| ==> r.selectedId == c.selectedId)
    ensures !(c.displayContent && c.results.Ok? && c.results.value.Some?) ==> r == c
    ensures r.(maxLen := c.maxLen, selectedId := c.selectedId) == c
  {
    if c.displayContent && c.results.Ok? && c.results.value.Some? then
      var hits := c.results.value.value;
      c.(maxLen := Some(|hits|),
         selectedId := if c.selected < |hits| then Some(hits[c.selected].id) else c.selectedId)
    else
      c
  }

  /** One refresh tick: drain at most one message, then refresh. */
  function Tick(c: Component, msg: Option<Result<Vec<Listing>>>): (r: Component)
    ensures msg.Some? ==> r.displayContent
    ensures msg.Some? && msg.value.Ok? ==>
      r.results == Ok(Some(msg.value.value)) && r.maxLen == Some(|msg.value.value|)
    ensures msg.Some? && msg.value.Err? ==>
      r.results == Err(msg.value.msg) && r.maxLen == c.maxLen && r.selectedId == c.selectedId
    ensures r.mode == c.mode && r.selected == c.selected && r.query == c.query
    ensures r.lines == c.lines && r.queries == c.queries && r.relayOut == c.relayOut
  {
    Refresh(Drain(c, msg))
  }

  /** Refreshing is idempotent: a second render without a new message leaves
      the state where the first one did. */
  lemma RefreshIdempotent(c: Component)
    ensures Refresh(Refresh(c)) == Refresh(c)
  {
  }

  /** The cursor lies on a row of the list whenever its length is known. */
  predicate CursorInRange(c: Component) {
    c.maxLen.Some? ==> c.selected < c.maxLen.value
  }

  /** No key takes the cursor off the list. */
  lemma KeyKeepsCursorInRange(c: Component, key: Key, edit: TextEdit)
    requires CursorInRange(c) && !DownUnderflows(c, key)
    ensures CursorInRange(HandleKey(c, key, edit))
  {
  }

  /** The component after a sequence of keys, or `None` if one of them is
      a Down that underflows on an empty result list. Since no key changes
      the list length, that can only happen when the length starts at zero. */
  function HandleKeys(c: Component, keys: seq<Key>, edit: TextEdit): (r: Option<Component>)
    ensures keys == [] ==> r == Some(c)
    ensures r.None? ==> c.maxLen == Some(0) && exists i :: 0 <= i < |keys| && IsDownKey(keys[i])
    ensures c.maxLen != Some(0) ==> r.Some?
    ensures r.Some? ==>
      var d := r.value;
      && d.maxLen == c.maxLen && d.results == c.results && d.selectedId == c.selectedId
      && |d.queries| >= |c.queries| && d.queries[..|c.queries|] == c.queries
      && |d.relayOut| >= |c.relayOut| && d.relayOut[..|c.relayOut|] == c.relayOut
    decreases |keys|
  {
    if keys == [] then Some(c)
    else if DownUnderflows(c, keys[0]) then None
    else HandleKeys(HandleKey(c, keys[0], edit), keys[1..], edit)
  }

  /** Up and down moves, interleaved with any other keys, never take the
      cursor off the list: it stays in `[0, len - 1]`, and no key fails. */
  lemma {:induction false} KeysKeepCursorInRange(c: Component, keys: seq<Key>, edit: TextEdit)
    requires CursorInRange(c)
    ensures HandleKeys(c, keys, edit).Some? && CursorInRange(HandleKeys(c, keys, edit).value)
    decreases |keys|
  {
    if keys != [] {
      KeyKeepsCursorInRange(c, keys[0], edit);
      KeysKeepCursorInRange(HandleKey(c, keys[0], edit), keys[1..], edit);
    }
  }

  /** Tab twice restores the component. */
  lemma TabTwiceRestores(c: Component, edit: TextEdit)
    ensures HandleKey(HandleKey(c, Tab, edit), Tab, edit) == c
  {
  }

  /** After a tick displays a result list with the cursor on a row, Enter in
      the result list sends exactly that row's playlist id to the relay. */
  lemma EnterSendsDisplayedRow(c: Component, hits: Vec<Listing>, edit: TextEdit)
    requires c.mode == SearchResult && c.selected < |hits|
    ensures HandleKey(Tick(c, Some(Ok(hits))), Enter, edit).relayOut
      == c.relayOut + [hits[c.selected].id]
  {
  }

  /** A provider error leaves the previous list length and highlighted id in
      place, so Enter still sends the id of a row no longer shown. */
  lemma ErrorKeepsStaleSelection(c: Component, e: string, edit: TextEdit)
    requires c.mode == SearchResult && c.selectedId.Some?
    ensures HandleKey(Tick(c, Some(Err(e))), Enter, edit).relayOut
      == c.relayOut + [c.selectedId.value]
  {
  }

  /** A shorter result list does not move the cursor: it can be left beyond
      the end of the new list, with the highlighted id of the old one. */
  lemma ShorterResultsStrandCursor(c: Component, hits: Vec<Listing>)
    requires c.selected >= |hits|
    ensures var r := Tick(c, Some(Ok(hits)));
      !CursorInRange(r) && r.selectedId == c.selectedId
  {
  }

  /** An empty result list is a reachable state in which Down in the result
      list would underflow `len - 1`. */
  lemma EmptyResultsReachUnderflow(c: Component)
    requires c.mode == SearchResult
    ensures DownUnderflows(Tick(c, Some(Ok([]))), Down)
  {
  }

  /** The query "lofi" comes back with three playlists: the cursor starts on
      the first row, two Downs reach the last row and a third stays there. */
  lemma ThreeResultsScenario(edit: TextEdit, hits: Vec<Listing>)
    requires |hits| == 3
    ensures var typed := Init().(lines := ["lofi"]);
      var submitted := HandleKey(typed, Enter, edit);
      var shown := HandleKey(Tick(submitted, Some(Ok(hits))), Tab, edit);
      var down1 := HandleKey(shown, Down, edit);
      var down2 := HandleKey(Tick(down1, None), Down, edit);
      var down3 := HandleKey(Tick(down2, None), Down, edit);
      && submitted.queries == ["lofi"]
      && shown.selected == 0 && shown.maxLen == Some(3)
      && down2.selected == 2 && down3.selected == 2
  {
    Text.TrimOfTrimmed("lofi");
    var typed := Init().(lines := ["lofi"]);
    var submitted := HandleKey(typed, Enter, edit);
    assert submitted.queries == ["lofi"] && submitted.selected == 0;
    var shown := HandleKey(Tick(submitted, Some(Ok(hits))), Tab, edit);
    assert shown.mode == SearchResult && shown.selected == 0 && shown.maxLen == Some(3);
    var down1 := HandleKey(shown, Down, edit);
    assert down1.selected == 1 && down1.maxLen == Some(3) && down1.mode == SearchResult;
    var down2 := HandleKey(Tick(down1, None), Down, edit);
    assert down2.selected == 2 && down2.maxLen == Some(3) && down2.mode == SearchResult;
    var down3 := HandleKey(Tick(down2, None), Down, edit);
    assert down3.selected == 2;
  }
}
