/** The top-level state machine of the front end: which major view is
    active, the help flag, the view the player was opened from, and the
    exit flag. A `:` starts a chord whose selector is the next key event
    read (blocking); every other key is routed to the active view. The views
    themselves are not modelled: a routed key is reported by naming its
    target. */
module App {
  import opened Base

  datatype State = Home | HelpMode | Global | Search | History | UserPlaylist | SongPlayer

  datatype AppState = AppState(state: State, helpMode: bool, exit: bool, prevState: Option<State>)

  /** The views a key can be forwarded to. */
  datatype Target = SearchView | HistoryView | PlayerView | UserPlaylistView

  /** One key press as the loop sees it. For `:` the blocking read that
      follows yields the selector in `next`, or `None` if it failed or was
      not a key event; for any other key `next` is ignored. */
  datatype Press = Press(key: Key, next: Option<Key>)

  /** The application after a key, and the view that key was forwarded to. */
  datatype Step = Step(app: AppState, routed: Option<Target>)

  function Init(): (a: AppState)
    ensures a.state == Global && !a.helpMode && !a.exit && a.prevState == None
  {
    AppState(Global, false, false, None)
  }

  /** The chord `:` followed by a selector: `s`, `u` and `h` switch the
      view, `p` opens the player remembering the view it was opened from,
      `?` enters help mode and `q` asks the loop to stop. Any other selector,
      or no key event at all, does nothing. */
  function Chord(a: AppState, next: Option<Key>): (r: AppState)
    ensures next == Some(Char('s')) ==> r == a.(state := Search)
    ensures next == Some(Char('u')) ==> r == a.(state := UserPlaylist)
    ensures next == Some(Char('h')) ==> r == a.(state := History)
    ensures next == Some(Char('p')) ==> r == a.(prevState := Some(a.state), state := SongPlayer)
    ensures next == Some(Char('?')) ==> r == a.(helpMode := true, state := HelpMode)
    ensures next == Some(Char('q')) ==> r == a.(exit := true)
    ensures !IsSelector(next) ==> r == a
  {
    match next
    case Some(Char('s')) => a.(state := Search)
    case Some(Char('u')) => a.(state := UserPlaylist)
    case Some(Char('h')) => a.(state := History)
    case Some(Char('p')) => a.(prevState := Some(a.state), state := SongPlayer)
    case Some(Char('?')) => a.(helpMode := true, state := HelpMode)
    case Some(Char('q')) => a.(exit := true)
    case _ => a
  }

  predicate IsSelector(next: Option<Key>) {
    next.Some? && next.value.Char? && next.value.c in ['s', 'u', 'h', 'p', '?', 'q']
  }

  /** The view that receives the keys of a state, if any. */
  function RouteOf(s: State): (t: Option<Target>)
    ensures t == Some(SearchView) <==> s == Search
    ensures t == Some(HistoryView) <==> s == History
    ensures t == Some(PlayerView) <==> s == SongPlayer
    ensures t == Some(UserPlaylistView) <==> s == UserPlaylist
  {
    match s
    case Search => Some(SearchView)
    case History => Some(HistoryView)
    case SongPlayer => Some(PlayerView)
    case UserPlaylist => Some(UserPlaylistView)
    case _ => None
  }

  /** A key outside a chord: Esc in help mode returns to `Global` and clears
      the help flag; any other key in help mode is ignored; in every other
      state the key is forwarded to that state's view, or dropped for `Home`
      and `Global`. */
  function GlobalKey(a: AppState, key: Key): (r: Step)
    ensures a.state == HelpMode && key == Esc ==>
      r.app == a.(state := Global, helpMode := false) && r.routed == None
    ensures !(a.state == HelpMode && key == Esc) ==> r.app == a
    ensures r.routed == RouteOf(a.state)
  {
    if a.state == HelpMode then
      if key == Esc then Step(a.(state := Global, helpMode := false), None) else Step(a, None)
    else
      Step(a, RouteOf(a.state))
  }

  function HandleKey(a: AppState, p: Press): (r: Step)
    ensures p.key == Char(':') ==> r == Step(Chord(a, p.next), None)
    ensures p.key != Char(':') ==> r == GlobalKey(a, p.key)
  {
    if p.key == Char(':') then Step(Chord(a, p.next), None) else GlobalKey(a, p.key)
  }

  /** Keys outside a chord never change the view, the help flag, the
      remembered view or the exit flag, except Esc leaving help mode. */
  lemma PlainKeysKeepState(a: AppState, p: Press)
    requires p.key != Char(':') && !(a.state == HelpMode && p.key == Esc)
    ensures HandleKey(a, p).app == a
  {
  }

  /** The remembered view is written by `:p` alone. */
  lemma OnlyPlayerChordSetsPrevState(a: AppState, p: Press)
    requires HandleKey(a, p).app.prevState != a.prevState
    ensures p.key == Char(':') && p.next == Some(Char('p'))
  {
  }

  /** The help flag is cleared only by Esc in the help state. */
  lemma OnlyEscLeavesHelp(a: AppState, p: Press)
    requires a.helpMode && !HandleKey(a, p).app.helpMode
    ensures a.state == HelpMode && p.key == Esc
    ensures HandleKey(a, p).app.state == Global
  {
  }

  /** In the help state every key but Esc and `:` is ignored. */
  lemma HelpIgnoresOtherKeys(a: AppState, p: Press)
    requires a.state == HelpMode && p.key != Esc && p.key != Char(':')
    ensures HandleKey(a, p) == Step(a, None)
  {
  }

  /** Nothing clears the exit flag, and only `:q` sets it. */
  lemma ExitFlag(a: AppState, p: Press)
    ensures a.exit ==> HandleKey(a, p).app.exit
    ensures !a.exit && HandleKey(a, p).app.exit ==> p.key == Char(':') && p.next == Some(Char('q'))
  {
  }

  /** The help flag and the help state can disagree: `:?` then `:s` leaves
      the flag set while the state is `Search`, and keys then go to the
      search view. */
  lemma HelpFlagOutlivesHelpState()
    ensures var a := HandleKey(HandleKey(Init(), Press(Char(':'), Some(Char('?')))).app,
                               Press(Char(':'), Some(Char('s')))).app;
      a.helpMode && a.state == Search && HandleKey(a, Press(Char('x'), None)).routed == Some(SearchView)
  {
  }

  /** The help state always comes with the help flag (the converse fails,
      as shown above). */
  predicate HelpStateHasFlag(a: AppState) {
    a.state == HelpMode ==> a.helpMode
  }

  lemma HandleKeyKeepsHelpStateHasFlag(a: AppState, p: Press)
    requires HelpStateHasFlag(a)
    ensures HelpStateHasFlag(HandleKey(a, p).app)
  {
  }

  /** No chord selects `Home`: the state is never entered. */
  lemma NothingEntersHome(a: AppState, p: Press)
    requires a.state != Home
    ensures HandleKey(a, p).app.state != Home
  {
  }

  /** The application after handling `presses` in order. */
  function Replay(a: AppState, presses: seq<Press>): (r: AppState)
    ensures presses == [] ==> r == a
    ensures a.exit ==> r.exit
    ensures HelpStateHasFlag(a) ==> HelpStateHasFlag(r)
    ensures a.state != Home ==> r.state != Home
    decreases |presses|
  {
    if presses == [] then a
    else HandleKey(Replay(a, presses[..|presses| - 1]), presses[|presses| - 1]).app
  }

  /** The event loop `while !self.exit`: presses are handled in order until
      one sets the exit flag; none after it is read. */
  method Run(a: AppState, presses: seq<Press>) returns (final: AppState, handled: nat)
    ensures handled <= |presses| && final == Replay(a, presses[..handled])
    ensures handled < |presses| ==> final.exit
    ensures forall k :: 0 <= k < handled ==> !Replay(a, presses[..k]).exit
  {
    final, handled := a, 0;
    while handled < |presses| && !final.exit
      invariant handled <= |presses| && final == Replay(a, presses[..handled])
      invariant forall k :: 0 <= k < handled ==> !Replay(a, presses[..k]).exit
    {
      assert presses[..handled + 1][..handled] == presses[..handled];
      final := HandleKey(final, presses[handled]).app;
      handled := handled + 1;
    }
  }
}
