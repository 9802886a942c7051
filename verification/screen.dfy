/** What each frame draws, as decisions rather than cells: which view fills
    the main area, whether the player bar is drawn, and the spans of the
    title bar with the highlighted title. */
module Screen {
  import opened Base
  import opened App

  datatype MainArea = HelpArea | SearchArea | HistoryArea | UserPlaylistArea | Blank

  datatype Frame = Frame(main: MainArea, playerBar: bool)

  /** The main area and the player bar of one frame. With the help flag set,
      help fills the main area and the player bar is skipped. Otherwise the
      state chooses the view; the player shows in the main area the view it
      was opened from, but only if that was the search or the history view;
      `Home`, `Global` and the help state draw nothing there. */
  function Compose(a: AppState): (f: Frame)
    ensures f.playerBar <==> !a.helpMode
    ensures f.main == HelpArea <==> a.helpMode
    ensures !a.helpMode && a.state == Search ==> f.main == SearchArea
    ensures !a.helpMode && a.state == History ==> f.main == HistoryArea
    ensures !a.helpMode && a.state == UserPlaylist ==> f.main == UserPlaylistArea
    ensures !a.helpMode && a.state in {Home, Global, HelpMode} ==> f.main == Blank
    ensures !a.helpMode && a.state == SongPlayer ==>
      (f.main == SearchArea <==> a.prevState == Some(Search)) &&
      (f.main == HistoryArea <==> a.prevState == Some(History)) &&
      f.main != UserPlaylistArea
  {
    if a.helpMode then
      Frame(HelpArea, false)
    else
      var main := match a.state
        case Search => SearchArea
        case History => HistoryArea
        case UserPlaylist => UserPlaylistArea
        case SongPlayer =>
          (match a.prevState
           case Some(Search) => SearchArea
           case Some(History) => HistoryArea
           case _ => Blank)
        case _ => Blank;
      Frame(main, true)
  }

  /** The area a routing target draws into, when it has one of its own. */
  function AreaOf(t: Target): MainArea {
    match t
    case SearchView => SearchArea
    case HistoryView => HistoryArea
    case UserPlaylistView => UserPlaylistArea
    case PlayerView => Blank
  }

  /** Outside help mode, the search, history and user-playlist views draw the
      main area exactly when they receive the keys. */
  lemma DrawnViewReceivesKeys(a: AppState, p: Press)
    requires !a.helpMode && a.state in {Search, History, UserPlaylist} && p.key != Char(':')
    ensures HandleKey(a, p).routed.Some?
    ensures AreaOf(HandleKey(a, p).routed.value) == Compose(a).main
  {
  }

  /** The player borrows the main area of the view it was opened from, but
      keeps the keys to itself. */
  lemma PlayerKeepsKeys(a: AppState, p: Press)
    requires !a.helpMode && a.state == SongPlayer && a.prevState == Some(Search)
    requires p.key != Char(':')
    ensures Compose(a).main == SearchArea && HandleKey(a, p).routed == Some(PlayerView)
  {
  }

  /** After `:?` then `:s`, help is drawn while the keys go to the search
      view. */
  lemma HelpDrawnWhileSearchRouted()
    ensures var a := HandleKey(HandleKey(Init(), Press(Char(':'), Some(Char('?')))).app,
                               Press(Char(':'), Some(Char('s')))).app;
      Compose(a).main == HelpArea && !Compose(a).playerBar
      && HandleKey(a, Press(Char('x'), None)).routed == Some(SearchView)
  {
  }

  /** The titles of the top bar, left to right. */
  const TITLES: seq<string> := ["Home", "Search", "History", "UserPlaylist"]

  const SEPARATOR: string := " | "

  datatype Span = Title(text: string, highlighted: bool) | Separator(text: string)

  /** Whether title `i` is drawn highlighted in state `s`. */
  predicate TitleSelected(i: nat, s: State) {
    || (i == 0 && s == Home)
    || (i == 1 && s == Search)
    || (i == 2 && s == History)
    || (i == 3 && s == UserPlaylist)
  }

  /** The index of the highlighted title: Home, Search, History and
      UserPlaylist light up their own title; every other state lights none. */
  function Highlight(s: State): (r: Option<nat>)
    ensures forall i: nat :: TitleSelected(i, s) <==> r == Some(i)
    ensures r.Some? ==> r.value < |TITLES|
    ensures s in {HelpMode, Global, SongPlayer} <==> r == None
  {
    match s
    case Home => Some(0)
    case Search => Some(1)
    case History => Some(2)
    case UserPlaylist => Some(3)
    case _ => None
  }

  /** The spans of the top bar: each title, styled by whether it is
      highlighted, followed by a separator unless it is the last. */
  method TopBarSpans(s: State) returns (spans: seq<Span>)
    ensures |spans| == 2 * |TITLES| - 1
    ensures forall j :: 0 <= j < |spans| ==>
      spans[j] == (if j % 2 == 0 then Title(TITLES[j / 2], Highlight(s) == Some(j / 2))
                   else Separator(SEPARATOR))
  {
    spans := [];
    var i := 0;
    while i < |TITLES|
      invariant 0 <= i <= |TITLES|
      invariant |spans| == if i == 0 then 0 else 2 * i - 1
      invariant forall j :: 0 <= j < |spans| ==>
        spans[j] == (if j % 2 == 0 then Title(TITLES[j / 2], Highlight(s) == Some(j / 2))
                     else Separator(SEPARATOR))
    {
      if i > 0 {
        spans := spans + [Separator(SEPARATOR)];
      }
      spans := spans + [Title(TITLES[i], TitleSelected(i, s))];
      i := i + 1;
    }
  }

  /** `Home` lights its title, yet no view is drawn in the main area. */
  lemma HomeHighlightedButBlank(a: AppState)
    requires a.state == Home && !a.helpMode
    ensures Highlight(a.state) == Some(0) && TITLES[0] == "Home"
    ensures Compose(a).main == Blank
  {
  }
}
