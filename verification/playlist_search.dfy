/** The playlist-search pane: the search component on the left, the
    selected-playlist view on the right, and `[` to move the focus between
    them. The selection relay joining them is a FIFO channel: the ids the
    search side has sent are its `relayOut` log, and `delivered` counts how
    many of them the view has received so far. */
module PlaylistSearch {
  import opened Base
  import SC = SearchComponent
  import PV = PlaylistView

  datatype Focus = Search | ViewSelectedPlaylist

  datatype Pane = Pane(search: SC.Component, view: PV.View, focus: Focus, delivered: nat)

  function Init(): (p: Pane)
    ensures p.focus == Search && p.delivered == 0
    ensures p.search == SC.Init() && p.view == PV.Init()
  {
    Pane(SC.Init(), PV.Init(), Search, 0)
  }

  /** The `[` toggle between the two halves. */
  function Toggle(f: Focus): (r: Focus)
    ensures r != f
  {
    if f == ViewSelectedPlaylist then Search else ViewSelectedPlaylist
  }

  /** The key would reach a handler that panics: the underflowing Down of
      the result list, or Right with a database but no bound. */
  predicate KeyFails(p: Pane, key: Key) {
    || (p.focus == Search && SC.DownUnderflows(p.search, key))
    || (p.focus == ViewSelectedPlaylist && PV.RightPanics(p.view, key))
  }

  /** `[` flips the focus; every other key goes to the focused half, and the
      other half, the focus and the relay are left alone. */
  function HandleKey(p: Pane, key: Key, edit: SC.TextEdit, page: PV.PageFn): (r: Pane)
    requires !KeyFails(p, key)
    ensures key == Char('[') ==> r == p.(focus := Toggle(p.focus))
    ensures key != Char('[') ==> r.focus == p.focus && r.delivered == p.delivered
    ensures key != Char('[') && p.focus == Search ==>
      r.search == SC.HandleKey(p.search, key, edit) && r.view == p.view
    ensures key != Char('[') && p.focus == ViewSelectedPlaylist ==>
      r.view == PV.HandleKey(p.view, key, page) && r.search == p.search
  {
    if key == Char('[') then
      p.(focus := Toggle(p.focus))
    else if p.focus == Search then
      p.(search := SC.HandleKey(p.search, key, edit))
    else
      p.(view := PV.HandleKey(p.view, key, page))
  }

  /** One render of the pane: the search half drains one query result, then
      the view receives the oldest undelivered relay id if the relay's send
      has landed (`arrived`). */
  function Tick(p: Pane, hits: Option<Result<Vec<Listing>>>, arrived: bool): (r: Pane)
    ensures r.search == SC.Tick(p.search, hits) && r.focus == p.focus
    ensures arrived && p.delivered < |p.search.relayOut| ==>
      r.view == PV.Receive(p.view, Some(p.search.relayOut[p.delivered]))
      && r.delivered == p.delivered + 1
    ensures !(arrived && p.delivered < |p.search.relayOut|) ==>
      r.view == p.view && r.delivered == p.delivered
  {
    var search := SC.Tick(p.search, hits);
    if arrived && p.delivered < |search.relayOut| then
      p.(search := search,
         view := PV.Receive(p.view, Some(search.relayOut[p.delivered])),
         delivered := p.delivered + 1)
    else
      p.(search := search, view := PV.Receive(p.view, None))
  }

  /** A background load finishing in the view. */
  function CompleteLoad(p: Pane, fetched: Result<seq<Listing>>, page: PV.PageFn): (r: Pane)
    ensures r.view == PV.CompleteLoad(p.view, fetched, page)
    ensures r.(view := p.view) == p
  {
    p.(view := PV.CompleteLoad(p.view, fetched, page))
  }

  /** The relay is first-in first-out and loses nothing: the view has spawned
      loads for exactly the ids the search side sent, in the order sent, up
      to those still in flight. */
  predicate RelayInOrder(p: Pane) {
    p.delivered <= |p.search.relayOut| && p.view.loads == p.search.relayOut[..p.delivered]
  }

  lemma InitRelayInOrder()
    ensures RelayInOrder(Init())
  {
  }

  lemma HandleKeyKeepsRelayInOrder(p: Pane, key: Key, edit: SC.TextEdit, page: PV.PageFn)
    requires RelayInOrder(p) && !KeyFails(p, key)
    ensures RelayInOrder(HandleKey(p, key, edit, page))
  {
  }

  lemma TickKeepsRelayInOrder(p: Pane, hits: Option<Result<Vec<Listing>>>, arrived: bool)
    requires RelayInOrder(p)
    ensures RelayInOrder(Tick(p, hits, arrived))
  {
  }

  lemma CompleteLoadKeepsRelayInOrder(p: Pane, fetched: Result<seq<Listing>>, page: PV.PageFn)
    requires RelayInOrder(p)
    ensures RelayInOrder(CompleteLoad(p, fetched, page))
  {
  }

  /** `[` twice restores the pane. */
  lemma BracketTwiceRestores(p: Pane, edit: SC.TextEdit, page: PV.PageFn)
    ensures HandleKey(HandleKey(p, Char('['), edit, page), Char('['), edit, page) == p
  {
  }

  /** `[` is taken by the pane even while the search bar is being edited: it
      never reaches the text area. */
  lemma BracketNeverTyped(p: Pane, edit: SC.TextEdit, page: PV.PageFn)
    requires p.focus == Search && p.search.mode == SC.SearchBar
    ensures HandleKey(p, Char('['), edit, page).search == p.search
  {
  }

  /** The view half stays valid through keys, ticks and completed loads, so
      of the two panics only the search half's Down can fire. */
  lemma InitViewValid()
    ensures PV.Valid(Init().view)
  {
    PV.InitValid();
  }

  lemma HandleKeyKeepsViewValid(p: Pane, key: Key, edit: SC.TextEdit, page: PV.PageFn)
    requires PV.Valid(p.view) && !KeyFails(p, key)
    ensures PV.Valid(HandleKey(p, key, edit, page).view)
  {
    if key != Char('[') && p.focus == ViewSelectedPlaylist {
      PV.HandleKeyKeepsValid(p.view, key, page);
    }
  }

  lemma TickKeepsViewValid(p: Pane, hits: Option<Result<Vec<Listing>>>, arrived: bool)
    requires PV.Valid(p.view)
    ensures PV.Valid(Tick(p, hits, arrived).view)
  {
    if arrived && p.delivered < |p.search.relayOut| {
      PV.ReceiveKeepsValid(p.view, Some(p.search.relayOut[p.delivered]));
    }
  }

  lemma CompleteLoadKeepsViewValid(p: Pane, fetched: Result<seq<Listing>>, page: PV.PageFn)
    requires PV.Valid(p.view)
    ensures PV.Valid(CompleteLoad(p, fetched, page).view)
  {
    PV.CompleteLoadKeepsValid(p.view, fetched, page);
  }

  /** With a valid view, a key fails exactly when it is the search half's
      underflowing Down. */
  lemma ValidViewOnlySearchFails(p: Pane, key: Key)
    requires PV.Valid(p.view)
    ensures KeyFails(p, key) <==> p.focus == Search && SC.DownUnderflows(p.search, key)
  {
  }
}
