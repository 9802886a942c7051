/** The selected-playlist half of the pane: a page of the chosen playlist's
    songs, a cursor on that page, and the paging state (offset and the
    page-aligned bound). The song database is the list of songs added to it;
    how it slices a page is the external function `page`. A playlist id that
    arrives on the selection relay spawns a background load, recorded in the
    log `loads`; the load's completion is the separate event `CompleteLoad`,
    made of the four critical sections the background task runs in turn. */
module PlaylistView {
  import opened Base
  import opened Paging

  datatype SongDb = SongDb(songs: seq<Listing>)

  /** `SongDatabase::next_page`: the songs shown from a given offset. */
  type PageFn = (SongDb, nat) -> seq<Listing>

  datatype View = View(
    content: Option<seq<Listing>>,
    db: Option<SongDb>,
    selected: Usize,
    maxLen: PageSize,
    offset: nat,
    maxPage: Option<nat>,
    loads: seq<string>)

  /** The view as constructed: nothing loaded, cursor and offset at zero,
      and a list length fixed at one page. */
  function Init(): (v: View)
    ensures v.content == None && v.db == None && v.maxPage == None
    ensures v.selected == 0 && v.offset == 0 && v.maxLen == PAGE_SIZE && v.loads == []
  {
    View(None, None, 0, PAGE_SIZE, 0, None, [])
  }

  /** Right unwraps the page bound whenever a database is loaded: without a
      bound it would panic. */
  predicate RightPanics(v: View, key: Key) {
    key == Right && v.db.Some? && v.maxPage.None?
  }

  /** Right: with a database loaded, go one page on, clamped to the bound;
      if that moves the offset, show the page there. Without a database,
      nothing happens. */
  function PageRight(v: View, page: PageFn): (r: View)
    requires v.db.Some? ==> v.maxPage.Some?
    ensures v.db.None? ==> r == v
    ensures v.db.Some? ==> r.offset == NextOffset(v.offset, PAGE_SIZE, v.maxPage.value)
    ensures r.offset != v.offset ==> r.content == Some(page(v.db.value, r.offset))
    ensures r.offset == v.offset ==> r == v
    ensures r.(content := v.content, offset := v.offset) == v
  {
    match v.db
    case None => v
    case Some(db) =>
      var next := NextOffset(v.offset, PAGE_SIZE, v.maxPage.value);
      if next != v.offset then v.(content := Some(page(db, next)), offset := next) else v
  }

  /** Left: with a database loaded, go one page back, stopping at zero; if
      that moves the offset, show the page there. */
  function PageLeft(v: View, page: PageFn): (r: View)
    ensures v.db.None? ==> r == v
    ensures v.db.Some? ==> r.offset == PrevOffset(v.offset, PAGE_SIZE)
    ensures r.offset != v.offset ==> r.content == Some(page(v.db.value, r.offset))
    ensures r.offset == v.offset ==> r == v
    ensures r.(content := v.content, offset := v.offset) == v
  {
    match v.db
    case None => v
    case Some(db) =>
      var prev := PrevOffset(v.offset, PAGE_SIZE);
      if prev != v.offset then v.(content := Some(page(db, prev)), offset := prev) else v
  }

  /** `j`/Down moves the cursor one row on, up to the last row of a full
      page (`max_len - 1`, and `max_len` is the page size); `k`/Up one row
      back, stopping at zero. Other keys do nothing. */
  function HandleKey(v: View, key: Key, page: PageFn): (r: View)
    requires !RightPanics(v, key)
    ensures key == Right ==> r == PageRight(v, page)
    ensures key == Left ==> r == PageLeft(v, page)
    ensures IsDownKey(key) && v.selected + 1 < v.maxLen ==> r.selected == v.selected + 1
    ensures IsDownKey(key) && v.selected + 1 >= v.maxLen ==> r.selected == v.maxLen - 1
    ensures IsUpKey(key) ==> r.selected == SatDec(v.selected)
    ensures IsDownKey(key) || IsUpKey(key) ==> r.(selected := v.selected) == v
    ensures key != Right && key != Left && !IsDownKey(key) && !IsUpKey(key) ==> r == v
    ensures r.selected != v.selected ==> IsDownKey(key) || IsUpKey(key)
    ensures r.db == v.db && r.maxPage == v.maxPage && r.maxLen == v.maxLen && r.loads == v.loads
  {
    if key == Right then
      PageRight(v, page)
    else if key == Left then
      PageLeft(v, page)
    else if IsDownKey(key) then
      var up := SatInc(v.selected);
      v.(selected := if up < v.maxLen - 1 then up else v.maxLen - 1)
    else if IsUpKey(key) then
      v.(selected := SatDec(v.selected))
    else
      v
  }

  /** The non-blocking receive of the selection relay at the start of
      `render`: a new id puts the cursor on the first row and spawns a load
      for it. The offset, the shown page and the loaded database are kept. */
  function Receive(v: View, msg: Option<string>): (r: View)
    ensures msg.None? ==> r == v
    ensures msg.Some? ==> r.selected == 0 && r.loads == v.loads + [msg.value]
    ensures r.(selected := v.selected, loads := v.loads) == v
  {
    match msg
    case None => v
    case Some(id) => v.(selected := 0, loads := v.loads + [id])
  }

  // The four critical sections of a successful load, in the order the
  // background task runs them. Keys may be handled between any two.

  /** Drop the existing database. */
  function DropDb(v: View): (r: View)
    ensures r.db == None && r.(db := v.db) == v
  {
    v.(db := None)
  }

  /** Install the page bound of a playlist of `n` songs. */
  function SetMaxPage(v: View, n: nat): (r: View)
    ensures r.maxPage.Some? && Aligned(r.maxPage.value, PAGE_SIZE)
    ensures n <= r.maxPage.value < n + PAGE_SIZE
    ensures r.(maxPage := v.maxPage) == v
  {
    v.(maxPage := Some(PageCount(n, PAGE_SIZE)))
  }

  /** Install the new database. */
  function InstallDb(v: View, db: SongDb): (r: View)
    ensures r.db == Some(db) && r.(db := v.db) == v
  {
    v.(db := Some(db))
  }

  /** Show the new database's first page. */
  function InstallContent(v: View, songs: seq<Listing>): (r: View)
    ensures r.content == Some(songs) && r.(content := v.content) == v
  {
    v.(content := Some(songs))
  }

  /** The states a load of `songs` passes through: the state before it, and
      the state after each of its critical sections. The old database is
      gone before the new bound is set, and the new bound is set before the
      new database appears; the old page stays shown until the last step. */
  function LoadStages(v: View, songs: seq<Listing>, page: PageFn): (stages: seq<View>)
    ensures |stages| == 5 && stages[0] == v
    ensures forall i :: 1 <= i < 5 ==>
      stages[i].db.Some? ==>
        stages[i].db == Some(SongDb(songs)) && stages[i].maxPage == Some(PageCount(|songs|, PAGE_SIZE))
    ensures forall i :: 0 <= i < 4 ==> stages[i].content == v.content
    ensures forall i :: 0 <= i < 5 ==>
      stages[i].selected == v.selected && stages[i].offset == v.offset && stages[i].loads == v.loads
    ensures stages[4].db == Some(SongDb(songs))
    ensures stages[4].maxPage == Some(PageCount(|songs|, PAGE_SIZE))
    ensures stages[4].content == Some(page(SongDb(songs), 0))
  {
    var s1 := DropDb(v);
    var s2 := SetMaxPage(s1, |songs|);
    var s3 := InstallDb(s2, SongDb(songs));
    var s4 := InstallContent(s3, page(SongDb(songs), 0));
    [v, s1, s2, s3, s4]
  }

  /** A finished background load: a successful fetch installs the bound, the
      database and its first page; a failed fetch changes nothing. The
      cursor, the offset and the loads log are never touched. */
  function CompleteLoad(v: View, fetched: Result<seq<Listing>>, page: PageFn): (r: View)
    ensures fetched.Err? ==> r == v
    ensures fetched.Ok? ==>
      && r.db == Some(SongDb(fetched.value))
      && r.maxPage == Some(PageCount(|fetched.value|, PAGE_SIZE))
      && r.content == Some(page(SongDb(fetched.value), 0))
    ensures r.(content := v.content, db := v.db, maxPage := v.maxPage) == v
  {
    match fetched
    case Err(_) => v
    case Ok(songs) => LoadStages(v, songs, page)[4]
  }

  /** What every state of the view satisfies: the list length is the page
      size, the cursor is on the page, the offset and the bound are aligned,
      and a loaded database always comes with a bound (which is what the
      unwrap in Right relies on). */
  predicate Valid(v: View) {
    && v.maxLen == PAGE_SIZE
    && v.selected < PAGE_SIZE
    && Aligned(v.offset, PAGE_SIZE)
    && (v.db.Some? ==> v.maxPage.Some?)
    && (v.maxPage.Some? ==> Aligned(v.maxPage.value, PAGE_SIZE))
  }

  lemma InitValid()
    ensures Valid(Init())
  {
  }

  /** Keys keep the view valid. */
  lemma HandleKeyKeepsValid(v: View, key: Key, page: PageFn)
    requires Valid(v)
    ensures Valid(HandleKey(v, key, page))
  {
    if v.db.Some? {
      StepsKeepAlignment(v.offset, PAGE_SIZE, v.maxPage.value);
    }
  }

  /** Receiving an id keeps the view valid. */
  lemma ReceiveKeepsValid(v: View, msg: Option<string>)
    requires Valid(v)
    ensures Valid(Receive(v, msg))
  {
  }

  /** Every intermediate state of a load is valid, so a key handled between
      two of its critical sections finds a bound whenever it finds a
      database. */
  lemma LoadStagesKeepValid(v: View, songs: seq<Listing>, page: PageFn)
    requires Valid(v)
    ensures forall i :: 0 <= i < 5 ==> Valid(LoadStages(v, songs, page)[i])
  {
  }

  lemma CompleteLoadKeepsValid(v: View, fetched: Result<seq<Listing>>, page: PageFn)
    requires Valid(v)
    ensures Valid(CompleteLoad(v, fetched, page))
  {
  }

  /** With the offset within the bound, a Right that moved followed by Left
      returns to the original offset and shows the page there; the cursor is
      untouched. */
  lemma RightThenLeft(v: View, page: PageFn)
    requires Valid(v) && v.db.Some? && v.offset <= v.maxPage.value
    requires PageRight(v, page).offset != v.offset
    ensures var back := PageLeft(PageRight(v, page), page);
      && back.offset == v.offset
      && back.content == Some(page(v.db.value, v.offset))
      && back.selected == v.selected
  {
    ForwardThenBack(v.offset, PAGE_SIZE, v.maxPage.value);
  }

  /** Right never takes an offset within the bound past it, and Left never
      takes it past anything. */
  lemma PagingKeepsOffsetInBound(v: View, key: Key, page: PageFn)
    requires Valid(v) && v.maxPage.Some? && v.offset <= v.maxPage.value
    ensures HandleKey(v, key, page).offset <= v.maxPage.value
  {
  }

  /** A new id does not reset the offset, and a reload of a shorter playlist
      lowers the bound: the offset is then beyond the bound, and Right moves
      it back to the bound instead of forward. */
  lemma ReloadStrandsOffset(v: View, song: Listing, page: PageFn)
    requires Valid(v) && v.db.Some? && v.offset == 2 * PAGE_SIZE
    ensures var r := CompleteLoad(Receive(v, Some(song.id)), Ok([song]), page);
      && r.offset == 2 * PAGE_SIZE
      && r.maxPage == Some(PAGE_SIZE)
      && PageRight(r, page).offset == PAGE_SIZE
  {
  }

  /** Loads are installed blindly in completion order: whichever finishes
      last wins, whatever id was requested last. */
  lemma LastCompletedLoadWins(v: View, first: seq<Listing>, second: seq<Listing>, page: PageFn)
    ensures CompleteLoad(CompleteLoad(v, Ok(first), page), Ok(second), page).db
      == Some(SongDb(second))
  {
  }

  /** One thing that can happen to the view: a key, a relay receipt, or one
      critical section of some in-flight load. Loads spawned for different
      ids run concurrently, so their sections may interleave. */
  datatype Event =
    | KeyEvent(key: Key)
    | RelayEvent(msg: Option<string>)
    | DropDbEvent
    | SetMaxPageEvent(n: nat)
    | InstallDbEvent(db: SongDb)
    | InstallContentEvent(songs: seq<Listing>)

  /** One event applied to the view. Only load sections touch the database
      and the bound, only keys move the offset, and only receipts spawn
      loads. */
  function Apply(v: View, e: Event, page: PageFn): (r: View)
    requires e.KeyEvent? ==> !RightPanics(v, e.key)
    ensures e.KeyEvent? || e.RelayEvent? ==> r.db == v.db && r.maxPage == v.maxPage
    ensures !e.KeyEvent? ==> r.offset == v.offset
    ensures !e.RelayEvent? ==> r.loads == v.loads
    ensures e.RelayEvent? && e.msg.Some? ==> r.loads == v.loads + [e.msg.value]
    ensures r.maxLen == v.maxLen
  {
    match e
    case KeyEvent(key) => HandleKey(v, key, page)
    case RelayEvent(msg) => Receive(v, msg)
    case DropDbEvent => DropDb(v)
    case SetMaxPageEvent(n) => SetMaxPage(v, n)
    case InstallDbEvent(db) => InstallDb(v, db)
    case InstallContentEvent(songs) => InstallContent(v, songs)
  }

  /** The view after `events`, or `None` if a Right key on the way panics. */
  function Run(v: View, events: seq<Event>, page: PageFn): (r: Option<View>)
    ensures events == [] ==> r == Some(v)
    ensures r.None? ==> exists i :: 0 <= i < |events| && events[i] == KeyEvent(Right)
    ensures r.Some? ==> r.value.maxLen == v.maxLen
    decreases |events|
  {
    if events == [] then Some(v)
    else if events[0].KeyEvent? && RightPanics(v, events[0].key) then None
    else Run(Apply(v, events[0], page), events[1..], page)
  }

  /** Each load sets its bound before it installs its database, so every
      database install is preceded by some bound install. */
  predicate BoundBeforeDb(events: seq<Event>) {
    forall i :: 0 <= i < |events| && events[i].InstallDbEvent? ==> BoundBefore(events, i)
  }

  /** Some event before position `i` sets a bound. */
  predicate BoundBefore(events: seq<Event>, i: nat)
    requires i <= |events|
  {
    exists j :: 0 <= j < i && events[j].SetMaxPageEvent?
  }

  /** A valid view stays valid through any interleaving of keys, relay
      receipts and load sections in which a bound comes before each
      database, and no Right key on the way panics. */
  lemma {:induction false} RunKeepsValid(v: View, events: seq<Event>, page: PageFn)
    requires Valid(v) && (v.maxPage.Some? || BoundBeforeDb(events))
    ensures Run(v, events, page).Some? && Valid(Run(v, events, page).value)
    decreases |events|
  {
    if events != [] {
      var e := events[0];
      var v' := Apply(v, e, page);
      if e.KeyEvent? {
        HandleKeyKeepsValid(v, e.key, page);
      }
      assert Valid(v');
      if v'.maxPage.None? {
        assert !e.SetMaxPageEvent? && v.maxPage.None?;
        var tail := events[1..];
        forall i | 0 <= i < |tail| && tail[i].InstallDbEvent?
          ensures BoundBefore(tail, i)
        {
          assert events[i + 1].InstallDbEvent?;
          var j :| 0 <= j < i + 1 && events[j].SetMaxPageEvent?;
          assert j != 0;
          assert tail[j - 1].SetMaxPageEvent?;
        }
      }
      RunKeepsValid(v', events[1..], page);
    }
  }

  /** From the initial view, Right never panics: every reachable view
      has a bound whenever it has a database. */
  lemma RightNeverPanicsFromInit(events: seq<Event>, page: PageFn)
    requires BoundBeforeDb(events)
    ensures Run(Init(), events, page).Some? && Valid(Run(Init(), events, page).value)
  {
    InitValid();
    RunKeepsValid(Init(), events, page);
  }

  /** Two loads interleaved: A sets its bound, B sets its bound, then A
      installs its database. The view then shows A's songs under B's
      bound. */
  lemma InterleavedLoadsMixBounds(a: seq<Listing>, b: seq<Listing>, page: PageFn)
    requires PageCount(|a|, PAGE_SIZE) != PageCount(|b|, PAGE_SIZE)
    ensures var events := [DropDbEvent, SetMaxPageEvent(|a|), DropDbEvent,
                           SetMaxPageEvent(|b|), InstallDbEvent(SongDb(a))];
      var r := Run(Init(), events, page);
      r.Some? && r.value.db == Some(SongDb(a))
      && r.value.maxPage == Some(PageCount(|b|, PAGE_SIZE))
      && r.value.maxPage != Some(PageCount(|a|, PAGE_SIZE))
  {
    var events := [DropDbEvent, SetMaxPageEvent(|a|), DropDbEvent,
                   SetMaxPageEvent(|b|), InstallDbEvent(SongDb(a))];
    var v1 := DropDb(Init());
    var v2 := SetMaxPage(v1, |a|);
    var v3 := DropDb(v2);
    var v4 := SetMaxPage(v3, |b|);
    var v5 := InstallDb(v4, SongDb(a));
    assert events[4..] == [InstallDbEvent(SongDb(a))];
    assert Run(v5, [], page) == Some(v5);
    assert Run(v4, events[4..], page) == Some(v5);
    assert events[3..][1..] == events[4..];
    assert Run(v3, events[3..], page) == Some(v5);
    assert events[2..][1..] == events[3..];
    assert Run(v2, events[2..], page) == Some(v5);
    assert events[1..][1..] == events[2..];
    assert Run(v1, events[1..], page) == Some(v5);
    assert Run(Init(), events, page) == Some(v5);
  }

  /** A load whose `SongDatabase::new()` panics stops after its first two
      sections: the old database is gone, the new playlist's bound is set,
      and the old page is still shown. The view stays valid. */
  lemma LoadStoppedAtDbConstruction(v: View, songs: seq<Listing>, page: PageFn)
    requires Valid(v)
    ensures var r := Run(v, [DropDbEvent, SetMaxPageEvent(|songs|)], page);
      && r.Some? && Valid(r.value)
      && r.value.db == None && r.value.maxPage == Some(PageCount(|songs|, PAGE_SIZE))
      && r.value.content == v.content && r.value.offset == v.offset
  {
    var events := [DropDbEvent, SetMaxPageEvent(|songs|)];
    var v2 := SetMaxPage(DropDb(v), |songs|);
    assert events[1..][1..] == [];
    assert Run(DropDb(v), events[1..], page) == Some(v2);
  }
}
