/**
 * The values behind the album route's perspective navigation: the
 * perspectives, the pending compound deriver, the back-navigation frames,
 * a snapshot of the route's whole state, the shape the navigation stack
 * always has, and the two read-only decisions of the route (what to draw,
 * and which album to open when the route is mounted).
 */
module Navigation {
  import opened Wrappers
  import opened AlbumService

  /** The `perspective` field; `Unset` is the empty string the route starts with. */
  datatype Perspective = Unset | AlbumView | MusicianView | InstrumentView | TrackView | SpecialView

  /** The pending special-case function: `getCompoundForMusicians` or `getCompoundForAlbums`. */
  datatype Compound = CompoundForMusicians | CompoundForAlbums

  /** One `{perspective, name}` entry of the navigation stack. */
  datatype Frame = Frame(perspective: Perspective, name: string)

  /** A selected graph node handed over by the graph surface; only its label (here `caption`) is read. */
  datatype GraphNode = GraphNode(caption: string)

  /**
   * The `album` field: the empty string the route starts with, the `null` a
   * lookup leaves on an empty repository, or a focused album record.
   */
  datatype Focus = NotLoaded | Missing | Focused(record: Album)

  /** The focus a lookup result gives: a found album, or `null`. */
  function FocusOn(found: Option<Album>): (f: Focus)
    ensures f.Missing? <==> found.None?
    ensures f.Focused? ==> found == Some(f.record)
  {
    match found
    case None => Missing
    case Some(a) => Focused(a)
  }

  /**
   * Everything the route's transitions read or write; `albumName` and `data`
   * are `None` until first written.
   */
  datatype RouteState = RouteState(
    perspective: Perspective,
    album: Focus,
    albumName: Option<string>,
    trackName: string,
    musicianName: string,
    instrumentName: string,
    collapseNavbar: bool,
    specialCase: Compound,
    data: Option<seq<GraphNode>>,
    navigationStack: seq<Frame>)

  /** The state the route's constructor sets up. */
  function Initial(): RouteState
  {
    RouteState(Unset, NotLoaded, None, "", "", "", false, CompoundForMusicians, None, [])
  }

  /** The most recently pushed frame. */
  function Top(stack: seq<Frame>): Frame
    requires stack != []
  {
    stack[|stack| - 1]
  }

  /**
   * The navigation stack is a concatenation of blocks `[album]` and
   * `[album, musician]`, read here from the top (the end of the sequence).
   */
  predicate Shaped(stack: seq<Frame>)
    decreases |stack|
  {
    if stack == [] then true
    else if Top(stack).perspective == AlbumView then Shaped(stack[..|stack| - 1])
    else
      Top(stack).perspective == MusicianView && |stack| >= 2 &&
      stack[|stack| - 2].perspective == AlbumView && Shaped(stack[..|stack| - 2])
  }

  /**
   * The block shape, stated frame by frame: every frame is an album or a
   * musician frame, and every musician frame sits directly on an album frame.
   */
  lemma {:induction false} ShapedIff(stack: seq<Frame>)
    ensures Shaped(stack) <==>
      (forall i :: 0 <= i < |stack| ==> stack[i].perspective in {AlbumView, MusicianView}) &&
      (forall i :: 0 <= i < |stack| && stack[i].perspective == MusicianView ==>
         i > 0 && stack[i - 1].perspective == AlbumView)
    decreases |stack|
  {
    if stack != [] {
      var n := |stack|;
      var p1 := stack[..n - 1];
      ShapedIff(p1);
      assert forall i :: 0 <= i < n - 1 ==> p1[i] == stack[i];
      if n >= 2 {
        var p2 := stack[..n - 2];
        ShapedIff(p2);
        assert forall i :: 0 <= i < n - 2 ==> p2[i] == stack[i];
      }
    }
  }

  /**
   * The state invariant: a well-shaped stack, and a focused album that comes
   * from the repository and is the one `getByName` finds for its own id.
   */
  ghost predicate Consistent(repo: seq<Album>, s: RouteState)
  {
    Shaped(s.navigationStack) &&
    (s.album.Focused? ==> s.album.record in repo && ByName(repo, s.album.record.id) == Some(s.album.record))
  }

  /**
   * The frames `saveContext` pushes: the album frame, then a musician frame
   * when leaving the musician perspective, or a musician and an instrument
   * frame when leaving the instrument perspective.
   */
  function ContextFrames(perspective: Perspective, albumId: string, musicianName: string, instrumentName: string): (r: seq<Frame>)
    ensures r != [] && r[0] == Frame(AlbumView, albumId)
    ensures perspective == MusicianView ==> r == [Frame(AlbumView, albumId), Frame(MusicianView, musicianName)]
    ensures perspective != MusicianView && perspective != InstrumentView ==> r == [Frame(AlbumView, albumId)]
  {
    [Frame(AlbumView, albumId)] +
    if perspective == MusicianView then [Frame(MusicianView, musicianName)]
    else if perspective == InstrumentView then [Frame(MusicianView, musicianName), Frame(InstrumentView, instrumentName)]
    else []
  }

  /** Saving the context of any perspective but the instrument one keeps the stack well shaped. */
  lemma SaveContextKeepsShape(stack: seq<Frame>, perspective: Perspective, albumId: string, musicianName: string, instrumentName: string)
    requires Shaped(stack)
    requires perspective != InstrumentView
    ensures Shaped(stack + ContextFrames(perspective, albumId, musicianName, instrumentName))
  {
    var pushed := stack + ContextFrames(perspective, albumId, musicianName, instrumentName);
    if perspective == MusicianView {
      assert pushed[..|pushed| - 2] == stack;
    } else {
      assert pushed[..|pushed| - 1] == stack;
    }
  }

  /**
   * The instrument branch of `saveContext` would break the shape: its top
   * frame is an instrument frame, which no block contains.
   */
  lemma InstrumentContextBreaksShape(stack: seq<Frame>, albumId: string, musicianName: string, instrumentName: string)
    ensures !Shaped(stack + ContextFrames(InstrumentView, albumId, musicianName, instrumentName))
  {
    var pushed := stack + ContextFrames(InstrumentView, albumId, musicianName, instrumentName);
    assert Top(pushed).perspective == InstrumentView;
  }

  /**
   * The state `handleCollection(elements)` leaves: only on the album and
   * musician perspectives, the compound for the perspective being left is
   * selected, the selection kept, the context saved and the special
   * perspective entered; on any other perspective nothing changes.
   */
  function CollectionHandled(s: RouteState, elements: seq<GraphNode>): (r: RouteState)
    requires s.perspective == AlbumView || s.perspective == MusicianView ==> s.album.Focused?
    ensures s.perspective != AlbumView && s.perspective != MusicianView ==> r == s
    ensures s.perspective == AlbumView ==>
      r.navigationStack == s.navigationStack + [Frame(AlbumView, s.album.record.id)] &&
      r.specialCase == CompoundForMusicians
    ensures s.perspective == MusicianView ==>
      r.navigationStack == s.navigationStack + [Frame(AlbumView, s.album.record.id), Frame(MusicianView, s.musicianName)] &&
      r.specialCase == CompoundForAlbums
    ensures s.perspective == AlbumView || s.perspective == MusicianView ==>
      r.perspective == SpecialView && r.data == Some(elements) && !r.collapseNavbar &&
      r == s.(perspective := r.perspective, data := r.data, collapseNavbar := r.collapseNavbar,
              specialCase := r.specialCase, navigationStack := r.navigationStack)
  {
    if s.perspective == AlbumView || s.perspective == MusicianView then
      var frames := ContextFrames(s.perspective, s.album.record.id, s.musicianName, s.instrumentName);
      s.(specialCase := if s.perspective == AlbumView then CompoundForMusicians else CompoundForAlbums,
         data := Some(elements),
         navigationStack := s.navigationStack + frames,
         perspective := SpecialView,
         collapseNavbar := false)
    else s
  }

  /** Handling a collection keeps a well-shaped stack well shaped. */
  lemma CollectionHandledKeepsShape(s: RouteState, elements: seq<GraphNode>)
    requires s.perspective == AlbumView || s.perspective == MusicianView ==> s.album.Focused?
    requires Shaped(s.navigationStack)
    ensures Shaped(CollectionHandled(s, elements).navigationStack)
  {
    if s.perspective == AlbumView || s.perspective == MusicianView {
      SaveContextKeepsShape(s.navigationStack, s.perspective, s.album.record.id, s.musicianName, s.instrumentName);
    }
  }

  /**
   * The album `setCurrentAlbum` focuses: the first album with the requested
   * id, or the repository's first album when no album has that id.
   */
  function AlbumOrFirst(repo: seq<Album>, albumName: string): (r: Option<Album>)
    ensures r.None? <==> repo == []
    ensures r.Some? ==> r.value in repo
    ensures (exists i :: 0 <= i < |repo| && repo[i].id == albumName) ==> r.Some? && r.value.id == albumName
    ensures (forall i :: 0 <= i < |repo| ==> repo[i].id != albumName) ==> r == FirstAlbum(repo)
    ensures r.Some? ==> ByName(repo, r.value.id) == r
  {
    var found := ByName(repo, albumName);
    if found.Some? then
      ByNameFound(repo, albumName);
      found
    else
      ByNameOfFirst(repo);
      FirstAlbum(repo)
  }

  /** The state `setCurrentAlbum(albumName)` leaves: album focus reset, stack untouched. */
  function AlbumSelected(repo: seq<Album>, s: RouteState, albumName: string): RouteState
  {
    s.(album := FocusOn(AlbumOrFirst(repo, albumName)), trackName := "", musicianName := "",
       instrumentName := "", perspective := AlbumView, specialCase := CompoundForMusicians)
  }

  /** The state `showMusicianDisplay(musicianName)` leaves. */
  function MusicianShown(s: RouteState, musicianName: string): RouteState
  {
    s.(musicianName := musicianName, instrumentName := "", perspective := MusicianView,
       specialCase := CompoundForAlbums)
  }

  /** The state `backToMusisian(musicianName, albumName)` leaves; the album focus is not touched. */
  function MusicianRestored(s: RouteState, musicianName: string, albumName: string): RouteState
  {
    s.(musicianName := musicianName, albumName := Some(albumName), instrumentName := "",
       perspective := MusicianView, specialCase := CompoundForAlbums)
  }

  /** The state `hideTrackDisplay()` leaves. */
  function TrackHidden(s: RouteState): RouteState
  {
    s.(trackName := "", perspective := AlbumView)
  }

  /** The graph elements `render` asks a deriver for; the derivers themselves are not modelled. */
  datatype Elements =
    | NoElements
    | AlbumGraph(albumId: string)
    | MusicianGraph(musicianName: string)
    | InstrumentGraph(instrumentName: string)
    | TrackGraph(trackName: string, albumId: string)
    | CompoundGraph(compound: Compound, selection: Option<seq<GraphNode>>)

  /** A list shown in the navigation bar, named by the service query that produces it. */
  datatype NavList =
    | NoList
    | AlbumMusicianNames(names: seq<string>)
    | TrackNamesOfAlbum(albumId: string)
    | AlbumNamesOfMusician(musicianName: string)
    | InstrumentNamesOfMusician(musicianName: string)
    | MusicianIdsOfInstrument(instrumentName: string)

  /** The detail information of the track display. */
  datatype RelationsInfo = NoInfo | RelationsOfTrack(trackName: string, albumId: string)

  /** What the search bar's navigation button does. */
  datatype NavbarAction = NavigateBackAction | CollapseNavbarAction

  /** The choices `render` makes from the state. */
  datatype View = View(
    elements: Elements,
    data1: NavList, data2: NavList,
    type1: string, type2: string,
    info: RelationsInfo,
    backButton: bool,
    navbarAction: NavbarAction,
    graphShown: bool,
    trackDisplayShown: bool)

  /** The outcome of `render`: a view, or the TypeError of reading a property of `null`. */
  datatype Rendering = RenderFault | Rendered(view: View)

  /** The navigation bar's two lists and their types. */
  function NavBar(v: View): (NavList, NavList, string, string)
  {
    (v.data1, v.data2, v.type1, v.type2)
  }

  /**
   * `render`: a `null` album (left by a lookup on an empty repository) faults
   * on `album[0]`; the initial empty album draws nothing. With a focused
   * album, each perspective draws the deriver of its own focus field and
   * fills the navigation bar with its own lists (the album perspective also
   * for the initial empty perspective). The back button and the back action
   * belong to the special and track perspectives, and the track perspective
   * replaces the graph by the track display.
   */
  function Render(s: RouteState): (r: Rendering)
    ensures r.RenderFault? <==> s.album.Missing?
    ensures r.Rendered? ==>
      (r.view.backButton <==> s.perspective == SpecialView || s.perspective == TrackView) &&
      (r.view.navbarAction == NavigateBackAction <==> r.view.backButton) &&
      (r.view.graphShown <==> s.perspective != TrackView) &&
      (r.view.trackDisplayShown <==> s.perspective == TrackView)
    ensures r.Rendered? && r.view.info != NoInfo ==> s.album.Focused? && s.perspective == TrackView
    ensures s.album.NotLoaded? ==>
      r.Rendered? && r.view.elements == NoElements && NavBar(r.view) == (NoList, NoList, "", "")
    ensures s.album.Focused? && s.perspective == MusicianView ==>
      r.Rendered? && r.view.elements == MusicianGraph(s.musicianName) &&
      NavBar(r.view) == (AlbumNamesOfMusician(s.musicianName), InstrumentNamesOfMusician(s.musicianName),
                         "album", "instrument")
    ensures s.album.Focused? && s.perspective == InstrumentView ==>
      r.Rendered? && r.view.elements == InstrumentGraph(s.instrumentName) &&
      NavBar(r.view) == (MusicianIdsOfInstrument(s.instrumentName), NoList, "musician", "")
    ensures s.album.Focused? && s.perspective == TrackView ==>
      r.Rendered? && r.view.elements == TrackGraph(s.trackName, s.album.record.id) &&
      r.view.info == RelationsOfTrack(s.trackName, s.album.record.id) &&
      NavBar(r.view) == (NoList, NoList, "", "")
    ensures s.album.Focused? && s.perspective == SpecialView ==>
      r.Rendered? && r.view.elements == CompoundGraph(s.specialCase, s.data) &&
      NavBar(r.view) == (NoList, NoList, "", "")
    ensures s.album.Focused? && (s.perspective == AlbumView || s.perspective == Unset) ==>
      r.Rendered? && r.view.elements == AlbumGraph(s.album.record.id) &&
      NavBar(r.view) == (AlbumMusicianNames(s.album.record.musicians), TrackNamesOfAlbum(s.album.record.id),
                         "musician", "track")
  {
    var nested := s.perspective == SpecialView || s.perspective == TrackView;
    var chrome := View(NoElements, NoList, NoList, "", "", NoInfo, nested,
                       if nested then NavigateBackAction else CollapseNavbarAction,
                       s.perspective != TrackView, s.perspective == TrackView);
    match s.album
    case Missing => RenderFault
    case NotLoaded => Rendered(chrome)
    case Focused(a) =>
      match s.perspective
      case MusicianView =>
        Rendered(chrome.(elements := MusicianGraph(s.musicianName),
                         data1 := AlbumNamesOfMusician(s.musicianName),
                         data2 := InstrumentNamesOfMusician(s.musicianName),
                         type1 := "album", type2 := "instrument"))
      case InstrumentView =>
        Rendered(chrome.(elements := InstrumentGraph(s.instrumentName),
                         data1 := MusicianIdsOfInstrument(s.instrumentName),
                         type1 := "musician"))
      case TrackView =>
        Rendered(chrome.(elements := TrackGraph(s.trackName, a.id),
                         info := RelationsOfTrack(s.trackName, a.id)))
      case SpecialView =>
        Rendered(chrome.(elements := CompoundGraph(s.specialCase, s.data)))
      case _ =>
        Rendered(chrome.(elements := AlbumGraph(a.id),
                         data1 := AlbumMusicianNames(a.musicians),
                         data2 := TrackNamesOfAlbum(a.id),
                         type1 := "musician", type2 := "track"))
  }

  /** What `componentDidMount` does: open an album (and maybe a musician), or redirect home. */
  datatype MountAction = Redirect | OpenAlbum(albumName: string, musicianName: Option<string>)

  /** A query-string value that JavaScript treats as true: present and not empty. */
  predicate Truthy(value: Option<string>)
  {
    value.Some? && value.value != ""
  }

  /**
   * `componentDidMount`'s decision on the query values `n` (album) and `m`
   * (musician): a given album name is opened as it is, with the musician if
   * one is given; without a name the first album is opened; with no albums
   * at all the route redirects.
   */
  function MountDecision(repo: seq<Album>, n: Option<string>, m: Option<string>): (d: MountAction)
    ensures d.Redirect? <==> !Truthy(n) && repo == []
    ensures Truthy(n) ==> d == OpenAlbum(n.value, if Truthy(m) then m else None)
    ensures !Truthy(n) && repo != [] ==> d == OpenAlbum(repo[0].id, None)
  {
    if Truthy(n) then OpenAlbum(n.value, if Truthy(m) then m else None)
    else
      match FirstAlbum(repo)
      case None => Redirect
      case Some(a) => OpenAlbum(a.id, None)
  }

  /**
   * Mounting without an album name on a non-empty repository focuses its
   * first album, whatever other albums share that album's id.
   */
  lemma MountWithoutNameFocusesFirstAlbum(repo: seq<Album>, n: Option<string>, m: Option<string>)
    requires !Truthy(n) && repo != []
    ensures MountDecision(repo, n, m).OpenAlbum?
    ensures AlbumOrFirst(repo, MountDecision(repo, n, m).albumName) == Some(repo[0])
  {
    ByNameOfFirst(repo);
  }
}
