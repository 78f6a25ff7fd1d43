/**
 * The album route component: the perspective navigation state machine.
 * Each transition of the component is a method that updates the fields in
 * place, as the component's `setState` calls and field assignments do
 * (taken as immediate), and states the whole new state through `State()`.
 */
module Route {
  import opened Wrappers
  import opened AlbumService
  import opened Navigation

  class AlbumRoute {
    /** The album repository behind `albumService`; fixed for the route's lifetime. */
    const repo: seq<Album>

    var perspective: Perspective
    var album: Focus
    var albumName: Option<string>
    var trackName: string
    var musicianName: string
    var instrumentName: string
    var collapseNavbar: bool
    /** `this.specialCaseFunction` */
    var specialCase: Compound
    /** `this.data`: the selection collected for the special perspective */
    var data: Option<seq<GraphNode>>
    /** `this.navigationStack`; its last element is the top */
    var navigationStack: seq<Frame>

    ghost function State(): RouteState
      reads this
    {
      RouteState(perspective, album, albumName, trackName, musicianName, instrumentName,
                 collapseNavbar, specialCase, data, navigationStack)
    }

    ghost predicate Valid()
      reads this
    {
      Consistent(repo, State())
    }

    constructor (repo: seq<Album>)
      ensures this.repo == repo
      ensures State() == Initial() && Valid()
    {
      this.repo := repo;
      perspective := Unset;
      album := NotLoaded;
      albumName := None;
      trackName := "";
      musicianName := "";
      instrumentName := "";
      collapseNavbar := false;
      specialCase := CompoundForMusicians;
      data := None;
      navigationStack := [];
    }

    /** `componentDidMount`: open the album named in the query string, else the first album, else redirect. */
    method ComponentDidMount(n: Option<string>, m: Option<string>) returns (redirect: bool)
      requires Valid()
      modifies this
      ensures Valid()
      ensures redirect <==> !Truthy(n) && repo == []
      ensures redirect ==> State() == old(State())
      ensures Truthy(n) && !Truthy(m) ==> State() == AlbumSelected(repo, old(State()), n.value)
      ensures Truthy(n) && Truthy(m) ==> State() == MusicianShown(AlbumSelected(repo, old(State()), n.value), m.value)
      ensures !Truthy(n) && repo != [] ==>
        State() == AlbumSelected(repo, old(State()), repo[0].id) && album == Focused(repo[0])
    {
      redirect := false;
      match MountDecision(repo, n, m)
      case Redirect =>
        redirect := true;
      case OpenAlbum(name, musician) =>
        SetCurrentAlbum(name);
        if musician.Some? {
          ShowMusicianDisplay(musician.value);
        }
      if !Truthy(n) && repo != [] {
        MountWithoutNameFocusesFirstAlbum(repo, n, m);
      }
    }

    /** `switchToAlbum`: the URL update is not modelled; the focus change is `setCurrentAlbum`. */
    method SwitchToAlbum(name: string)
      requires Valid()
      modifies this
      ensures Valid()
      ensures State() == AlbumSelected(repo, old(State()), name)
    {
      SetCurrentAlbum(name);
    }

    /**
     * `setCurrentAlbum`: focus the album with that id, or the first album, reset
     * the other foci, return to the album perspective and select the
     * musician compound; the navigation stack is not touched.
     */
    method SetCurrentAlbum(name: string)
      requires Valid()
      modifies this
      ensures Valid()
      ensures State() == AlbumSelected(repo, old(State()), name)
      ensures navigationStack == old(navigationStack)
    {
      ghost var before := State();
      var found := ByName(repo, name);
      var next := if found.Some? then found else FirstAlbum(repo);
      specialCase := CompoundForMusicians;
      album := if next.Some? then Focused(next.value) else Missing;
      trackName := "";
      musicianName := "";
      instrumentName := "";
      perspective := AlbumView;
      assert State() == AlbumSelected(repo, before, name);
    }

    /** `pushToNavigationStack` */
    method PushToNavigationStack(p: Perspective, name: string)
      modifies this
      ensures State() == old(State()).(navigationStack := old(navigationStack) + [Frame(p, name)])
    {
      navigationStack := navigationStack + [Frame(p, name)];
    }

    /** `saveContext`: push the album frame, then the frames of the perspective being left. */
    method SaveContext()
      requires album.Focused?
      modifies this
      ensures State() == old(State()).(navigationStack := old(navigationStack) +
        ContextFrames(old(perspective), old(album).record.id, old(musicianName), old(instrumentName)))
    {
      PushToNavigationStack(AlbumView, album.record.id);
      if perspective == MusicianView {
        PushToNavigationStack(MusicianView, musicianName);
      } else if perspective == InstrumentView {
        PushToNavigationStack(MusicianView, musicianName);
        PushToNavigationStack(InstrumentView, instrumentName);
      }
    }

    /**
     * `navigateBack`: pop an album frame and focus that album, or pop a musician
     * frame together with the album frame under it and return to that musician;
     * with nothing to pop, close the track or special perspective.
     */
    method NavigateBack()
      requires Valid()
      modifies this
      ensures Valid()
      ensures old(navigationStack) == [] ==> State() == TrackHidden(old(State()))
      ensures old(navigationStack) != [] && Top(old(navigationStack)).perspective == AlbumView ==>
        navigationStack == old(navigationStack)[..|old(navigationStack)| - 1] &&
        State() == AlbumSelected(repo, old(State()).(navigationStack := navigationStack),
                                 Top(old(navigationStack)).name)
      ensures old(navigationStack) != [] && Top(old(navigationStack)).perspective == MusicianView ==>
        |old(navigationStack)| >= 2 &&
        navigationStack == old(navigationStack)[..|old(navigationStack)| - 2] &&
        State() == MusicianRestored(old(State()).(navigationStack := navigationStack),
                                    Top(old(navigationStack)).name,
                                    old(navigationStack)[|old(navigationStack)| - 2].name)
    {
      ghost var stack := navigationStack;
      if |navigationStack| > 0 {
        var lastState := Top(navigationStack);
        navigationStack := navigationStack[..|navigationStack| - 1];
        if lastState.perspective == AlbumView {
          SetCurrentAlbum(lastState.name);
        } else if lastState.perspective == MusicianView {
          // the shape invariant puts the musician frame's album frame right below it
          var albumState := Top(navigationStack);
          navigationStack := navigationStack[..|navigationStack| - 1];
          assert navigationStack == stack[..|stack| - 2];
          BackToMusician(lastState.name, albumState.name);
        } else {
          // no other kind of frame is ever pushed
          assert false;
        }
      } else {
        HideTrackDisplay();
      }
    }

    /** `collapseNavbar`: toggle the navigation bar. */
    method CollapseNavbar()
      requires Valid()
      modifies this
      ensures Valid()
      ensures State() == old(State()).(collapseNavbar := !old(collapseNavbar))
    {
      collapseNavbar := !collapseNavbar;
    }

    /** `showTrackDisplay` */
    method ShowTrackDisplay(name: string)
      requires Valid()
      modifies this
      ensures Valid()
      ensures State() == old(State()).(trackName := name, perspective := TrackView, collapseNavbar := false)
    {
      trackName := name;
      perspective := TrackView;
      collapseNavbar := false;
    }

    /** `showInstrumentDisplay` */
    method ShowInstrumentDisplay(name: string)
      requires Valid()
      modifies this
      ensures Valid()
      ensures State() == old(State()).(instrumentName := name, perspective := InstrumentView)
    {
      instrumentName := name;
      perspective := InstrumentView;
    }

    /** `hideInstrumentDisplay`: back to the musician perspective, musician focus kept. */
    method HideInstrumentDisplay()
      requires Valid()
      modifies this
      ensures Valid()
      ensures State() == old(State()).(instrumentName := "", perspective := MusicianView)
    {
      instrumentName := "";
      perspective := MusicianView;
    }

    /** `hideTrackDisplay` */
    method HideTrackDisplay()
      requires Valid()
      modifies this
      ensures Valid()
      ensures State() == TrackHidden(old(State()))
    {
      trackName := "";
      perspective := AlbumView;
    }

    /**
     * `handleCollection`: only in the album and musician perspectives, select the
     * compound for the perspective being left, keep the selection, save the
     * context and enter the special perspective; anywhere else, do nothing.
     */
    method HandleCollection(elements: seq<GraphNode>)
      requires Valid()
      requires perspective == AlbumView || perspective == MusicianView ==> album.Focused?
      modifies this
      ensures Valid()
      ensures State() == CollectionHandled(old(State()), elements)
    {
      ghost var before := State();
      match perspective {
        case AlbumView =>
          specialCase := CompoundForMusicians;
        case MusicianView =>
          specialCase := CompoundForAlbums;
        case _ =>
          return;
      }
      data := Some(elements);
      SaveContext();
      perspective := SpecialView;
      collapseNavbar := false;
      assert State() == CollectionHandled(before, elements);
      CollectionHandledKeepsShape(before, elements);
    }

    /** `backToMusisian`: return to a musician; only the otherwise unused `albumName` records the album. */
    method BackToMusician(name: string, albumName: string)
      requires Valid()
      modifies this
      ensures Valid()
      ensures State() == MusicianRestored(old(State()), name, albumName)
    {
      specialCase := CompoundForAlbums;
      musicianName := name;
      this.albumName := Some(albumName);
      instrumentName := "";
      perspective := MusicianView;
    }

    /** `showMusicianDisplay` */
    method ShowMusicianDisplay(name: string)
      requires Valid()
      modifies this
      ensures Valid()
      ensures State() == MusicianShown(old(State()), name)
    {
      specialCase := CompoundForAlbums;
      musicianName := name;
      instrumentName := "";
      perspective := MusicianView;
    }

    /** `hideMusicianDisplay`: back to the album perspective with the musician and track cleared. */
    method HideMusicianDisplay()
      requires Valid()
      modifies this
      ensures Valid()
      ensures State() == old(State()).(musicianName := "", trackName := "", perspective := AlbumView,
                                       specialCase := CompoundForMusicians)
    {
      specialCase := CompoundForMusicians;
      musicianName := "";
      trackName := "";
      perspective := AlbumView;
    }

    /** `switchToMusician`: return to a musician, recording the first album they played on. */
    method SwitchToMusician(name: string)
      requires Valid()
      requires AlbumWithMusician(repo, name).Some?
      modifies this
      ensures Valid()
      ensures State() == MusicianRestored(old(State()), name, AlbumWithMusician(repo, name).value.id)
    {
      var albumId := AlbumWithMusician(repo, name).value.id;
      BackToMusician(name, albumId);
    }

    /** `handlePressOnAlbum`: in the musician and special perspectives, switch to the pressed album. */
    method HandlePressOnAlbum(caption: string)
      requires Valid()
      modifies this
      ensures Valid()
      ensures old(perspective) == MusicianView || old(perspective) == SpecialView ==>
        State() == AlbumSelected(repo, old(State()), caption)
      ensures old(perspective) != MusicianView && old(perspective) != SpecialView ==> State() == old(State())
    {
      match perspective
      case MusicianView => SwitchToAlbum(caption);
      case SpecialView => SwitchToAlbum(caption);
      case _ =>
    }

    /**
     * `handlePressOnMusician`: pressing a musician shows that musician, except in
     * the musician perspective, where it toggles back to the album, and in the
     * track perspective (and before mounting), where it does nothing.
     */
    method HandlePressOnMusician(caption: string)
      requires Valid()
      modifies this
      ensures Valid()
      ensures old(perspective) in {InstrumentView, AlbumView, SpecialView} ==>
        State() == MusicianShown(old(State()), caption)
      ensures old(perspective) == MusicianView ==>
        State() == old(State()).(musicianName := "", trackName := "", perspective := AlbumView,
                                 specialCase := CompoundForMusicians)
      ensures old(perspective) == TrackView || old(perspective) == Unset ==> State() == old(State())
    {
      match perspective
      case InstrumentView => ShowMusicianDisplay(caption);
      case AlbumView => ShowMusicianDisplay(caption);
      case MusicianView => HideMusicianDisplay();
      case SpecialView => ShowMusicianDisplay(caption);
      case _ =>
    }

    /** `handlePressOnTrack`: only in the album perspective, show the pressed track. */
    method HandlePressOnTrack(caption: string)
      requires Valid()
      modifies this
      ensures Valid()
      ensures old(perspective) == AlbumView ==>
        State() == old(State()).(trackName := caption, perspective := TrackView, collapseNavbar := false)
      ensures old(perspective) != AlbumView ==> State() == old(State())
    {
      match perspective
      case AlbumView => ShowTrackDisplay(caption);
      case _ =>
    }

    /**
     * `handlePressOnInstrument`: in the musician perspective show the pressed
     * instrument; in the instrument perspective toggle back to the musician.
     */
    method HandlePressOnInstrument(caption: string)
      requires Valid()
      modifies this
      ensures Valid()
      ensures old(perspective) == MusicianView ==>
        State() == old(State()).(instrumentName := caption, perspective := InstrumentView)
      ensures old(perspective) == InstrumentView ==>
        State() == old(State()).(instrumentName := "", perspective := MusicianView)
      ensures old(perspective) != MusicianView && old(perspective) != InstrumentView ==> State() == old(State())
    {
      match perspective
      case InstrumentView => HideInstrumentDisplay();
      case MusicianView => ShowInstrumentDisplay(caption);
      case _ =>
    }
  }

  /**
   * Collecting a selection on the album perspective and navigating back
   * returns to the same album, with the stack as it was before.
   */
  method CollectOnAlbumThenBack(route: AlbumRoute, elements: seq<GraphNode>)
    requires route.Valid()
    requires route.perspective == AlbumView && route.album.Focused?
    modifies route
    ensures route.Valid()
    ensures route.navigationStack == old(route.navigationStack)
    ensures route.perspective == AlbumView && route.album == old(route.album)
    ensures route.specialCase == CompoundForMusicians && route.data == Some(elements)
  {
    route.HandleCollection(elements);
    route.NavigateBack();
  }

  /**
   * Collecting a selection on the musician perspective and navigating back
   * pops both saved frames and returns to the same musician; the album
   * focus is the one the route already had.
   */
  method CollectOnMusicianThenBack(route: AlbumRoute, elements: seq<GraphNode>)
    requires route.Valid()
    requires route.perspective == MusicianView && route.album.Focused?
    modifies route
    ensures route.Valid()
    ensures route.navigationStack == old(route.navigationStack)
    ensures route.perspective == MusicianView && route.musicianName == old(route.musicianName)
    ensures route.album == old(route.album) && route.albumName == Some(old(route.album).record.id)
    ensures route.instrumentName == "" && route.specialCase == CompoundForAlbums
  {
    route.HandleCollection(elements);
    route.NavigateBack();
  }

  /** While the special perspective is shown, the graph draws the pending compound of the selection. */
  method CollectShowsCompound(route: AlbumRoute, elements: seq<GraphNode>)
    requires route.Valid()
    requires route.perspective == AlbumView && route.album.Focused?
    modifies route
    ensures route.Valid()
    ensures Render(route.State()).Rendered?
    ensures Render(route.State()).view.elements == CompoundGraph(CompoundForMusicians, Some(elements))
    ensures Render(route.State()).view.navbarAction == NavigateBackAction
  {
    route.HandleCollection(elements);
  }

  /**
   * Mounting with an album name on an empty repository does not redirect: the
   * lookup leaves a `null` album, and the next `render` faults on it.
   */
  method MountOnEmptyRepository(route: AlbumRoute, n: Option<string>, m: Option<string>) returns (redirect: bool)
    requires route.Valid() && route.repo == [] && Truthy(n)
    modifies route
    ensures route.Valid()
    ensures !redirect && route.album == Missing
    ensures Render(route.State()).RenderFault?
  {
    redirect := route.ComponentDidMount(n, m);
  }

  /** Pressing an instrument twice on the musician perspective comes back to the same musician. */
  method InstrumentToggle(route: AlbumRoute, instrument: string)
    requires route.Valid() && route.perspective == MusicianView
    modifies route
    ensures route.Valid()
    ensures route.perspective == MusicianView && route.musicianName == old(route.musicianName)
    ensures route.instrumentName == ""
  {
    route.HandlePressOnInstrument(instrument);
    route.HandlePressOnInstrument(instrument);
  }

  /** With nothing to pop, navigating back twice leaves the state navigating back once does. */
  method NavigateBackOnEmptyStack(route: AlbumRoute)
    requires route.Valid() && route.navigationStack == []
    modifies route
    ensures route.Valid()
    ensures route.State() == TrackHidden(old(route.State()))
  {
    route.NavigateBack();
    route.NavigateBack();
  }

  /**
   * Selecting an album and a musician and then navigating back, with nothing
   * saved on the stack, closes to the album perspective but keeps the
   * musician focus and the album compound as pending function.
   */
  method SelectMusicianThenBack(route: AlbumRoute, albumName: string, musicianName: string)
    requires route.Valid() && route.navigationStack == []
    modifies route
    ensures route.Valid()
    ensures route.perspective == AlbumView && route.album == FocusOn(AlbumOrFirst(route.repo, albumName))
    ensures route.musicianName == musicianName && route.specialCase == CompoundForAlbums
  {
    route.SetCurrentAlbum(albumName);
    route.ShowMusicianDisplay(musicianName);
    route.NavigateBack();
  }

  /** Opening an album name no album carries focuses the first album instead. */
  method UnknownAlbumFallsBack(route: AlbumRoute, albumName: string)
    requires route.Valid() && route.repo != []
    requires forall i :: 0 <= i < |route.repo| ==> route.repo[i].id != albumName
    modifies route
    ensures route.Valid()
    ensures route.album == Focused(route.repo[0]) && route.perspective == AlbumView
  {
    route.SetCurrentAlbum(albumName);
  }
}
