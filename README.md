# Album route navigation — a Dafny model

This project models the core of the Miles Davis album explorer: the
**perspective navigation state machine** of the album route component and the
**album query layer** it uses to find albums.

- `album_route.dfy` (module `Route`): the `AlbumRoute` component as a class.
  Its fields are the component's state (`perspective`, the focused `album`,
  `trackName`, `musicianName`, `instrumentName`, the stray `albumName`,
  `collapseNavbar`), the pending special-case function (`specialCase`, a
  two-valued tag), the collected selection `data`, and the back-navigation
  stack `navigationStack`. The focused `album` is three-valued (`Focus`): the
  empty string the component starts with, the `null` a lookup leaves on an
  empty repository, or an album record. Every transition of the component is a method
  that updates these fields in place. Each method states the whole new state
  through the snapshot `State()`, and keeps the invariant `Valid()`. The
  invariant says the stack is well shaped and the focused album comes from
  the repository and is the album `getByName` finds for its own id. Client methods at the end of the file prove the round
  trips through the special perspective and the toggles.
- `navigation.dfy` (module `Navigation`): the values the machine works on.
  It defines the stack-shape predicate `Shaped` and its lemmas. It also holds
  the two read-only decisions of the component: `Render`, which picks the
  deriver and navigation-bar lists for each perspective, and `MountDecision`,
  which picks the album to open when the route is mounted.
- `album_service.dfy` (module `AlbumService`): the album lookups over the
  repository, an ordered `seq<Album>`. The musician service's `getByName` is
  a partial map from names to musician records.
- `sequences.dfy` (module `Sequences`): the JavaScript array and string
  operations the lookups are built from (`filter`, first-or-null,
  `String.includes`), each with the properties the lookups need.
- `wrappers.dfy` (module `Wrappers`): `Option`, standing for the source's
  `null`-or-value results.

The stack invariant is the heart of the model. The stack only ever holds
blocks `[album]` and `[album, musician]`, because `handleCollection` saves
the context only from the album and musician perspectives. So every musician
frame sits directly on an album frame (`Navigation.ShapedIff`). That is what
makes the second `pop` in `navigateBack` safe: `NavigateBack` needs no
precondition beyond `Valid()` to read the album frame under a musician frame.
It is also why `navigateBack`'s fallback for any other frame kind cannot
run: the model proves that branch dead. The instrument branch of
`saveContext` is unreachable as well. `Navigation.InstrumentContextBreaksShape`
shows that it would push a frame no block contains.

Some behaviours of the code may be unexpected. The model follows the code
in each of them:

- Selecting an album, then a musician, then navigating back with an empty
  stack does not restore the musician compound as the pending function.
  `hideTrackDisplay` changes only the perspective and the track. The musician
  focus and the album compound stay (`Route.SelectMusicianThenBack`).
- Navigating back to a musician does not restore the album focus. The album
  id from the popped album frame goes only into `albumName`, which nothing
  reads (`Route.AlbumRoute.NavigateBack`, `Route.CollectOnMusicianThenBack`).
- Selecting a new album does not reset the navigation stack. It also leaves
  `collapseNavbar`, `data` and `albumName` as they were
  (`Route.AlbumRoute.SetCurrentAlbum`).
- An empty repository is handled only at mount time without an album name,
  where the route redirects home. With an album name it does not redirect:
  `setCurrentAlbum` stores a `null` album, and the next `render` fails
  reading `album[0]` (`Route.MountOnEmptyRepository`, `Navigation.Render`).
- Back navigation is not limited to the special and track perspectives. It
  pops whatever the stack holds.

## Model

| member | source | states |
|---|---|---|
| `Sequences.FirstOf` | src/service/AlbumService.js:13 | "first or null": none exactly for an empty list, otherwise element 0 |
| `Sequences.Filter` | src/service/AlbumService.js:20-22 | `filter` keeps exactly the elements satisfying the predicate and never grows the list |
| `Sequences.FilterCounts` | src/service/AlbumService.js:20-22 | `filter` keeps every occurrence of a matching element (as many as the input holds) and no occurrence of the others |
| `Sequences.FilterIsSubsequence` | src/service/AlbumService.js:61-63 | a filtered list is a subsequence of its input, so repository order is kept |
| `Sequences.FilterHead` | src/service/AlbumService.js:31-32 | the head of a filter is the first matching element; the filter is empty iff nothing matches |
| `Sequences.IncludesIff` | src/service/AlbumService.js:63 | `includes` holds iff the query occurs as a contiguous block at some index |
| `AlbumService.FirstAlbum` | src/service/AlbumService.js:11-14 | null iff the repository is empty, otherwise its element 0 |
| `AlbumService.AlbumWithMusician` | src/service/AlbumService.js:19-25 | the first album whose musicians contain the name; null iff no album does |
| `AlbumService.ByName` | src/service/AlbumService.js:30-33 | the first album whose id equals the name; null iff no album has it |
| `AlbumService.ByNameFound` | src/service/AlbumService.js:30-33 | a non-null result is a repository album whose id is the requested name |
| `AlbumService.ByNameOfFirst` | src/service/AlbumService.js:30-33 | the first album is always found by its own id |
| `AlbumService.ByNameOfMember` | src/service/AlbumService.js:30-33 | with unique ids, every album is found by its own id |
| `AlbumService.Present` | src/service/AlbumService.js:49 | dropping null entries never lengthens the list |
| `AlbumService.ResolvedMusicians` | src/service/AlbumService.js:45-50 | the resolved musicians: at most one per name, each the record of a listed name, and every resolvable name's record included |
| `AlbumService.ResolvedMusiciansAppend` | src/service/AlbumService.js:45-47 | resolution keeps the order of the album's musician list (it distributes over concatenation) |
| `AlbumService.PresentOfLookUps` | src/service/AlbumService.js:45-49 | looking every name up and then dropping the nulls yields exactly the resolved musicians |
| `AlbumService.MusiciansOfAlbum` | src/service/AlbumService.js:39-51 | no album gives the empty list; otherwise the album's musicians resolved in order, with unknown names dropped |
| `AlbumService.Containing` | src/service/AlbumService.js:58-64 | empty query gives nothing; otherwise a subsequence of the repository holding exactly the albums whose id includes the query |
| `AlbumService.ContainingIsSubstringSearch` | src/service/AlbumService.js:61-63 | an album is returned iff it is in the repository and the query occurs somewhere in its id, and then as many times as the repository holds it; with `Containing`'s subsequence clause this fixes the result exactly |
| `AlbumService.All` | src/service/AlbumService.js:68 | `getAll` returns the repository unchanged |
| `Navigation.ShapedIff` | src/routes/album-route/album-route.js:330-342 | the stack is made of `[album]` and `[album, musician]` blocks iff every frame is an album or musician frame and each musician frame sits on an album frame |
| `Navigation.ContextFrames` | src/routes/album-route/album-route.js:315-326 | the saved context starts with the album frame; leaving the musician perspective adds its musician frame; other perspectives except the instrument one add nothing |
| `Navigation.SaveContextKeepsShape` | src/routes/album-route/album-route.js:318-321 | saving the context of any perspective but the instrument one keeps the stack well shaped |
| `Navigation.InstrumentContextBreaksShape` | src/routes/album-route/album-route.js:322-324 | the instrument branch would leave an instrument frame on top, which breaks the shape |
| `Navigation.AlbumOrFirst` | src/routes/album-route/album-route.js:290-291 | the focused album is the album with the requested id if one exists, else the first album; none only for an empty repository; always a repository album, and the one `getByName` finds for its own id |
| `Navigation.Render` | src/routes/album-route/album-route.js:113-184 | a `null` album faults (the `album[0]` read at line 179); the initial empty album draws nothing and leaves the navigation bar empty; with a focused album each perspective draws the deriver of its own focus field and fills both navigation-bar lists and types as its branch does (track and special leave them empty); the special perspective draws the pending compound of the collected selection; only the track perspective has relations info; the back button, the graph and the track display depend on the perspective as in lines 175-184, 212 and 232 |
| `Navigation.MountDecision` | src/routes/album-route/album-route.js:57-86 | a given album name is opened with the musician if one is given; without one the first album is opened; redirect iff no name and no albums |
| `Navigation.MountWithoutNameFocusesFirstAlbum` | src/routes/album-route/album-route.js:77-83 | mounting without a name on a non-empty repository focuses exactly the first album |
| `Route.AlbumRoute.constructor` | src/routes/album-route/album-route.js:34-55 | the initial state: no perspective, the album not yet loaded, empty foci, musician compound pending, empty stack |
| `Route.AlbumRoute.ComponentDidMount` | src/routes/album-route/album-route.js:57-86 | redirect iff no album name and no albums; otherwise the state of `setCurrentAlbum`, then of `showMusicianDisplay` when a musician is given; without a name the first album is focused |
| `Route.AlbumRoute.SwitchToAlbum` | src/routes/album-route/album-route.js:273-276 | the state `setCurrentAlbum` leaves |
| `Route.AlbumRoute.SetCurrentAlbum` | src/routes/album-route/album-route.js:289-303 | album focus from the lookup with fallback, other foci cleared, album perspective, musician compound pending; stack and everything else untouched |
| `Route.AlbumRoute.PushToNavigationStack` | src/routes/album-route/album-route.js:309-311 | exactly one frame appended; nothing else changes |
| `Route.AlbumRoute.SaveContext` | src/routes/album-route/album-route.js:315-326 | the stack grows by the context frames of the current perspective; nothing else changes |
| `Route.AlbumRoute.NavigateBack` | src/routes/album-route/album-route.js:330-346 | empty stack: only perspective to album and track cleared; album frame on top: one frame popped, then `setCurrentAlbum` of its name; musician frame on top: two frames popped, then back to that musician with the album frame's name in `albumName`; the shape is kept |
| `Route.AlbumRoute.CollapseNavbar` | src/routes/album-route/album-route.js:350-352 | only `collapseNavbar` flips |
| `Route.AlbumRoute.ShowTrackDisplay` | src/routes/album-route/album-route.js:358-364 | track focus set, track perspective, navigation bar expanded; nothing else changes |
| `Route.AlbumRoute.ShowInstrumentDisplay` | src/routes/album-route/album-route.js:369-374 | instrument focus set, instrument perspective; nothing else changes |
| `Route.AlbumRoute.HideInstrumentDisplay` | src/routes/album-route/album-route.js:379-384 | instrument focus cleared, musician perspective; musician focus kept |
| `Route.AlbumRoute.HideTrackDisplay` | src/routes/album-route/album-route.js:389-394 | track focus cleared, album perspective; nothing else changes |
| `Navigation.CollectionHandled` | src/routes/album-route/album-route.js:405-426 | outside the album and musician perspectives the state is unchanged; from album one frame `(album, album id)` is pushed and the musician compound selected; from musician the album and musician frames are pushed and the album compound selected; both keep the selection, the data become the elements, the navbar is expanded and the special perspective entered |
| `Navigation.CollectionHandledKeepsShape` | src/routes/album-route/album-route.js:405-426 | handling a collection keeps a well-shaped stack well shaped |
| `Route.AlbumRoute.HandleCollection` | src/routes/album-route/album-route.js:405-426 | the new route state is exactly `CollectionHandled` of the old one, and the route invariant is kept |
| `Route.AlbumRoute.BackToMusician` | src/routes/album-route/album-route.js:433-442 | musician focus and perspective, instrument cleared, album compound pending, `albumName` recorded; album focus untouched |
| `Route.AlbumRoute.ShowMusicianDisplay` | src/routes/album-route/album-route.js:447-454 | musician focus and perspective, instrument cleared, album compound pending |
| `Route.AlbumRoute.HideMusicianDisplay` | src/routes/album-route/album-route.js:458-465 | musician and track cleared, album perspective, musician compound pending |
| `Route.AlbumRoute.SwitchToMusician` | src/routes/album-route/album-route.js:250-254 | back to the musician, recording the id of the first album they played on |
| `Route.AlbumRoute.HandlePressOnAlbum` | src/routes/album-route/album-route.js:471-486 | switches to the pressed album only in the musician and special perspectives; a no-op elsewhere |
| `Route.AlbumRoute.HandlePressOnMusician` | src/routes/album-route/album-route.js:492-511 | shows the pressed musician from the instrument, album and special perspectives; toggles back to the album from the musician perspective; a no-op in the track perspective |
| `Route.AlbumRoute.HandlePressOnTrack` | src/routes/album-route/album-route.js:517-527 | shows the pressed track only in the album perspective; a no-op elsewhere |
| `Route.AlbumRoute.HandlePressOnInstrument` | src/routes/album-route/album-route.js:533-546 | shows the pressed instrument from the musician perspective; toggles back to the musician from the instrument perspective; a no-op elsewhere |
| `Route.CollectOnAlbumThenBack` | src/routes/album-route/album-route.js:330-336 | collecting on the album perspective and going back restores the same album and the previous stack, for any repository |
| `Route.CollectOnMusicianThenBack` | src/routes/album-route/album-route.js:337-339 | collecting on the musician perspective and going back restores the musician and the previous stack; the album focus is the one already held |
| `Route.CollectShowsCompound` | src/routes/album-route/album-route.js:156-158 | after collecting on the album perspective the graph draws the musician compound of exactly the selection, and the navigation button goes back |
| `Route.MountOnEmptyRepository` | src/routes/album-route/album-route.js:66-69 | mounting with an album name on an empty repository does not redirect, leaves a `null` album, and the next `render` faults |
| `Route.InstrumentToggle` | src/routes/album-route/album-route.js:536-541 | pressing an instrument twice on the musician perspective returns to the same musician with no instrument focus |
| `Route.NavigateBackOnEmptyStack` | src/routes/album-route/album-route.js:343-345 | on an empty stack, navigating back twice equals navigating back once |
| `Route.SelectMusicianThenBack` | src/routes/album-route/album-route.js:389-394 | album, musician, then back with an empty stack: album perspective, but musician focus and album compound kept |
| `Route.UnknownAlbumFallsBack` | src/routes/album-route/album-route.js:290-291 | an album name no album carries focuses the first album |

## Left out

- The perspective derivers (`getAlbumPerspective`, `getMusicianPerspective`, `getInstrumentPerspective`, `getTrackPerspective`, `getCompoundForMusicians`, `getCompoundForAlbums`) are in a presenter module that is not part of this model. `Render` names the deriver and its arguments (`Elements`) instead of computing graph elements.
- The musician, track and instrument services are not part of this model. The navigation-bar lists and the track relations info in `Render` are named by the query that would produce them. `musicianService.getByName` is a map parameter of `MusiciansOfAlbum`. `getTracksOfAlbum` (a one-line trackService call) is left out.
- React specifics are left out: `setState` is taken as immediate field assignment, and JSX, CSS class strings and the `moveTimeline` flag with `moveEnd` are not modelled.
- URL routing is left out: `history.push` in `componentDidMount`, `switchToAlbum` and `switchToSearch`, and query-string parsing. `ComponentDidMount` receives the parsed `n` and `m` values as parameters and reports a redirect as a result.
- The timeline sort by release date in `render` is left out, because it needs date parsing.
- The album repository behind the service layer is not part of this model. The repository is a `seq<Album>` of non-null albums, so the null guard in `getContaining` never filters anything. Album records keep only `id` and `musicians`.
- Route.AlbumRoute.SwitchToMusician: requires that some album lists the musician, because the source reads `.id` of the lookup result without a null check.
- Route.AlbumRoute.HandleCollection and Route.AlbumRoute.SaveContext: require a focused album whenever a frame with the album id is pushed, because the source reads `album.id` without a null check.
