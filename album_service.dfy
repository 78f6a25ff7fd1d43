/**
 * The album query layer: read-only lookups over the album repository, an
 * ordered list of albums. The repository itself is a value here, so no
 * lookup can change it.
 */
module AlbumService {
  import opened Wrappers
  import opened Sequences

  /** An album record; only the fields the lookups and the route read are kept. */
  datatype Album = Album(id: string, musicians: seq<string>)

  /** A musician record as the musician service returns it. */
  datatype Musician = Musician(id: string)

  /** `getFirstAlbum`: the first album of the repository, or none when it is empty. */
  function FirstAlbum(repo: seq<Album>): (r: Option<Album>)
    ensures r.None? <==> repo == []
    ensures r.Some? ==> r.value == repo[0]
  {
    FirstOf(repo)
  }

  /** Album `i` is the first one in `repo` that `musicianName` played on. */
  ghost predicate FirstWithMusicianAt(repo: seq<Album>, musicianName: string, i: int)
  {
    0 <= i < |repo| && musicianName in repo[i].musicians &&
    forall j :: 0 <= j < i ==> musicianName !in repo[j].musicians
  }

  /** `getAlbumWithMusician`: the first album whose musicians include `musicianName`. */
  function AlbumWithMusician(repo: seq<Album>, musicianName: string): (r: Option<Album>)
    ensures r.None? <==> forall i :: 0 <= i < |repo| ==> musicianName !in repo[i].musicians
    ensures r.Some? ==> exists i :: FirstWithMusicianAt(repo, musicianName, i) && r.value == repo[i]
  {
    var p := (a: Album) => musicianName in a.musicians;
    FilterHead(repo, p);
    FirstOf(Filter(repo, p))
  }

  /** Album `i` is the first one in `repo` whose id is `name`. */
  ghost predicate FirstWithIdAt(repo: seq<Album>, name: string, i: int)
  {
    0 <= i < |repo| && repo[i].id == name && forall j :: 0 <= j < i ==> repo[j].id != name
  }

  /** `getByName`: the first album whose id is `name`, or none. */
  function ByName(repo: seq<Album>, name: string): (r: Option<Album>)
    ensures r.None? <==> forall i :: 0 <= i < |repo| ==> repo[i].id != name
    ensures r.Some? ==> exists i :: FirstWithIdAt(repo, name, i) && r.value == repo[i]
  {
    var p := (a: Album) => a.id == name;
    FilterHead(repo, p);
    FirstOf(Filter(repo, p))
  }

  /** A non-null `getByName` result is an album of the repository carrying the requested id. */
  lemma ByNameFound(repo: seq<Album>, name: string)
    requires ByName(repo, name).Some?
    ensures ByName(repo, name).value in repo && ByName(repo, name).value.id == name
  {
    var i :| FirstWithIdAt(repo, name, i) && ByName(repo, name).value == repo[i];
  }

  /** The first album is always found again by its own id. */
  lemma ByNameOfFirst(repo: seq<Album>)
    ensures repo != [] ==> ByName(repo, repo[0].id) == Some(repo[0])
  {
    if repo == [] {
      return;
    }
    var name := repo[0].id;
    assert FirstWithIdAt(repo, name, 0);
    var i :| FirstWithIdAt(repo, name, i) && ByName(repo, name).value == repo[i];
    assert FirstWithIdAt(repo, name, i);
    assert repo[i].id == name && repo[0].id == name;
  }

  /** When album ids are unique, every album of the repository is found by its id. */
  lemma {:induction false} ByNameOfMember(repo: seq<Album>, k: int)
    requires 0 <= k < |repo|
    requires forall i, j :: 0 <= i < j < |repo| ==> repo[i].id != repo[j].id
    ensures ByName(repo, repo[k].id) == Some(repo[k])
  {
    var name := repo[k].id;
    assert FirstWithIdAt(repo, name, k);
    var i :| FirstWithIdAt(repo, name, i) && ByName(repo, name).value == repo[i];
    assert FirstWithIdAt(repo, name, i);
    assert repo[i].id == name && repo[k].id == name;
  }

  /** `musicianService.getByName`: the directory is a partial map from names to records. */
  function LookUpMusician(directory: map<string, Musician>, name: string): Option<Musician>
  {
    if name in directory then Some(directory[name]) else None
  }

  /** `filter((elem) => elem && elem !== null)`: the present entries, in order. */
  function Present(xs: seq<Option<Musician>>): (r: seq<Musician>)
    ensures |r| <= |xs|
  {
    if xs == [] then []
    else (if xs[0].Some? then [xs[0].value] else []) + Present(xs[1..])
  }

  /**
   * The musicians `names` resolve to in `directory`, in the order of `names`,
   * with the names the directory does not know dropped.
   */
  function ResolvedMusicians(directory: map<string, Musician>, names: seq<string>): (r: seq<Musician>)
    ensures |r| <= |names|
    ensures forall m :: m in r ==> exists n :: n in names && n in directory && directory[n] == m
    ensures forall n :: n in names && n in directory ==> directory[n] in r
  {
    if names == [] then []
    else
      var rest := ResolvedMusicians(directory, names[1..]);
      var r := (if names[0] in directory then [directory[names[0]]] else []) + rest;
      assert forall n :: n in names[1..] ==> n in names;
      assert names[0] in names;
      r
  }

  /** Resolution keeps order: resolving a concatenation concatenates the resolutions. */
  lemma {:induction false} ResolvedMusiciansAppend(directory: map<string, Musician>, a: seq<string>, b: seq<string>)
    ensures ResolvedMusicians(directory, a + b) == ResolvedMusicians(directory, a) + ResolvedMusicians(directory, b)
  {
    if a != [] {
      assert (a + b)[1..] == a[1..] + b;
      ResolvedMusiciansAppend(directory, a[1..], b);
    } else {
      assert a + b == b;
    }
  }

  /** Dropping the absent entries of a pointwise lookup is resolution. */
  lemma {:induction false} PresentOfLookUps(directory: map<string, Musician>, names: seq<string>, looked: seq<Option<Musician>>)
    requires |looked| == |names|
    requires forall k :: 0 <= k < |names| ==> looked[k] == LookUpMusician(directory, names[k])
    ensures Present(looked) == ResolvedMusicians(directory, names)
  {
    if names != [] {
      PresentOfLookUps(directory, names[1..], looked[1..]);
    }
  }

  /**
   * `getMusiciansOfAlbum`: look every musician name of the album up, in order,
   * then drop those the musician service does not know. No album, no musicians.
   */
  method MusiciansOfAlbum(directory: map<string, Musician>, album: Option<Album>) returns (musicians: seq<Musician>)
    ensures album.None? ==> musicians == []
    ensures album.Some? ==> musicians == ResolvedMusicians(directory, album.value.musicians)
  {
    if album.None? {
      return [];
    }
    var names := album.value.musicians;
    var looked: seq<Option<Musician>> := [];
    var i := 0;
    while i < |names|
      invariant 0 <= i <= |names|
      invariant |looked| == i
      invariant forall k :: 0 <= k < i ==> looked[k] == LookUpMusician(directory, names[k])
    {
      looked := looked + [LookUpMusician(directory, names[i])];
      i := i + 1;
    }
    PresentOfLookUps(directory, names, looked);
    musicians := Present(looked);
  }

  /**
   * `getContaining`: for a non-empty query, the albums whose id contains the
   * query, in repository order; for the empty query, nothing.
   */
  function Containing(repo: seq<Album>, query: string): (r: seq<Album>)
    ensures query == "" ==> r == []
    ensures query != "" ==> IsSubsequence(r, repo)
    ensures query != "" ==> forall i :: 0 <= i < |r| ==> r[i] in repo && Includes(r[i].id, query)
    ensures query != "" ==> forall i :: 0 <= i < |repo| && Includes(repo[i].id, query) ==> repo[i] in r
  {
    if query == "" then []
    else
      var p := (a: Album) => Includes(a.id, query);
      FilterIsSubsequence(repo, p);
      Filter(repo, p)
  }

  /**
   * An album is found by `getContaining` exactly when the query occurs
   * somewhere in its id, and then as often as the repository holds it.
   */
  lemma ContainingIsSubstringSearch(repo: seq<Album>, query: string, a: Album)
    requires query != ""
    ensures a in Containing(repo, query) <==> a in repo && exists i :: OccursAt(a.id, query, i)
    ensures multiset(Containing(repo, query))[a] ==
      if exists i :: OccursAt(a.id, query, i) then multiset(repo)[a] else 0
  {
    IncludesIff(a.id, query);
    FilterCounts(repo, (b: Album) => Includes(b.id, query), a);
    var r := Containing(repo, query);
    if a in r {
      var k :| 0 <= k < |r| && r[k] == a;
    }
    if a in repo && Includes(a.id, query) {
      var k :| 0 <= k < |repo| && repo[k] == a;
    }
  }

  /** `getAll`: the repository as it is. */
  function All(repo: seq<Album>): (r: seq<Album>)
    ensures r == repo
  {
    repo
  }
}
