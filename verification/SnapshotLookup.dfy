/**
 * GetVolumeSnapshotByName of pkg/cloud/cloud.go: the paged walk that decides whether a
 * snapshot exists already, against an arbitrary server.
 */
module SnapshotLookup {
  import opened Wrappers
  import opened SdkErrors

  const PAGE_SIZE := 100
  const MAX_PAGES := 50

  datatype Snapshot = Snapshot(id: string, volumeID: string, name: string, status: string)

  // One answer to ListSnapshotsByBlockVolumeId.
  datatype PageAnswer = Page(items: seq<Snapshot>, totalPages: int) | NilPage | Error(err: SdkError)

  // A server answers call k for page k; the context is checked before each call.
  datatype Server = Server(list: nat -> PageAnswer, cancelled: nat -> bool)

  // GetError() of an error without an inner one is nil: the caller then sees neither a
  // snapshot nor an error.
  datatype Lookup = Found(snapshot: Snapshot) | NotFound | Cancelled | Failed | Nothing

  predicate Matches(s: Snapshot, volumeID: string, name: string) {
    s.volumeID == volumeID && s.name == name
  }

  // The first match in a list: the search the walk has to agree with.
  function FirstMatch(list: seq<Snapshot>, volumeID: string, name: string): Option<Snapshot> {
    if list == [] then None
    else if Matches(list[0], volumeID, name) then Some(list[0])
    else FirstMatch(list[1..], volumeID, name)
  }

  lemma {:induction false} FirstMatchIsFirst(list: seq<Snapshot>, volumeID: string, name: string)
    ensures var r := FirstMatch(list, volumeID, name);
            if r.None? then forall s :: s in list ==> s.volumeID != volumeID || s.name != name
            else exists i :: 0 <= i < |list| && list[i] == r.value &&
                             list[i].volumeID == volumeID && list[i].name == name &&
                             forall j :: 0 <= j < i ==> list[j].volumeID != volumeID || list[j].name != name
  {
    if list != [] && !Matches(list[0], volumeID, name) {
      FirstMatchIsFirst(list[1..], volumeID, name);
      assert list == [list[0]] + list[1..];
      if FirstMatch(list[1..], volumeID, name).Some? {
        var i :| 0 <= i < |list[1..]| && list[1..][i] == FirstMatch(list, volumeID, name).value &&
                 forall j :: 0 <= j < i ==> !Matches(list[1..][j], volumeID, name);
        assert list[i + 1] == list[1..][i];
        forall j | 0 <= j < i + 1
          ensures !Matches(list[j], volumeID, name)
        {
          assert j > 0 ==> list[j] == list[1..][j - 1];
        }
      }
    }
  }

  // Does the walk go on after this page?
  predicate GoesOn(page: nat, items: seq<Snapshot>, totalPages: int) {
    if totalPages > 0 then page < totalPages else |items| >= PAGE_SIZE
  }

  // The walk goes on while the server counts more pages, or sends full ones without counting.
  lemma GoesOnInFull(page: nat, items: seq<Snapshot>, totalPages: int)
    ensures totalPages > 0 ==> (GoesOn(page, items, totalPages) <==> page < totalPages)
    ensures totalPages <= 0 ==> (GoesOn(page, items, totalPages) <==> |items| >= 100)
  {
  }

  // The walk from a page on.
  function Walk(server: Server, volumeID: string, name: string, page: nat): Lookup
    requires 1 <= page <= MAX_PAGES + 1
    decreases MAX_PAGES + 1 - page
  {
    if page > MAX_PAGES then NotFound
    else if server.cancelled(page) then Cancelled
    else match server.list(page)
      case Error(err) => if err.inner.Some? then Failed else Nothing
      case NilPage => NotFound
      case Page(items, totalPages) =>
        var hit := FirstMatch(items, volumeID, name);
        if hit.Some? then Found(hit.value)
        else if GoesOn(page, items, totalPages) then Walk(server, volumeID, name, page + 1)
        else NotFound
  }

  lemma WalkTurn(server: Server, volumeID: string, name: string, page: nat)
    requires 1 <= page <= MAX_PAGES && !server.cancelled(page) && server.list(page).Page?
    ensures var p := server.list(page); var hit := FirstMatch(p.items, volumeID, name);
            Walk(server, volumeID, name, page) ==
            if hit.Some? then Found(hit.value)
            else if GoesOn(page, p.items, p.totalPages) then Walk(server, volumeID, name, page + 1)
            else NotFound
  {
  }

  // The loop over the items of one page.
  method FindIn(items: seq<Snapshot>, volumeID: string, name: string) returns (r: Option<Snapshot>)
    ensures r == FirstMatch(items, volumeID, name)
  {
    for i := 0 to |items|
      invariant FirstMatch(items, volumeID, name) == FirstMatch(items[i..], volumeID, name)
    {
      var snap := items[i];
      assert items[i..][1..] == items[i + 1..];
      if snap.volumeID == volumeID && snap.name == name {
        return Some(snap);
      }
    }
    return None;
  }

  // The loop of the source. calls counts the requests it costs.
  method GetVolumeSnapshotByName(server: Server, volumeID: string, name: string)
    returns (r: Lookup, calls: nat)
    ensures r == Walk(server, volumeID, name, 1)
    ensures calls <= 50
  {
    calls := 0;
    var page := 1;
    while page <= MAX_PAGES
      invariant 1 <= page <= MAX_PAGES + 1 && calls == page - 1
      invariant Walk(server, volumeID, name, 1) == Walk(server, volumeID, name, page)
    {
      if server.cancelled(page) {
        return Cancelled, calls;
      }
      calls := calls + 1;
      var res := server.list(page);
      if res.Error? {
        return if res.err.inner.Some? then Failed else Nothing, calls;
      }
      if res.NilPage? {
        break;
      }
      WalkTurn(server, volumeID, name, page);
      var hit := FindIn(res.items, volumeID, name);
      if hit.Some? {
        return Found(hit.value), calls;
      }
      ghost var on := GoesOn(page, res.items, res.totalPages);
      assert Walk(server, volumeID, name, 1) == if on then Walk(server, volumeID, name, page + 1) else NotFound;
      if res.totalPages > 0 {
        if page >= res.totalPages {
          break;
        }
      } else if |res.items| < PAGE_SIZE {
        break;
      }
      page := page + 1;
    }
    return NotFound, calls;
  }

  // ----- Any server at all -----

  // The items of the pages the walk reaches as long as nothing matches, and how it ends then.

  function Visited(server: Server, page: nat): seq<Snapshot>
    requires 1 <= page <= MAX_PAGES + 1
    decreases MAX_PAGES + 1 - page
  {
    if page > MAX_PAGES || server.cancelled(page) || !server.list(page).Page? then []
    else
      var p := server.list(page);
      p.items + if GoesOn(page, p.items, p.totalPages) then Visited(server, page + 1) else []
  }

  function Ending(server: Server, page: nat): (r: Lookup)
    requires 1 <= page <= MAX_PAGES + 1
    ensures !r.Found?
    decreases MAX_PAGES + 1 - page
  {
    if page > MAX_PAGES then NotFound
    else if server.cancelled(page) then Cancelled
    else match server.list(page)
      case Error(err) => if err.inner.Some? then Failed else Nothing
      case NilPage => NotFound
      case Page(items, totalPages) => if GoesOn(page, items, totalPages) then Ending(server, page + 1) else NotFound
  }

  // Whatever the server answers, the walk is the search of what it visits: it finds the first
  // match among those items, and only if there is none ends as the pages make it end.
  lemma {:induction false} WalkSearchesVisited(server: Server, volumeID: string, name: string, page: nat)
    requires 1 <= page <= MAX_PAGES + 1
    ensures var hit := FirstMatch(Visited(server, page), volumeID, name);
            Walk(server, volumeID, name, page) == if hit.Some? then Found(hit.value) else Ending(server, page)
    decreases MAX_PAGES + 1 - page
  {
    if page <= MAX_PAGES && !server.cancelled(page) && server.list(page).Page? {
      var p := server.list(page);
      var rest := if GoesOn(page, p.items, p.totalPages) then Visited(server, page + 1) else [];
      WalkTurn(server, volumeID, name, page);
      FirstMatchAppend(p.items, rest, volumeID, name);
      if GoesOn(page, p.items, p.totalPages) {
        WalkSearchesVisited(server, volumeID, name, page + 1);
      }
    }
  }

  // So a snapshot is found exactly if a match is among the items visited; a listing that shifts
  // hides one exactly by moving it out of every page the walk is going to see.
  lemma FoundIffVisited(server: Server, volumeID: string, name: string)
    ensures Walk(server, volumeID, name, 1).Found? <==>
            exists x :: x in Visited(server, 1) && x.volumeID == volumeID && x.name == name
  {
    FirstMatchIsFirst(Visited(server, 1), volumeID, name);
    WalkSearchesVisited(server, volumeID, name, 1);
  }

  // ----- A stable listing -----

  function Min(a: int, b: int): int { if a < b then a else b }

  // Page k of a list cut into pages of size.
  function PageOf(all: seq<Snapshot>, size: nat, k: nat): seq<Snapshot>
    requires size > 0 && k > 0
  {
    all[Min((k - 1) * size, |all|)..Min(k * size, |all|)]
  }

  // How many pages that takes.
  function PageCount(n: nat, size: nat): nat
    requires size > 0
  {
    (n + size - 1) / size
  }

  // The server serves all in pages of a size of its own choosing, and either counts the
  // pages honestly or does not count them.
  ghost predicate Serves(server: Server, all: seq<Snapshot>, size: nat, counted: bool)
    requires size > 0
  {
    forall k :: 1 <= k <= MAX_PAGES ==>
      && !server.cancelled(k)
      && server.list(k) == Page(PageOf(all, size, k), if counted then PageCount(|all|, size) else 0)
  }

  function ToLookup(r: Option<Snapshot>): Lookup {
    if r.Some? then Found(r.value) else NotFound
  }

  lemma {:induction false} FirstMatchAppend(a: seq<Snapshot>, b: seq<Snapshot>, volumeID: string, name: string)
    ensures FirstMatch(a + b, volumeID, name) ==
            if FirstMatch(a, volumeID, name).Some? then FirstMatch(a, volumeID, name)
            else FirstMatch(b, volumeID, name)
  {
    if a == [] {
      assert a + b == b;
    } else {
      assert (a + b)[1..] == a[1..] + b;
      FirstMatchAppend(a[1..], b, volumeID, name);
    }
  }

  // What the pages from page on hold, up to the page cap.
  function Rest(all: seq<Snapshot>, size: nat, page: nat): seq<Snapshot>
    requires size > 0 && 1 <= page <= MAX_PAGES + 1
  {
    PageMonotone(size, page - 1, MAX_PAGES);
    all[Min((page - 1) * size, |all|)..Min(MAX_PAGES * size, |all|)]
  }

  lemma PageMonotone(size: nat, j: nat, k: nat)
    requires j <= k
    ensures j * size <= k * size
  {
  }

  lemma RestSplits(all: seq<Snapshot>, size: nat, page: nat)
    requires size > 0 && 1 <= page <= MAX_PAGES
    ensures Rest(all, size, page) == PageOf(all, size, page) + Rest(all, size, page + 1)
  {
    PageMonotone(size, page - 1, page);
    PageMonotone(size, page, MAX_PAGES);
    Slices(all, (page - 1) * size, page * size, MAX_PAGES * size);
  }

  lemma Slices(all: seq<Snapshot>, a: nat, b: nat, c: nat)
    requires a <= b <= c
    ensures all[Min(a, |all|)..Min(c, |all|)] == all[Min(a, |all|)..Min(b, |all|)] + all[Min(b, |all|)..Min(c, |all|)]
  {
  }

  // The last page is where the honest count says it is.
  lemma CountedStop(n: nat, size: nat, page: nat)
    requires size > 0
    ensures page >= PageCount(n, size) <==> page * size >= n
  {
    var c := PageCount(n, size);
    assert c * size <= n + size - 1 < c * size + size;
    if page >= c {
      PageMonotone(size, c, page);
    } else {
      PageMonotone(size, page + 1, c);
      assert (page + 1) * size == page * size + size;
    }
  }

  lemma RestIsEmpty(all: seq<Snapshot>, size: nat, page: nat)
    requires size > 0 && 1 <= page <= MAX_PAGES && page * size >= |all|
    ensures Rest(all, size, page + 1) == []
  {
    PageMonotone(size, page, MAX_PAGES);
  }

  // One turn of the walk, when rest is what the later pages hold.
  lemma WalkOne(
      server: Server, volumeID: string, name: string, page: nat, items: seq<Snapshot>, total: int, rest: seq<Snapshot>)
    requires 1 <= page <= MAX_PAGES && !server.cancelled(page) && server.list(page) == Page(items, total)
    requires Walk(server, volumeID, name, page + 1) == ToLookup(FirstMatch(rest, volumeID, name))
    requires GoesOn(page, items, total) || rest == []
    ensures Walk(server, volumeID, name, page) == ToLookup(FirstMatch(items + rest, volumeID, name))
  {
    FirstMatchAppend(items, rest, volumeID, name);
  }

  lemma FullPage(all: seq<Snapshot>, size: nat, page: nat)
    requires size > 0 && page > 0 && page * size <= |all|
    ensures |PageOf(all, size, page)| == size
  {
    assert page * size == (page - 1) * size + size;
  }

  // When the walk stops, counting or not, nothing is left.
  lemma StopsAtTheEnd(all: seq<Snapshot>, size: nat, counted: bool, page: nat)
    requires size > 0 && 1 <= page <= MAX_PAGES && (counted || size >= PAGE_SIZE)
    ensures GoesOn(page, PageOf(all, size, page), if counted then PageCount(|all|, size) else 0) ||
            Rest(all, size, page + 1) == []
  {
    if page * size >= |all| {
      RestIsEmpty(all, size, page);
    } else {
      CountedStop(|all|, size, page);
      FullPage(all, size, page);
    }
  }

  lemma ServedPage(server: Server, all: seq<Snapshot>, size: nat, counted: bool, page: nat)
    requires size > 0 && 1 <= page <= MAX_PAGES && Serves(server, all, size, counted)
    ensures !server.cancelled(page)
    ensures server.list(page) == Page(PageOf(all, size, page), if counted then PageCount(|all|, size) else 0)
  {
  }

  lemma WalkFromPage(
      server: Server, all: seq<Snapshot>, size: nat, counted: bool, volumeID: string, name: string, page: nat)
    requires size > 0 && (counted || size >= PAGE_SIZE)
    requires 1 <= page <= MAX_PAGES && Serves(server, all, size, counted)
    requires Walk(server, volumeID, name, page + 1) == ToLookup(FirstMatch(Rest(all, size, page + 1), volumeID, name))
    ensures Walk(server, volumeID, name, page) == ToLookup(FirstMatch(Rest(all, size, page), volumeID, name))
  {
    var items, rest := PageOf(all, size, page), Rest(all, size, page + 1);
    var total := if counted then PageCount(|all|, size) else 0;
    ServedPage(server, all, size, counted, page);
    StopsAtTheEnd(all, size, counted, page);
    RestSplits(all, size, page);
    WalkOne(server, volumeID, name, page, items, total, rest);
  }

  // Past the cap there is nothing.
  lemma WalkPastTheCap(server: Server, all: seq<Snapshot>, size: nat, volumeID: string, name: string)
    requires size > 0
    ensures Rest(all, size, MAX_PAGES + 1) == []
    ensures Walk(server, volumeID, name, MAX_PAGES + 1) == NotFound
  {
  }

  lemma {:induction false} WalkIsSearch(
      server: Server, all: seq<Snapshot>, size: nat, counted: bool, volumeID: string, name: string, page: nat)
    requires size > 0 && (counted || size >= PAGE_SIZE)
    requires 1 <= page <= MAX_PAGES + 1 && Serves(server, all, size, counted)
    ensures Walk(server, volumeID, name, page) == ToLookup(FirstMatch(Rest(all, size, page), volumeID, name))
    decreases MAX_PAGES + 1 - page
  {
    if page <= MAX_PAGES {
      WalkIsSearch(server, all, size, counted, volumeID, name, page + 1);
      WalkFromPage(server, all, size, counted, volumeID, name, page);
    } else {
      WalkPastTheCap(server, all, size, volumeID, name);
    }
  }

  // With an honest page count the walk is the linear search of the whole list, whatever page
  // size the server picks, as long as the list fits the page cap; and it is the search of
  // what fits otherwise.
  lemma CountedLookup(server: Server, all: seq<Snapshot>, size: nat, volumeID: string, name: string)
    requires size > 0 && Serves(server, all, size, true)
    ensures Walk(server, volumeID, name, 1) == ToLookup(FirstMatch(all[..Min(50 * size, |all|)], volumeID, name))
    ensures |all| <= 50 * size ==>
              && Walk(server, volumeID, name, 1) == ToLookup(FirstMatch(all, volumeID, name))
              && (Walk(server, volumeID, name, 1).Found? || Walk(server, volumeID, name, 1).NotFound?)
    ensures Walk(server, volumeID, name, 1).Found? ==>
              var found := Walk(server, volumeID, name, 1).snapshot;
              found in all && found.volumeID == volumeID && found.name == name
    ensures |all| <= 50 * size && Walk(server, volumeID, name, 1).NotFound? ==>
              forall x :: x in all ==> x.volumeID != volumeID || x.name != name
  {
    FirstMatchIsFirst(all, volumeID, name);
    FirstMatchIsFirst(all[..Min(50 * size, |all|)], volumeID, name);
    WalkIsSearch(server, all, size, true, volumeID, name, 1);
    assert Rest(all, size, 1) == all[..Min(MAX_PAGES * size, |all|)];
    assert |all| <= 50 * size ==> all[..Min(MAX_PAGES * size, |all|)] == all;
  }

  // A search of the first n alone goes wrong exactly when the first match lies beyond them.
  lemma SearchOfAPrefix(all: seq<Snapshot>, n: nat, volumeID: string, name: string)
    requires n <= |all|
    ensures ToLookup(FirstMatch(all[..n], volumeID, name)) != ToLookup(FirstMatch(all, volumeID, name)) <==>
            FirstMatch(all[..n], volumeID, name).None? && FirstMatch(all[n..], volumeID, name).Some?
  {
    FirstMatchAppend(all[..n], all[n..], volumeID, name);
    assert all == all[..n] + all[n..];
  }

  // The page cap is where it can miss: it does exactly when the first match lies beyond it.
  lemma MissesBeyondTheCap(server: Server, all: seq<Snapshot>, size: nat, volumeID: string, name: string)
    requires size > 0 && Serves(server, all, size, true)
    ensures var n := Min(50 * size, |all|);
            Walk(server, volumeID, name, 1) != ToLookup(FirstMatch(all, volumeID, name)) <==>
            FirstMatch(all[..n], volumeID, name).None? && FirstMatch(all[n..], volumeID, name).Some?
  {
    CountedLookup(server, all, size, volumeID, name);
    SearchOfAPrefix(all, Min(MAX_PAGES * size, |all|), volumeID, name);
  }

  // What an uncounted walk sees of a list of n: fifty full pages, or the one that is cut short.
  function SeenUncounted(n: nat, size: nat): nat {
    if size >= PAGE_SIZE then Min(MAX_PAGES * size, n) else Min(size, n)
  }

  lemma UncountedWalk(server: Server, all: seq<Snapshot>, size: nat, volumeID: string, name: string)
    requires size > 0 && Serves(server, all, size, false)
    ensures Walk(server, volumeID, name, 1) == ToLookup(FirstMatch(all[..SeenUncounted(|all|, size)], volumeID, name))
  {
    if size >= PAGE_SIZE {
      WalkIsSearch(server, all, size, false, volumeID, name, 1);
      assert Rest(all, size, 1) == all[..SeenUncounted(|all|, size)];
    } else {
      assert PageOf(all, size, 1) == all[..SeenUncounted(|all|, size)];
      assert server.list(1) == Page(PageOf(all, size, 1), 0);
    }
  }

  // Without a page count the short-page rule does the same when full pages hold the hundred
  // that was asked for and at most fifty pages exist. A server that silently cuts its pages
  // shorter ends the walk on page 1. Either way it misses exactly when the first match lies
  // beyond what it sees.
  lemma UncountedLookup(server: Server, all: seq<Snapshot>, size: nat, volumeID: string, name: string)
    requires size > 0 && Serves(server, all, size, false)
    ensures var n := if size >= 100 then Min(50 * size, |all|) else Min(size, |all|);
            && Walk(server, volumeID, name, 1) == ToLookup(FirstMatch(all[..n], volumeID, name))
            && (Walk(server, volumeID, name, 1) != ToLookup(FirstMatch(all, volumeID, name)) <==>
                FirstMatch(all[..n], volumeID, name).None? && FirstMatch(all[n..], volumeID, name).Some?)
    ensures size >= 100 && |all| <= 50 * size ==>
              Walk(server, volumeID, name, 1) == ToLookup(FirstMatch(all, volumeID, name))
  {
    var n := SeenUncounted(|all|, size);
    UncountedWalk(server, all, size, volumeID, name);
    SearchOfAPrefix(all, n, volumeID, name);
    assert n == |all| ==> all[..n] == all;
  }

  // The listing has to hold still. A snapshot deleted between two pages moves the later ones
  // up, and the walk misses one that was there all the time.
  lemma AShiftingListHidesASnapshot(server: Server, gone: Snapshot, kept: Snapshot)
    requires !Matches(gone, kept.volumeID, kept.name) && !server.cancelled(1) && !server.cancelled(2)
    requires server.list(1) == Page(PageOf([gone, kept], 1, 1), PageCount(2, 1))
    requires server.list(2) == Page(PageOf([kept], 1, 2), PageCount(1, 1))
    ensures Walk(server, kept.volumeID, kept.name, 1) == NotFound
    ensures FirstMatch([gone, kept], kept.volumeID, kept.name) == Some(kept)
    ensures FirstMatch([kept], kept.volumeID, kept.name) == Some(kept)
  {
    assert PageOf([gone, kept], 1, 1) == [gone] && PageOf([kept], 1, 2) == [];
    assert [gone][1..] == [] && [gone, kept][1..] == [kept];
    assert FirstMatch([gone], kept.volumeID, kept.name) == None;
    assert Walk(server, kept.volumeID, kept.name, 2) == NotFound;
  }
}
