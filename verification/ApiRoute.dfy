/**
 * pkg/cloud/apiroute.go: turning a request URL into a metric label of bounded cardinality.
 */
module ApiRoute {
  const SCHEME_END := "://"
  const ID := "{id}"
  const UNKNOWN := "unknown"
  const MAX_ROUTE_SEGMENTS := 6

  // The segments that describe an API's shape.
  const STATIC: set<string> := {
    "volumes", "servers", "snapshots", "resize", "mapping", "change-device-type", "tag", "resource",
    "attach", "detach",
    "volume_types", "volume_default_id", "volume_type_zones",
    "auth", "token",
    "projects", "detail", "zones", "quotas", "quotaUsed"
  }

  // ----- What the label is, in terms of the list of path segments -----

  predicate Free(s: string, chars: set<char>) {
    forall i :: 0 <= i < |s| ==> s[i] !in chars
  }

  // The first position at which p occurs in s, or -1.
  predicate OccursAt(s: string, p: string, i: int) {
    0 <= i && i + |p| <= |s| && s[i..i + |p|] == p
  }

  method Index(s: string, p: string) returns (r: int)
    ensures r == FirstIndex(s, p, 0)
    ensures r == -1 || OccursAt(s, p, r)
    ensures forall i :: OccursAt(s, p, i) ==> 0 <= r <= i
  {
    forall i | OccursAt(s, p, i)
      ensures 0 <= FirstIndex(s, p, 0) <= i
    {
      FirstIndexIsFirst(s, p, 0, i);
    }
    r := 0;
    while r + |p| <= |s|
      invariant 0 <= r
      invariant FirstIndex(s, p, 0) == FirstIndex(s, p, r)
    {
      if s[r..r + |p|] == p {
        return;
      }
      r := r + 1;
    }
    r := -1;
  }

  function FirstIndex(s: string, p: string, from: nat): (r: int)
    ensures r == -1 || (r >= from && OccursAt(s, p, r))
    decreases |s| - from
  {
    if from + |p| > |s| then -1
    else if s[from..from + |p|] == p then from
    else FirstIndex(s, p, from + 1)
  }

  lemma {:induction false} FirstIndexIsFirst(s: string, p: string, from: nat, i: int)
    requires from <= i && OccursAt(s, p, i)
    ensures 0 <= FirstIndex(s, p, from) <= i
    decreases |s| - from
  {
    if s[from..from + |p|] != p {
      FirstIndexIsFirst(s, p, from + 1, i);
    }
  }

  // s up to the first of chars.
  function Before(s: string, chars: set<char>): (r: string)
    ensures r <= s && Free(r, chars)
    ensures r == s || s[|r|] in chars
  {
    if s == "" || s[0] in chars then "" else [s[0]] + Before(s[1..], chars)
  }

  // The pieces of s between separators: always at least one.
  function Split(s: string): (r: seq<string>)
    ensures |r| > 0
    ensures forall i :: 0 <= i < |r| ==> Free(r[i], {'/'})
  {
    if s == "" then [""]
    else if s[0] == '/' then [""] + Split(s[1..])
    else var rest := Split(s[1..]); [[s[0]] + rest[0]] + rest[1..]
  }

  function Join(segs: seq<string>): string {
    if segs == [] then ""
    else if |segs| == 1 then segs[0]
    else segs[0] + "/" + Join(segs[1..])
  }

  function NonEmpty(segs: seq<string>): seq<string> {
    if segs == [] then []
    else if segs[0] == "" then NonEmpty(segs[1..])
    else [segs[0]] + NonEmpty(segs[1..])
  }

  // Everything before the first static segment goes.
  function FromFirstStatic(segs: seq<string>, statics: set<string>): seq<string> {
    if segs == [] || segs[0] in statics then segs else FromFirstStatic(segs[1..], statics)
  }

  function Label(seg: string, statics: set<string>): string {
    if seg in statics then seg else ID
  }

  function Labels(segs: seq<string>, statics: set<string>): (r: seq<string>)
    ensures |r| == |segs|
    ensures forall i :: 0 <= i < |r| ==> r[i] == Label(segs[i], statics)
  {
    if segs == [] then []
    else Labels(segs[..|segs| - 1], statics) + [Label(segs[|segs| - 1], statics)]
  }

  lemma LabelsAppend(segs: seq<string>, seg: string, statics: set<string>)
    ensures Labels(segs + [seg], statics) == Labels(segs, statics) + [Label(seg, statics)]
  {
    assert (segs + [seg])[..|segs|] == segs;
  }

  function FromSlash(s: string): string {
    var j := FirstIndex(s, "/", 0);
    if j < 0 then "/" else s[j..]
  }

  function AfterHost(url: string): string {
    var i := FirstIndex(url, SCHEME_END, 0);
    if i < 0 then url else FromSlash(url[i + 3..])
  }

  // The path of a URL: scheme and host, query and fragment are dropped.
  function PathOf(url: string): string {
    Before(AfterHost(url), {'?', '#'})
  }

  function Kept(segs: seq<string>, statics: set<string>): seq<string> {
    FromFirstStatic(NonEmpty(segs), statics)
  }

  function RouteOf(segs: seq<string>, statics: set<string>): string {
    var route := Labels(Kept(segs, statics), statics);
    if route == [] || |route| > MAX_ROUTE_SEGMENTS then UNKNOWN else Join(route)
  }

  function Route(url: string, statics: set<string> := STATIC): string {
    RouteOf(Split(PathOf(url)), statics)
  }

  // ----- The code -----

  // What pieces k and on still contribute to the route.
  ghost function Left(pieces: seq<string>, k: nat, started: bool, statics: set<string>): seq<string>
    requires k <= |pieces|
  {
    if started then NonEmpty(pieces[k..]) else FromFirstStatic(NonEmpty(pieces[k..]), statics)
  }

  lemma LeftStep(pieces: seq<string>, k: nat, started: bool, statics: set<string>)
    requires k < |pieces|
    ensures Left(pieces, k, started, statics) ==
              if pieces[k] == "" || (!started && pieces[k] !in statics) then Left(pieces, k + 1, started, statics)
              else [pieces[k]] + Left(pieces, k + 1, true, statics)
  {
    assert pieces[k..][1..] == pieces[k + 1..];
    assert ([pieces[k]] + NonEmpty(pieces[k + 1..]))[1..] == NonEmpty(pieces[k + 1..]);
  }

  // The first half of NormalizeAPIRoute, which rewrites path in place.
  method StripHost(url: string) returns (path: string)
    ensures path == AfterHost(url)
  {
    path := url;
    var i := Index(path, SCHEME_END);
    if i >= 0 {
      var rest := path[i + 3..];
      var j := Index(rest, "/");
      if j >= 0 {
        path := rest[j..];
      } else {
        path := "/";
      }
      assert path == FromSlash(rest);
    }
  }

  method StripURL(url: string) returns (path: string)
    ensures path == PathOf(url)
  {
    path := StripHost(url);
    path := Before(path, {'?', '#'});
  }

  // One turn of the loop.
  lemma KeptStep(pieces: seq<string>, k: nat, started: bool, seen: seq<string>, statics: set<string>)
    requires k < |pieces| && Kept(pieces, statics) == seen + Left(pieces, k, started, statics)
    ensures var seg := pieces[k];
            Kept(pieces, statics) ==
            if seg == "" || (!started && seg !in statics) then seen + Left(pieces, k + 1, started, statics)
            else (seen + [seg]) + Left(pieces, k + 1, true, statics)
  {
    LeftStep(pieces, k, started, statics);
  }

  lemma TooLong(pieces: seq<string>, seen: seq<string>, left: seq<string>, statics: set<string>)
    requires Kept(pieces, statics) == seen + left && |seen| > MAX_ROUTE_SEGMENTS
    ensures RouteOf(pieces, statics) == UNKNOWN
  {
  }

  lemma Finished(pieces: seq<string>, seen: seq<string>, statics: set<string>)
    requires Kept(pieces, statics) == seen && |seen| <= MAX_ROUTE_SEGMENTS
    ensures RouteOf(pieces, statics) == if seen == [] then UNKNOWN else Join(Labels(seen, statics))
  {
  }

  // The loop over the pieces of the path.
  method LabelPieces(pieces: seq<string>, statics: set<string>) returns (r: string)
    ensures r == RouteOf(pieces, statics)
  {
    var segments: seq<string> := [];
    var started := false;
    ghost var seen: seq<string> := [];
    assert pieces[0..] == pieces;
    for k := 0 to |pieces|
      invariant |segments| <= MAX_ROUTE_SEGMENTS && segments == Labels(seen, statics)
      invariant started <==> seen != []
      invariant Kept(pieces, statics) == seen + Left(pieces, k, started, statics)
    {
      var seg := pieces[k];
      KeptStep(pieces, k, started, seen, statics);
      if seg == "" {
        continue;
      }
      if !started {
        if seg !in statics {
          continue;
        }
        started := true;
      }
      LabelsAppend(seen, seg, statics);
      seen := seen + [seg];
      if |segments| >= MAX_ROUTE_SEGMENTS {
        TooLong(pieces, seen, Left(pieces, k + 1, true, statics), statics);
        return UNKNOWN;
      }
      segments := segments + [if seg in statics then seg else ID];
    }
    assert pieces[|pieces|..] == [];
    assert Kept(pieces, statics) == seen;
    Finished(pieces, seen, statics);
    if |segments| == 0 {
      return UNKNOWN;
    }
    return Join(segments);
  }

  method NormalizeAPIRoute(url: string, statics: set<string> := STATIC) returns (r: string)
    ensures r == Route(url, statics)
  {
    var path := StripURL(url);
    r := LabelPieces(Split(path), statics);
  }

  // ----- Properties -----

  // A path segment as it can stand in a URL.
  predicate Segment(s: string) {
    s != "" && Free(s, {'/', '?', '#'})
  }

  ghost predicate WellFormed(statics: set<string>) {
    && (forall w :: w in statics ==> Segment(w) && Free(w, {':'}))
    && ID !in statics && UNKNOWN !in statics
  }

  predicate Plain(w: string) {
    w != "" && forall i :: 0 <= i < |w| ==> 'a' <= w[i] <= 'z' || w[i] in {'-', '_', 'U'}
  }

  lemma PlainIsSegment(w: string)
    requires Plain(w)
    ensures Segment(w) && Free(w, {':'})
  {
  }

  lemma StaticIsPlain()
    ensures forall w :: w in STATIC ==> Plain(w)
  {
  }

  lemma PlaceholdersAreNotStatic()
    ensures ID !in STATIC && UNKNOWN !in STATIC
  {
    assert ID[0] == '{';
    assert |UNKNOWN| == 7 && UNKNOWN[0] == 'u';
  }

  lemma StaticIsWellFormed()
    ensures WellFormed(STATIC)
  {
    StaticIsPlain();
    PlaceholdersAreNotStatic();
    forall w | w in STATIC
      ensures Segment(w) && Free(w, {':'})
    {
      PlainIsSegment(w);
    }
  }

  // A label that names an API: one to six segments, the first static, each static or {id}.
  predicate IsRoute(route: seq<string>, statics: set<string>) {
    && 1 <= |route| <= 6
    && route[0] in statics
    && forall i :: 0 <= i < |route| ==> route[i] in statics || route[i] == ID
  }

  lemma {:induction false} SplitAppend(a: string, b: string)
    ensures Split(a + "/" + b) == Split(a) + Split(b)
  {
    if a == "" {
      assert a + "/" + b == ['/'] + b && (['/'] + b)[1..] == b;
    } else {
      assert a + "/" + b == [a[0]] + (a[1..] + "/" + b);
      SplitAppend(a[1..], b);
    }
  }

  lemma {:induction false} SplitFree(a: string)
    requires Free(a, {'/'})
    ensures Split(a) == [a]
  {
    if a != "" {
      assert a[0] != '/' && Free(a[1..], {'/'});
      SplitFree(a[1..]);
      assert a == [a[0]] + a[1..];
    }
  }

  lemma {:induction false} SplitJoin(segs: seq<string>)
    requires segs != [] && forall i :: 0 <= i < |segs| ==> Free(segs[i], {'/'})
    ensures Split(Join(segs)) == segs
  {
    SplitFree(segs[0]);
    if |segs| > 1 {
      SplitJoin(segs[1..]);
      SplitAppend(segs[0], Join(segs[1..]));
    }
  }

  lemma {:induction false} JoinFree(segs: seq<string>, chars: set<char>)
    requires '/' !in chars && forall i :: 0 <= i < |segs| ==> Free(segs[i], chars)
    ensures Free(Join(segs), chars)
  {
    if |segs| > 1 {
      JoinFree(segs[1..], chars);
    }
  }

  lemma {:induction false} BeforeAppend(a: string, b: string, chars: set<char>)
    requires Free(a, chars)
    ensures Before(a + b, chars) == a + Before(b, chars)
  {
    if a == "" {
      assert a + b == b;
    } else {
      assert a + b == [a[0]] + (a[1..] + b);
      assert a[0] !in chars;
      BeforeAppend(a[1..], b, chars);
    }
  }

  lemma {:induction false} NoSchemeEnd(s: string, from: nat)
    requires Free(s, {':'})
    ensures FirstIndex(s, SCHEME_END, from) == -1
    decreases |s| - from
  {
    if from + 3 <= |s| {
      assert s[from..from + 3][0] == s[from];
      NoSchemeEnd(s, from + 1);
    }
  }

  lemma PathOfPlain(s: string)
    requires Free(s, {':', '?', '#'})
    ensures PathOf(s) == s
  {
    NoSchemeEnd(s, 0);
    BeforeAppend(s, "", {'?', '#'});
    assert s + "" == s;
  }

  lemma {:induction false} NonEmptyKeeps(segs: seq<string>)
    requires forall i :: 0 <= i < |segs| ==> segs[i] != ""
    ensures NonEmpty(segs) == segs
  {
    if segs != [] {
      NonEmptyKeeps(segs[1..]);
    }
  }

  lemma LabelsOfRoute(route: seq<string>, statics: set<string>)
    requires IsRoute(route, statics)
    ensures Labels(route, statics) == route
  {
  }

  // A label is its own label.
  lemma RouteIsAFixedPoint(route: seq<string>, statics: set<string>)
    requires WellFormed(statics) && IsRoute(route, statics)
    ensures Route(Join(route), statics) == Join(route)
  {
    forall i | 0 <= i < |route|
      ensures route[i] != "" && Free(route[i], {'/'}) && Free(route[i], {':', '?', '#'})
    {
      assert route[i] in statics || route[i] == ID;
    }
    JoinFree(route, {':', '?', '#'});
    PathOfPlain(Join(route));
    SplitJoin(route);
    NonEmptyKeeps(route);
    LabelsOfRoute(route, statics);
  }

  lemma OneWordIsUnknown(w: string, statics: set<string>)
    requires Segment(w) && Free(w, {':'}) && w !in statics
    ensures Route(w, statics) == UNKNOWN
  {
    PathOfPlain(w);
    SplitFree(w);
    NonEmptyKeeps([w]);
    assert Split(PathOf(w)) == [w];
    assert FromFirstStatic([w], statics) == [];
    assert Kept([w], statics) == [];
  }

  lemma {:induction false} FromFirstStaticStarts(segs: seq<string>, statics: set<string>)
    ensures var r := FromFirstStatic(segs, statics); r != [] ==> r[0] in statics
  {
    if segs != [] && segs[0] !in statics {
      FromFirstStaticStarts(segs[1..], statics);
    }
  }

  // Whatever the URL, the label is unknown or names an API.
  lemma LabelShape(url: string, statics: set<string>)
    ensures Route(url, statics) == UNKNOWN ||
            exists route :: IsRoute(route, statics) && Route(url, statics) == Join(route)
  {
    var kept := Kept(Split(PathOf(url)), statics);
    FromFirstStaticStarts(NonEmpty(Split(PathOf(url))), statics);
    var route := Labels(kept, statics);
    if route != [] && |route| <= MAX_ROUTE_SEGMENTS {
      assert IsRoute(route, statics);
    }
  }

  // Normalising twice is normalising once, on every string.
  lemma NormalizeIsIdempotent(url: string)
    ensures Route(Route(url)) == Route(url)
  {
    StaticIsWellFormed();
    LabelIsItsOwn(url, STATIC);
  }

  lemma LabelIsItsOwn(url: string, statics: set<string>)
    requires WellFormed(statics)
    ensures Route(Route(url, statics), statics) == Route(url, statics)
  {
    LabelShape(url, statics);
    LabelIsFixed(Route(url, statics), statics);
  }

  lemma LabelIsFixed(text: string, statics: set<string>)
    requires WellFormed(statics)
    requires text == UNKNOWN || exists route :: IsRoute(route, statics) && text == Join(route)
    ensures Route(text, statics) == text
  {
    if text == UNKNOWN {
      OneWordIsUnknown(UNKNOWN, statics);
    } else {
      var route :| IsRoute(route, statics) && text == Join(route);
      RouteIsAFixedPoint(route, statics);
    }
  }

  // ----- Identifiers do not show -----

  lemma {:induction false} NonEmptyAppend(a: seq<string>, b: seq<string>)
    ensures NonEmpty(a + b) == NonEmpty(a) + NonEmpty(b)
  {
    if a == [] {
      assert a + b == b;
    } else {
      assert (a + b)[1..] == a[1..] + b;
      NonEmptyAppend(a[1..], b);
    }
  }

  // Two lists that agree up to labels have the same labels from the first static segment on.
  lemma {:induction false} SameLabels(a: seq<string>, b: seq<string>, statics: set<string>)
    requires |a| == |b| && WellFormed(statics)
    requires forall i :: 0 <= i < |a| ==> Label(a[i], statics) == Label(b[i], statics)
    ensures Labels(FromFirstStatic(a, statics), statics) == Labels(FromFirstStatic(b, statics), statics)
  {
    if a != [] {
      assert a[0] in statics <==> b[0] in statics;
      if a[0] !in statics {
        SameLabels(a[1..], b[1..], statics);
      }
    }
  }

  lemma SwapPiece(before: seq<string>, x: string, y: string, after: seq<string>, statics: set<string>)
    requires WellFormed(statics) && x != "" && y != "" && x !in statics && y !in statics
    ensures RouteOf(before + [x] + after, statics) == RouteOf(before + [y] + after, statics)
  {
    var a, b := NonEmpty(before), NonEmpty(after);
    NonEmptyKeeps([x]);
    NonEmptyKeeps([y]);
    NonEmptyAppend(before, [x]);
    NonEmptyAppend(before, [y]);
    NonEmptyAppend(before + [x], after);
    NonEmptyAppend(before + [y], after);
    SameLabels(a + [x] + b, a + [y] + b, statics);
  }

  // What post adds to the pieces of a path, after the segment it follows.
  function After(post: string): seq<string> {
    var tail := Before(post, {'?', '#'});
    if tail == "" then [] else Split(tail[1..])
  }

  lemma SplitSegment(x: string, tail: string)
    requires Segment(x) && (tail == "" || tail[0] == '/')
    ensures Split(x + tail) == [x] + if tail == "" then [] else Split(tail[1..])
  {
    SplitFree(x);
    if tail == "" {
      assert x + tail == x;
    } else {
      assert x + tail == x + "/" + tail[1..];
      SplitAppend(x, tail[1..]);
    }
  }

  lemma Reassociate(d: string, x: string, tail: string)
    ensures d + "/" + x + tail == d + "/" + (x + tail)
  {
  }

  // The pieces of d + "/" + x + post, when x is one whole segment of the path.
  lemma PiecesAround(d: string, x: string, post: string)
    requires Free(d, {'?', '#'}) && Segment(x)
    requires post == "" || post[0] in {'/', '?', '#'}
    ensures Split(Before(d + "/" + x + post, {'?', '#'})) == Split(d) + [x] + After(post)
  {
    var tail := Before(post, {'?', '#'});
    var path := d + "/" + x;
    assert Free(path, {'?', '#'});
    BeforeAppend(path, post, {'?', '#'});
    Reassociate(d, x, tail);
    SplitAppend(d, x + tail);
    SplitSegment(x, tail);
  }

  lemma {:induction false} FirstIndexAppend(s: string, z: string, p: string, from: nat)
    requires FirstIndex(s, p, from) >= 0
    ensures FirstIndex(s + z, p, from) == FirstIndex(s, p, from)
    decreases |s| - from
  {
    assert (s + z)[from..from + |p|] == s[from..from + |p|];
    if s[from..from + |p|] != p {
      FirstIndexAppend(s, z, p, from + 1);
    }
  }

  // An absolute URL that has come to its path.
  predicate HasPath(url: string) {
    var i := FirstIndex(url, SCHEME_END, 0);
    i >= 0 && FirstIndex(url[i + 3..], "/", 0) >= 0
  }

  // An absolute URL up to and including a slash of its path.
  predicate AbsoluteDir(pre: string) {
    && HasPath(pre)
    && pre[|pre| - 1] == '/'
    && Free(AfterHost(pre), {'?', '#'})
  }

  lemma FromSlashAppend(s: string, z: string)
    requires FirstIndex(s, "/", 0) >= 0
    ensures FromSlash(s + z) == FromSlash(s) + z
  {
    var j := FirstIndex(s, "/", 0);
    FirstIndexAppend(s, z, "/", 0);
    DropAppend(s, z, j);
  }

  lemma DropAppend(s: string, z: string, k: nat)
    requires k <= |s|
    ensures (s + z)[k..] == s[k..] + z
  {
  }

  lemma AfterHostAppend(pre: string, z: string)
    requires HasPath(pre)
    ensures AfterHost(pre + z) == AfterHost(pre) + z
  {
    var i := FirstIndex(pre, SCHEME_END, 0);
    FirstIndexAppend(pre, z, SCHEME_END, 0);
    DropAppend(pre, z, i + 3);
    FromSlashAppend(pre[i + 3..], z);
    AfterScheme(pre, i);
    AfterScheme(pre + z, i);
  }

  lemma AfterScheme(url: string, i: int)
    requires 0 <= i == FirstIndex(url, SCHEME_END, 0)
    ensures AfterHost(url) == FromSlash(url[i + 3..])
  {
  }

  // The path of an absolute URL up to a slash, without that slash.
  function Dir(pre: string): string
    requires AbsoluteDir(pre)
  {
    AfterHost(pre)[..|AfterHost(pre)| - 1]
  }

  lemma DirEndsInSlash(pre: string)
    requires AbsoluteDir(pre)
    ensures AfterHost(pre) == Dir(pre) + "/"
  {
    var i := FirstIndex(pre, SCHEME_END, 0);
    var j := FirstIndex(pre[i + 3..], "/", 0);
    assert AfterHost(pre) == pre[i + 3 + j..];
  }

  lemma DirIsFree(pre: string)
    requires AbsoluteDir(pre)
    ensures Free(Dir(pre), {'?', '#'})
  {
  }

  // One non-static segment of a path replaced by another: same label.
  lemma SwapSegment(
      u: string, v: string, d: string, x: string, y: string, post: string, statics: set<string>)
    requires WellFormed(statics) && Free(d, {'?', '#'}) && (post == "" || post[0] in {'/', '?', '#'})
    requires Segment(x) && Segment(y) && x !in statics && y !in statics
    requires AfterHost(u) == d + "/" + x + post && AfterHost(v) == d + "/" + y + post
    ensures Route(u, statics) == Route(v, statics)
  {
    PiecesAround(d, x, post);
    PiecesAround(d, y, post);
    SwapPiece(Split(d), x, y, After(post), statics);
  }

  lemma PathAround(pre: string, x: string, post: string)
    requires AbsoluteDir(pre)
    ensures AfterHost(pre + x + post) == Dir(pre) + "/" + x + post
    ensures Free(Dir(pre), {'?', '#'})
  {
    DirIsFree(pre);
    AfterHostAppend(pre, x + post);
    DirEndsInSlash(pre);
    assert pre + (x + post) == pre + x + post;
    assert Dir(pre) + "/" + (x + post) == Dir(pre) + "/" + x + post;
  }

  // On an absolute URL an identifier never shows in the label, whatever it is made of.
  lemma IdentifiersDoNotShow(pre: string, x: string, y: string, post: string)
    requires AbsoluteDir(pre) && (post == "" || post[0] in {'/', '?', '#'})
    requires Segment(x) && Segment(y) && x !in STATIC && y !in STATIC
    ensures Route(pre + x + post) == Route(pre + y + post)
  {
    StaticIsWellFormed();
    PathAround(pre, x, post);
    PathAround(pre, y, post);
    SwapSegment(pre + x + post, pre + y + post, Dir(pre), x, y, post, STATIC);
  }

  lemma BarePath(pre: string, x: string, post: string)
    requires |pre| > 0 && pre[|pre| - 1] == '/' && FirstIndex(pre + x + post, SCHEME_END, 0) < 0
    ensures AfterHost(pre + x + post) == pre[..|pre| - 1] + "/" + x + post
  {
    assert pre == pre[..|pre| - 1] + "/";
  }

  // On a bare path the same holds as long as neither URL reads as one with a scheme ...
  lemma IdentifiersDoNotShowInPaths(pre: string, x: string, y: string, post: string)
    requires |pre| > 0 && pre[|pre| - 1] == '/' && Free(pre, {'?', '#'})
    requires post == "" || post[0] in {'/', '?', '#'}
    requires Segment(x) && Segment(y) && x !in STATIC && y !in STATIC
    requires FirstIndex(pre + x + post, SCHEME_END, 0) < 0 && FirstIndex(pre + y + post, SCHEME_END, 0) < 0
    ensures Route(pre + x + post) == Route(pre + y + post)
  {
    StaticIsWellFormed();
    BarePath(pre, x, post);
    BarePath(pre, y, post);
    SwapSegment(pre + x + post, pre + y + post, pre[..|pre| - 1], x, y, post, STATIC);
  }

  // ... which an identifier that ends in a colon can make it do, before a doubled slash.
  lemma AColonCanShow(w: string, x: string)
    requires w in STATIC && Segment(x) && Free(x, {':'}) && x !in STATIC
    ensures Route("/" + w + "/" + x + "//") == Join([w, ID])
    ensures Route("/" + w + "/" + x + ":" + "//") == UNKNOWN
  {
    StaticIsWellFormed();
    WithoutAColon(w, x, STATIC);
    WithAColon(w, x, STATIC);
  }

  lemma WithAColon(w: string, x: string, statics: set<string>)
    requires Free(w, {':'}) && Free(x, {':'})
    ensures Route("/" + w + "/" + x + ":" + "//", statics) == UNKNOWN
  {
    var a := "/" + w + "/" + x;
    FreePath(w, x, {':'});
    ColonHidesThePath(a, statics);
  }

  lemma FreePath(w: string, x: string, chars: set<char>)
    requires Free(w, chars) && Free(x, chars) && '/' !in chars
    ensures Free("/" + w + "/" + x, chars) && Free("/" + w + "/" + x + "//", chars)
  {
  }

  lemma TrailingSlashes(pieces: seq<string>, back: seq<string>, statics: set<string>)
    requires NonEmpty(back) == []
    ensures RouteOf(pieces + back, statics) == RouteOf(pieces, statics)
  {
    NonEmptyAppend(pieces, back);
    assert NonEmpty(pieces + back) == NonEmpty(pieces);
  }

  lemma FillsWordAndID(w: string, x: string, statics: set<string>)
    requires WellFormed(statics) && w in statics && Segment(x) && x !in statics
    ensures IsRoute([w, ID], statics) && Fills([w, x], [w, ID], statics)
  {
  }

  lemma WithoutAColon(w: string, x: string, statics: set<string>)
    requires WellFormed(statics) && w in statics && Segment(x) && Free(x, {':'}) && x !in statics
    ensures Route("/" + w + "/" + x + "//", statics) == Join([w, ID])
  {
    var url := "/" + w + "/" + x + "//";
    assert PathOf(url) == url by {
      FreePath(w, x, {':', '?', '#'});
      PathOfPlain(url);
    }
    SplitBetweenSlashes(w, x);
    WordAndID(w, x, statics);
  }

  lemma WordAndID(w: string, x: string, statics: set<string>)
    requires WellFormed(statics) && w in statics && Segment(x) && x !in statics
    ensures RouteOf([""] + [w, x] + ["", ""], statics) == Join([w, ID])
  {
    FillsWordAndID(w, x, statics);
    EmptyIsNotStatic(statics);
    PiecesOfFilledRoute([""], [w, ID], [w, x], statics);
    assert NonEmpty(["", ""][1..]) == [];
    TrailingSlashes([""] + [w, x], ["", ""], statics);
  }

  lemma EmptyIsNotStatic(statics: set<string>)
    requires WellFormed(statics)
    ensures forall w :: w in [""] ==> w !in statics
  {
  }

  lemma {:induction false} FirstSchemeEnd(a: string, from: nat)
    requires Free(a, {':'}) && from <= |a|
    ensures FirstIndex(a + SCHEME_END, SCHEME_END, from) == |a|
    decreases |a| - from
  {
    var s := a + SCHEME_END;
    assert s[from..from + 3][0] == s[from];
    if from < |a| {
      FirstSchemeEnd(a, from + 1);
    }
  }

  lemma ColonHidesThePath(a: string, statics: set<string>)
    requires Free(a, {':'})
    ensures Route(a + ":" + "//", statics) == UNKNOWN
  {
    FirstSchemeEnd(a, 0);
    var u := a + ":" + "//";
    assert u == a + SCHEME_END && u[|a| + 3..] == "";
    assert AfterHost(u) == "/";
    BeforeAppend("/", "", {'?', '#'});
    assert "/" + "" == "/" == "" + "/" + "";
    SplitAppend("", "");
    NonEmptyAppend([""], [""]);
    assert Kept(["", ""], statics) == [];
  }

  lemma SplitBetweenSlashes(w: string, x: string)
    requires Free(w, {'/'}) && Free(x, {'/'})
    ensures Split("/" + w + "/" + x + "//") == [""] + [w, x] + ["", ""]
  {
    Regrouped(w, x);
    SplitFour("", w, x, "/");
    SplitFree(w);
    SplitFree(x);
    SlashSplits();
    assert [""] + [w] + [x] + ["", ""] == [""] + [w, x] + ["", ""];
  }

  lemma Regrouped(w: string, x: string)
    ensures "/" + w + "/" + x + "//" == "" + "/" + (w + "/" + (x + "/" + "/"))
  {
  }

  lemma SplitFour(a: string, b: string, c: string, d: string)
    ensures Split(a + "/" + (b + "/" + (c + "/" + d))) == Split(a) + Split(b) + Split(c) + Split(d)
  {
    SplitAppend(a, b + "/" + (c + "/" + d));
    SplitThree(b, c, d);
  }

  lemma SplitThree(a: string, b: string, c: string)
    ensures Split(a + "/" + (b + "/" + c)) == Split(a) + Split(b) + Split(c)
  {
    SplitAppend(a, b + "/" + c);
    SplitAppend(b, c);
  }

  lemma SlashSplits()
    ensures Split("/") == ["", ""]
  {
    assert "/" == "" + "/" + "";
    SplitAppend("", "");
  }

  // ----- Round trip -----

  // segs is what a caller puts into the path for route: identifiers in place of {id}.
  predicate Fills(segs: seq<string>, route: seq<string>, statics: set<string>) {
    && |segs| == |route|
    && forall i :: 0 <= i < |segs| ==>
         Segment(segs[i]) && if route[i] == ID then segs[i] !in statics else segs[i] == route[i]
  }

  lemma {:induction false} NothingStatic(segs: seq<string>, rest: seq<string>, statics: set<string>)
    requires forall i :: 0 <= i < |segs| ==> segs[i] !in statics
    ensures FromFirstStatic(segs + rest, statics) == FromFirstStatic(rest, statics)
  {
    if segs == [] {
      assert segs + rest == rest;
    } else {
      assert (segs + rest)[1..] == segs[1..] + rest;
      NothingStatic(segs[1..], rest, statics);
    }
  }

  lemma {:induction false} NonEmptyWithin(segs: seq<string>)
    ensures forall w :: w in NonEmpty(segs) ==> w in segs
  {
    if segs != [] {
      NonEmptyWithin(segs[1..]);
    }
  }

  lemma KeptOfFilledRoute(front: seq<string>, segs: seq<string>, statics: set<string>)
    requires (forall w :: w in front ==> w !in statics) && (forall i :: 0 <= i < |segs| ==> segs[i] != "")
    ensures Kept(front + segs, statics) == FromFirstStatic(segs, statics)
  {
    NonEmptyAppend(front, segs);
    NonEmptyKeeps(segs);
    NonEmptyWithin(front);
    NothingStatic(NonEmpty(front), segs, statics);
  }

  lemma SegmentsOfRoute(route: seq<string>, segs: seq<string>, statics: set<string>)
    requires WellFormed(statics) && IsRoute(route, statics) && Fills(segs, route, statics)
    ensures forall i :: 0 <= i < |segs| ==> segs[i] != "" && Label(segs[i], statics) == Label(route[i], statics)
    ensures segs[0] in statics
  {
    forall i | 0 <= i < |segs|
      ensures segs[i] != "" && Label(segs[i], statics) == Label(route[i], statics)
    {
      assert route[i] in statics || route[i] == ID;
    }
  }

  // The pieces in front of a route are dropped, the filled-in ones labelled.
  lemma PiecesOfFilledRoute(front: seq<string>, route: seq<string>, segs: seq<string>, statics: set<string>)
    requires WellFormed(statics) && (forall w :: w in front ==> w !in statics)
    requires IsRoute(route, statics) && Fills(segs, route, statics)
    ensures RouteOf(front + segs, statics) == Join(route)
  {
    SegmentsOfRoute(route, segs, statics);
    KeptOfFilledRoute(front, segs, statics);
    assert FromFirstStatic(segs, statics) == segs && FromFirstStatic(route, statics) == route;
    SameLabels(segs, route, statics);
    LabelsOfRoute(route, statics);
  }

  // The URL the SDK builds for a route, endpoint and project in front and identifiers filled
  // in, is labelled with that route.
  lemma FilledRouteRoundTrips(base: string, route: seq<string>, segs: seq<string>)
    requires AbsoluteDir(base) && forall w :: w in Split(Dir(base)) ==> w !in STATIC
    requires IsRoute(route, STATIC) && Fills(segs, route, STATIC)
    ensures Route(base + Join(segs)) == Join(route)
  {
    StaticIsWellFormed();
    AfterHostAppend(base, Join(segs));
    DirEndsInSlash(base);
    JoinFree(segs, {'?', '#'});
    var path := Dir(base) + "/" + Join(segs);
    BeforeAppend(path, "", {'?', '#'});
    assert path + "" == path;
    SplitAppend(Dir(base), Join(segs));
    SplitJoin(segs);
    PiecesOfFilledRoute(Split(Dir(base)), route, segs, STATIC);
  }

  // ----- The routes the driver calls -----

  // KnownAPIRoutes, segment by segment.
  function KnownAPIRoutes(): seq<seq<string>> {
    [ ["volumes"], ["volumes", "{id}"], ["volumes", "{id}", "resize"], ["volumes", "{id}", "snapshots"],
      ["volumes", "{id}", "snapshots", "{id}"], ["volumes", "{id}", "mapping"],
      ["volumes", "{id}", "change-device-type"], ["volumes", "{id}", "servers", "{id}", "attach"],
      ["volumes", "{id}", "servers", "{id}", "detach"], ["servers", "{id}"], ["volume_types", "{id}"],
      ["volume_default_id"], ["volume_type_zones"], ["volume_types"], ["zones"], ["projects", "{id}", "detail"],
      ["auth", "token"] ]
  }

  // Every route the driver calls is a label, the longest of five segments, and its own label.
  lemma KnownRoutesAreLabels(i: nat)
    requires i < |KnownAPIRoutes()|
    ensures var route := KnownAPIRoutes()[i];
            IsRoute(route, STATIC) && |route| <= 5 && Route(Join(route)) == Join(route)
  {
    StaticIsWellFormed();
    var route := KnownAPIRoutes()[i];
    assert IsRoute(route, STATIC);
    RouteIsAFixedPoint(route, STATIC);
  }

  lemma JoinFive(a: string, b: string, c: string, d: string, e: string)
    ensures Join([a, b, c, d, e]) == a + "/" + (b + "/" + (c + "/" + (d + "/" + e)))
  {
    assert [d, e][1..] == [e] && Join([d, e]) == d + "/" + e;
    assert [c, d, e][1..] == [d, e] && Join([c, d, e]) == c + "/" + Join([d, e]);
    assert [b, c, d, e][1..] == [c, d, e] && Join([b, c, d, e]) == b + "/" + Join([c, d, e]);
    assert [a, b, c, d, e][1..] == [b, c, d, e];
  }

  lemma FillsFive(a: string, x: string, b: string, y: string, c: string, statics: set<string>)
    requires WellFormed(statics) && a in statics && b in statics && c in statics
    requires Segment(x) && x !in statics && Segment(y) && y !in statics
    ensures IsRoute([a, ID, b, ID, c], statics) && Fills([a, x, b, y, c], [a, ID, b, ID, c], statics)
  {
    var route, segs := [a, ID, b, ID, c], [a, x, b, y, c];
    assert |route| == 5 && |segs| == 5;
    forall i | 0 <= i < 5
      ensures route[i] in statics || route[i] == ID
      ensures Segment(segs[i]) && if route[i] == ID then segs[i] !in statics else segs[i] == route[i]
    {
      assert i == 0 || i == 1 || i == 2 || i == 3 || i == 4;
    }
  }

  lemma FiveAreLabelled(base: string, a: string, x: string, b: string, y: string, c: string)
    requires AbsoluteDir(base) && forall w :: w in Split(Dir(base)) ==> w !in STATIC
    requires a in STATIC && b in STATIC && c in STATIC
    requires Segment(x) && x !in STATIC && Segment(y) && y !in STATIC
    ensures Route(base + (a + "/" + (x + "/" + (b + "/" + (y + "/" + c))))) ==
            a + "/" + ("{id}" + "/" + (b + "/" + ("{id}" + "/" + c)))
  {
    StaticIsWellFormed();
    FillsFive(a, x, b, y, c, STATIC);
    FilledRouteRoundTrips(base, [a, ID, b, ID, c], [a, x, b, y, c]);
    JoinFive(a, x, b, y, c);
    JoinFive(a, ID, b, ID, c);
  }

  // An attach and a detach, for any endpoint, project and identifiers.
  lemma AttachIsLabelled(base: string, volume: string, server: string, command: string)
    requires AbsoluteDir(base) && forall w :: w in Split(Dir(base)) ==> w !in STATIC
    requires Segment(volume) && volume !in STATIC && Segment(server) && server !in STATIC
    requires command == "attach" || command == "detach"
    ensures Route(base + ("volumes" + "/" + (volume + "/" + ("servers" + "/" + (server + "/" + command))))) ==
            "volumes" + "/" + ("{id}" + "/" + ("servers" + "/" + ("{id}" + "/" + command)))
  {
    FiveAreLabelled(base, "volumes", volume, "servers", server, command);
  }

  // A query or a fragment does not show, once the path has begun.
  lemma QueriesDoNotShow(url: string, query: string)
    requires HasPath(url) && query != "" && query[0] in {'?', '#'}
    ensures Route(url + query) == Route(url)
  {
    AfterHostAppend(url, query);
    BeforeMark(AfterHost(url), query, {'?', '#'});
  }

  lemma {:induction false} BeforeMark(s: string, z: string, chars: set<char>)
    requires z != "" && z[0] in chars
    ensures Before(s + z, chars) == Before(s, chars)
  {
    if s == "" {
      assert s + z == z;
    } else {
      assert (s + z)[1..] == s[1..] + z;
      BeforeMark(s[1..], z, chars);
    }
  }
}
