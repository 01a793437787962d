/**
 * The breadcrumb trail of the layout shell. `Root.tsx` and `RootLayout.tsx`
 * derive it the same way from the current pathname, so it is modelled once.
 */
module Breadcrumbs {
  import opened Text
  import opened Seqs

  datatype Crumb = Crumb(name: string, path: string)

  /** What the trail renders: links with a separator between neighbours. */
  datatype Piece = Link(crumb: Crumb) | Separator

  const Home: Crumb := Crumb("Home", "/")

  /** Segments as a pathname yields them: none empty, none holding a slash. */
  predicate Proper(segs: seq<string>)
  {
    forall i :: 0 <= i < |segs| ==> segs[i] != "" && '/' !in segs[i]
  }

  /** `pathname.split("/").filter((x) => x)`: the non-empty segments, in order. */
  function Segments(pathname: string): (segs: seq<string>)
    ensures IsSubsequence(segs, Split(pathname, '/'))
    ensures Proper(segs)
    ensures forall x :: multiset(segs)[x] == if x != "" then multiset(Split(pathname, '/'))[x] else 0
  {
    Filter(Split(pathname, '/'), (x: string) => x != "")
  }

  /** `name.charAt(0).toUpperCase() + name.slice(1)`. */
  function Capitalise(name: string): (r: string)
    ensures |r| == |name|
    ensures name != "" ==> r[0] == UpperChar(name[0]) && r[1..] == name[1..]
  {
    if name == "" then "" else [UpperChar(name[0])] + name[1..]
  }

  /** The link of the segments up to and including `i`. */
  function PathUpTo(segs: seq<string>, i: nat): string
    requires i < |segs|
  {
    "/" + Join(segs[..i + 1], '/')
  }

  /** The crumbs for a list of segments: home, then one per segment. */
  function Trail(segs: seq<string>): (items: seq<Crumb>)
    ensures |items| == 1 + |segs|
    ensures items[0] == Home
    ensures forall j :: 1 <= j <= |segs| ==> items[j].name == Capitalise(segs[j - 1]) && items[j].path == PathUpTo(segs, j - 1)
  {
    var rest := seq(|segs|, i requires 0 <= i < |segs| => Crumb(Capitalise(segs[i]), PathUpTo(segs, i)));
    assert forall j :: 1 <= j <= |segs| ==> ([Home] + rest)[j] == rest[j - 1];
    [Home] + rest
  }

  /**
   * `breadcrumbItems`: home, then one crumb per non-empty segment of the
   * pathname, linking to the segments up to it; on a pathname as the router
   * produces it, the last crumb links to the current page.
   */
  function Crumbs(pathname: string): (items: seq<Crumb>)
    ensures |items| == 1 + |Segments(pathname)|
    ensures items[0] == Home
    ensures forall j :: 1 <= j < |items| ==>
              items[j].name == Capitalise(Segments(pathname)[j - 1]) && items[j].path == "/" + Join(Segments(pathname)[..j], '/')
    ensures Canonical(pathname) ==> items[|items| - 1].path == pathname
  {
    var items := Trail(Segments(pathname));
    if Canonical(pathname) then
      LastCrumbIsCurrentPage(pathname);
      items
    else
      items
  }

  /** `xs` with one more element joined at the end. */
  lemma {:induction false} JoinSnoc(xs: seq<string>, y: string, sep: char)
    ensures Join(xs + [y], sep) == if xs == [] then y else Join(xs, sep) + [sep] + y
    decreases |xs|
  {
    if |xs| == 1 {
      assert xs + [y] == [xs[0], y];
    } else if |xs| > 1 {
      assert (xs + [y])[1..] == xs[1..] + [y];
      JoinSnoc(xs[1..], y, sep);
    }
  }

  /**
   * Each link extends the previous one by a slash and its own segment; the
   * first segment's link is the root followed by that segment.
   */
  lemma CrumbPathsExtend(segs: seq<string>, i: nat)
    requires 1 <= i < |segs|
    ensures Trail(segs)[i + 1].path == Trail(segs)[i].path + "/" + segs[i]
  {
    PathUpToExtends(segs, i);
  }

  lemma PathUpToExtends(segs: seq<string>, i: nat)
    requires 1 <= i < |segs|
    ensures PathUpTo(segs, i) == PathUpTo(segs, i - 1) + "/" + segs[i]
  {
    var before := Join(segs[..i], '/');
    assert segs[..i + 1] == segs[..i] + [segs[i]];
    JoinSnoc(segs[..i], segs[i], '/');
    assert Join(segs[..i + 1], '/') == before + ['/'] + segs[i];
    assert "/" + (before + ['/'] + segs[i]) == ("/" + before) + "/" + segs[i];
  }

  /** The first segment's link. */
  lemma FirstSegmentPath(segs: seq<string>)
    requires |segs| > 0
    ensures Trail(segs)[1].path == "/" + segs[0]
  {
    assert segs[..1] == [segs[0]];
  }

  /** `p` has no empty segment inside it: no two slashes in a row. */
  predicate NoDoubleSlash(p: string)
  {
    forall k :: 0 <= k < |p| - 1 ==> !(p[k] == '/' && p[k + 1] == '/')
  }

  /** Joining non-empty, slash-free segments with slashes never yields two slashes in a row. */
  lemma {:induction false} JoinNoDoubleSlash(segs: seq<string>)
    requires Proper(segs)
    ensures NoDoubleSlash(Join(segs, '/'))
    ensures segs != [] ==> Join(segs, '/') != "" && Join(segs, '/')[0] != '/'
    decreases |segs|
  {
    if |segs| == 1 {
      assert Join(segs, '/') == segs[0];
      assert forall k :: 0 <= k < |segs[0]| ==> segs[0][k] != '/';
    } else if |segs| > 1 {
      JoinNoDoubleSlash(segs[1..]);
      var head, tail := segs[0], Join(segs[1..], '/');
      var j := head + ['/'] + tail;
      assert Join(segs, '/') == j;
      assert forall k :: 0 <= k < |head| ==> head[k] != '/';
      forall k | 0 <= k < |j| - 1
        ensures !(j[k] == '/' && j[k + 1] == '/')
      {
        if k + 1 < |head| {
          assert j[k] == head[k];
        } else if k + 1 == |head| {
          assert j[k] == head[k];
        } else if k == |head| {
          assert j[k + 1] == tail[0];
        } else {
          assert j[k] == tail[k - |head| - 1] && j[k + 1] == tail[k - |head|];
        }
      }
    }
  }

  /** No link contains an empty segment. */
  lemma CrumbPathsHaveNoEmptySegment(segs: seq<string>, i: nat)
    requires Proper(segs) && i <= |segs|
    ensures NoDoubleSlash(Trail(segs)[i].path)
  {
    if i > 0 {
      var prefix := segs[..i];
      assert Proper(prefix) by {
        assert forall j :: 0 <= j < |prefix| ==> prefix[j] == segs[j];
      }
      JoinNoDoubleSlash(prefix);
      RootedNoDoubleSlash(Join(prefix, '/'));
    }
  }

  /** A slash in front of a string that does not start with one adds no empty segment. */
  lemma RootedNoDoubleSlash(tail: string)
    requires NoDoubleSlash(tail) && (tail == [] || tail[0] != '/')
    ensures NoDoubleSlash("/" + tail)
  {
    var p := "/" + tail;
    forall k | 0 <= k < |p| - 1
      ensures !(p[k] == '/' && p[k + 1] == '/')
    {
      if k == 0 {
        assert p[1] == tail[0];
      } else {
        assert p[k] == tail[k - 1] && p[k + 1] == tail[k];
      }
    }
  }

  /** Links get longer along the trail. */
  lemma {:induction false} CrumbPathsGrow(segs: seq<string>, i: nat)
    requires Proper(segs) && i < |segs|
    ensures |Trail(segs)[i].path| < |Trail(segs)[i + 1].path|
  {
    if i == 0 {
      FirstSegmentPath(segs);
    } else {
      CrumbPathsExtend(segs, i);
    }
  }

  /** So no two crumbs share a link, and the list keys are unique. */
  lemma {:induction false} CrumbPathsDistinct(segs: seq<string>, i: nat, j: nat)
    requires Proper(segs) && i < j <= |segs|
    ensures |Trail(segs)[i].path| < |Trail(segs)[j].path|
    ensures Trail(segs)[i].path != Trail(segs)[j].path
    decreases j - i
  {
    CrumbPathsGrow(segs, j - 1);
    if i < j - 1 {
      CrumbPathsDistinct(segs, i, j - 1);
    }
  }

  /** A pathname as the router produces it: rooted, without empty segments, without a trailing slash. */
  predicate Canonical(pathname: string)
  {
    && pathname != "" && pathname[0] == '/'
    && NoDoubleSlash(pathname)
    && (pathname == "/" || pathname[|pathname| - 1] != '/')
  }

  lemma NoDoubleSlashTail(s: string)
    requires s != [] && NoDoubleSlash(s)
    ensures NoDoubleSlash(s[1..])
  {
    forall k | 0 <= k < |s[1..]| - 1
      ensures !(s[1..][k] == '/' && s[1..][k + 1] == '/')
    {
      assert s[1..][k] == s[k + 1] && s[1..][k + 1] == s[k + 2];
    }
  }

  /** After the leading field, a split of such a string has no empty field. */
  lemma {:induction false} SplitFieldsNonEmpty(s: string)
    requires s != [] && s[|s| - 1] != '/' && NoDoubleSlash(s)
    ensures forall i :: 1 <= i < |Split(s, '/')| ==> Split(s, '/')[i] != ""
    ensures s[0] != '/' ==> Split(s, '/')[0] != ""
    decreases |s|
  {
    var rest := Split(s[1..], '/');
    if |s| > 1 {
      NoDoubleSlashTail(s);
      SplitFieldsNonEmpty(s[1..]);
      if s[0] == '/' {
        assert s[1..][0] != '/' by {
          assert !(s[0] == '/' && s[1] == '/');
        }
      }
    }
  }

  /** Below the root, the segments of a router pathname are exactly the fields after the leading "/". */
  lemma RootedSegments(rest: string)
    requires rest != [] && rest[0] != '/' && rest[|rest| - 1] != '/' && NoDoubleSlash(rest)
    ensures Segments("/" + rest) == Split(rest, '/')
  {
    RootedFields(rest);
  }

  /** Dropping the empty field before the leading slash leaves the fields of the rest, all non-empty. */
  lemma RootedFields(rest: string)
    requires rest != [] && rest[0] != '/' && rest[|rest| - 1] != '/' && NoDoubleSlash(rest)
    ensures Filter(Split("/" + rest, '/'), (x: string) => x != "") == Split(rest, '/')
  {
    SplitFieldsNonEmpty(rest);
    var parts := Split(rest, '/');
    assert ("/" + rest)[0] == '/' && ("/" + rest)[1..] == rest;
    assert Split("/" + rest, '/') == [""] + parts;
    assert ([""] + parts)[1..] == parts;
    FilterAll(parts, (x: string) => x != "");
  }

  /** On a router pathname, the last crumb links to the current page itself. */
  lemma LastCrumbIsCurrentPage(pathname: string)
    requires Canonical(pathname)
    ensures Trail(Segments(pathname))[|Segments(pathname)|].path == pathname
  {
    if pathname != "/" {
      var rest := pathname[1..];
      assert pathname == "/" + rest;
      assert rest[0] != '/';
      NoDoubleSlashTail(pathname);
      RootedSegments(rest);
      var segs := Segments(pathname);
      assert segs[..|segs|] == segs;
      JoinSplit(rest, '/');
    } else {
      assert Split(pathname, '/') == ["", ""];
      FilterNone(["", ""], (x: string) => x != "");
    }
  }

  /** How many separators a rendering holds. */
  function SeparatorCount(pieces: seq<Piece>): nat
    decreases |pieces|
  {
    if pieces == [] then 0 else (if pieces[0].Separator? then 1 else 0) + SeparatorCount(pieces[1..])
  }

  /** The trail as rendered: each crumb's link, followed by a separator unless it is the last. */
  function Render(items: seq<Crumb>): (r: seq<Piece>)
    ensures items != [] ==> |r| == 2 * |items| - 1
    ensures items == [] ==> r == []
    ensures forall k :: 0 <= k < |r| ==> (r[k].Link? <==> k % 2 == 0)
    ensures forall i :: 0 <= i < |items| ==> 2 * i < |r| && r[2 * i] == Link(items[i])
    decreases |items|
  {
    if items == [] then []
    else if |items| == 1 then [Link(items[0])]
    else
      var rest := Render(items[1..]);
      var r := [Link(items[0]), Separator] + rest;
      assert forall k :: 2 <= k < |r| ==> r[k] == rest[k - 2] && (k % 2 == 0 <==> (k - 2) % 2 == 0);
      assert forall i :: 1 <= i < |items| ==> items[i] == items[1..][i - 1];
      r
  }

  /** A rendering has one separator fewer than crumbs: one between each neighbouring pair. */
  lemma {:induction false} RenderSeparators(items: seq<Crumb>)
    ensures SeparatorCount(Render(items)) == if items == [] then 0 else |items| - 1
    decreases |items|
  {
    if |items| > 1 {
      var r := Render(items);
      RenderSeparators(items[1..]);
      assert r[1..] == [Separator] + Render(items[1..]);
      assert r[1..][1..] == Render(items[1..]);
    }
  }

  /** The trail for a pathname has one separator fewer than crumbs, one per segment. */
  lemma SeparatorsPerSegment(pathname: string)
    ensures SeparatorCount(Render(Crumbs(pathname))) == |Segments(pathname)|
  {
    RenderSeparators(Crumbs(pathname));
  }
}
