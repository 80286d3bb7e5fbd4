/** Route patterns for metrics: compiling them, and finding the first whose host and path a request fits. */
module Routes {
  import opened Options
  import opened Texts

  /** A route as configured. */
  datatype Route = Route(name: string, host: string, path: string, capture: seq<string>)

  /** A route as compiled. */
  datatype Compiled = Compiled(name: string, host: string, segments: seq<string>, capture: set<string>)

  // Segments

  function Segments(path: string): seq<string> {
    Split(if path != "" && path[0] == '/' then path[1..] else path, '/')
  }

  /** The text before the first colon, or all of it. */
  function Cut(s: string): (before: string)
    ensures before <= s && ':' !in before && (':' in s <==> before != s) && (':' in s ==> s[|before|] == ':')
  {
    if s == "" || s[0] == ':' then "" else [s[0]] + Cut(s[1..])
  }

  predicate IsParam(segment: string) { ':' in segment }

  function Name(segment: string): string
    requires IsParam(segment)
  {
    segment[|Cut(segment)| + 1..]
  }

  /** The segments before the first star. */
  function Stem(segments: seq<string>): (stem: seq<string>)
    ensures stem <= segments && "*" !in stem && ("*" in segments <==> stem != segments)
    ensures "*" in segments ==> segments[|stem|] == "*"
  {
    if segments == [] || segments[0] == "*" then [] else [segments[0]] + Stem(segments[1..])
  }

  // Matching a path

  /** One segment of a path fits one of a pattern: a literal, or a prefix and a value that is not empty. */
  predicate Fits(pattern: string, segment: string) {
    segment != "" && if IsParam(pattern) then Cut(pattern) <= segment && segment != Cut(pattern) else pattern == segment
  }

  function Value(pattern: string, segment: string): string
    requires IsParam(pattern) && Fits(pattern, segment)
  {
    segment[|Cut(pattern)|..]
  }

  /** The first n segments fit. */
  predicate FitTo(patterns: seq<string>, segments: seq<string>, n: nat)
    requires n <= |patterns|
  {
    n <= |segments| && forall i :: 0 <= i < n ==> Fits(patterns[i], segments[i])
  }

  function Labels(patterns: seq<string>, segments: seq<string>, capture: set<string>, n: nat): map<string, string>
    requires n <= |patterns| && FitTo(patterns, segments, n)
  {
    if n == 0 then map[]
    else
      var before, p := Labels(patterns, segments, capture, n - 1), patterns[n - 1];
      if IsParam(p) && Name(p) in capture then before[Name(p) := Value(p, segments[n - 1])] else before
  }

  /** The pattern matches: segment by segment up to its star, or to the end of both. */
  predicate PathFits(r: Compiled, segments: seq<string>) {
    var stem := Stem(r.segments);
    FitTo(stem, segments, |stem|) && ("*" in r.segments || |segments| == |stem|)
  }

  function PathLabels(r: Compiled, segments: seq<string>): map<string, string>
    requires PathFits(r, segments)
  {
    Labels(Stem(r.segments), segments, r.capture, |Stem(r.segments)|)
  }

  method MatchPath(r: Compiled, segments: seq<string>) returns (labels: Option<map<string, string>>)
    ensures labels.Some? <==> PathFits(r, segments)
    ensures labels.Some? ==> labels.value == PathLabels(r, segments)
  {
    ghost var stem := Stem(r.segments);
    var out: map<string, string> := map[];
    for i := 0 to |r.segments|
      invariant i <= |stem| && FitTo(stem, segments, i) && out == Labels(stem, segments, r.capture, i)
    {
      var pattern := r.segments[i];
      if pattern == "*" {
        assert i == |stem|;
        return Some(out);
      }
      assert i < |stem| && stem[i] == pattern;
      if i >= |segments| || segments[i] == "" {
        return None;
      }
      if IsParam(pattern) {
        var prefix := Cut(pattern);
        if !(prefix <= segments[i]) || segments[i][|prefix|..] == "" {
          return None;
        }
        if Name(pattern) in r.capture {
          out := out[Name(pattern) := segments[i][|prefix|..]];
        }
        continue;
      }
      if pattern != segments[i] {
        return None;
      }
    }
    assert stem == r.segments;
    labels := if |segments| == |r.segments| then Some(out) else None;
  }

  // Matching a host

  predicate HostFits(pattern: string, host: string) {
    if "*." <= pattern then |host| >= |pattern| - 1 && host[|host| - (|pattern| - 1)..] == pattern[1..]
      else pattern == host
  }

  predicate RouteFits(r: Compiled, host: string, segments: seq<string>) {
    HostFits(r.host, host) && PathFits(r, segments)
  }

  class Matcher {
    const routes: seq<Compiled>
    const captures: seq<string>

    /** The routes are compiled from accepted ones; the captures are theirs, sorted, each once. */
    ghost predicate Valid() {
      (forall i :: 0 <= i < |routes| ==> StarLast(routes[i].segments) &&
                                         routes[i].capture <= ParamNames(routes[i].segments)) &&
      Ascending(captures) && forall n :: n in captures <==> exists i :: 0 <= i < |routes| && n in routes[i].capture
    }

    constructor (routes: seq<Compiled>, captures: seq<string>)
      ensures this.routes == routes && this.captures == captures
    {
      this.routes, this.captures := routes, captures;
    }

    /** The first route whose host and path fit, with its labels. */
    method Match(host: string, path: string) returns (name: string, labels: Option<map<string, string>>)
      ensures labels.None? ==> name == "" && forall i :: 0 <= i < |routes| ==>
                !RouteFits(routes[i], Lower(host), Segments(path))
      ensures labels.Some? ==> exists i :: 0 <= i < |routes| && RouteFits(routes[i], Lower(host), Segments(path)) &&
                                 name == routes[i].name && labels.value == PathLabels(routes[i], Segments(path)) &&
                                 forall j :: 0 <= j < i ==> !RouteFits(routes[j], Lower(host), Segments(path))
      ensures Valid() && labels.Some? ==> forall n :: n in labels.value ==> n in captures
    {
      var lower, segments := Lower(host), Segments(path);
      for i := 0 to |routes|
        invariant forall j :: 0 <= j < i ==> !RouteFits(routes[j], lower, segments)
      {
        if !HostFits(routes[i].host, lower) {
          continue;
        }
        labels := MatchPath(routes[i], segments);
        if labels.Some? {
          LabelsAreCaptured(routes[i], segments);
          return routes[i].name, labels;
        }
      }
      name, labels := "", None;
    }
  }

  lemma {:induction false} LabelsAreCapturedTo(patterns: seq<string>, segments: seq<string>, capture: set<string>,
                                               n: nat)
    requires n <= |patterns| && FitTo(patterns, segments, n)
    ensures Labels(patterns, segments, capture, n).Keys <= capture
  {
    if n > 0 {
      LabelsAreCapturedTo(patterns, segments, capture, n - 1);
    }
  }

  lemma LabelsAreCaptured(r: Compiled, segments: seq<string>)
    requires PathFits(r, segments)
    ensures PathLabels(r, segments).Keys <= r.capture
  {
    LabelsAreCapturedTo(Stem(r.segments), segments, r.capture, |Stem(r.segments)|);
  }

  // Compiling

  predicate StarLast(segments: seq<string>) {
    forall i :: 0 <= i < |segments| - 1 ==> segments[i] != "*"
  }

  function ParamNames(segments: seq<string>): set<string> {
    set i | 0 <= i < |segments| && IsParam(segments[i]) :: Name(segments[i])
  }

  /** What NewMatcher accepts: a star only at the end, and captures that are parameters. */
  predicate Accepted(r: Route) {
    StarLast(Segments(r.path)) && forall n :: n in r.capture ==> n in ParamNames(Segments(r.path))
  }

  function Compile(r: Route): Compiled {
    Compiled(r.name, Lower(r.host), Segments(r.path), set n | n in r.capture)
  }

  /** Code point order, which is the byte order of UTF-8. */
  predicate Less(a: string, b: string) {
    if a == "" then b != "" else b != "" && (a[0] < b[0] || (a[0] == b[0] && Less(a[1..], b[1..])))
  }

  ghost predicate Ascending(names: seq<string>) {
    forall i, j :: 0 <= i < j < |names| ==> Less(names[i], names[j])
  }

  lemma {:induction false} LessIrreflexive(a: string)
    ensures !Less(a, a)
  {
    if a != "" {
      LessIrreflexive(a[1..]);
    }
  }

  lemma {:induction false} LessTotal(a: string, b: string)
    requires a != b
    ensures Less(a, b) || Less(b, a)
  {
    if a != "" && b != "" && a[0] == b[0] {
      assert a == [a[0]] + a[1..] && b == [b[0]] + b[1..];
      LessTotal(a[1..], b[1..]);
    }
  }

  lemma {:induction false} LessTransitive(a: string, b: string, c: string)
    requires Less(a, b) && Less(b, c)
    ensures Less(a, c)
  {
    if a != "" && a[0] == b[0] && b[0] == c[0] {
      LessTransitive(a[1..], b[1..], c[1..]);
    }
  }

  function Insert(names: seq<string>, x: string): seq<string> {
    if names == [] || Less(x, names[0]) then [x] + names else [names[0]] + Insert(names[1..], x)
  }

  lemma {:induction false} InsertKeepsAscending(names: seq<string>, x: string)
    requires Ascending(names) && x !in names
    ensures Ascending(Insert(names, x)) && forall n :: n in Insert(names, x) <==> n in names || n == x
  {
    if names != [] {
      assert names == [names[0]] + names[1..];
      if Less(x, names[0]) {
        forall i | 0 < i < |names| ensures Less(x, names[i]) {
          LessTransitive(x, names[0], names[i]);
        }
      } else {
        LessTotal(x, names[0]);
        InsertKeepsAscending(names[1..], x);
        var rest := Insert(names[1..], x);
        forall i | 0 <= i < |rest| ensures Less(names[0], rest[i]) {
          assert rest[i] in rest;
        }
      }
    }
  }

  /** `slices.Sort`, on names that are all different. */
  method Sort(names: seq<string>) returns (sorted: seq<string>)
    requires forall i, j :: 0 <= i < j < |names| ==> names[i] != names[j]
    ensures Ascending(sorted) && forall n :: n in sorted <==> n in names
  {
    sorted := [];
    for i := 0 to |names|
      invariant Ascending(sorted) && forall n :: n in sorted <==> n in names[..i]
    {
      assert names[..i + 1] == names[..i] + [names[i]];
      InsertKeepsAscending(sorted, names[i]);
      sorted := Insert(sorted, names[i]);
    }
  }

  /** The parameters of a path, unless a star stands before its end. */
  method ReadSegments(segments: seq<string>) returns (params: Option<set<string>>)
    ensures params == if StarLast(segments) then Some(ParamNames(segments)) else None
  {
    var names: set<string> := {};
    for i := 0 to |segments|
      invariant names == ParamNames(segments[..i]) && forall k :: 0 <= k < i && k < |segments| - 1 ==>
                  segments[k] != "*"
    {
      if segments[i] == "*" && i != |segments| - 1 {
        return None;
      }
      ParamNamesGrow(segments, i);
      if IsParam(segments[i]) {
        names := names + {Name(segments[i])};
      }
    }
    assert segments[..|segments|] == segments;
    params := Some(names);
  }

  lemma ParamNamesGrow(segments: seq<string>, i: nat)
    requires i < |segments|
    ensures ParamNames(segments[..i + 1]) == ParamNames(segments[..i]) + if IsParam(segments[i]) then
              {Name(segments[i])} else {}
  {
    var front, more := segments[..i], segments[..i + 1];
    assert forall k :: 0 <= k < i ==> front[k] == more[k];
    assert more[i] == segments[i];
    forall n | n in ParamNames(more) ensures n in ParamNames(front) + if IsParam(segments[i]) then {Name(segments[i])}
      else {} {
      var k :| 0 <= k < |more| && IsParam(more[k]) && Name(more[k]) == n;
      assert k < i ==> front[k] == more[k];
    }
    forall n | n in ParamNames(front) ensures n in ParamNames(more) {
      var k :| 0 <= k < |front| && IsParam(front[k]) && Name(front[k]) == n;
      assert more[k] == front[k];
    }
  }

  /** The captures of one route, and those seen so far in the order they first appear. */
  method ReadCaptures(capture: seq<string>, params: set<string>, seen: seq<string>)
    returns (captured: Option<set<string>>, all: seq<string>)
    requires forall i, j :: 0 <= i < j < |seen| ==> seen[i] != seen[j]
    ensures captured == if (forall n :: n in capture ==> n in params) then Some(set n | n in capture) else None
    ensures captured.Some? ==> (forall n :: n in all <==> n in seen || n in capture) &&
                               forall i, j :: 0 <= i < j < |all| ==> all[i] != all[j]
  {
    var names: set<string> := {};
    all := seen;
    for i := 0 to |capture|
      invariant names == (set n | n in capture[..i]) && forall n :: n in capture[..i] ==> n in params
      invariant forall n :: n in all <==> n in seen || n in capture[..i]
      invariant forall i, j :: 0 <= i < j < |all| ==> all[i] != all[j]
    {
      assert capture[..i + 1] == capture[..i] + [capture[i]];
      if capture[i] !in params {
        return None, all;
      }
      names := names + {capture[i]};
      if capture[i] !in all {
        all := all + [capture[i]];
      }
    }
    assert capture[..|capture|] == capture;
    captured := Some(names);
  }

  method NewMatcher(routes: seq<Route>) returns (m: Option<Matcher>)
    ensures m.Some? <==> forall r :: r in routes ==> Accepted(r)
    ensures m.Some? ==> m.value.Valid() && |m.value.routes| == |routes| &&
                        forall i :: 0 <= i < |routes| ==> m.value.routes[i] == Compile(routes[i])
  {
    var compiled: seq<Compiled> := [];
    var captures: seq<string> := [];
    for i := 0 to |routes|
      invariant |compiled| == i && forall k :: 0 <= k < i ==> Accepted(routes[k]) && compiled[k] == Compile(routes[k])
      invariant forall k, l :: 0 <= k < l < |captures| ==> captures[k] != captures[l]
      invariant forall n :: n in captures <==> exists k :: 0 <= k < i && n in compiled[k].capture
    {
      var r := routes[i];
      var segments := Segments(r.path);
      var params := ReadSegments(segments);
      assert r in routes;
      if params.None? {
        return None;
      }
      var captured, all := ReadCaptures(r.capture, params.value, captures);
      if captured.None? {
        return None;
      }
      compiled := compiled + [Compiled(r.name, Lower(r.host), segments, captured.value)];
      captures := all;
    }
    var sorted := Sort(captures);
    var matcher := new Matcher(compiled, sorted);
    m := Some(matcher);
  }

  // Matching inverts rendering

  predicate SlashFree(s: string) { '/' !in s }

  /** What the pattern writes for its first n segments, each parameter filled in. */
  function Render(stem: seq<string>, fill: map<string, string>): seq<string>
    requires ParamNames(stem) <= fill.Keys
  {
    seq(|stem|, i requires 0 <= i < |stem| => if IsParam(stem[i]) then Cut(stem[i]) + fill[Name(stem[i])] else stem[i])
  }

  /** A filling of the parameters: no value is empty or holds a slash. */
  predicate Filling(stem: seq<string>, fill: map<string, string>) {
    ParamNames(stem) <= fill.Keys && forall n :: n in ParamNames(stem) ==> fill[n] != "" && SlashFree(fill[n])
  }

  ghost predicate DistinctNames(stem: seq<string>) {
    forall i, j :: 0 <= i < j < |stem| && IsParam(stem[i]) && IsParam(stem[j]) ==> Name(stem[i]) != Name(stem[j])
  }

  /** The labels a filling should give: the captured parameters, and nothing else. */
  function Captured(stem: seq<string>, capture: set<string>, fill: map<string, string>): map<string, string>
    requires ParamNames(stem) <= fill.Keys
  {
    map n | n in ParamNames(stem) && n in capture :: fill[n]
  }

  lemma RenderFits(stem: seq<string>, fill: map<string, string>, tail: seq<string>)
    requires Filling(stem, fill) && forall i :: 0 <= i < |stem| ==> stem[i] != ""
    ensures FitTo(stem, Render(stem, fill) + tail, |stem|)
    ensures forall i :: 0 <= i < |stem| && IsParam(stem[i]) ==>
              Value(stem[i], (Render(stem, fill) + tail)[i]) == fill[Name(stem[i])]
  {
    var segments := Render(stem, fill) + tail;
    forall i | 0 <= i < |stem|
      ensures Fits(stem[i], segments[i]) && (IsParam(stem[i]) ==> Value(stem[i], segments[i]) == fill[Name(stem[i])])
    {
      if IsParam(stem[i]) {
        assert Name(stem[i]) in ParamNames(stem);
        assert segments[i] == Cut(stem[i]) + fill[Name(stem[i])];
      }
    }
  }

  /** A parameter's label is what its segment gave, when no other segment names it. */
  lemma {:induction false} LabelsAre(stem: seq<string>, segments: seq<string>, capture: set<string>,
                                     fill: map<string, string>, n: nat)
    requires n <= |stem| && FitTo(stem, segments, n) && ParamNames(stem) <= fill.Keys
    requires forall i :: 0 <= i < n && IsParam(stem[i]) ==> Value(stem[i], segments[i]) == fill[Name(stem[i])]
    ensures Labels(stem, segments, capture, n) == Captured(stem[..n], capture, fill)
  {
    assert forall i :: 0 <= i < n ==> stem[..n][i] == stem[i];
    if n > 0 {
      LabelsAre(stem, segments, capture, fill, n - 1);
      ParamNamesGrow(stem, n - 1);
    }
  }

  /** Filling the parameters of a pattern, and any tail for its star, gives a path that it matches, with exactly the
      captured values. */
  lemma RenderedPathMatches(r: Compiled, fill: map<string, string>, tail: seq<string>)
    requires r.segments != [] && forall s :: s in r.segments ==> s != "" && SlashFree(s)
    requires Filling(Stem(r.segments), fill) && (forall s :: s in tail ==> SlashFree(s)) &&
             ("*" !in r.segments ==> tail == [])
    ensures var stem, path := Stem(r.segments), "/" + Join(Render(Stem(r.segments), fill) + tail, '/');
            PathFits(r, Segments(path)) && PathLabels(r, Segments(path)) == Captured(stem, r.capture, fill)
  {
    var stem := Stem(r.segments);
    var segments := Render(stem, fill) + tail;
    var path := "/" + Join(segments, '/');
    assert path[1..] == Join(segments, '/');
    assert forall i :: 0 <= i < |stem| ==> stem[i] == r.segments[i] && r.segments[i] in r.segments;
    if segments == [] {
      assert stem == [] && Segments(path) == [""];
    } else {
      RenderIsSlashFree(stem, fill);
      SplitJoin(segments, '/');
      RenderFits(stem, fill, tail);
      LabelsAre(stem, segments, r.capture, fill, |stem|);
      assert stem[..|stem|] == stem;
    }
  }

  /** The condition on segments is needed: a pattern with an empty segment before its star matches no path, not even the
      one it writes. */
  lemma EmptySegmentMatchesNothing(r: Compiled, path: string)
    requires "" in Stem(r.segments)
    ensures !PathFits(r, Segments(path))
  {
    var stem := Stem(r.segments);
    var i :| 0 <= i < |stem| && stem[i] == "";
    assert forall s :: !Fits(stem[i], s);
  }

  lemma RenderIsSlashFree(stem: seq<string>, fill: map<string, string>)
    requires Filling(stem, fill) && forall s :: s in stem ==> SlashFree(s)
    ensures forall s :: s in Render(stem, fill) ==> SlashFree(s)
  {
    forall i | 0 <= i < |stem| ensures SlashFree(Render(stem, fill)[i]) {
      assert stem[i] in stem;
      if IsParam(stem[i]) {
        assert Name(stem[i]) in ParamNames(stem);
      }
    }
  }

  /** With distinct names, every parameter keeps the value of its own segment. */
  lemma {:induction false} LabelAt(stem: seq<string>, segments: seq<string>, n: nat, i: nat)
    requires i < n <= |stem| && FitTo(stem, segments, n) && DistinctNames(stem) && IsParam(stem[i])
    ensures var labels := Labels(stem, segments, ParamNames(stem), n);
            Name(stem[i]) in labels && labels[Name(stem[i])] == Value(stem[i], segments[i])
  {
    assert Name(stem[i]) in ParamNames(stem);
    if i < n - 1 {
      LabelAt(stem, segments, n - 1, i);
    }
  }

  lemma PieceIsRendered(pattern: string, segment: string)
    requires IsParam(pattern) && Fits(pattern, segment)
    ensures segment == Cut(pattern) + Value(pattern, segment) && Value(pattern, segment) != ""
    ensures SlashFree(segment) ==> SlashFree(Value(pattern, segment))
  {
  }

  lemma FitIsRendered(stem: seq<string>, segments: seq<string>)
    requires FitTo(stem, segments, |stem|) && DistinctNames(stem) && forall s :: s in segments ==> SlashFree(s)
    ensures var fill := Labels(stem, segments, ParamNames(stem), |stem|);
            Filling(stem, fill) && forall i :: 0 <= i < |stem| ==> Render(stem, fill)[i] == segments[i]
  {
    var fill := Labels(stem, segments, ParamNames(stem), |stem|);
    forall i | 0 <= i < |stem| && IsParam(stem[i])
      ensures Name(stem[i]) in fill && fill[Name(stem[i])] != "" && SlashFree(fill[Name(stem[i])]) &&
              Cut(stem[i]) + fill[Name(stem[i])] == segments[i]
    {
      LabelAt(stem, segments, |stem|, i);
      PieceIsRendered(stem[i], segments[i]);
      assert segments[i] in segments;
    }
  }

  /** A matched path is a rendering of the pattern: some filling of its parameters, and a tail if it has a star. */
  lemma MatchedPathIsRendered(r: Compiled, path: string) returns (fill: map<string, string>, tail: seq<string>)
    requires DistinctNames(Stem(r.segments)) && PathFits(r, Segments(path))
    ensures Filling(Stem(r.segments), fill) && (forall s :: s in tail ==> SlashFree(s)) &&
            ("*" !in r.segments ==> tail == [])
    ensures Segments(path) == Render(Stem(r.segments), fill) + tail
  {
    var stem, segments := Stem(r.segments), Segments(path);
    SplitIsSlashFree(path);
    FitIsRendered(stem, segments);
    fill, tail := Labels(stem, segments, ParamNames(stem), |stem|), segments[|stem|..];
    SameFront(segments, Render(stem, fill));
  }

  lemma SameFront(s: seq<string>, front: seq<string>)
    requires |front| <= |s| && forall i :: 0 <= i < |front| ==> front[i] == s[i]
    ensures s == front + s[|front|..]
  {
  }

  lemma SplitIsSlashFree(path: string)
    ensures forall s :: s in Segments(path) ==> SlashFree(s)
  {
    JoinSplit(if path != "" && path[0] == '/' then path[1..] else path, '/');
  }

  // What the patterns say

  /** A route with a literal host serves that host and no other; one with a wildcard, the hosts below its suffix. */
  lemma HostIsServed(suffix: string, pattern: string, host: string)
    requires !("*." <= pattern)
    ensures HostFits(pattern, host) <==> host == pattern
    ensures HostFits("*." + suffix, host) <==> exists front :: host == front + "." + suffix
  {
    var p := "*." + suffix;
    assert p[1..] == "." + suffix;
    if HostFits(p, host) {
      var front := host[..|host| - |suffix| - 1];
      assert host == front + ("." + suffix);
      Joins(front, ".", suffix);
    }
    if front :| host == front + "." + suffix {
      Joins(front, ".", suffix);
      assert host[|front|..] == "." + suffix;
    }
  }

  /** So a configured route serves its own host, whatever the case of either. */
  lemma RouteServes(r: Route, host: string, path: string)
    requires !("*." <= Lower(r.host))
    ensures RouteFits(Compile(r), Lower(host), Segments(path)) <==>
              Lower(host) == Lower(r.host) && PathFits(Compile(r), Segments(path))
  {
    HostIsServed("", Lower(r.host), Lower(host));
  }

  /** A segment with a colon takes what begins with its prefix and goes on, and gives the rest its name; any other takes
      itself. An empty segment fits nothing. */
  lemma SegmentIsRead(prefix: string, name: string, segment: string)
    requires ':' !in prefix
    ensures var p := prefix + ":" + name;
            IsParam(p) && Name(p) == name && (Fits(p, segment) <==> exists v :: v != "" && segment == prefix + v) &&
            (Fits(p, segment) ==> segment == prefix + Value(p, segment))
    ensures Fits(prefix, segment) <==> segment == prefix && segment != ""
  {
    var p := prefix + ":" + name;
    assert p[|prefix|] == ':' && p[|prefix| + 1..] == name;
    CutIs(prefix, name);
    if Fits(p, segment) {
      assert segment == prefix + segment[|prefix|..];
    }
  }

  lemma {:induction false} CutIs(prefix: string, name: string)
    requires ':' !in prefix
    ensures Cut(prefix + ":" + name) == prefix
  {
    var s := prefix + ":" + name;
    if prefix != "" {
      CutIs(prefix[1..], name);
      assert s[1..] == prefix[1..] + ":" + name && s[0] == prefix[0] && prefix[0] in prefix;
    }
  }

  /** The slash before a path makes no difference. */
  lemma LeadingSlashIsOptional(path: string)
    requires path == "" || path[0] != '/'
    ensures Segments("/" + path) == Segments(path) == Split(path, '/')
  {
    assert ("/" + path)[1..] == path;
  }

  /** Names are in the order of their first difference, and a front comes before what it is the front of. */
  lemma {:induction false} LessIs(front: string, a: char, b: char, s: string, t: string)
    ensures a < b ==> Less(front + [a] + s, front + [b] + t)
    ensures Less(front, front + [a] + s)
  {
    if front == "" {
      assert "" + [a] + s == [a] + s && "" + [b] + t == [b] + t;
    } else {
      LessIs(front[1..], a, b, s, t);
      assert (front + [a] + s)[1..] == front[1..] + [a] + s && (front + [b] + t)[1..] == front[1..] + [b] + t;
    }
  }

  lemma CompiledPath(r: Route, patterns: seq<string>)
    requires patterns != [] && (forall s :: s in patterns ==> SlashFree(s)) && r.path == "/" + Join(patterns, '/')
    ensures Compile(r).segments == patterns
  {
    assert r.path[1..] == Join(patterns, '/');
    SplitJoin(patterns, '/');
  }

  lemma CapturedAlike(stem: seq<string>, capture: seq<string>, fill: map<string, string>)
    requires ParamNames(stem) <= fill.Keys
    ensures Captured(stem, (set n | n in capture), fill) == map n | n in ParamNames(stem) && n in capture :: fill[n]
  {
  }

  /** A configured route and a path it writes: the route fits on its own host, and gives each captured parameter its
      value and no other label. */
  lemma RouteIsServed(r: Route, patterns: seq<string>, fill: map<string, string>, tail: seq<string>, host: string)
    requires patterns != [] && (forall s :: s in patterns ==> s != "" && SlashFree(s)) &&
             r.path == "/" + Join(patterns, '/')
    requires Filling(Stem(patterns), fill) && (forall s :: s in tail ==> SlashFree(s)) &&
             ("*" !in patterns ==> tail == [])
    requires !("*." <= Lower(r.host)) && Lower(host) == Lower(r.host)
    ensures var path := "/" + Join(Render(Stem(patterns), fill) + tail, '/');
            RouteFits(Compile(r), Lower(host), Segments(path)) && Compile(r).name == r.name &&
            PathLabels(Compile(r), Segments(path)) ==
              map n | n in ParamNames(Stem(patterns)) && n in r.capture :: fill[n]
  {
    CompiledPath(r, patterns);
    RenderedPathMatches(Compile(r), fill, tail);
    HostIsServed("", Lower(r.host), Lower(host));
    CapturedAlike(Stem(patterns), r.capture, fill);
    hide Captured;
    hide PathLabels;
    hide PathFits;
    hide Segments;
    hide HostFits;
    hide Lower;
  }

  lemma ParamIsNamed(segments: seq<string>, n: string)
    ensures n in ParamNames(segments) <==>
              exists i, prefix :: 0 <= i < |segments| && ':' !in prefix && segments[i] == prefix + ":" + n
  {
    if n in ParamNames(segments) {
      var i :| 0 <= i < |segments| && IsParam(segments[i]) && Name(segments[i]) == n;
      var prefix := Cut(segments[i]);
      assert segments[i] == prefix + ":" + n;
    }
    if i, prefix :| 0 <= i < |segments| && ':' !in prefix && segments[i] == prefix + ":" + n {
      SegmentIsRead(prefix, n, "");
    }
  }

  /** A route is accepted if a star is its last segment or none, and each name it captures stands behind the first colon
      of some segment. */
  lemma RouteIsAccepted(r: Route)
    ensures var segments := Segments(r.path);
            Accepted(r) <==>
              (forall i :: 0 <= i < |segments| && segments[i] == "*" ==> i == |segments| - 1) &&
              forall n :: n in r.capture ==>
                exists i, prefix :: 0 <= i < |segments| && ':' !in prefix && segments[i] == prefix + ":" + n
  {
    var segments := Segments(r.path);
    forall n | n in r.capture
      ensures n in ParamNames(segments) <==>
                exists i, prefix :: 0 <= i < |segments| && ':' !in prefix && segments[i] == prefix + ":" + n
    {
      ParamIsNamed(segments, n);
    }
    hide Segments;
    hide ParamNames;
  }
}
