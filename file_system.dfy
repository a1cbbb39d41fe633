/**
 * The terminal's file tree (script.js:130-154) and the three walks over it:
 * resolving the current directory (getCurrentDirectory, script.js:500-522),
 * searching names (searchFileSystem, script.js:524-540) and searching file
 * lines (searchInFiles, script.js:542-565).
 *
 * A directory's `contents` object is an association list in insertion
 * order, the order Object.entries gives.  The root object of the tree has
 * absolute paths as its keys and no `type` or `contents` of its own.
 */
module FileSystem {
  import opened JsText
  import opened Wrappers

  datatype Item = File(content: JsString) | Dir(contents: seq<Entry>)
  datatype Entry = Entry(name: JsString, item: Item)

  const Slash: CodeUnit := 0x2F
  const Newline: CodeUnit := 0x0A

  /** The home directory, the only path the root object has a key for. */
  const HomePath: JsString := Units("/home/agent")

  /** `contents[name]`, an own property looked up by name. */
  function Lookup(es: seq<Entry>, name: JsString): (r: Option<Item>)
    ensures r.Some? ==> exists k :: 0 <= k < |es| && es[k] == Entry(name, r.value)
    ensures r.None? ==> forall k :: 0 <= k < |es| ==> es[k].name != name
  {
    if |es| == 0 then None
    else if es[0].name == name then Some(es[0].item)
    else
      var r := Lookup(es[1..], name);
      assert forall k :: 1 <= k < |es| ==> es[k] == es[1..][k - 1];
      r
  }

  // getCurrentDirectory

  /** What a variable `current` of getCurrentDirectory can hold: the root object, or an item of the tree. */
  datatype Node = Root | At(item: Item)

  /**
   * One step of the walk: `current[fullPath]` if it is there, otherwise
   * `current.contents[part]`.  Only the root has keys starting with '/', and
   * only a directory has contents.
   */
  function Step(root: seq<Entry>, current: Node, fullPath: JsString, part: JsString): (r: Option<Node>)
    ensures r.Some? ==> r.value.At?
    ensures current.At? && current.item.File? ==> r.None?
  {
    match current
    case Root =>
      var hit := Lookup(root, fullPath);
      if hit.Some? then Some(At(hit.value)) else None
    case At(File(_)) => None
    case At(Dir(contents)) =>
      var hit := Lookup(contents, part);
      if hit.Some? then Some(At(hit.value)) else None
  }

  /** The rest of the walk from `current`, with `fullPath` the path walked so far; None is `null`. */
  function ResolveFrom(root: seq<Entry>, current: Node, fullPath: JsString, parts: seq<JsString>): (r: Option<Node>)
    ensures |parts| > 0 && r.Some? ==> r.value.At?
    decreases |parts|
  {
    if |parts| == 0 then Some(current)
    else
      var path := fullPath + [Slash] + parts[0];
      var next := Step(root, current, path, parts[0]);
      if next.None? then None else ResolveFrom(root, next.value, path, parts[1..])
  }

  /** `currentDirectory.split('/').filter(p => p)`. */
  function PathParts(cwd: JsString): seq<JsString>
  {
    NonEmpty(Split(cwd, Slash))
  }

  /** What getCurrentDirectory returns for the current directory `cwd`. */
  function CurrentDirectory(root: seq<Entry>, cwd: JsString): Option<Node>
  {
    if cwd == HomePath then
      var home := Lookup(root, HomePath);
      if home.Some? then Some(At(home.value)) else None
    else
      ResolveFrom(root, Root, [], PathParts(cwd))
  }

  /** The pieces split gives contain no separator. */
  lemma {:induction false} SplitNoSep(s: JsString, sep: CodeUnit)
    ensures forall k :: 0 <= k < |Split(s, sep)| ==> sep !in Split(s, sep)[k]
    decreases |s|
  {
    if |s| > 0 {
      SplitNoSep(s[1..], sep);
    }
  }

  lemma PathPartsNoSlash(cwd: JsString)
    ensures forall k :: 0 <= k < |PathParts(cwd)| ==> Slash !in PathParts(cwd)[k]
  {
    SplitNoSep(cwd, Slash);
  }

  /** Adding a segment after a slash adds its parts at the end. */
  lemma PathPartsAppend(cwd: JsString, segment: JsString)
    ensures PathParts(cwd + [Slash] + segment) == PathParts(cwd) + PathParts(segment)
  {
    SplitAroundSep(cwd, segment, Slash);
    NonEmptyAppend(Split(cwd, Slash), Split(segment, Slash));
  }

  /** A path built as '/' + parts.join('/') has exactly those parts, when none is empty or holds a slash. */
  lemma PathPartsOfJoin(parts: seq<JsString>)
    requires |parts| >= 1
    requires forall k :: 0 <= k < |parts| ==> parts[k] != [] && Slash !in parts[k]
    ensures PathParts([Slash] + Join(parts, Slash)) == parts
  {
    var j := Join(parts, Slash);
    SplitJoin(parts, Slash);
    SplitLeadingSep(j);
    NonEmptyDropsEmpty(parts);
    NonEmptyKeepsAll(parts);
  }

  lemma SplitLeadingSep(j: JsString)
    ensures Split([Slash] + j, Slash) == [[]] + Split(j, Slash)
  {
    assert ([Slash] + j)[1..] == j;
  }

  lemma NonEmptyDropsEmpty(parts: seq<JsString>)
    ensures NonEmpty([[]] + parts) == NonEmpty(parts)
  {
    assert ([[]] + parts)[1..] == parts;
  }

  /** A string with a character other than the separator has a non-empty piece. */
  lemma {:induction false} SomePiece(s: JsString, sep: CodeUnit, i: nat)
    requires i < |s| && s[i] != sep
    ensures |NonEmpty(Split(s, sep))| > 0
    decreases i
  {
    if s[0] == sep {
      SomePiece(s[1..], sep, i - 1);
      assert Split(s, sep) == [[]] + Split(s[1..], sep);
    }
  }

  lemma HomePathHasParts()
    ensures |PathParts(HomePath)| > 0
  {
    assert HomePath[1] == 'h' as int;
    SomePiece(HomePath, Slash, 1);
  }

  /** Every key of the root is an absolute path of two or more segments, like "/home/agent". */
  predicate DeepKeys(root: seq<Entry>)
  {
    forall k :: 0 <= k < |root| ==> |root[k].name| > 0 && Slash in root[k].name[1..]
  }

  /**
   * When the root's keys all have two or more segments, the home directory
   * is the only path that resolves to an item: any other path resolves to the
   * root object itself when it has no segment, and to null otherwise.
   */
  lemma OnlyHomeResolves(root: seq<Entry>, cwd: JsString)
    requires DeepKeys(root) && cwd != HomePath
    ensures CurrentDirectory(root, cwd) == (if |PathParts(cwd)| == 0 then Some(Root) else None)
  {
    var parts := PathParts(cwd);
    if |parts| > 0 {
      PathPartsNoSlash(cwd);
    }
  }

  /** The home directory resolves to the root's entry for it. */
  lemma HomeResolves(root: seq<Entry>, home: Item)
    requires Lookup(root, HomePath) == Some(home)
    ensures CurrentDirectory(root, HomePath) == Some(At(home))
  {
  }

  // A walk of the tree in the order Object.entries and the recursion visit it.

  /** `path ? `${path}/${name}` : name`. */
  function FullPath(path: JsString, name: JsString): JsString
  {
    if path == [] then name else path + [Slash] + name
  }

  datatype Visit = Visit(path: JsString, name: JsString, item: Item)

  /** Every entry under `es`, each directory before what it contains. */
  function Walk(path: JsString, es: seq<Entry>): seq<Visit>
    decreases es
  {
    if |es| == 0 then []
    else
      var e := es[0];
      var fp := FullPath(path, e.name);
      [Visit(fp, e.name, e.item)] + ((if e.item.Dir? then Walk(fp, e.item.contents) else []) + Walk(path, es[1..]))
  }

  // searchFileSystem

  /** `name.toLowerCase().includes(searchTerm.toLowerCase())`. */
  predicate NameMatches(term: JsString, name: JsString)
  {
    Includes(ToLower(name), ToLower(term))
  }

  /** What searchFileSystem returns: the paths of the entries whose names match, in walk order. */
  function SearchNames(term: JsString, path: JsString, es: seq<Entry>): seq<JsString>
    decreases es
  {
    if |es| == 0 then []
    else
      var e := es[0];
      var fp := FullPath(path, e.name);
      (if NameMatches(term, e.name) then [fp] else [])
      + ((if e.item.Dir? then SearchNames(term, fp, e.item.contents) else []) + SearchNames(term, path, es[1..]))
  }

  lemma SearchNamesAt(term: JsString, path: JsString, es: seq<Entry>, i: nat)
    requires i < |es|
    ensures SearchNames(term, path, es[i..])
      == ((if NameMatches(term, es[i].name) then [FullPath(path, es[i].name)] else [])
          + (if es[i].item.Dir? then SearchNames(term, FullPath(path, es[i].name), es[i].item.contents) else []))
         + SearchNames(term, path, es[i + 1..])
  {
    var t := es[i..];
    assert t[0] == es[i] && t[1..] == es[i + 1..];
  }

  /** searchFileSystem (script.js:524-540), over the entries `es` of the object it is given. */
  method SearchFileSystem(term: JsString, path: JsString, es: seq<Entry>) returns (results: seq<JsString>)
    ensures results == SearchNames(term, path, es)
    decreases es
  {
    results := [];
    var i := 0;
    while i < |es|
      invariant 0 <= i <= |es|
      invariant results + SearchNames(term, path, es[i..]) == SearchNames(term, path, es)
    {
      var e := es[i];
      var fp := FullPath(path, e.name);
      SearchNamesAt(term, path, es, i);
      var found := if NameMatches(term, e.name) then [fp] else [];
      var sub := [];
      if e.item.Dir? {
        sub := SearchFileSystem(term, fp, e.item.contents);
      }
      Regroup(results, found + sub, SearchNames(term, path, es[i + 1..]));
      results := results + (found + sub);
      i := i + 1;
    }
    assert es[i..] == [];
  }

  /** The paths of the visits whose names match the term. */
  function MatchingPaths(term: JsString, vs: seq<Visit>): (r: seq<JsString>)
    ensures |r| <= |vs|
  {
    if |vs| == 0 then []
    else (if NameMatches(term, vs[0].name) then [vs[0].path] else []) + MatchingPaths(term, vs[1..])
  }

  lemma {:induction false} MatchingPathsAppend(term: JsString, a: seq<Visit>, b: seq<Visit>)
    ensures MatchingPaths(term, a + b) == MatchingPaths(term, a) + MatchingPaths(term, b)
    decreases |a|
  {
    if |a| > 0 {
      assert (a + b)[1..] == a[1..] + b;
      MatchingPathsAppend(term, a[1..], b);
    } else {
      assert a + b == b;
    }
  }

  /** searchFileSystem lists exactly the paths of the walk whose names match, in walk order. */
  lemma {:induction false} SearchIsFilteredWalk(term: JsString, path: JsString, es: seq<Entry>)
    ensures SearchNames(term, path, es) == MatchingPaths(term, Walk(path, es))
    decreases es
  {
    if |es| > 0 {
      var e := es[0];
      var fp := FullPath(path, e.name);
      var v := Visit(fp, e.name, e.item);
      var inner := if e.item.Dir? then Walk(fp, e.item.contents) else [];
      var rest := Walk(path, es[1..]);
      if e.item.Dir? {
        SearchIsFilteredWalk(term, fp, e.item.contents);
      }
      SearchIsFilteredWalk(term, path, es[1..]);
      MatchingPathsAppend(term, [v], inner + rest);
      MatchingPathsAppend(term, inner, rest);
    }
  }

  /** The search term is compared without regard to ASCII case. */
  lemma {:induction false} SearchIgnoresTermCase(term: JsString, path: JsString, es: seq<Entry>)
    ensures SearchNames(ToLower(term), path, es) == SearchNames(term, path, es)
    decreases es
  {
    if |es| > 0 {
      var e := es[0];
      ToLowerIdempotent(term);
      assert NameMatches(ToLower(term), e.name) == NameMatches(term, e.name);
      if e.item.Dir? {
        SearchIgnoresTermCase(term, FullPath(path, e.name), e.item.contents);
      }
      SearchIgnoresTermCase(term, path, es[1..]);
    }
  }

  // searchInFiles

  /** One result of searchInFiles: `{file, line, lineNumber}`. */
  datatype LineMatch = LineMatch(file: JsString, line: JsString, lineNumber: nat)

  predicate LineMatches(pattern: JsString, line: JsString)
  {
    Includes(ToLower(line), pattern)
  }

  /**
   * The forEach over the lines of one file, `index` being the position of
   * lines[0] in the file: a match for each line whose lowercase form contains
   * the pattern, with the line trimmed and numbered from 1, in line order.
   */
  function GrepLines(pattern: JsString, file: JsString, lines: seq<JsString>, index: nat): (r: seq<LineMatch>)
    ensures |r| <= |lines|
  {
    if |lines| == 0 then []
    else
      (if LineMatches(pattern, lines[0]) then [LineMatch(file, Trim(lines[0]), index + 1)] else [])
      + GrepLines(pattern, file, lines[1..], index + 1)
  }

  /** m reports line m.lineNumber of `lines` (numbered from index + 1): a line that contains the pattern, trimmed. */
  predicate ReportsLine(pattern: JsString, file: JsString, lines: seq<JsString>, index: nat, m: LineMatch)
  {
    index < m.lineNumber <= index + |lines| && m.file == file
    && m.line == Trim(lines[m.lineNumber - 1 - index])
    && LineMatches(pattern, lines[m.lineNumber - 1 - index])
  }

  lemma ReportsLineShift(pattern: JsString, file: JsString, lines: seq<JsString>, index: nat, m: LineMatch)
    requires |lines| > 0 && ReportsLine(pattern, file, lines[1..], index + 1, m)
    ensures ReportsLine(pattern, file, lines, index, m)
  {
    assert lines[1..][m.lineNumber - 1 - (index + 1)] == lines[m.lineNumber - 1 - index];
  }

  lemma {:induction false} GrepLinesBounds(pattern: JsString, file: JsString, lines: seq<JsString>, index: nat)
    ensures forall k :: 0 <= k < |GrepLines(pattern, file, lines, index)| ==>
      index < GrepLines(pattern, file, lines, index)[k].lineNumber <= index + |lines|
    decreases |lines|
  {
    if |lines| > 0 {
      GrepLinesBounds(pattern, file, lines[1..], index + 1);
    }
  }

  /** Every match in r reports a line of `lines`. */
  predicate AllReport(pattern: JsString, file: JsString, lines: seq<JsString>, index: nat, r: seq<LineMatch>)
  {
    forall k :: 0 <= k < |r| ==> ReportsLine(pattern, file, lines, index, r[k])
  }

  lemma AllReportCons(pattern: JsString, file: JsString, lines: seq<JsString>, index: nat, rest: seq<LineMatch>)
    requires |lines| > 0 && AllReport(pattern, file, lines[1..], index + 1, rest)
    ensures AllReport(pattern, file, lines, index, rest)
    ensures LineMatches(pattern, lines[0]) ==>
      AllReport(pattern, file, lines, index, [LineMatch(file, Trim(lines[0]), index + 1)] + rest)
  {
    forall k | 0 <= k < |rest|
      ensures ReportsLine(pattern, file, lines, index, rest[k])
    {
      ReportsLineShift(pattern, file, lines, index, rest[k]);
    }
    var r := [LineMatch(file, Trim(lines[0]), index + 1)] + rest;
    forall k | 0 < k < |r|
      ensures ReportsLine(pattern, file, lines, index, r[k])
    {
      assert r[k] == rest[k - 1];
    }
  }

  /** Each match of one file is a line that contains the pattern, trimmed and numbered from 1. */
  lemma {:induction false} GrepLinesSound(pattern: JsString, file: JsString, lines: seq<JsString>, index: nat)
    ensures AllReport(pattern, file, lines, index, GrepLines(pattern, file, lines, index))
    decreases |lines|
  {
    if |lines| > 0 {
      GrepLinesSound(pattern, file, lines[1..], index + 1);
      AllReportCons(pattern, file, lines, index, GrepLines(pattern, file, lines[1..], index + 1));
    }
  }

  /** Line n is among the matches r. */
  predicate Reported(r: seq<LineMatch>, n: nat)
  {
    exists k :: 0 <= k < |r| && r[k].lineNumber == n
  }

  /** Every line that contains the pattern has a match. */
  lemma {:induction false} GrepLinesComplete(pattern: JsString, file: JsString, lines: seq<JsString>, index: nat)
    ensures forall j :: 0 <= j < |lines| && LineMatches(pattern, lines[j]) ==>
      Reported(GrepLines(pattern, file, lines, index), index + j + 1)
    decreases |lines|
  {
    if |lines| > 0 {
      GrepLinesComplete(pattern, file, lines[1..], index + 1);
      var rest := GrepLines(pattern, file, lines[1..], index + 1);
      var head := if LineMatches(pattern, lines[0]) then [LineMatch(file, Trim(lines[0]), index + 1)] else [];
      var r := head + rest;
      assert r == GrepLines(pattern, file, lines, index);
      forall j | 0 <= j < |lines| && LineMatches(pattern, lines[j])
        ensures Reported(r, index + j + 1)
      {
        if j == 0 {
          assert r[0].lineNumber == index + 1;
        } else {
          assert lines[1..][j - 1] == lines[j];
          assert Reported(rest, index + 1 + (j - 1) + 1);
          var k' :| 0 <= k' < |rest| && rest[k'].lineNumber == index + j + 1;
          assert r[|head| + k'] == rest[k'];
        }
      }
    }
  }

  /** Strictly increasing line numbers. */
  predicate Ascending(r: seq<LineMatch>)
  {
    forall k1, k2 :: 0 <= k1 < k2 < |r| ==> r[k1].lineNumber < r[k2].lineNumber
  }

  lemma AscendingCons(m: LineMatch, rest: seq<LineMatch>)
    requires Ascending(rest)
    requires forall k :: 0 <= k < |rest| ==> m.lineNumber < rest[k].lineNumber
    ensures Ascending([m] + rest)
  {
    var r := [m] + rest;
    forall k1, k2 | 0 <= k1 < k2 < |r|
      ensures r[k1].lineNumber < r[k2].lineNumber
    {
      assert r[k2] == rest[k2 - 1];
      if k1 > 0 {
        assert r[k1] == rest[k1 - 1];
      }
    }
  }

  /** The matches of one file come in line order, each line at most once. */
  lemma {:induction false} GrepLinesOrdered(pattern: JsString, file: JsString, lines: seq<JsString>, index: nat)
    ensures Ascending(GrepLines(pattern, file, lines, index))
    decreases |lines|
  {
    if |lines| > 0 {
      GrepLinesOrdered(pattern, file, lines[1..], index + 1);
      GrepLinesBounds(pattern, file, lines[1..], index + 1);
      var rest := GrepLines(pattern, file, lines[1..], index + 1);
      if LineMatches(pattern, lines[0]) {
        AscendingCons(LineMatch(file, Trim(lines[0]), index + 1), rest);
      }
    }
  }

  lemma GrepLinesAt(pattern: JsString, file: JsString, lines: seq<JsString>, j: nat)
    requires j < |lines|
    ensures GrepLines(pattern, file, lines[j..], j)
      == (if LineMatches(pattern, lines[j]) then [LineMatch(file, Trim(lines[j]), j + 1)] else [])
         + GrepLines(pattern, file, lines[j + 1..], j + 1)
  {
    assert lines[j..][1..] == lines[j + 1..];
  }

  /** `item.type === 'file' && item.content`: a file with text in it. */
  predicate HasText(item: Item)
  {
    item.File? && item.content != []
  }

  /** What searchInFiles returns: the line matches of every file with text, in walk order. */
  function GrepTree(pattern: JsString, path: JsString, es: seq<Entry>): seq<LineMatch>
    decreases es
  {
    if |es| == 0 then []
    else
      var e := es[0];
      var fp := FullPath(path, e.name);
      (if HasText(e.item) then GrepLines(pattern, fp, Split(e.item.content, Newline), 0)
       else if e.item.Dir? then GrepTree(pattern, fp, e.item.contents)
       else [])
      + GrepTree(pattern, path, es[1..])
  }

  lemma GrepTreeAt(pattern: JsString, path: JsString, es: seq<Entry>, i: nat)
    requires i < |es|
    ensures GrepTree(pattern, path, es[i..])
      == (if HasText(es[i].item) then GrepLines(pattern, FullPath(path, es[i].name), Split(es[i].item.content, Newline), 0)
          else if es[i].item.Dir? then GrepTree(pattern, FullPath(path, es[i].name), es[i].item.contents)
          else [])
         + GrepTree(pattern, path, es[i + 1..])
  {
    assert es[i..][1..] == es[i + 1..];
  }

  /** The lines of one file (the forEach of searchInFiles). */
  method GrepFile(pattern: JsString, file: JsString, content: JsString) returns (results: seq<LineMatch>)
    ensures results == GrepLines(pattern, file, Split(content, Newline), 0)
  {
    var lines := Split(content, Newline);
    results := [];
    var j := 0;
    while j < |lines|
      invariant 0 <= j <= |lines|
      invariant results + GrepLines(pattern, file, lines[j..], j) == GrepLines(pattern, file, lines, 0)
    {
      GrepLinesAt(pattern, file, lines, j);
      var found := [];
      if LineMatches(pattern, lines[j]) {
        found := [LineMatch(file, Trim(lines[j]), j + 1)];
      }
      Regroup(results, found, GrepLines(pattern, file, lines[j + 1..], j + 1));
      results := results + found;
      j := j + 1;
    }
    assert lines[j..] == [];
  }

  /** searchInFiles (script.js:542-565), over the entries `es` of the object it is given. */
  method SearchInFiles(pattern: JsString, path: JsString, es: seq<Entry>) returns (results: seq<LineMatch>)
    ensures results == GrepTree(pattern, path, es)
    decreases es
  {
    results := [];
    var i := 0;
    while i < |es|
      invariant 0 <= i <= |es|
      invariant results + GrepTree(pattern, path, es[i..]) == GrepTree(pattern, path, es)
    {
      var e := es[i];
      var fp := FullPath(path, e.name);
      GrepTreeAt(pattern, path, es, i);
      var found := [];
      if HasText(e.item) {
        found := GrepFile(pattern, fp, e.item.content);
      } else if e.item.Dir? {
        found := SearchInFiles(pattern, fp, e.item.contents);
      }
      Regroup(results, found, GrepTree(pattern, path, es[i + 1..]));
      results := results + found;
      i := i + 1;
    }
    assert es[i..] == [];
  }

  /** The matches one visit of the walk contributes. */
  function VisitMatches(pattern: JsString, v: Visit): seq<LineMatch>
  {
    if HasText(v.item) then GrepLines(pattern, v.path, Split(v.item.content, Newline), 0) else []
  }

  function WalkMatches(pattern: JsString, vs: seq<Visit>): seq<LineMatch>
  {
    if |vs| == 0 then [] else VisitMatches(pattern, vs[0]) + WalkMatches(pattern, vs[1..])
  }

  lemma {:induction false} WalkMatchesAppend(pattern: JsString, a: seq<Visit>, b: seq<Visit>)
    ensures WalkMatches(pattern, a + b) == WalkMatches(pattern, a) + WalkMatches(pattern, b)
    decreases |a|
  {
    if |a| > 0 {
      assert (a + b)[1..] == a[1..] + b;
      WalkMatchesAppend(pattern, a[1..], b);
    } else {
      assert a + b == b;
    }
  }

  /** searchInFiles greps the files of the walk one after the other, in walk order. */
  lemma {:induction false} GrepIsWalk(pattern: JsString, path: JsString, es: seq<Entry>)
    ensures GrepTree(pattern, path, es) == WalkMatches(pattern, Walk(path, es))
    decreases es
  {
    if |es| > 0 {
      var e := es[0];
      var fp := FullPath(path, e.name);
      var v := Visit(fp, e.name, e.item);
      var inner := if e.item.Dir? then Walk(fp, e.item.contents) else [];
      var rest := Walk(path, es[1..]);
      if e.item.Dir? {
        GrepIsWalk(pattern, fp, e.item.contents);
      }
      GrepIsWalk(pattern, path, es[1..]);
      WalkMatchesAppend(pattern, [v], inner + rest);
      WalkMatchesAppend(pattern, inner, rest);
    }
  }
}
