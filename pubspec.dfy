/**
 * The pubspec generator: reads the asset list one path per line and renders
 * the `flutter:` section, declaring each directory that holds an asset once
 * and in sorted order, together with a fixed `dependencies:` section.
 */
module Pubspec {
  import opened Wrappers
  import opened PyStr
  import opened PySort

  // ---------------------------------------------------------------------------
  // posixpath.dirname
  // ---------------------------------------------------------------------------

  /** `p.rfind(c)`: the last index holding `c`, or -1. */
  function RFind(p: string, c: char): (i: int)
    ensures -1 <= i < |p|
    ensures i >= 0 ==> p[i] == c
    ensures forall k :: i < k < |p| ==> p[k] != c
    decreases |p|
  {
    if p == [] then -1
    else if p[|p| - 1] == c then |p| - 1
    else RFind(p[..|p| - 1], c)
  }

  /** `head == '/' * len(head)`. */
  predicate AllSlashes(s: string) {
    forall k :: 0 <= k < |s| ==> s[k] == '/'
  }

  /** `s.rstrip('/')`. */
  function RStripSlashes(s: string): (r: string)
    ensures |r| <= |s| && r == s[..|r|]
    ensures r == [] || r[|r| - 1] != '/'
    ensures forall k :: |r| <= k < |s| ==> s[k] == '/'
    decreases |s|
  {
    if s != [] && s[|s| - 1] == '/' then RStripSlashes(s[..|s| - 1]) else s
  }

  /** `os.path.dirname(p)` on POSIX: everything up to the last slash, without
      the trailing slashes unless nothing but slashes is left. */
  function Dirname(p: string): (r: string)
    ensures |r| <= |p| && r == p[..|r|]
    ensures r == "" || r[|r| - 1] != '/' || AllSlashes(r)
  {
    var head := p[..RFind(p, '/') + 1];
    if head != [] && !AllSlashes(head) then RStripSlashes(head) else head
  }

  /** A path has a directory part exactly when it contains a slash. */
  lemma DirnameEmptyIffNoSlash(p: string)
    ensures Dirname(p) == "" <==> '/' !in p
  {
    var i := RFind(p, '/');
    var head := p[..i + 1];
    if '/' in p {
      var k :| 0 <= k < |p| && p[k] == '/';
      assert i >= k;
      if head != [] && !AllSlashes(head) {
        var m :| 0 <= m < |head| && head[m] != '/';
        assert |RStripSlashes(head)| > m;
      }
    } else {
      assert i == -1;
    }
  }

  /** The reference characterisation: the directory of `d/f`, for a file name
      `f` and a directory `d` not ending in a slash, is `d`. */
  lemma DirnameOfJoin(d: string, f: string)
    requires d != "" && d[|d| - 1] != '/' && '/' !in f
    ensures Dirname(d + "/" + f) == d
  {
    var p := d + "/" + f;
    var i := RFind(p, '/');
    assert p[|d|] == '/';
    forall k | |d| < k < |p| ensures p[k] != '/' {
      assert p[k] == f[k - |d| - 1];
    }
    assert i == |d|;
    var head := p[..i + 1];
    assert head == d + "/";
    assert !AllSlashes(head) by {
      assert head[|d| - 1] == d[|d| - 1];
    }
    assert RStripSlashes(head) == RStripSlashes(d) == d;
  }

  // ---------------------------------------------------------------------------
  // From lines to asset directories
  // ---------------------------------------------------------------------------

  /** The stripped, non-blank lines of the asset list. */
  function AssetPaths(lines: seq<string>): set<string> {
    NonEmptyImages(Strip, lines)
  }

  /** The images of the lines under `clean` that are not empty. */
  function NonEmptyImages(clean: string -> string, lines: seq<string>): set<string> {
    set l | l in lines && clean(l) != "" :: clean(l)
  }

  /** The entry a path contributes: its directory and a slash. */
  function AssetDirEntry(p: string): string {
    Dirname(p) + "/"
  }

  /** The directory entries of paths that have a directory. */
  function AssetDirs(paths: set<string>): set<string> {
    set p | p in paths && Dirname(p) != "" :: AssetDirEntry(p)
  }

  // ---------------------------------------------------------------------------
  // Rendering
  // ---------------------------------------------------------------------------

  const FlutterHeader: string := "flutter:\n" + "  uses-material-design: true\n" + "  assets:\n"

  /** One YAML list item of the `assets:` key, without its newline. */
  function ItemLine(entry: string): string {
    "    - " + entry
  }

  /** `f"    - {entry}\n"`. */
  function EntryLine(entry: string): string {
    ItemLine(entry) + "\n"
  }

  function RenderEntries(entries: seq<string>): string
    decreases |entries|
  {
    if entries == [] then ""
    else RenderEntries(entries[..|entries| - 1]) + EntryLine(entries[|entries| - 1])
  }

  const DependenciesSection: string :=
    "dependencies:\n"
    + "  flutter:\n"
    + "    sdk: flutter\n"
    + "  cupertino_icons: ^1.0.2\n"
    + "  in_app_purchase: ^3.1.0 # Or latest compatible\n"
    + "  shared_preferences: ^2.2.0 # Or latest compatible\n"
    + "  # For WebP/GIF display, consider packages like flutter_webp_and_gif or lottie:\n"
    + "  # e.g., flutter_cache_manager for network assets, or a local asset webp viewer\n"
    + "  # For WhatsApp integration or opening URLs:\n"
    + "  url_launcher: ^6.0.0 # Or latest compatible (check latest version)\n"
    + "  flutter_webp_and_gif: ^0.0.4 # Example, check for latest and suitability\n"

  datatype Sections = Sections(flutter: string, dependencies: string)

  // ---------------------------------------------------------------------------
  // generate_pubspec_sections_from_asset_list
  // ---------------------------------------------------------------------------

  /** Builds both sections from the asset list's lines, or nothing when the
      file is missing. The `assets:` key lists each asset directory once, in
      sorted order; the dependencies never depend on the input. */
  method GeneratePubspecSections(assetList: Option<seq<string>>) returns (r: Option<Sections>)
    ensures assetList.None? <==> r.None?
    ensures r.Some? ==> r.value.dependencies == DependenciesSection
    ensures r.Some? ==> |r.value.flutter| >= |FlutterHeader|
                        && r.value.flutter[..|FlutterHeader|] == FlutterHeader
    ensures r.Some? ==> r.value.flutter
                        == FlutterHeader + RenderEntries(SortSet(AssetDirs(AssetPaths(assetList.value))))
  {
    if assetList.None? {
      return None;
    }
    var lines := assetList.value;

    var assetPaths := CollectAssetPaths(lines);
    var finalAssetDirs := CollectAssetDirs(assetPaths);
    var entries := SortedList(finalAssetDirs);

    var flutterAssetsSection := RenderFlutterSection(entries);
    var dependenciesSection := BuildDependenciesSection();
    r := Some(Sections(flutterAssetsSection, dependenciesSection));
  }

  /** The `flutter:` section: the fixed header, then one list item per entry. */
  method RenderFlutterSection(entries: seq<string>) returns (flutterAssetsSection: string)
    ensures flutterAssetsSection == FlutterHeader + RenderEntries(entries)
  {
    flutterAssetsSection := "flutter:\n";
    flutterAssetsSection := flutterAssetsSection + "  uses-material-design: true\n";
    flutterAssetsSection := flutterAssetsSection + "  assets:\n";
    AppendNothing(flutterAssetsSection);
    var k := 0;
    while k < |entries|
      invariant 0 <= k <= |entries|
      invariant flutterAssetsSection == FlutterHeader + RenderEntries(entries[..k])
    {
      RenderStep(FlutterHeader, entries, k);
      flutterAssetsSection := flutterAssetsSection + "    - " + entries[k] + "\n";
      k := k + 1;
    }
    assert entries[..k] == entries;
  }

  lemma AppendNothing(s: string)
    ensures s + "" == s
  {
  }

  /** One turn of the rendering loop, for any text `h` before the entries. */
  lemma RenderStep(h: string, entries: seq<string>, k: int)
    requires 0 <= k < |entries|
    ensures h + RenderEntries(entries[..k]) + "    - " + entries[k] + "\n"
            == h + RenderEntries(entries[..k + 1])
  {
    assert entries[..k + 1][..k] == entries[..k];
  }

  /** The `dependencies:` section, assembled line by line. */
  method BuildDependenciesSection() returns (dependenciesSection: string)
    ensures dependenciesSection == DependenciesSection
  {
    dependenciesSection := "dependencies:\n";
    dependenciesSection := dependenciesSection + "  flutter:\n";
    dependenciesSection := dependenciesSection + "    sdk: flutter\n";
    dependenciesSection := dependenciesSection + "  cupertino_icons: ^1.0.2\n";
    dependenciesSection := dependenciesSection + "  in_app_purchase: ^3.1.0 # Or latest compatible\n";
    dependenciesSection := dependenciesSection + "  shared_preferences: ^2.2.0 # Or latest compatible\n";
    dependenciesSection := dependenciesSection + "  # For WebP/GIF display, consider packages like flutter_webp_and_gif or lottie:\n";
    dependenciesSection := dependenciesSection + "  # e.g., flutter_cache_manager for network assets, or a local asset webp viewer\n";
    dependenciesSection := dependenciesSection + "  # For WhatsApp integration or opening URLs:\n";
    dependenciesSection := dependenciesSection + "  url_launcher: ^6.0.0 # Or latest compatible (check latest version)\n";
    dependenciesSection := dependenciesSection + "  flutter_webp_and_gif: ^0.0.4 # Example, check for latest and suitability\n";
  }

  /** The reading loop: each line stripped, blank lines passed over. */
  method CollectAssetPaths(lines: seq<string>) returns (assetPaths: set<string>)
    ensures assetPaths == AssetPaths(lines)
  {
    assetPaths := {};
    var i := 0;
    while i < |lines|
      invariant 0 <= i <= |lines|
      invariant assetPaths == AssetPaths(lines[..i])
    {
      var line := Strip(lines[i]);
      assert lines[..i + 1] == lines[..i] + [lines[i]];
      AssetPathsSnoc(lines[..i], lines[i]);
      i := i + 1;
      if line == "" {
        continue;
      }
      assetPaths := assetPaths + {line};
    }
    assert lines[..i] == lines;
  }

  /** One more line adds its stripped form, unless that is empty. */
  lemma AssetPathsSnoc(lines: seq<string>, l: string)
    ensures AssetPaths(lines + [l]) == AssetPaths(lines) + (if Strip(l) == "" then {} else {Strip(l)})
  {
    NonEmptyImagesSnoc(Strip, lines, l);
  }

  /** One more line adds its image under `clean`, unless that is empty. */
  lemma NonEmptyImagesSnoc(clean: string -> string, lines: seq<string>, l: string)
    ensures NonEmptyImages(clean, lines + [l])
            == NonEmptyImages(clean, lines) + (if clean(l) == "" then {} else {clean(l)})
  {
    var all := lines + [l];
    forall m | m in all && clean(m) != "" ensures m in lines || m == l {
    }
    forall m | m in lines ensures m in all {
    }
    assert l in all;
  }

  /** The directory loop over the set of paths. */
  method CollectAssetDirs(assetPaths: set<string>) returns (finalAssetDirs: set<string>)
    ensures finalAssetDirs == AssetDirs(assetPaths)
  {
    finalAssetDirs := {};
    var rest := assetPaths;
    while rest != {}
      invariant rest <= assetPaths
      invariant finalAssetDirs == AssetDirs(assetPaths - rest)
      decreases rest
    {
      var pathEntry :| pathEntry in rest;
      var dirPath := Dirname(pathEntry);
      if dirPath != "" {
        finalAssetDirs := finalAssetDirs + {dirPath + "/"};
      }
      assert assetPaths - (rest - {pathEntry}) == (assetPaths - rest) + {pathEntry};
      rest := rest - {pathEntry};
    }
  }

  // ---------------------------------------------------------------------------
  // Properties of the line cleaning
  // ---------------------------------------------------------------------------

  /** Every collected path is a stripped, non-empty line of the input, and
      stripping it again changes nothing. */
  lemma AssetPathsAreStrippedLines(lines: seq<string>, x: string)
    requires x in AssetPaths(lines)
    ensures x != "" && IsTrimmed(x) && Strip(x) == x
    ensures exists k :: 0 <= k < |lines| && Strip(lines[k]) == x
  {
    var l :| l in lines && Strip(l) != "" && Strip(l) == x;
    StripShape(l);
    StripIdempotent(l);
  }

  /** A line is recorded without the whitespace around it. */
  lemma {:induction false} PaddedLineRecorded(lines: seq<string>, k: int, w1: string, core: string, w2: string)
    requires 0 <= k < |lines| && lines[k] == w1 + core + w2
    requires IsBlank(w1) && IsBlank(w2) && IsTrimmed(core) && core != ""
    ensures core in AssetPaths(lines)
  {
    StripAround(w1, core, w2);
    assert lines[k] in lines;
  }

  /** A blank line, wherever it stands, contributes nothing. */
  lemma BlankLineIgnored(before: seq<string>, blank: string, after: seq<string>)
    requires IsBlank(blank)
    ensures AssetPaths(before + [blank] + after) == AssetPaths(before + after)
  {
    StripEmptyIffBlank(blank);
    var with, without := before + [blank] + after, before + after;
    forall l | l in with && Strip(l) != "" ensures l in without {
      assert l != blank;
      assert l in before || l in after;
    }
    forall l | l in without ensures l in with {
      assert l in before || l in after;
    }
    assert AssetPaths(with) <= AssetPaths(without);
    assert AssetPaths(without) <= AssetPaths(with);
  }

  // ---------------------------------------------------------------------------
  // Properties of the directory entries
  // ---------------------------------------------------------------------------

  /** The entries are exactly `dirname(p) + "/"` for the paths that contain a
      slash: a path without one contributes nothing. */
  lemma AssetDirsMembers(paths: set<string>, e: string)
    ensures e in AssetDirs(paths) <==> exists p :: p in paths && '/' in p && e == Dirname(p) + "/"
  {
    if e in AssetDirs(paths) {
      var p :| p in paths && Dirname(p) != "" && e == AssetDirEntry(p);
      DirnameEmptyIffNoSlash(p);
    }
    if exists p :: p in paths && '/' in p && e == Dirname(p) + "/" {
      var p :| p in paths && '/' in p && e == Dirname(p) + "/";
      DirnameEmptyIffNoSlash(p);
      assert e == AssetDirEntry(p);
    }
  }

  /** A path at the top level adds no entry. */
  lemma TopLevelPathIgnored(paths: set<string>, p: string)
    requires '/' !in p
    ensures AssetDirs(paths + {p}) == AssetDirs(paths)
  {
    DirnameEmptyIffNoSlash(p);
  }

  /** Files in the same directory share one entry, that directory and a slash. */
  lemma SameDirectoryOneEntry(d: string, f1: string, f2: string)
    requires d != "" && d[|d| - 1] != '/' && '/' !in f1 && '/' !in f2
    ensures AssetDirs({d + "/" + f1, d + "/" + f2}) == {d + "/"}
  {
    DirnameOfJoin(d, f1);
    DirnameOfJoin(d, f2);
    var paths := {d + "/" + f1, d + "/" + f2};
    assert AssetDirEntry(d + "/" + f1) == d + "/";
    forall e | e in AssetDirs(paths) ensures e == d + "/" {
    }
  }

  // ---------------------------------------------------------------------------
  // Properties of the rendering
  // ---------------------------------------------------------------------------

  /** The YAML list items, one per entry. */
  function ItemLines(entries: seq<string>): (items: seq<string>)
    ensures |items| == |entries|
    ensures forall k :: 0 <= k < |entries| ==> items[k] == ItemLine(entries[k])
    decreases |entries|
  {
    if entries == [] then [] else [ItemLine(entries[0])] + ItemLines(entries[1..])
  }

  lemma {:induction false} RenderEntriesCons(e: string, entries: seq<string>)
    ensures RenderEntries([e] + entries) == EntryLine(e) + RenderEntries(entries)
    decreases |entries|
  {
    if entries != [] {
      var init := entries[..|entries| - 1];
      assert ([e] + entries)[..|entries|] == [e] + init;
      RenderEntriesCons(e, init);
    }
  }

  /** Read back line by line, the rendered entries are one list item each, in
      the order given, followed by the empty rest after the last newline. */
  lemma {:induction false} RenderEntriesLines(entries: seq<string>)
    requires forall k :: 0 <= k < |entries| ==> '\n' !in entries[k]
    ensures Split(RenderEntries(entries), '\n') == ItemLines(entries) + [""]
    decreases |entries|
  {
    if entries != [] {
      var e, rest := entries[0], entries[1..];
      assert entries == [e] + rest;
      RenderEntriesCons(e, rest);
      ItemLineNoNewline(e);
      LineThen(ItemLine(e), RenderEntries(rest));
      RenderEntriesLines(rest);
    }
  }

  lemma ItemLineNoNewline(e: string)
    requires '\n' !in e
    ensures '\n' !in ItemLine(e)
  {
    assert '\n' !in "    - ";
  }

  /** A line and its newline come off the front as one part. */
  lemma LineThen(line: string, rest: string)
    requires '\n' !in line
    ensures Split(line + "\n" + rest, '\n') == [line] + Split(rest, '\n')
  {
    assert line + "\n" + rest == line + ['\n'] + rest;
    SplitAtFirst(line, rest, '\n');
  }

  /** The `flutter:` section, read back line by line: the three header lines,
      then one item per entry. */
  lemma FlutterSectionLines(entries: seq<string>)
    requires forall k :: 0 <= k < |entries| ==> '\n' !in entries[k]
    ensures Split(FlutterHeader + RenderEntries(entries), '\n')
            == ["flutter:", "  uses-material-design: true", "  assets:"] + ItemLines(entries) + [""]
  {
    var body := RenderEntries(entries);
    HeaderLines(body);
    RenderEntriesLines(entries);
    AppendAssoc(["flutter:", "  uses-material-design: true", "  assets:"], ItemLines(entries), [""]);
  }

  lemma AppendAssoc(a: seq<string>, b: seq<string>, c: seq<string>)
    ensures a + (b + c) == a + b + c
  {
  }

  /** A line as reading a text file yields it: a newline at most at its end. */
  predicate IsFileLine(l: string) {
    forall i :: 0 <= i < |l| - 1 ==> l[i] != '\n'
  }

  /** For lines read from a file, the whole `flutter:` section read back line
      by line is the three header lines, then one item for each asset
      directory, each directory once and in increasing order. */
  lemma FlutterSectionListsEachDirOnce(lines: seq<string>)
    requires forall k :: 0 <= k < |lines| ==> IsFileLine(lines[k])
    ensures var entries := SortSet(AssetDirs(AssetPaths(lines)));
            && StrictlySorted(entries)
            && Elems(entries) == AssetDirs(AssetPaths(lines))
            && Split(FlutterHeader + RenderEntries(entries), '\n')
               == ["flutter:", "  uses-material-design: true", "  assets:"] + ItemLines(entries) + [""]
  {
    var entries := SortSet(AssetDirs(AssetPaths(lines)));
    forall k | 0 <= k < |entries| ensures '\n' !in entries[k] {
      assert entries[k] in Elems(entries);
      EntryOfFileLines(lines, entries[k]);
    }
    FlutterSectionLines(entries);
  }

  /** An entry made from file lines holds no newline. */
  lemma EntryOfFileLines(lines: seq<string>, e: string)
    requires forall k :: 0 <= k < |lines| ==> IsFileLine(lines[k])
    requires e in AssetDirs(AssetPaths(lines))
    ensures '\n' !in e
  {
    var p :| p in AssetPaths(lines) && Dirname(p) != "" && e == AssetDirEntry(p);
    PathOfFileLines(lines, p);
    DirEntryNoNewline(p);
  }

  lemma PathOfFileLines(lines: seq<string>, p: string)
    requires forall k :: 0 <= k < |lines| ==> IsFileLine(lines[k])
    requires p in AssetPaths(lines)
    ensures '\n' !in p
  {
    AssetPathsAreStrippedLines(lines, p);
    var k :| 0 <= k < |lines| && Strip(lines[k]) == p;
    StrippedFileLine(lines[k]);
  }

  lemma DirEntryNoNewline(p: string)
    requires '\n' !in p
    ensures '\n' !in AssetDirEntry(p)
  {
    var d := Dirname(p);
    forall j | 0 <= j < |d| ensures d[j] != '\n' {
      assert d[j] == p[j];
    }
    assert AssetDirEntry(p) == d + "/";
  }

  /** Stripping a file line removes its newline. */
  lemma StrippedFileLine(l: string)
    requires IsFileLine(l)
    ensures '\n' !in Strip(l)
  {
    StripShape(l);
    TrimmedInfixOfFileLine(l, StripStart(l), Strip(l));
  }

  /** A trimmed piece of a file line cannot hold its final newline. */
  lemma TrimmedInfixOfFileLine(l: string, st: nat, r: string)
    requires IsFileLine(l) && st + |r| <= |l| && r == l[st..st + |r|] && IsTrimmed(r)
    ensures '\n' !in r
  {
    forall j | 0 <= j < |r| ensures r[j] != '\n' {
      assert r[j] == l[st + j];
      if st + j == |l| - 1 {
        assert j == |r| - 1;
        assert !IsSpace(r[j]);
      }
    }
  }

  /** The header is three lines. */
  lemma HeaderLines(body: string)
    ensures Split(FlutterHeader + body, '\n')
            == ["flutter:", "  uses-material-design: true", "  assets:"] + Split(body, '\n')
  {
    HeaderPieces();
    var p1, p2, p3 := "flutter:\n", "  uses-material-design: true\n", "  assets:\n";
    Regroup(p1, p2, p3, body);
    ThreeLinesThen("flutter:", "  uses-material-design: true", "  assets:", body);
  }

  lemma HeaderPieces()
    ensures "flutter:\n" == "flutter:" + "\n" && '\n' !in "flutter:"
    ensures "  uses-material-design: true\n" == "  uses-material-design: true" + "\n"
            && '\n' !in "  uses-material-design: true"
    ensures "  assets:\n" == "  assets:" + "\n" && '\n' !in "  assets:"
  {
  }

  lemma Regroup(a: string, b: string, c: string, d: string)
    ensures a + b + c + d == a + (b + (c + d))
  {
  }

  lemma ThreeLinesThen(l1: string, l2: string, l3: string, body: string)
    requires '\n' !in l1 && '\n' !in l2 && '\n' !in l3
    ensures Split((l1 + "\n") + ((l2 + "\n") + ((l3 + "\n") + body)), '\n')
            == [l1, l2, l3] + Split(body, '\n')
  {
    var x3 := (l3 + "\n") + body;
    var x2 := (l2 + "\n") + x3;
    LineThen(l1, x2);
    LineThen(l2, x3);
    LineThen(l3, body);
    assert [l1] + ([l2] + ([l3] + Split(body, '\n'))) == [l1, l2, l3] + Split(body, '\n');
  }
}
