/**
 * The two scripts run one after the other: the asset list is written one
 * path per line, and the pubspec generator reads those lines back. These
 * lemmas relate the generators' results to each other and the Flutter
 * sticker paths to the source image paths.
 */
module Pipeline {
  import opened Wrappers
  import opened PyStr
  import opened PySort
  import opened AssetList
  import opened Pubspec

  /** The lines of `asset_list.txt`: each path followed by a newline. Reading
      the file gives these lines back only for paths without line breaks
      (`NoLineBreak`); `for line in f` in text mode also ends a line at `\r`. */
  function AssetListLines(paths: seq<string>): (lines: seq<string>)
    ensures |lines| == |paths|
    ensures forall k :: 0 <= k < |paths| ==> lines[k] == paths[k] + "\n"
    decreases |paths|
  {
    if paths == [] then [] else AssetListLines(paths[..|paths| - 1]) + [paths[|paths| - 1] + "\n"]
  }

  /** No `\n` and no `\r`: the text stays one line when written and read back. */
  predicate NoLineBreak(t: string) {
    '\n' !in t && '\r' !in t
  }

  /** Paths without newlines are written as lines a file can give back. */
  lemma AssetListLinesAreFileLines(paths: seq<string>)
    requires forall k :: 0 <= k < |paths| ==> '\n' !in paths[k]
    ensures forall k :: 0 <= k < |paths| ==> IsFileLine(AssetListLines(paths)[k])
  {
    forall k | 0 <= k < |paths| ensures IsFileLine(AssetListLines(paths)[k]) {
      var l := AssetListLines(paths)[k];
      forall i | 0 <= i < |l| - 1 ensures l[i] != '\n' {
        assert l[i] == paths[k][i];
      }
    }
  }

  /** The first token of a set name, as both functions of the asset-list
      script take it. */
  function FirstToken(stickerSetName: string): string {
    Split(stickerSetName, ' ')[0]
  }

  // ---------------------------------------------------------------------------
  // Every sticker directory reaches the pubspec
  // ---------------------------------------------------------------------------

  /** Every directory the asset list puts a sticker in is declared under
      `assets:` when the list is fed to the pubspec generator, provided the
      set name's first token is not empty and does not end in a slash (where
      `dirname` would drop slashes the path keeps). */
  lemma StickerDirectoryDeclared(categories: seq<seq<Pack>>, i: int, j: int, s: string)
    requires 0 <= i < |categories| && 0 <= j < |categories[i]|
    requires !Skipped(categories[i][j]) && s in NamesOf(categories[i][j])
    requires '/' !in s
    requires NoLineBreak(SetNameOf(categories[i][j])) && NoLineBreak(s)
    requires var t := FirstToken(SetNameOf(categories[i][j])); t != "" && t[|t| - 1] != '/'
    ensures StickerAssetDir(SetNameOf(categories[i][j])) + "/"
            in AssetDirs(AssetPaths(AssetListLines(SortSet(AllAssetPaths(categories)))))
  {
    var name := SetNameOf(categories[i][j]);
    StickerPathCollected(categories, i, j, s);
    assert StickerAssetDir(name) == "assets/stickers/" + StickerSubDir(name);
    PathLineStrips(StickerSubDir(name), s);
    StickerPathNoLineBreak(name, s);
    StickerDirShape(name);
    ListedDirDeclared(SortSet(AllAssetPaths(categories)), StickerAssetDir(name), s);
  }

  /** A file listed directly in `dir` makes the pubspec generator declare `dir/`. */
  lemma ListedDirDeclared(r: seq<string>, dir: string, s: string)
    requires var x := PngPath(dir, s); x in Elems(r) && x != "" && IsTrimmed(x) && NoLineBreak(x)
    requires dir != "" && dir[|dir| - 1] != '/' && '/' !in s
    ensures dir + "/" in AssetDirs(AssetPaths(AssetListLines(r)))
  {
    ListedPathRead(r, PngPath(dir, s));
    DeclaredDir(AssetPaths(AssetListLines(r)), dir, s);
  }

  /** The generator collects the path of every sticker of every pack it keeps. */
  lemma StickerPathCollected(categories: seq<seq<Pack>>, i: int, j: int, s: string)
    requires 0 <= i < |categories| && 0 <= j < |categories[i]|
    requires !Skipped(categories[i][j]) && s in NamesOf(categories[i][j])
    ensures PngPath(StickerAssetDir(SetNameOf(categories[i][j])), s) in Elems(SortSet(AllAssetPaths(categories)))
  {
    var x := PngPath(StickerAssetDir(SetNameOf(categories[i][j])), s);
    PackAssetPathsMembers(categories[i][j], x);
    StickerPathsMembers(categories, x);
  }

  /** A listed path that has no whitespace at its ends is read back as it was written. */
  lemma ListedPathRead(r: seq<string>, x: string)
    requires x in Elems(r) && x != "" && IsTrimmed(x) && NoLineBreak(x)
    ensures x in AssetPaths(AssetListLines(r))
  {
    var k :| 0 <= k < |r| && r[k] == x;
    var lines := AssetListLines(r);
    assert lines[k] == "" + x + "\n";
    assert IsBlank("") && IsBlank("\n");
    PaddedLineRecorded(lines, k, "", x, "\n");
  }

  /** A sticker path has a line break only where its set name or sticker name has one. */
  lemma StickerPathNoLineBreak(name: string, s: string)
    requires NoLineBreak(name) && NoLineBreak(s)
    ensures NoLineBreak(PngPath(StickerAssetDir(name), s))
  {
    SubDirNoLineBreak(name);
    RootNoLineBreak();
    assert StickerAssetDir(name) == "assets/stickers/" + StickerSubDir(name);
    JoinedNoLineBreak("assets/stickers/", StickerSubDir(name), s);
  }

  lemma RootNoLineBreak()
    ensures NoLineBreak("assets/stickers/")
  {
  }

  lemma SubDirNoLineBreak(name: string)
    requires NoLineBreak(name)
    ensures NoLineBreak(StickerSubDir(name))
  {
    var parts := Split(name, ' ');
    SplitPartsLack(name, ' ', '\n');
    SplitPartsLack(name, ' ', '\r');
    DirNoLineBreak(parts[0]);
    DigitTokenNoLineBreak(parts);
    var dir := FlutterDirCategory(parts[0]);
    var n := FirstDigitToken(parts);
    PiecesNoLineBreak(dir, n, n != "" && !IsFlatDir(dir));
  }

  lemma PiecesNoLineBreak(dir: string, n: string, numbered: bool)
    requires NoLineBreak(dir) && NoLineBreak(n)
    ensures NoLineBreak(dir + (if numbered then "/" + n else ""))
  {
  }

  lemma JoinedNoLineBreak(root: string, sub: string, s: string)
    requires NoLineBreak(root) && NoLineBreak(sub) && NoLineBreak(s)
    ensures NoLineBreak(PngPath(root + sub, s))
  {
  }

  lemma DirNoLineBreak(t: string)
    requires NoLineBreak(t)
    ensures NoLineBreak(FlutterDirCategory(t))
  {
    DirMapValuesNoLineBreak();
    var c := Capitalize(t);
    forall k | 0 <= k < |c| ensures c[k] != '\n' && c[k] != '\r' {
      assert t[k] != '\n' && t[k] != '\r';
    }
  }

  lemma DirMapValuesNoLineBreak()
    ensures forall key :: key in DirMap ==> NoLineBreak(DirMap[key])
  {
  }

  lemma DigitTokenNoLineBreak(parts: seq<string>)
    ensures NoLineBreak(FirstDigitToken(parts))
  {
    var n := FirstDigitToken(parts);
    if n != "" {
      assert IsDigits(n);
      forall k | 0 <= k < |n| ensures n[k] != '\n' && n[k] != '\r' {
        assert IsAsciiDigit(n[k]);
      }
    }
  }

  /** A file `s` directly in `dir` declares `dir/`. */
  lemma DeclaredDir(paths: set<string>, dir: string, s: string)
    requires PngPath(dir, s) in paths
    requires dir != "" && dir[|dir| - 1] != '/' && '/' !in s
    ensures dir + "/" in AssetDirs(paths)
  {
    var x := PngPath(dir, s);
    assert '/' !in s + ".png";
    assert x == dir + "/" + (s + ".png");
    DirnameOfJoin(dir, s + ".png");
    AssetDirsMembers(paths, dir + "/");
  }

  /** A sticker path starts with `a` and ends with `g`, so it has no
      whitespace at its ends. */
  lemma PathLineStrips(sub: string, s: string)
    ensures var x := PngPath("assets/stickers/" + sub, s); IsTrimmed(x) && x != ""
  {
    var x := PngPath("assets/stickers/" + sub, s);
    assert x[0] == 'a';
    assert x[|x| - 1] == 'g';
  }

  /** The sticker directory is not empty and does not end in a slash when the
      set name's first token does not. */
  lemma StickerDirShape(stickerSetName: string)
    requires var t := FirstToken(stickerSetName); t != "" && t[|t| - 1] != '/'
    ensures var d := StickerAssetDir(stickerSetName); d != "" && d[|d| - 1] != '/'
  {
    StickerSubDirShape(stickerSetName);
    assert StickerAssetDir(stickerSetName) == "assets/stickers/" + StickerSubDir(stickerSetName);
    PrefixKeepsEnd("assets/stickers/", StickerSubDir(stickerSetName));
  }

  lemma StickerSubDirShape(stickerSetName: string)
    requires var t := FirstToken(stickerSetName); t != "" && t[|t| - 1] != '/'
    ensures var d := StickerSubDir(stickerSetName); d != "" && d[|d| - 1] != '/'
  {
    var parts := Split(stickerSetName, ' ');
    var dir := FlutterDirCategory(parts[0]);
    FlutterDirEndsWell(parts[0]);
    var n := FirstDigitToken(parts);
    DigitTokenEndsWell(parts);
    SubDirEndsWell(dir, n, IsFlatDir(dir));
  }

  lemma FlutterDirEndsWell(t: string)
    requires t != "" && t[|t| - 1] != '/'
    ensures var d := FlutterDirCategory(t); d != "" && d[|d| - 1] != '/'
  {
    DirMapValuesEndWell();
    CapitalizeKeepsLastNonSlash(t);
  }

  lemma DigitTokenEndsWell(parts: seq<string>)
    ensures var n := FirstDigitToken(parts); n == "" || n[|n| - 1] != '/'
  {
    var n := FirstDigitToken(parts);
    if n != "" {
      assert IsDigits(n);
      assert IsAsciiDigit(n[|n| - 1]);
    }
  }

  lemma SubDirEndsWell(dir: string, n: string, flat: bool)
    requires dir != "" && dir[|dir| - 1] != '/'
    requires n == "" || n[|n| - 1] != '/'
    ensures var d := dir + (if n != "" && !flat then "/" + n else ""); d != "" && d[|d| - 1] != '/'
  {
    var d := dir + (if n != "" && !flat then "/" + n else "");
    if n != "" && !flat {
      assert d[|d| - 1] == n[|n| - 1];
    } else {
      assert d == dir;
    }
  }

  lemma PrefixKeepsEnd(prefix: string, d: string)
    requires d != "" && d[|d| - 1] != '/'
    ensures var e := prefix + d; e != "" && e[|e| - 1] != '/'
  {
    var e := prefix + d;
    assert e[|e| - 1] == d[|d| - 1];
  }

  lemma DirMapValuesEndWell()
    ensures forall key :: key in DirMap ==> DirMap[key] != "" && DirMap[key][|DirMap[key]| - 1] != '/'
  {
  }

  lemma CapitalizeKeepsLastNonSlash(t: string)
    requires t != "" && t[|t| - 1] != '/'
    ensures var c := Capitalize(t); c != "" && c[|c| - 1] != '/'
  {
  }

  // ---------------------------------------------------------------------------
  // Flutter paths mirror the source paths
  // ---------------------------------------------------------------------------

  /** For a set name of the usual form "CATEGORY N" with a word as category,
      the Flutter asset path is the source image path with the extension's
      directory replaced by `assets/stickers`: `get_sticker_file_path` and
      `generate_flutter_asset_paths` agree on the
      directory, on the flat categories and on the numbered sub-folder. */
  lemma FlutterPathMirrorsSourcePath(category: string, number: string, s: string)
    requires ' ' !in category && !IsDigits(category) && IsDigits(number)
    ensures var name := category + " " + number;
            var src := GetStickerFilePath(name, s);
            |src| > |SourceBase| + 1
            && PngPath(StickerAssetDir(name), s) == "assets/stickers/" + src[|SourceBase| + 1..]
  {
    var dir := FlutterDirCategory(category);
    NumberedSetSourcePath(category, number, s);
    DirCategoryIgnoresCase(category, category);
    NumberedSetSubDir(category, number);
    RelocatedTail(SourceBase, dir, number, s, IsFlatDir(dir));
  }

  /** The Flutter side of a "CATEGORY N" set name: the number is the first
      numeric token. */
  lemma NumberedSetSubDir(category: string, number: string)
    requires ' ' !in category && !IsDigits(category) && IsDigits(number)
    ensures var dir := FlutterDirCategory(category);
            StickerSubDir(category + " " + number) == dir + (if IsFlatDir(dir) then "" else "/" + number)
  {
    assert ' ' !in number;
    TwoTokens(category, number);
    FirstDigitTokenAt([category, number], 1);
  }

  lemma TwoTokens(a: string, b: string)
    requires ' ' !in a && ' ' !in b
    ensures Split(a + " " + b, ' ') == [a, b]
  {
    assert a + " " + b == a + [' '] + b;
    SplitAtFirst(a, b, ' ');
    SplitNoSep(b, ' ');
  }

  /** The string identity behind the mirroring, for any parts. */
  lemma RelocatedTail(base: string, dir: string, number: string, s: string, flat: bool)
    ensures var src := base + "/" + dir + "/" + (if flat then "" else number + "/") + s + ".png";
            |src| > |base| + 1
            && PngPath("assets/stickers/" + (dir + (if flat then "" else "/" + number)), s)
               == "assets/stickers/" + src[|base| + 1..]
  {
    var tail := dir + "/" + (if flat then "" else number + "/") + s + ".png";
    var src := base + "/" + dir + "/" + (if flat then "" else number + "/") + s + ".png";
    assert src == (base + "/") + tail;
    assert src[|base| + 1..] == tail;
  }

  /** Where `get_sticker_file_path` and `generate_flutter_asset_paths` part
      ways: when the number is not the second token
      ("LOVE SPECIAL 4"), the source path has no sub-folder while the Flutter
      path takes the first numeric token anywhere in the name. */
  lemma NumberElsewhereDiverges(category: string, word: string, number: string, s: string)
    requires ' ' !in category && ' ' !in word && ' ' !in number
    requires !IsDigits(category) && !IsDigits(word) && IsDigits(number)
    requires !IsFlatDir(FlutterDirCategory(category))
    ensures var name := category + " " + word + " " + number;
            var dir := FlutterDirCategory(category);
            && GetStickerFilePath(name, s) == SourceBase + "/" + dir + "/" + s + ".png"
            && PngPath(StickerAssetDir(name), s) == "assets/stickers/" + dir + "/" + number + "/" + s + ".png"
  {
    var dir := FlutterDirCategory(category);
    ThreeTokens(category, word, number);
    DirCategoryIgnoresCase(category, category);
    assert SubCategoryNumber([category, word, number]) == None;
    ThirdTokenSubDir(category, word, number);
    DivergentShapes(SourceBase, dir, number, s);
  }

  lemma ThirdTokenSubDir(category: string, word: string, number: string)
    requires ' ' !in category && ' ' !in word && ' ' !in number
    requires !IsDigits(category) && !IsDigits(word) && IsDigits(number)
    requires !IsFlatDir(FlutterDirCategory(category))
    ensures StickerSubDir(category + " " + word + " " + number) == FlutterDirCategory(category) + "/" + number
  {
    var parts := Split(category + " " + word + " " + number, ' ');
    ThreeTokens(category, word, number);
    assert parts[0] == category;
    FirstDigitTokenAt(parts, 2);
    assert FirstDigitToken(parts) == number;
  }

  lemma ThreeTokens(a: string, b: string, c: string)
    requires ' ' !in a && ' ' !in b && ' ' !in c
    ensures Split(a + " " + b + " " + c, ' ') == [a, b, c]
  {
    assert a + " " + b + " " + c == a + [' '] + (b + " " + c);
    SplitAtFirst(a, b + " " + c, ' ');
    TwoTokens(b, c);
  }

  /** The string identities behind the divergence, for any parts. */
  lemma DivergentShapes(base: string, dir: string, number: string, s: string)
    ensures base + "/" + dir + "/" + "" + s + ".png" == base + "/" + dir + "/" + s + ".png"
    ensures PngPath("assets/stickers/" + (dir + "/" + number), s)
            == "assets/stickers/" + dir + "/" + number + "/" + s + ".png"
  {
  }
}
