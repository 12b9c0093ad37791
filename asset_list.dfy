/**
 * The asset-list generator: where each sticker's source PNG lives in the
 * iMessage extension (`get_sticker_file_path`) and which Flutter asset
 * paths the app bundles (`generate_flutter_asset_paths`). The sticker data
 * arrives already parsed: a list of categories, each a list of packs.
 */
module AssetList {
  import opened Wrappers
  import opened PyStr
  import opened PySort

  // ---------------------------------------------------------------------------
  // Constants
  // ---------------------------------------------------------------------------

  /** Root directory of the iMessage extension's source images. */
  const SourceBase: string := "Qoobee-imessage-2024 MessagesExtension"

  /** Set-name prefix (upper case) to directory, where the two differ. */
  const DirMap: map<string, string> := map[
    "ANNOYED" := "Angry",
    "EVERYDAY" := "Everyday",
    "FESTIVE" := "Festive",
    "HAPPY" := "Happy",
    "LOVE" := "Love",
    "PHOTO" := "Photo",
    "SAD" := "Sad"
  ]

  /** The recorded directory listing: category directory to its numbered sub-folders. */
  const LsOutputStructure: map<string, map<string, set<string>>> := map[
    SourceBase := map[
      "Angry" := {"1", "2"},
      "Everyday" := {"1", "2", "3", "4", "5"},
      "Festive" := {},
      "Happy" := {"1", "2", "3", "4", "5"},
      "Love" := {"1", "2", "3", "4"},
      "Photo" := {},
      "Sad" := {}
    ]
  ]

  /** Categories whose images sit directly in the category directory, whatever
      number the set name carries. */
  predicate IsFlatDir(dir: string) {
    dir == "Festive" || dir == "Photo" || dir == "Sad"
  }

  /** `STICKER_SET_NAME_TO_DIR_MAP.get(key, fallback)`. */
  function DirFor(key: string, fallback: string): string {
    if key in DirMap then DirMap[key] else fallback
  }

  // ---------------------------------------------------------------------------
  // Source image paths: get_sticker_file_path
  // ---------------------------------------------------------------------------

  /** Directory of a set name's first token as the source-path function finds it:
      looked up upper-cased, falling back to the upper-cased token capitalised. */
  function SourceDirCategory(token: string): (r: string)
    ensures r == FlutterDirCategory(token)
  {
    var prefix := Upper(token);
    CapitalizeIgnoresCase(token);
    DirFor(prefix, Capitalize(prefix))
  }

  /** The numbered sub-folder: the second token, when it is all digits. */
  function SubCategoryNumber(parts: seq<string>): Option<string> {
    if |parts| > 1 && IsDigits(parts[1]) then Some(parts[1]) else None
  }

  /** The source PNG of sticker `stickerName` in set `stickerSetName`: the
      set name's first token gives the directory, its second token the
      numbered sub-folder, and `SourcePathFor` the path. */
  function GetStickerFilePath(stickerSetName: string, stickerName: string): (r: string)
    ensures var parts := Split(stickerSetName, ' ');
            var dir := SourceDirCategory(parts[0]);
            var sub := SubCategoryNumber(parts);
            r == SourceBase + "/" + dir + "/"
                 + (if !IsFlatDir(dir) && sub.Some? then sub.value + "/" else "")
                 + stickerName + ".png"
  {
    var parts := Split(stickerSetName, ' ');
    SourcePathFor(LsOutputStructure, SourceDirCategory(parts[0]), SubCategoryNumber(parts), stickerName)
  }

  /** The branch chain of `get_sticker_file_path`, with the directory listing
      `ls` it consults. The result depends only on the directory, on whether it
      is flat and on the numbered sub-folder: the `Angry` branches and the
      look-up in the listing produce the same string as the general rule,
      whatever the listing holds. */
  function SourcePathFor(ls: map<string, map<string, set<string>>>, dirCategory: string,
                         subCategoryNumber: Option<string>, stickerName: string): (r: string)
    requires SourceBase in ls
    ensures r == SourceBase + "/" + dirCategory + "/"
                 + (if !IsFlatDir(dirCategory) && subCategoryNumber.Some? then subCategoryNumber.value + "/" else "")
                 + stickerName + ".png"
  {
    var basePath := SourceBase;
    if dirCategory == "Festive" then
      basePath + "/" + dirCategory + "/" + stickerName + ".png"
    else if dirCategory in ["Photo", "Sad"] then
      basePath + "/" + dirCategory + "/" + stickerName + ".png"
    else if dirCategory == "Angry" && subCategoryNumber == Some("1") then
      basePath + "/" + dirCategory + "/1/" + stickerName + ".png"
    else if dirCategory == "Angry" && subCategoryNumber == Some("2") then
      basePath + "/" + dirCategory + "/2/" + stickerName + ".png"
    else if subCategoryNumber.Some?
            && dirCategory in ls[basePath]
            && subCategoryNumber.value in ls[basePath][dirCategory] then
      basePath + "/" + dirCategory + "/" + subCategoryNumber.value + "/" + stickerName + ".png"
    else if subCategoryNumber.Some? then
      basePath + "/" + dirCategory + "/" + subCategoryNumber.value + "/" + stickerName + ".png"
    else
      basePath + "/" + dirCategory + "/" + stickerName + ".png"
  }

  /** Every source path lies under the extension's directory and names the
      sticker's PNG file. */
  lemma SourcePathFraming(stickerSetName: string, stickerName: string)
    ensures var r := GetStickerFilePath(stickerSetName, stickerName);
            && |r| > |SourceBase| + |stickerName| + 4
            && r[..|SourceBase| + 1] == SourceBase + "/"
            && r[|r| - |stickerName| - 4..] == stickerName + ".png"
  {
    var parts := Split(stickerSetName, ' ');
    var dir := SourceDirCategory(parts[0]);
    var sub := SubCategoryNumber(parts);
    var folder := if !IsFlatDir(dir) && sub.Some? then sub.value + "/" else "";
    PathEnds(SourceBase, dir, folder, stickerName, GetStickerFilePath(stickerSetName, stickerName));
  }

  /** The two ends of `base/dir/<sub>name.png`, for any parts. */
  lemma PathEnds(base: string, dir: string, sub: string, name: string, x: string)
    requires x == base + "/" + dir + "/" + sub + name + ".png"
    ensures |x| > |base| + |name| + 4
    ensures x[..|base| + 1] == base + "/"
    ensures x[|x| - |name| - 4..] == name + ".png"
  {
    assert x == (base + "/") + (dir + "/" + sub) + (name + ".png");
    Framed(base + "/", dir + "/" + sub, name + ".png");
  }

  /** `get_sticker_file_path` and `generate_flutter_asset_paths` find the same
      directory for a token, and the look-up ignores
      case: "annoyed", "Annoyed" and "ANNOYED" all lead to `Angry`. */
  lemma DirCategoryIgnoresCase(token: string, other: string)
    requires Upper(token) == Upper(other)
    ensures SourceDirCategory(token) == FlutterDirCategory(token)
    ensures FlutterDirCategory(token) == FlutterDirCategory(other)
    ensures Upper(token) in DirMap ==> FlutterDirCategory(token) == DirMap[Upper(token)]
    ensures Upper(token) !in DirMap ==> FlutterDirCategory(token) == Capitalize(token)
  {
    CapitalizeIgnoresCase(token);
    CapitalizeIgnoresCase(other);
  }

  /** A prefix in any case still finds its mapped directory: "annoyed",
      "Annoyed" and "ANNOYED" all lead to `Angry` in both look-ups. */
  lemma AnnoyedMapsToAngry(token: string)
    requires Upper(token) == "ANNOYED"
    ensures SourceDirCategory(token) == "Angry" && FlutterDirCategory(token) == "Angry"
  {
    AnnoyedInDirMap();
  }

  lemma AnnoyedInDirMap()
    ensures "ANNOYED" in DirMap && DirMap["ANNOYED"] == "Angry"
  {
  }

  /** The lower-case spelling found in set names such as "annoyed 1". */
  lemma LowerAnnoyedMapsToAngry()
    ensures SourceDirCategory("annoyed") == "Angry" && FlutterDirCategory("annoyed") == "Angry"
  {
    assert Upper("annoyed") == "ANNOYED";
    AnnoyedMapsToAngry("annoyed");
  }

  /** A set name of the usual form "CATEGORY N" ("EVERYDAY 1"): the number
      becomes a sub-folder unless the category is flat. */
  lemma NumberedSetSourcePath(category: string, number: string, stickerName: string)
    requires ' ' !in category && IsDigits(number)
    ensures GetStickerFilePath(category + " " + number, stickerName)
            == SourceBase + "/" + SourceDirCategory(category) + "/"
               + (if IsFlatDir(SourceDirCategory(category)) then "" else number + "/")
               + stickerName + ".png"
  {
    assert ' ' !in number;
    SplitAtFirst(category, number, ' ');
    SplitNoSep(number, ' ');
  }

  // ---------------------------------------------------------------------------
  // Flutter sticker asset paths
  // ---------------------------------------------------------------------------

  /** One pack of the parsed sticker data; a key missing from the JSON object is `None`. */
  datatype Pack = Pack(stickerSetName: Option<string>, stickerNames: Option<seq<string>>)

  /** `sticker_pack.get("stickerSetName", "")`. */
  function SetNameOf(p: Pack): string { p.stickerSetName.GetOr("") }

  /** `sticker_pack.get("stickerNames", [])`. */
  function NamesOf(p: Pack): seq<string> { p.stickerNames.GetOr([]) }

  /** A pack without a name or without stickers is passed over. */
  predicate Skipped(p: Pack) {
    SetNameOf(p) == "" || NamesOf(p) == []
  }

  /** Directory of a set name's first token as the Flutter-path code finds it:
      looked up upper-cased, falling back to the token capitalised. */
  function FlutterDirCategory(token: string): (r: string)
    ensures Upper(token) in DirMap ==> r in DirMap.Values
    ensures Upper(token) !in DirMap ==> Upper(r) == Upper(token)
    ensures r == "" <==> token == ""
  {
    DirMapValuesNonEmpty();
    CapitalizeRecases(token);
    DirFor(Upper(token), Capitalize(token))
  }

  lemma DirMapValuesNonEmpty()
    ensures forall key :: key in DirMap ==> DirMap[key] != ""
  {
  }

  /** The first all-digit token anywhere in the set name, or "" when none is. */
  function FirstDigitToken(parts: seq<string>): (n: string)
    ensures n == "" <==> forall k :: 0 <= k < |parts| ==> !IsDigits(parts[k])
    ensures n != "" ==> exists k :: 0 <= k < |parts| && parts[k] == n && IsDigits(n)
                                    && forall m :: 0 <= m < k ==> !IsDigits(parts[m])
  {
    if parts == [] then ""
    else if IsDigits(parts[0]) then parts[0]
    else
      var n := FirstDigitToken(parts[1..]);
      assert forall k :: 0 < k < |parts| ==> parts[k] == parts[1..][k - 1];
      n
  }

  /** The first digit token is the one at the first index holding digits. */
  lemma {:induction false} FirstDigitTokenAt(parts: seq<string>, k: nat)
    requires k < |parts| && IsDigits(parts[k])
    requires forall m :: 0 <= m < k ==> !IsDigits(parts[m])
    ensures FirstDigitToken(parts) == parts[k]
  {
    if k > 0 {
      assert forall m :: 0 <= m < k - 1 ==> parts[1..][m] == parts[m + 1];
      FirstDigitTokenAt(parts[1..], k - 1);
    }
  }

  /** The Flutter directory a set's stickers go to: the category directory,
      followed by the first numeric token unless the category is flat. */
  function StickerAssetDir(stickerSetName: string): (r: string)
    ensures var parts := Split(stickerSetName, ' ');
            var dir := FlutterDirCategory(parts[0]);
            var n := FirstDigitToken(parts);
            && |r| >= 16 + |dir|
            && r[..16] == "assets/stickers/" && r[16..16 + |dir|] == dir
            && (n != "" && !IsFlatDir(dir) ==> |r| == 17 + |dir| + |n| && r[|r| - |n| - 1..] == "/" + n)
            && (n == "" || IsFlatDir(dir) ==> |r| == 16 + |dir|)
  {
    var parts := Split(stickerSetName, ' ');
    var dir := FlutterDirCategory(parts[0]);
    var n := FirstDigitToken(parts);
    DirThenNumber("assets/stickers/", dir, n, n != "" && !IsFlatDir(dir));
    "assets/stickers/" + StickerSubDir(stickerSetName)
  }

  /** The parts of `prefix + dir[/n]`, for any parts. */
  lemma DirThenNumber(prefix: string, dir: string, n: string, numbered: bool)
    ensures var r := prefix + (dir + (if numbered then "/" + n else ""));
            && |r| >= |prefix| + |dir|
            && r[..|prefix|] == prefix && r[|prefix|..|prefix| + |dir|] == dir
            && (numbered ==> |r| == |prefix| + |dir| + 1 + |n| && r[|r| - |n| - 1..] == "/" + n)
            && (!numbered ==> |r| == |prefix| + |dir|)
  {
    var r := prefix + (dir + (if numbered then "/" + n else ""));
    if numbered {
      assert r == (prefix + dir) + ("/" + n);
    }
  }

  /** The part of `StickerAssetDir` below `assets/stickers/`. */
  function StickerSubDir(stickerSetName: string): string {
    var parts := Split(stickerSetName, ' ');
    var dir := FlutterDirCategory(parts[0]);
    var n := FirstDigitToken(parts);
    dir + (if n != "" && !IsFlatDir(dir) then "/" + n else "")
  }

  /** The Flutter asset path of one sticker file name in `dir`. */
  function PngPath(dir: string, name: string): string {
    dir + "/" + name + ".png"
  }

  /** The paths of all the names, in `dir`. */
  function PngPaths(dir: string, names: seq<string>): set<string>
    decreases |names|
  {
    if names == [] then {}
    else PngPaths(dir, names[..|names| - 1]) + {PngPath(dir, names[|names| - 1])}
  }

  lemma {:induction false} PngPathsMembers(dir: string, names: seq<string>, x: string)
    ensures x in PngPaths(dir, names) <==> exists s :: s in names && x == PngPath(dir, s)
    decreases |names|
  {
    if names != [] {
      var init := names[..|names| - 1];
      PngPathsMembers(dir, init, x);
      assert names == init + [names[|names| - 1]];
      assert forall s :: s in names <==> s in init || s == names[|names| - 1];
    }
  }

  /** Paths contributed by one pack. */
  function PackAssetPaths(p: Pack): set<string> {
    if Skipped(p) then {} else PngPaths(StickerAssetDir(SetNameOf(p)), NamesOf(p))
  }

  /** The union of `f` over the elements of `xs`. */
  function UnionOver<T>(xs: seq<T>, f: T -> set<string>): set<string>
    decreases |xs|
  {
    if xs == [] then {} else UnionOver(xs[..|xs| - 1], f) + f(xs[|xs| - 1])
  }

  lemma {:induction false} UnionOverMembers<T>(xs: seq<T>, f: T -> set<string>, x: string)
    ensures x in UnionOver(xs, f) <==> exists j :: 0 <= j < |xs| && x in f(xs[j])
    decreases |xs|
  {
    if xs != [] {
      var n := |xs| - 1;
      var init := xs[..n];
      UnionOverMembers(init, f, x);
      if x in UnionOver(xs, f) && x in UnionOver(init, f) {
        var j :| 0 <= j < |init| && x in f(init[j]);
        assert init[j] == xs[j];
      }
      if exists j :: 0 <= j < |xs| && x in f(xs[j]) {
        var j :| 0 <= j < |xs| && x in f(xs[j]);
        if j < n {
          assert init[j] == xs[j];
        }
      }
    }
  }

  /** Paths contributed by a sequence of packs. */
  function PacksAssetPaths(packs: seq<Pack>): set<string> {
    UnionOver(packs, PackAssetPaths)
  }

  /** Paths contributed by all categories. */
  function StickerPaths(categories: seq<seq<Pack>>): set<string> {
    UnionOver(categories, PacksAssetPaths)
  }

  /** The paths a pack contributes: one per sticker name, in the pack's
      directory, and none at all for a pack without a name or without stickers. */
  lemma PackAssetPathsMembers(p: Pack, x: string)
    ensures x in PackAssetPaths(p) <==>
              !Skipped(p) && exists s :: s in NamesOf(p) && x == PngPath(StickerAssetDir(SetNameOf(p)), s)
  {
    if !Skipped(p) {
      PngPathsMembers(StickerAssetDir(SetNameOf(p)), NamesOf(p), x);
    }
  }

  /** A pack adds nothing exactly when it has no name or no stickers. */
  lemma PackAssetPathsEmptyIffSkipped(p: Pack)
    ensures PackAssetPaths(p) == {} <==> Skipped(p)
  {
    if !Skipped(p) {
      var s := NamesOf(p)[0];
      PackAssetPathsMembers(p, PngPath(StickerAssetDir(SetNameOf(p)), s));
    }
  }

  /** A path is a sticker path exactly when some pack of some category yields it. */
  lemma StickerPathsMembers(categories: seq<seq<Pack>>, x: string)
    ensures x in StickerPaths(categories) <==>
              exists i, j :: 0 <= i < |categories| && 0 <= j < |categories[i]|
                             && x in PackAssetPaths(categories[i][j])
  {
    UnionOverMembers(categories, PacksAssetPaths, x);
    forall i | 0 <= i < |categories| {
      UnionOverMembers(categories[i], PackAssetPaths, x);
    }
  }

  /** Every sticker path lies under `assets/stickers/` and names a PNG file. */
  lemma StickerPathFraming(categories: seq<seq<Pack>>, x: string)
    requires x in StickerPaths(categories)
    ensures IsStickerAssetPath(x)
  {
    StickerPathsMembers(categories, x);
    var i, j :| 0 <= i < |categories| && 0 <= j < |categories[i]| && x in PackAssetPaths(categories[i][j]);
    PackPathFraming(categories[i][j], x);
  }

  predicate IsStickerAssetPath(x: string) {
    |x| > 20 && x[..16] == "assets/stickers/" && x[|x| - 4..] == ".png"
  }

  lemma PackPathFraming(p: Pack, x: string)
    requires x in PackAssetPaths(p)
    ensures IsStickerAssetPath(x)
  {
    PackAssetPathsMembers(p, x);
    var s :| s in NamesOf(p) && x == PngPath(StickerAssetDir(SetNameOf(p)), s);
    PngPathUnder("assets/stickers/", StickerAssetDir(SetNameOf(p)), s);
  }

  /** A PNG path in a directory under `root` lies under `root` too. */
  lemma PngPathUnder(root: string, dir: string, name: string)
    requires |dir| >= |root| && dir[..|root|] == root
    ensures var x := PngPath(dir, name);
            |x| >= |root| + 5 && x[..|root|] == root && x[|x| - 4..] == ".png"
  {
    var x := PngPath(dir, name);
    assert x == dir + ("/" + name) + ".png";
    Framed(dir, "/" + name, ".png");
    assert x[..|root|] == x[..|dir|][..|root|];
  }

  /** The two ends of a concatenation. */
  lemma Framed(prefix: string, middle: string, suffix: string)
    ensures var x := prefix + middle + suffix;
            x[..|prefix|] == prefix && x[|x| - |suffix|..] == suffix
  {
  }

  // ---------------------------------------------------------------------------
  // Fixed UI and WebP paths
  // ---------------------------------------------------------------------------

  /** The Flutter side of the fixed part of `ui_assets_mappings`. */
  const FixedUiAssetPaths: seq<string> := [
    "assets/ui_elements/New Sticker Indicator.png",
    "assets/ui_elements/RestoreIcon.png",
    "assets/ui_elements/ShoppingBagWhite.png",
    "assets/ui_elements/whatsapp.png",
    "assets/ui_elements/AddBanner.png",
    "assets/ui_elements/Background.png",
    "assets/ui_elements/QooBeeInfo.png",
    "assets/ui_elements/RemoveBanner.png",
    "assets/ui_elements/UnlockBanner.png",
    "assets/ui_elements/app_logo_large.png",
    "assets/ui_elements/app_logo_wide.png"
  ]

  /** `f"assets/ui_elements/Banner{i}.png"` for a one-digit `i`. */
  function BannerPath(i: nat): string
    requires i < 10
  {
    "assets/ui_elements/Banner" + [('0' as int + i) as char] + ".png"
  }

  const FooterBannerPath: string := "assets/ui_elements/FooterBanner.png"

  /** The banners `Banner0` to `Banner{n-1}`, in order. */
  function BannerPaths(n: nat): (r: seq<string>)
    requires n <= 10
    ensures |r| == n && forall i :: 0 <= i < n ==> r[i] == BannerPath(i)
  {
    if n == 0 then [] else BannerPaths(n - 1) + [BannerPath(n - 1)]
  }

  /** Every Flutter path of `ui_assets_mappings` once it is complete. */
  function UiAssetPaths(): set<string> {
    Elems(FixedUiAssetPaths + BannerPaths(9) + [FooterBannerPath])
  }

  const WebpPrefix: string := "assets/stickers_webp/FestiveWA/"

  const FestiveWaFiles: seq<string> := [
    "WhatsApp_Annoyed1_Static_FD1.webp",
    "wa_day_festive_fd491.webp",
    "wa_day_festive_fd492.webp",
    "wa_day_festive_fd493.webp",
    "wa_day_festive_fd494.webp",
    "wa_day_festive_fd495.webp",
    "wa_day_festive_fd496.webp",
    "wa_day_festive_tray.webp"
  ]

  /** The WebP asset path of each file name. */
  function WebpAssetPathsOf(files: seq<string>): set<string>
    decreases |files|
  {
    if files == [] then {}
    else WebpAssetPathsOf(files[..|files| - 1]) + {WebpPrefix + files[|files| - 1]}
  }

  /** A WebP asset path is collected exactly when it is the prefix followed by
      one of the file names. */
  lemma {:induction false} WebpAssetPathsOfMembers(files: seq<string>, x: string)
    ensures x in WebpAssetPathsOf(files) <==> exists f :: f in files && x == WebpPrefix + f
    decreases |files|
  {
    if files != [] {
      var init := files[..|files| - 1];
      WebpAssetPathsOfMembers(init, x);
      assert files == init + [files[|files| - 1]];
      assert forall f :: f in files <==> f in init || f == files[|files| - 1];
    }
  }

  function WebpAssetPaths(): set<string> {
    WebpAssetPathsOf(FestiveWaFiles)
  }

  /** Everything the generator collects before sorting. */
  function AllAssetPaths(categories: seq<seq<Pack>>): set<string> {
    StickerPaths(categories) + UiAssetPaths() + WebpAssetPaths()
  }

  // ---------------------------------------------------------------------------
  // generate_flutter_asset_paths
  // ---------------------------------------------------------------------------

  /** The loop that looks for a sub-folder number: the first token made of
      digits, or "" when there is none. */
  method FindSubFolderNumber(setNameParts: seq<string>) returns (subFolderNumber: string)
    ensures subFolderNumber == FirstDigitToken(setNameParts)
  {
    subFolderNumber := "";
    var k := 0;
    while k < |setNameParts|
      invariant 0 <= k <= |setNameParts|
      invariant forall m :: 0 <= m < k ==> !IsDigits(setNameParts[m])
    {
      if IsDigits(setNameParts[k]) {
        subFolderNumber := setNameParts[k];
        FirstDigitTokenAt(setNameParts, k);
        return;
      }
      k := k + 1;
    }
  }

  /** The body of the pack loop: adds the pack's sticker paths to the set, or
      nothing when the pack has no name or no stickers. */
  method AddPackAssetPaths(allAssetPaths: set<string>, stickerPack: Pack) returns (allAssetPaths': set<string>)
    ensures allAssetPaths' == allAssetPaths + PackAssetPaths(stickerPack)
  {
    allAssetPaths' := allAssetPaths;
    var stickerSetName := stickerPack.stickerSetName.GetOr("");
    var stickerNames := stickerPack.stickerNames.GetOr([]);
    if stickerSetName == "" || stickerNames == [] {
      return;
    }
    var flutterAssetBase := FlutterAssetBase(stickerSetName);
    allAssetPaths' := AddPngPaths(allAssetPaths', flutterAssetBase, stickerNames);
  }

  /** The directory the pack's stickers go to: the category directory, the
      sub-folder number appended when there is one, and the number dropped
      again for the flat categories. */
  method FlutterAssetBase(stickerSetName: string) returns (flutterAssetBase: string)
    ensures flutterAssetBase == StickerAssetDir(stickerSetName)
  {
    var setNameParts := Split(stickerSetName, ' ');
    var mainCategoryNameOriginal := setNameParts[0];
    var mainCategoryNameForPath := DirFor(Upper(mainCategoryNameOriginal), Capitalize(mainCategoryNameOriginal));
    var subFolderNumber := FindSubFolderNumber(setNameParts);

    flutterAssetBase := "assets/stickers/" + mainCategoryNameForPath;
    if subFolderNumber != "" {
      flutterAssetBase := flutterAssetBase + "/" + subFolderNumber;
    }
    if IsFlatDir(mainCategoryNameForPath) {
      flutterAssetBase := "assets/stickers/" + mainCategoryNameForPath;
    }
    BaseChoice("assets/stickers/", mainCategoryNameForPath, subFolderNumber, IsFlatDir(mainCategoryNameForPath));
    assert StickerAssetDir(stickerSetName) == "assets/stickers/" + StickerSubDir(stickerSetName);
  }

  /** The three assignments to the base, for any parts. */
  lemma BaseChoice(root: string, dir: string, n: string, flat: bool)
    ensures (if flat then root + dir else if n != "" then root + dir + "/" + n else root + dir)
            == root + (dir + (if n != "" && !flat then "/" + n else ""))
  {
  }

  /** The inner loop over a pack's sticker names. */
  method AddPngPaths(allAssetPaths: set<string>, flutterAssetBase: string, stickerNames: seq<string>)
    returns (allAssetPaths': set<string>)
    ensures allAssetPaths' == allAssetPaths + PngPaths(flutterAssetBase, stickerNames)
  {
    allAssetPaths' := allAssetPaths;
    var m := 0;
    while m < |stickerNames|
      invariant 0 <= m <= |stickerNames|
      invariant allAssetPaths' == allAssetPaths + PngPaths(flutterAssetBase, stickerNames[..m])
    {
      assert stickerNames[..m + 1][..m] == stickerNames[..m];
      allAssetPaths' := allAssetPaths' + {PngPath(flutterAssetBase, stickerNames[m])};
      m := m + 1;
    }
    assert stickerNames[..m] == stickerNames;
  }

  /** Step 1 of the generator: the nested loops over categories and packs. */
  method CollectStickerPaths(categories: seq<seq<Pack>>) returns (allAssetPaths: set<string>)
    ensures allAssetPaths == StickerPaths(categories)
  {
    allAssetPaths := {};
    var i := 0;
    while i < |categories|
      invariant 0 <= i <= |categories|
      invariant allAssetPaths == StickerPaths(categories[..i])
    {
      var categoryArray := categories[i];
      var j := 0;
      while j < |categoryArray|
        invariant 0 <= j <= |categoryArray|
        invariant allAssetPaths == StickerPaths(categories[..i]) + PacksAssetPaths(categoryArray[..j])
      {
        assert categoryArray[..j + 1][..j] == categoryArray[..j];
        allAssetPaths := AddPackAssetPaths(allAssetPaths, categoryArray[j]);
        j := j + 1;
      }
      assert categoryArray[..j] == categoryArray;
      assert categories[..i + 1][..i] == categories[..i];
      i := i + 1;
    }
    assert categories[..i] == categories;
  }

  /** Step 2 of the generator: every Flutter path of `ui_assets_mappings` is added. */
  method AddUiAssetPaths(allAssetPaths: set<string>) returns (allAssetPaths': set<string>)
    ensures allAssetPaths' == allAssetPaths + UiAssetPaths()
  {
    allAssetPaths' := allAssetPaths;
    var uiAssetPaths := UiAssetPathList();
    var u := 0;
    while u < |uiAssetPaths|
      invariant 0 <= u <= |uiAssetPaths|
      invariant allAssetPaths' == allAssetPaths + Elems(uiAssetPaths[..u])
    {
      assert uiAssetPaths[..u + 1] == uiAssetPaths[..u] + [uiAssetPaths[u]];
      allAssetPaths' := allAssetPaths' + {uiAssetPaths[u]};
      u := u + 1;
    }
    assert uiAssetPaths[..u] == uiAssetPaths;
  }

  /** Step 3 of the generator: the FestiveWA WebP files under their own prefix. */
  method AddWebpAssetPaths(allAssetPaths: set<string>) returns (allAssetPaths': set<string>)
    ensures allAssetPaths' == allAssetPaths + WebpAssetPaths()
  {
    allAssetPaths' := allAssetPaths;
    var w := 0;
    while w < |FestiveWaFiles|
      invariant 0 <= w <= |FestiveWaFiles|
      invariant allAssetPaths' == allAssetPaths + WebpAssetPathsOf(FestiveWaFiles[..w])
    {
      assert FestiveWaFiles[..w + 1][..w] == FestiveWaFiles[..w];
      allAssetPaths' := allAssetPaths' + {WebpPrefix + FestiveWaFiles[w]};
      w := w + 1;
    }
    assert FestiveWaFiles[..w] == FestiveWaFiles;
  }

  /** Collects the sticker, UI and WebP asset paths into a set and returns
      them sorted: each path once, in increasing order, and every UI banner
      and FestiveWA file always among them. */
  method GenerateFlutterAssetPaths(categories: seq<seq<Pack>>) returns (r: seq<string>)
    ensures StrictlySorted(r)
    ensures Elems(r) == AllAssetPaths(categories)
    ensures r == SortSet(AllAssetPaths(categories))
    ensures forall i :: 0 <= i < 9 ==> BannerPath(i) in r
    ensures FooterBannerPath in r && Elems(FixedUiAssetPaths) <= Elems(r)
    ensures forall f :: f in FestiveWaFiles ==> WebpPrefix + f in r
  {
    // 1. Stickers
    var allAssetPaths := CollectStickerPaths(categories);
    ghost var stickerPaths := allAssetPaths;

    // 2. UI assets
    allAssetPaths := AddUiAssetPaths(allAssetPaths);

    // 3. FestiveWA WebP files
    allAssetPaths := AddWebpAssetPaths(allAssetPaths);
    assert allAssetPaths == AllAssetPaths(categories);

    r := SortedList(allAssetPaths);
    FixedPathsIncluded();
  }

  /** The UI banners, the footer banner and the FestiveWA files are always collected. */
  lemma FixedPathsIncluded()
    ensures forall i :: 0 <= i < 9 ==> BannerPath(i) in UiAssetPaths()
    ensures FooterBannerPath in UiAssetPaths() && Elems(FixedUiAssetPaths) <= UiAssetPaths()
    ensures forall f :: f in FestiveWaFiles ==> WebpPrefix + f in WebpAssetPaths()
  {
    var ui := FixedUiAssetPaths + BannerPaths(9) + [FooterBannerPath];
    forall i | 0 <= i < 9 ensures BannerPath(i) in UiAssetPaths() {
      assert ui[|FixedUiAssetPaths| + i] == BannerPath(i);
    }
    assert ui[|ui| - 1] == FooterBannerPath;
    forall x | x in FixedUiAssetPaths ensures x in UiAssetPaths() {
      var k :| 0 <= k < |FixedUiAssetPaths| && FixedUiAssetPaths[k] == x;
      assert ui[k] == x;
    }
    forall f | f in FestiveWaFiles ensures WebpPrefix + f in WebpAssetPaths() {
      WebpAssetPathsOfMembers(FestiveWaFiles, WebpPrefix + f);
    }
  }

  /** The Flutter paths of `ui_assets_mappings`: the fixed entries, then
      `Banner0` to `Banner8` added in a loop, then `FooterBanner`. */
  method UiAssetPathList() returns (uiAssetPaths: seq<string>)
    ensures uiAssetPaths == FixedUiAssetPaths + BannerPaths(9) + [FooterBannerPath]
  {
    uiAssetPaths := FixedUiAssetPaths;
    var i := 0;
    while i < 9
      invariant 0 <= i <= 9
      invariant uiAssetPaths == FixedUiAssetPaths + BannerPaths(i)
    {
      uiAssetPaths := uiAssetPaths + [BannerPath(i)];
      i := i + 1;
    }
    uiAssetPaths := uiAssetPaths + [FooterBannerPath];
  }
}
