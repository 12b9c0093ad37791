# Qoobee sticker asset build scripts, in Dafny

The repository converts an iMessage sticker extension into a Flutter app. Two
Python build scripts do the conversion work that this project models:

- `generate_asset_list.py` works out where each sticker's PNG lives in the
  iMessage extension (`get_sticker_file_path`). It also collects the
  Flutter asset paths of every sticker pack, UI element and FestiveWA WebP
  file, and returns them de-duplicated and sorted
  (`generate_flutter_asset_paths`).
- `generate_pubspec_sections.py` reads that asset list back line by line. It
  strips the lines, drops the blank ones and reduces each path to its
  directory plus `/`. It then renders the sorted, de-duplicated directories
  under a fixed `flutter:` header, followed by a constant `dependencies:`
  section.

Modules:

- `Wrappers` is the `Option` type. A JSON key that is missing, or an asset
  list file that is missing, is `None`.
- `PyStr` models the string built-ins the scripts use:
  - `split(" ")`, which keeps empty parts;
  - `upper`, `capitalize` and `isdigit`, for ASCII;
  - `strip`, over Python's whitespace set.
- `PySort` models Python's code-point order on `str`, and `sorted(list(s))`
  for a set of strings.
- `AssetList` models `generate_asset_list.py`:
  - `get_sticker_file_path` keeps its full branch chain: Festive, Photo and
    Sad, the two `Angry` cases, and the `LS_OUTPUT_STRUCTURE` look-up.
  - `generate_flutter_asset_paths` becomes methods that grow the path set
    loop by loop. They take the already-parsed sticker data.
- `Pubspec` models `generate_pubspec_sections_from_asset_list`. It takes the
  file's lines, or `None` for a missing file. It includes a full model of
  `posixpath.dirname`: the trailing slashes are stripped, and a head made
  only of slashes is kept.
- `Pipeline` relates the two scripts. The asset list is written one path
  per line and read back by the pubspec generator. A sticker's Flutter path
  is compared with its source image path.

Some source tests are plain definitions, and the rows below rely on them:
- `AssetList.Skipped` is the skip test of generate_asset_list.py:107: no set name, or no sticker names.
- `AssetList.SubCategoryNumber` is the second-token sub-folder of generate_asset_list.py:41-43.
- `PyStr.IsDigits` is `str.isdigit` on ASCII: a non-empty run of digits (generate_asset_list.py:42 and 123).

Each loop of the source is a Dafny method with loop invariants. Each method
is proved against a function that specifies it. The set-building functions
are characterised by membership lemmas.

## Model

| member | source | states |
|---|---|---|
| AssetList.GetStickerFilePath | generate_asset_list.py:29-85 | The source path is `<extension>/<Dir>/<N>/<name>.png`. `Dir` is the mapped or capitalised first token. `N` is the second token when it is all digits and `Dir` is not Festive, Photo or Sad. Otherwise there is no sub-folder. |
| AssetList.SourcePathFor | generate_asset_list.py:49-85 | Every branch of the chain, including the `Angry` special cases and the directory-listing check, gives the general-rule path. So the result does not depend on `LS_OUTPUT_STRUCTURE`. |
| AssetList.SourcePathFraming | generate_asset_list.py:49-85 | Every source path starts with `Qoobee-imessage-2024 MessagesExtension/` and ends with the sticker name plus `.png`. |
| AssetList.NumberedSetSourcePath | generate_asset_list.py:36-85 | For a set name "CATEGORY N", with a category without spaces and N all digits, the path is `<extension>/<Dir>/N/<name>.png`, or `<extension>/<Dir>/<name>.png` for a flat category. |
| AssetList.SourceDirCategory | generate_asset_list.py:36-39 | The directory that `get_sticker_file_path` finds for a token is the one that `generate_flutter_asset_paths` finds. |
| AssetList.FlutterDirCategory | generate_asset_list.py:113-118 | A token whose upper-cased form is a key of the directory map gets one of the map's directories. Any other token gets a directory that upper-cases like the token. The directory is empty only for the empty token. |
| AssetList.DirCategoryIgnoresCase | generate_asset_list.py:36-39 | `get_sticker_file_path` and `generate_flutter_asset_paths` find the same directory for a token. Tokens that upper-case alike get the same directory. That directory is the mapped value when the upper-cased token is a map key, and the capitalised token otherwise. |
| AssetList.AnnoyedMapsToAngry | generate_asset_list.py:19-27 | Any spelling of `annoyed`, in any case, leads to `Angry` in both look-ups. |
| AssetList.LowerAnnoyedMapsToAngry | generate_asset_list.py:19-39 | The lower-case prefix of "annoyed 1" maps to `Angry`. |
| AssetList.StickerAssetDir | generate_asset_list.py:113-149 | The Flutter directory of a pack is `assets/stickers/` followed by the directory of its first token. A set name with an all-digit token and a category that is not flat adds exactly `/N` after it, so the directory is `assets/stickers/<Dir>/<N>`. Otherwise it is `assets/stickers/<Dir>` alone. |
| AssetList.FlutterAssetBase | generate_asset_list.py:113-149 | The statements that build `flutter_asset_base` compute the pack's Flutter directory. |
| AssetList.FirstDigitToken | generate_asset_list.py:120-125 | The result is "" exactly when no token is all digits. Otherwise it is the all-digit token at the first index holding one. |
| AssetList.FirstDigitTokenAt | generate_asset_list.py:120-125 | The token at the first all-digit index is the one the search finds. |
| AssetList.FindSubFolderNumber | generate_asset_list.py:120-125 | The loop with `break` returns the first all-digit token, or "". |
| AssetList.AddPackAssetPaths | generate_asset_list.py:103-154 | The new set is the old one plus exactly the pack's paths. A pack without a name or without stickers adds nothing. |
| AssetList.AddPngPaths | generate_asset_list.py:152-154 | The new set is the old one plus one `<base>/<s>.png` path per sticker name. |
| AssetList.PngPathsMembers | generate_asset_list.py:152-154 | A path is added exactly when it is `<base>/<s>.png` for some sticker name `s`. |
| AssetList.CollectStickerPaths | generate_asset_list.py:102-154 | The nested loops over categories and packs collect exactly the union of every pack's paths. |
| AssetList.PackAssetPathsMembers | generate_asset_list.py:113-154 | A pack yields a path exactly when the pack is not skipped and the path is `assets/stickers/<Dir>[/<N>]/<s>.png` for one of its sticker names. |
| AssetList.PackAssetPathsEmptyIffSkipped | generate_asset_list.py:104-111 | A pack contributes no path if and only if its set name or its sticker-name list is empty. |
| AssetList.StickerPathsMembers | generate_asset_list.py:102-154 | A path is a sticker path exactly when some pack of some category yields it. |
| AssetList.StickerPathFraming | generate_asset_list.py:127-154 | Every sticker path starts with `assets/stickers/` and ends with `.png`. |
| AssetList.PackPathFraming | generate_asset_list.py:127-154 | Each path of one pack starts with `assets/stickers/` and ends with `.png`. |
| AssetList.BannerPaths | generate_asset_list.py:171-172 | The first n banner paths are `Banner0` to `Banner{n-1}`, in order. |
| AssetList.UiAssetPathList | generate_asset_list.py:157-173 | The Flutter side of `ui_assets_mappings` is the 11 fixed paths, then `Banner0`…`Banner8` from the `range(9)` loop, then `FooterBanner`. |
| AssetList.AddUiAssetPaths | generate_asset_list.py:175-176 | The new set is the old one plus every Flutter path of `ui_assets_mappings`. |
| AssetList.WebpAssetPathsOfMembers | generate_asset_list.py:182-194 | A path is a WebP path exactly when it is `assets/stickers_webp/FestiveWA/<file>` for one of the FestiveWA file names. |
| AssetList.AddWebpAssetPaths | generate_asset_list.py:182-194 | The new set is the old one plus the 8 FestiveWA WebP paths. |
| AssetList.FixedPathsIncluded | generate_asset_list.py:157-194 | The banners, the footer banner, the fixed UI paths and the WebP paths are collected whatever the sticker data. |
| AssetList.GenerateFlutterAssetPaths | generate_asset_list.py:88-197 | The result is strictly increasing, so it has no duplicates. It holds exactly the sticker, UI and WebP paths. It always contains every banner, the footer banner, the fixed UI paths and every WebP path. |
| PySort.SortedList | generate_asset_list.py:197 | `sorted(list(s))` is strictly increasing, holds exactly the set's elements, and is the set's unique sorted arrangement. |
| PySort.SortedUnique | generate_asset_list.py:197 | Two strictly sorted sequences with the same elements are equal. |
| PySort.BelowTotal | generate_asset_list.py:197 | Python's string order is total: two different strings are ordered one way or the other. |
| PySort.BelowTransitive | generate_asset_list.py:197 | Python's string order is transitive. |
| PyStr.Split | generate_asset_list.py:36 | `split(" ")` always gives at least one part. |
| PyStr.SplitPartsLackSep | generate_asset_list.py:36 | No part of a split contains the separator. |
| PyStr.JoinSplit | generate_asset_list.py:36 | Joining the parts of a split with the separator gives the string back. |
| PyStr.SplitJoin | generate_asset_list.py:36 | Splitting joined parts that lack the separator gives the parts back. |
| PyStr.SplitPartsLack | generate_asset_list.py:36 | A character missing from the string is missing from every part of its split. |
| PyStr.SplitAtFirst | generate_asset_list.py:113 | The first part ends at the first separator. |
| PyStr.Upper | generate_asset_list.py:37 | `upper` keeps the length, upper-cases each letter and leaves no lower-case letter. |
| PyStr.Capitalize | generate_asset_list.py:39 | `capitalize` upper-cases the first character and lower-cases the rest. |
| PyStr.CapitalizeRecases | generate_asset_list.py:37-39 | Capitalising changes only case: the capitalised token upper-cases to the same string as the token. |
| PyStr.CapitalizeIgnoresCase | generate_asset_list.py:37-39 | Capitalising the upper-cased token equals capitalising the token. |
| PyStr.Strip | generate_pubspec_sections.py:10 | `strip` never lengthens a line, and what it returns has no whitespace at either end. |
| PyStr.StripShape | generate_pubspec_sections.py:10 | `strip` returns a trimmed infix of the line, and removes only whitespace on each side. |
| PyStr.StripAround | generate_pubspec_sections.py:10 | Whitespace around a trimmed core is removed, and the core is kept intact. |
| PyStr.StripIdempotent | generate_pubspec_sections.py:10 | Stripping twice is stripping once. |
| PyStr.StripEmptyIffBlank | generate_pubspec_sections.py:10-12 | A line strips to "" exactly when it is all whitespace. |
| Pubspec.GeneratePubspecSections | generate_pubspec_sections.py:3-45 | A missing file gives `None`, and only a missing file does. The dependencies section is the constant block. The flutter section starts with the fixed header, followed by the sorted directory entries of the stripped, non-blank lines. |
| Pubspec.CollectAssetPaths | generate_pubspec_sections.py:9-13 | The reading loop collects exactly the stripped, non-blank lines. |
| Pubspec.AssetPathsSnoc | generate_pubspec_sections.py:9-13 | Reading one more line adds its stripped form, unless the stripped line is empty. |
| Pubspec.AssetPathsAreStrippedLines | generate_pubspec_sections.py:9-13 | Every collected path is non-empty, has no whitespace at its ends, and is some input line stripped. |
| Pubspec.PaddedLineRecorded | generate_pubspec_sections.py:9-13 | A line made of a trimmed path with whitespace around it records the path. |
| Pubspec.BlankLineIgnored | generate_pubspec_sections.py:10-12 | A blank line anywhere in the input changes nothing. |
| Pubspec.CollectAssetDirs | generate_pubspec_sections.py:19-23 | The directory loop collects exactly `dirname(p) + "/"` for the paths with a non-empty dirname. |
| Pubspec.AssetDirsMembers | generate_pubspec_sections.py:19-23 | An entry is present if and only if it is `dirname(p) + "/"` for a collected path `p` that contains a slash. |
| Pubspec.TopLevelPathIgnored | generate_pubspec_sections.py:21-23 | A path without a slash adds no entry. |
| Pubspec.SameDirectoryOneEntry | generate_pubspec_sections.py:19-23 | Two files directly in one directory produce that directory's entry once. This holds for a non-empty directory that does not end in `/` and file names without `/`. |
| Pubspec.Dirname | generate_pubspec_sections.py:21 | `os.path.dirname` returns a prefix of the path. That prefix does not end in a slash unless it is made only of slashes. |
| Pubspec.RFind | generate_pubspec_sections.py:21 | `rfind('/')` gives the last slash, or -1 when there is none. |
| Pubspec.RStripSlashes | generate_pubspec_sections.py:21 | `rstrip('/')` removes only slashes, and the result does not end in one. |
| Pubspec.DirnameOfJoin | generate_pubspec_sections.py:21 | The dirname of `d/f` is `d`, for a file name `f` and a directory `d` that does not end in a slash. |
| Pubspec.DirnameEmptyIffNoSlash | generate_pubspec_sections.py:21-22 | The dirname is empty exactly when the path has no slash. |
| Pubspec.RenderFlutterSection | generate_pubspec_sections.py:25-29 | The section is the three header lines, then one `    - <entry>` line per entry, in the order given. |
| Pubspec.RenderEntriesLines | generate_pubspec_sections.py:28-29 | For entries without `\n`, the rendered entries read back line by line are one list item each, in order. |
| Pubspec.HeaderLines | generate_pubspec_sections.py:25-27 | The header is the three lines `flutter:`, `  uses-material-design: true` and `  assets:`. |
| Pubspec.FlutterSectionLines | generate_pubspec_sections.py:25-29 | For entries without `\n`, the section split at newlines is the three header lines, then the items, then the empty rest. |
| Pubspec.FlutterSectionListsEachDirOnce | generate_pubspec_sections.py:9-29 | For lines read from a file, the section lists each asset directory exactly once, in strictly increasing order, one item per line after the header. |
| Pubspec.BuildDependenciesSection | generate_pubspec_sections.py:31-42 | The dependencies section is the fixed block, whatever the input. |
| Pipeline.AssetListLines | generate_asset_list.py:204-205 | The asset list file holds each path followed by a newline, in order. |
| Pipeline.AssetListLinesAreFileLines | generate_asset_list.py:204-205 | When no path holds a newline, each written line has its newline only at the end, as a line read from a file does. |
| Pipeline.StickerPathCollected | generate_asset_list.py:102-197 | Each sticker of a pack that is not skipped appears in the sorted asset list. |
| Pipeline.ListedPathRead | generate_pubspec_sections.py:9-13 | A listed path that is not empty, has no whitespace at its ends and holds no `\n` or `\r` is read back unchanged. |
| Pipeline.DeclaredDir | generate_pubspec_sections.py:19-23 | A file whose name has no `/`, directly in a non-empty `dir` that does not end in `/`, declares `dir/`. |
| Pipeline.StickerDirectoryDeclared | generate_pubspec_sections.py:9-23 | Feeding the written asset list to the pubspec generator declares every sticker directory under `assets:`. This needs a first set-name token that is not empty and does not end in `/`. It also needs a set name and a sticker name without `\n` or `\r`, because file iteration ends a line at either. The sticker name must hold no `/`, or its path would declare a deeper directory. |
| Pipeline.StickerPathNoLineBreak | generate_asset_list.py:127-154 | A set name and a sticker name without `\n` or `\r` give a Flutter path without them, so the path is one line of the asset list. |
| Pipeline.StickerDirShape | generate_asset_list.py:127-149 | When the first set-name token is not empty and does not end in `/`, the Flutter sticker directory is not empty and does not end in a slash. |
| Pipeline.FlutterPathMirrorsSourcePath | generate_asset_list.py:113-154 | For a set name "CATEGORY N", with a category that has no spaces and is not all digits and N all digits, the Flutter asset path is the source image path moved from the extension's directory to `assets/stickers`. |
| Pipeline.NumberElsewhereDiverges | generate_asset_list.py:120-125 | For a category other than Festive, Photo and Sad, with the first two tokens not all digits and the third token all digits ("LOVE SPECIAL 4"), the Flutter path has the `/4/` sub-folder but the source path has none: the two functions of the asset-list script disagree. |

## Left out

- Reading `all_stickers_data.json` is left out. This covers `open`, `json.load`, the early `return []` on a missing or undecodable file (generate_asset_list.py:92-100), and JSON values of unexpected types. The model takes the parsed categories and packs as input. A missing key is `None`, which `.get` turns into its default.
- Opening the asset list file is left out. The lines are a parameter, and a missing file is `None`. The text-mode newline translation of file iteration is not modelled. Lines read from a file are described by `Pubspec.IsFileLine`: a newline at most at the end. Text mode also ends a line at `\r`, so the lemmas that read the written list back (`Pipeline.ListedPathRead`, `Pipeline.StickerDirectoryDeclared`) promise nothing for paths that hold `\n` or `\r`.
- The `__main__` blocks are left out: writing `asset_list.txt` and `pubspec_sections.yaml`, and the `print` messages. Their output is file system I/O. `Pipeline.AssetListLines` models only the content that is written.
- The warning `print` in `get_sticker_file_path` (generate_asset_list.py:84) is left out. It does not change the result.
- The branch that compares the upper-cased set name with `FAVOURITES`, `RECENT` and `INFO` (generate_asset_list.py:108-110) is left out. It only executes `pass`.
- The `original_path` keys of `ui_assets_mappings` are left out. Only the Flutter-side values reach the output, and the keys are all distinct, so no value is lost.
- `upper`, `capitalize` and `isdigit` are modelled for ASCII characters only. Unicode case mapping and Unicode digits are not modelled.
- The Swift sticker-pack code of the repository is not part of this model.
