# fplutil Android build helpers — a Dafny model

This project models the core of fplutil's Android build support as its test
suite, `buildutil/test_android.py`, pins it down:

- **FileMock** (`file_mock.dfy`, module `FileMocks`): the suite's in-memory file. It
  holds a string, and `read(n)` hands back a prefix of it and drops that prefix
  in place. It is a class whose one field, `text`, holds that string. `ReadToEnd` is the loop a
  markup reader runs over such a source: read chunks until a read returns `""`.
- **SDK platform selection** (`sdk_selection.dfy`, module `SdkSelection`):
  `_find_best_android_sdk` reads the output of `android list target --compact`.
  Lines of the form `android-<integer>` name an installed API level and every
  other line is noise. From the installed levels it picks a platform for a
  `[min, max]` range. The selector's own code is not part of this model. Its
  rule is **reconstructed from the test's expectations**, and it is the one
  rule found that meets all of them:
  1. take the highest installed level within `[min, max]`;
  2. failing that, take the highest installed level `>= min`;
  3. failing that, report a `ConfigurationError`.

  Lines 305-306 rule out a strict reading of the range: `[1, 2]` over
  levels `{3, 5, 10}` gives `android-10`, not an error.
- **Descriptors** (`descriptors.dfy`, module `Descriptors`): `AndroidManifest` and
  `BuildXml`. Each is a class whose `Parse` consumes a source and updates
  fields in place:
  - `min_sdk` and `target_sdk` come from the first `uses-sdk` child of a
    `manifest` root.
  - `project_name` comes from the `name` attribute of a `project` root.

  The markup parser they use is not part of this model. A parsed file is an
  abstract element tree (tag, attributes, children) or `Malformed`. The
  function that maps the consumed text to that tree is a parameter of `Parse`.
- `numerals.dfy` (module `Numerals`) holds the integer text conversion that
  both parts use: Python's `int()` on an optional sign plus digits, and its
  inverse rendering. `config.dfy` (module `Config`) holds `Option` and
  `Result`. `Result`'s failure case, `ConfigurationError(message)`, is the
  single error kind of the parts modelled here: the SDK selector and the two
  descriptors.

## Model

| member | source | states |
|---|---|---|
| `FileMocks.FileMock.constructor` | buildutil/test_android.py:30-31 | the buffer holds exactly the given string |
| `FileMocks.FileMock.Close` | buildutil/test_android.py:33-34 | closing changes nothing |
| `FileMocks.FileMock.Read` | buildutil/test_android.py:36-39 | returns `s[0:n]` with Python slice semantics (negative `n` included) and leaves `s[n:]`; result followed by the new buffer is the old buffer; a non-negative `n` yields `min(n, len)` characters; an empty buffer yields `""` and stays empty |
| `FileMocks.SliceStop` | buildutil/test_android.py:37-38 | the cut point of `s[0:n]` lies within the string |
| `FileMocks.ReadToEnd` | buildutil/test_android.py:36-39 | reading chunks until `""` returns exactly the original text and leaves the mock empty |
| `Numerals.ParseInt` | buildutil/test_android.py:170-180 | `int()` on attribute values and level suffixes: a result comes from a non-empty text whose characters after the first are digits; a negative result has a leading `-`; a non-empty all-digit text always reads as a non-negative integer |
| `Numerals.ShowInt` | buildutil/test_android.py:301-316 | the rendering of a level is non-empty and starts with `-` exactly when the level is negative |
| `SdkSelection.SplitLines` | buildutil/test_android.py:300 | no line of the split output contains a newline |
| `SdkSelection.SplitJoinedLines` | buildutil/test_android.py:300 | splitting newline-terminated lines gives those lines back |
| `SdkSelection.SplitUnterminatedLast` | buildutil/test_android.py:300 | a last line without a closing newline is still split off as a line of its own |
| `SdkSelection.TargetName` | buildutil/test_android.py:301-316 | the returned platform name is `android-` followed by the level, with a `-` after the prefix exactly when the level is negative |
| `SdkSelection.ParseTarget` | buildutil/test_android.py:300 | a line names a level only when it starts with `android-` and has more after it; a negative level needs a `-` right after the prefix |
| `SdkSelection.TargetNameRoundTrip` | buildutil/test_android.py:301-306 | a platform name `android-N` reads back as level N, for every integer N |
| `SdkSelection.NoiseIgnored` | buildutil/test_android.py:300 | a line without the `android-` prefix names no level |
| `SdkSelection.Installed` | buildutil/test_android.py:300 | the extracted levels are no more than the listed lines (noise lines give none) |
| `SdkSelection.InstalledLevels` | buildutil/test_android.py:300 | the installed levels are exactly the levels named by some line |
| `SdkSelection.LevelsOfNamingLines` | buildutil/test_android.py:300 | lines that each name a level, followed by other lines, contribute exactly those levels, in order |
| `SdkSelection.Highest` | buildutil/test_android.py:314-316 | returns an eligible listed level that no eligible level exceeds, or none exactly when no level is eligible |
| `SdkSelection.SelectLevel` | buildutil/test_android.py:301-316 | succeeds exactly when some level reaches min. The result is installed and `>= min`. It is the highest level in `[min, max]` when one exists, and otherwise the highest level installed |
| `SdkSelection.FindBestSdk` | buildutil/test_android.py:293-316 | `_find_best_android_sdk` itself: a success is an `android-` platform name. Its full contract is stated by `FindBestSdkNamesInstalledLevel`, `FindsHighestInRange` and `FindsHighestAboveRange` |
| `SdkSelection.FindBestSdkNamesInstalledLevel` | buildutil/test_android.py:293-316 | the returned name reads back as an installed level `>= min`; the call fails exactly when every listed level is below min |
| `SdkSelection.SelectsHighestInRange` | buildutil/test_android.py:301-304 | conversely, the highest installed level within the range is the one selected |
| `SdkSelection.SelectsHighestAboveRange` | buildutil/test_android.py:305-306 | conversely, with no installed level in range, the highest installed level `>= min` is selected |
| `SdkSelection.RejectsWhenAllBelow` | buildutil/test_android.py:307-313 | with no installed level `>= min` the result is a `ConfigurationError` |
| `SdkSelection.HighestIgnoresOrder` | buildutil/test_android.py:314-316 | the highest eligible level depends only on which levels occur |
| `SdkSelection.SelectionIgnoresOrder` | buildutil/test_android.py:314-316 | the selection depends only on which levels are installed, not their order |
| `SdkSelection.FindBestSdkIgnoresLineOrder` | buildutil/test_android.py:314-316 | reordering or repeating the listing's lines does not change the selected level |
| `SdkSelection.FindsHighestInRange` | buildutil/test_android.py:301-304 | the named platform is the highest installed level within the range |
| `SdkSelection.FindsHighestAboveRange` | buildutil/test_android.py:305-306 | the named platform is the highest installed level when the range holds none |
| `SdkSelection.NoisyListingPrinted` | buildutil/test_android.py:300 | the first mocked text `android-3\nandroid-5\nmeaningless\nandroid-10\n` is its four lines, each ended by a newline |
| `SdkSelection.UnorderedListingPrinted` | buildutil/test_android.py:314 | the second mocked text `android-10\nandroid-15\nandroid-7\n` is its three lines, each ended by a newline |
| `SdkSelection.NoisyListingLevels` | buildutil/test_android.py:300 | the first mocked listing names levels 3, 5, 10 in order; `meaningless` contributes nothing |
| `SdkSelection.UnorderedListingLevels` | buildutil/test_android.py:314 | the second mocked listing names levels 10, 15, 7 in order |
| `SdkSelection.Range1To5Among3And5And10` | buildutil/test_android.py:301-302 | for any listing of levels 3, 5, 10, range [1,5] gives `android-5` |
| `SdkSelection.Range5To15Among3And5And10` | buildutil/test_android.py:303-304 | for any listing of levels 3, 5, 10, range [5,15] gives `android-10` |
| `SdkSelection.Range1To2Among3And5And10` | buildutil/test_android.py:305-306 | for any listing of levels 3, 5, 10, range [1,2] gives `android-10`, not an error |
| `SdkSelection.Range11To20Among3And5And10` | buildutil/test_android.py:307-313 | for any listing of levels 3, 5, 10, range [11,20] is a `ConfigurationError` |
| `SdkSelection.Range5To15Among10And15And7` | buildutil/test_android.py:314-316 | for any listing of levels 10, 15, 7, range [5,15] gives `android-15` regardless of line order |
| `SdkSelection.FindAndroidSdkRange1To5` | buildutil/test_android.py:300-302 | on the first mocked text, range [1,5] gives `android-5` |
| `SdkSelection.FindAndroidSdkRange5To15` | buildutil/test_android.py:300-304 | on the first mocked text, range [5,15] gives `android-10` |
| `SdkSelection.FindAndroidSdkRange1To2` | buildutil/test_android.py:300-306 | on the first mocked text, range [1,2] gives `android-10` |
| `SdkSelection.FindAndroidSdkRange11To20` | buildutil/test_android.py:300-313 | on the first mocked text, range [11,20] is a `ConfigurationError` |
| `SdkSelection.FindAndroidSdkUnordered` | buildutil/test_android.py:314-316 | on the second mocked text, range [5,15] gives `android-15` |
| `Numerals.ShowNat` | buildutil/test_android.py:301-306 | the decimal rendering is non-empty, all digits, and has no leading zero |
| `Numerals.ParseShowInt` | buildutil/test_android.py:170-180 | `int()` of the rendering of any integer, negative ones included, is that integer |
| `Descriptors.FirstWithTag` | buildutil/test_android.py:195-206 | gives the position of the first child with the tag, or the end when there is none |
| `Descriptors.ResolveManifest` | buildutil/test_android.py:150-217 | a successful parse comes from a `manifest` root whose first `uses-sdk` child has an integer `minSdkVersion`. The target is `targetSdkVersion` when present and the minimum otherwise |
| `Descriptors.TargetDefaultsToMin` | buildutil/test_android.py:150-157 | with only a `minSdkVersion` that `int()` reads as n, in any spelling, both levels are n |
| `Descriptors.TargetStoredVerbatim` | buildutil/test_android.py:159-180 | with both attributes, the target is whatever integer `int()` reads, unchecked, negative included |
| `Descriptors.ManifestFaultsRejected` | buildutil/test_android.py:182-217 | malformed markup, no `uses-sdk`, or no `minSdkVersion` each give a `ConfigurationError` (lines 182-217 test these); a non-`manifest` root does too, a reconstruction the suite has no case for |
| `Descriptors.AndroidManifest.constructor` | buildutil/test_android.py:136-140 | a descriptor without a path has levels 0 and 0 and no path |
| `Descriptors.AndroidManifest.Parse` | buildutil/test_android.py:150-217 | consumes the source, stores the resolved levels or reports the error with the levels unchanged; the path is untouched |
| `Descriptors.ResolveProjectName` | buildutil/test_android.py:232-259 | a successful parse is the non-empty `name` attribute of a `project` root, verbatim |
| `Descriptors.ProjectNameExtracted` | buildutil/test_android.py:232-237 | a `project` root with a name yields that name |
| `Descriptors.ProjectFaultsRejected` | buildutil/test_android.py:239-259 | malformed markup, a non-`project` root, or no `name` each give a `ConfigurationError` |
| `Descriptors.BuildXml.constructor` | buildutil/test_android.py:219-222 | a descriptor without a path has no name and no path |
| `Descriptors.BuildXml.Parse` | buildutil/test_android.py:232-259 | consumes the source, stores the name or reports the error with the name unchanged; the path is untouched |
| `Descriptors.ManifestParseVectors` | buildutil/test_android.py:150-217 | the six manifest parses of the suite: (1,1), (1,2), (1,-2), then three `ConfigurationError`s |
| `Descriptors.BuildXmlParseVectors` | buildutil/test_android.py:232-259 | `<project name="foo"/>` gives `foo`; `<project/>` and `<not-project .../>` are errors |
| `Descriptors.ConstructManifestWithoutPath` | buildutil/test_android.py:136-140 | a fresh manifest descriptor reads 0, 0 and no path |
| `Descriptors.ConstructBuildXmlWithoutPath` | buildutil/test_android.py:219-222 | a fresh build.xml descriptor reads no name and no path |
| `Descriptors.ManifestParseWithBadTarget` | buildutil/test_android.py:170-180 | parsing the suite's manifest with `targetSdkVersion="-2"` succeeds with levels 1 and -2 |
| `Descriptors.ManifestParseError` | buildutil/test_android.py:208-217 | parsing the suite's unreadable `<manifest ` is a `ConfigurationError` and the levels stay 0 |
| `Descriptors.BuildXmlParseTrivial` | buildutil/test_android.py:232-237 | parsing `<project name="foo"/>` stores `foo` and leaves the path unset |
| `Descriptors.BuildXmlMissingName` | buildutil/test_android.py:239-248 | parsing `<project/>` is a `ConfigurationError` and no name is stored |

## Left out

- Constructing a descriptor from a path opens and reads a file. A nonexistent path is an error (test_android.py:142-148, 224-230). Both are filesystem I/O. Only construction without a path is modelled.
- Tokenising XML is the job of an external parser library. `Parse` takes the text-to-tree function as a parameter and the model works on the resulting tree.
- Attribute names are keyed as written in the markup (`android:minSdkVersion`). Namespace resolution is the parser's business and is not modelled.
- Descriptors.ResolveManifest: takes the first `uses-sdk` among the root's direct children. The parser's search order is not visible.
- Descriptors.ResolveManifest: treats an attribute value that is not an integer as a `ConfigurationError`. The suite has no such case.
- Descriptors.ResolveProjectName: treats an empty `name` as missing. The suite has no such case.
- Descriptors.AndroidManifest.Parse: leaves both levels unchanged on any failure. If the code stores `min_sdk` before an unreadable target fails, that partial update is not captured.
- Descriptors.ResolveManifest: rejects a root other than `manifest`. The suite has no such case; this check is a reconstruction.
- Descriptors.AndroidManifest.Parse: always drains the whole source before resolving the tree, so the source is empty on every path. A chunked markup reader stops at the first chunk it cannot parse, so a source longer than one read with an early error would be left partly unread.
- Descriptors.BuildXml.Parse: always drains the whole source, as for `AndroidManifest.Parse`. It also keeps the previous `project_name` on any failure; a partial update by the original code would not be captured.
- SdkSelection.ParseTarget: reads the suffix after `android-` with `int()` semantics, so `android--3` names level -3 and `android-+3` names level 3. The listing tool prints only digits there; whether the original accepts a sign is not visible.
- Numerals.ParseInt: accepts only an optional sign followed by ASCII digits. Python's `int()` also allows surrounding whitespace, underscores and other Unicode digits.
- SdkSelection.SplitLines: splits at `\n` only. `str.splitlines` also breaks at `\r`, `\r\n` and other separators.
- SdkSelection.FindBestSdk: returns the canonical name `android-N`. A listed line with leading zeros (`android-07`) would be named `android-7`.
- Running `android list target --compact` is a subprocess call. Its printed text is the `output` parameter. `RunCommandMock` is test plumbing, and only the `stdout` it returns is modelled.
- Error messages are not those of the original code. Only the error kind is modelled.
- `BuildEnvironment.build_defaults`, the `BuildEnvironment` constructor and `add_arguments` are not modelled (test_android.py:69-134). They are environment defaulting and argument-parser wiring.
- `build_android_libraries` and its `ToolPathError` are not modelled (test_android.py:261-291). They depend on the filesystem, the working directory and the CPU count.
- APK packaging and signing are not modelled. Their tests are empty stubs (test_android.py:321-325).
