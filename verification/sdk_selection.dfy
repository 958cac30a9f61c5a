/** Choosing the Android SDK platform to build against from the output of
    `android list target --compact`, given the project's minimum and maximum
    acceptable API levels.

    The selector itself lives in buildutil/android.py, which is not
    modelled; its rule is reconstructed from the expectations the test
    suite places on it:
    take the highest installed level within [min, max]; failing that, the
    highest installed level at or above min; failing that, report a
    ConfigurationError. */
module SdkSelection {
  import opened Config
  import opened Numerals

  const TargetPrefix := "android-"

  /** Index of the first newline in text at or after from, or |text|. */
  function LineEnd(text: string, from: nat): (i: nat)
    requires from <= |text|
    ensures from <= i <= |text|
    ensures i < |text| ==> text[i] == '\n'
    ensures forall j :: from <= j < i ==> text[j] != '\n'
    decreases |text| - from
  {
    if from == |text| || text[from] == '\n' then from else LineEnd(text, from + 1)
  }

  /** The tool's output cut into lines at each newline; a final newline does
      not start an empty last line. */
  function SplitLines(text: string): (lines: seq<string>)
    ensures forall k :: 0 <= k < |lines| ==> '\n' !in lines[k]
    decreases |text|
  {
    if text == [] then []
    else
      var i := LineEnd(text, 0);
      [text[..i]] + (if i < |text| then SplitLines(text[i + 1..]) else [])
  }

  /** Each line followed by a newline, as the tool prints them. */
  function JoinLines(lines: seq<string>): string
  {
    if lines == [] then "" else lines[0] + "\n" + JoinLines(lines[1..])
  }

  lemma LineEndOfJoined(line: string, rest: string)
    requires '\n' !in line
    ensures LineEnd(line + "\n" + rest, 0) == |line|
  {
    var text := line + "\n" + rest;
    assert text[|line|] == '\n';
    assert forall j :: 0 <= j < |line| ==> text[j] == line[j];
  }

  /** Splitting printed lines gives them back. */
  lemma {:induction false} SplitJoinedLines(lines: seq<string>)
    requires forall k :: 0 <= k < |lines| ==> '\n' !in lines[k]
    ensures SplitLines(JoinLines(lines)) == lines
  {
    if lines != [] {
      var text := JoinLines(lines);
      var rest := JoinLines(lines[1..]);
      assert text == lines[0] + "\n" + rest;
      LineEndOfJoined(lines[0], rest);
      assert text[..|lines[0]|] == lines[0];
      assert text[|lines[0]| + 1..] == rest;
      SplitJoinedLines(lines[1..]);
    }
  }

  /** A last line that the tool does not end with a newline is still a
      line of its own. */
  lemma {:induction false} SplitUnterminatedLast(lines: seq<string>, last: string)
    requires forall k :: 0 <= k < |lines| ==> '\n' !in lines[k]
    requires last != [] && '\n' !in last
    ensures SplitLines(JoinLines(lines) + last) == lines + [last]
  {
    if lines == [] {
      assert JoinLines(lines) + last == last;
      var i := LineEnd(last, 0);
      assert i == |last|;
      assert last[..i] == last;
    } else {
      var text := JoinLines(lines) + last;
      var rest := JoinLines(lines[1..]) + last;
      assert text == lines[0] + "\n" + rest;
      LineEndOfJoined(lines[0], rest);
      assert text[..|lines[0]|] == lines[0];
      assert text[|lines[0]| + 1..] == rest;
      SplitUnterminatedLast(lines[1..], last);
      assert lines + [last] == [lines[0]] + (lines[1..] + [last]);
    }
  }

  /** The name of the platform at a given API level: the platform prefix
      followed by the level's decimal rendering. */
  function TargetName(level: int): (name: string)
    ensures |name| > |TargetPrefix| && name[..|TargetPrefix|] == TargetPrefix
    ensures name[|TargetPrefix|] == '-' <==> level < 0
  {
    TargetPrefix + ShowInt(level)
  }

  /** The API level a line names, when it is of the form android-<integer>;
      every other line is noise. */
  function ParseTarget(line: string): (level: Option<int>)
    ensures level.Some? ==> |line| > |TargetPrefix| && line[..|TargetPrefix|] == TargetPrefix
    ensures level.Some? && level.value < 0 ==> line[|TargetPrefix|] == '-'
  {
    if |line| >= |TargetPrefix| && line[..|TargetPrefix|] == TargetPrefix
    then ParseInt(line[|TargetPrefix|..])
    else None
  }

  /** A platform name reads back as its own level. */
  lemma TargetNameRoundTrip(level: int)
    ensures ParseTarget(TargetName(level)) == Some(level)
  {
    var name := TargetName(level);
    assert name[..|TargetPrefix|] == TargetPrefix;
    assert name[|TargetPrefix|..] == ShowInt(level);
    ParseShowInt(level);
  }

  /** A line that does not start with the platform prefix names no level. */
  lemma NoiseIgnored(line: string)
    requires |line| < |TargetPrefix| || line[..|TargetPrefix|] != TargetPrefix
    ensures ParseTarget(line) == None
  {
  }

  /** The installed API levels, in the order the tool lists them. */
  function Installed(lines: seq<string>): (levels: seq<int>)
    ensures |levels| <= |lines|
  {
    if lines == [] then []
    else
      match ParseTarget(lines[0])
      case Some(v) => [v] + Installed(lines[1..])
      case None => Installed(lines[1..])
  }

  /** The installed levels are exactly the levels named by some line. */
  lemma {:induction false} InstalledLevels(lines: seq<string>)
    ensures forall v :: v in Installed(lines) <==> exists k :: 0 <= k < |lines| && ParseTarget(lines[k]) == Some(v)
  {
    if lines != [] {
      InstalledLevels(lines[1..]);
      assert forall k :: 1 <= k < |lines| ==> lines[k] == lines[1..][k - 1];
      forall v | v in Installed(lines)
        ensures exists k :: 0 <= k < |lines| && ParseTarget(lines[k]) == Some(v)
      {
        if ParseTarget(lines[0]) != Some(v) {
          var k :| 0 <= k < |lines[1..]| && ParseTarget(lines[1..][k]) == Some(v);
          assert ParseTarget(lines[k + 1]) == Some(v);
        }
      }
      forall v, k | 0 <= k < |lines| && ParseTarget(lines[k]) == Some(v)
        ensures v in Installed(lines)
      {
        if k > 0 {
          assert ParseTarget(lines[1..][k - 1]) == Some(v);
        }
      }
    }
  }

  /** Lines that each name a level, followed by any other lines, contribute
      those levels in order. */
  lemma {:induction false} LevelsOfNamingLines(lines: seq<string>, levels: seq<int>, rest: seq<string>)
    requires |lines| == |levels|
    requires forall k :: 0 <= k < |lines| ==> ParseTarget(lines[k]) == Some(levels[k])
    ensures Installed(lines + rest) == levels + Installed(rest)
  {
    if lines != [] {
      var all := lines + rest;
      assert ParseTarget(all[0]) == Some(levels[0]);
      assert all[1..] == lines[1..] + rest;
      LevelsOfNamingLines(lines[1..], levels[1..], rest);
      assert Installed(all) == [levels[0]] + (levels[1..] + Installed(rest));
      assert levels + Installed(rest) == [levels[0]] + (levels[1..] + Installed(rest));
    } else {
      assert lines + rest == rest;
    }
  }

  /** The highest level in levels that is eligible, if any is. */
  function Highest(levels: seq<int>, eligible: int -> bool): (best: Option<int>)
    ensures best.Some? ==> best.value in levels && eligible(best.value)
    ensures best.Some? ==> forall k :: 0 <= k < |levels| && eligible(levels[k]) ==> levels[k] <= best.value
    ensures best.None? ==> forall k :: 0 <= k < |levels| ==> !eligible(levels[k])
  {
    if levels == [] then None
    else
      match Highest(levels[1..], eligible)
      case None => if eligible(levels[0]) then Some(levels[0]) else None
      case Some(m) => if eligible(levels[0]) && levels[0] > m then Some(levels[0]) else Some(m)
  }

  predicate InRange(level: int, minSdk: int, maxSdk: int) { minSdk <= level <= maxSdk }

  /** The selection rule over the installed levels. It succeeds exactly when
      some installed level reaches minSdk. The chosen level is installed and
      at least minSdk; when some installed level lies in [minSdk, maxSdk] it
      is the highest such level, otherwise it is the highest level installed. */
  function SelectLevel(installed: seq<int>, minSdk: int, maxSdk: int): (r: Result<int>)
    ensures r.Ok? <==> exists k :: 0 <= k < |installed| && installed[k] >= minSdk
    ensures r.Ok? ==> r.value in installed && r.value >= minSdk
    ensures r.Ok? && (exists k :: 0 <= k < |installed| && InRange(installed[k], minSdk, maxSdk)) ==>
              r.value <= maxSdk &&
              forall k :: 0 <= k < |installed| && InRange(installed[k], minSdk, maxSdk) ==> installed[k] <= r.value
    ensures r.Ok? && (forall k :: 0 <= k < |installed| ==> !InRange(installed[k], minSdk, maxSdk)) ==>
              forall k :: 0 <= k < |installed| ==> installed[k] <= r.value
  {
    match Highest(installed, v => InRange(v, minSdk, maxSdk))
    case Some(v) => Ok(v)
    case None =>
      match Highest(installed, v => v >= minSdk)
      case Some(v) => Ok(v)
      case None => ConfigurationError("no installed Android SDK platform at or above the minimum API level")
  }

  /** Conversely, an installed level in [minSdk, maxSdk] that no other
      level in that range exceeds is the one selected. */
  lemma SelectsHighestInRange(installed: seq<int>, minSdk: int, maxSdk: int, level: int)
    requires level in installed && InRange(level, minSdk, maxSdk)
    requires forall k :: 0 <= k < |installed| && InRange(installed[k], minSdk, maxSdk) ==> installed[k] <= level
    ensures SelectLevel(installed, minSdk, maxSdk) == Ok(level)
  {
    var k :| 0 <= k < |installed| && installed[k] == level;
    assert installed[k] >= minSdk;
    var r := SelectLevel(installed, minSdk, maxSdk);
    var j :| 0 <= j < |installed| && installed[j] == r.value;
  }

  /** Conversely, when no installed level lies in [minSdk, maxSdk], the
      highest installed level is selected provided it reaches minSdk. */
  lemma SelectsHighestAboveRange(installed: seq<int>, minSdk: int, maxSdk: int, level: int)
    requires level in installed && level >= minSdk
    requires forall k :: 0 <= k < |installed| ==> !InRange(installed[k], minSdk, maxSdk) && installed[k] <= level
    ensures SelectLevel(installed, minSdk, maxSdk) == Ok(level)
  {
    var k :| 0 <= k < |installed| && installed[k] == level;
    assert installed[k] >= minSdk;
    var r := SelectLevel(installed, minSdk, maxSdk);
    var j :| 0 <= j < |installed| && installed[j] == r.value;
  }

  /** With no installed level at or above minSdk the selection fails. */
  lemma RejectsWhenAllBelow(installed: seq<int>, minSdk: int, maxSdk: int)
    requires forall k :: 0 <= k < |installed| ==> installed[k] < minSdk
    ensures SelectLevel(installed, minSdk, maxSdk).ConfigurationError?
  {
  }

  /** _find_best_android_sdk over the text the listing tool printed: the name
      of the platform at the selected level. */
  function FindBestSdk(output: string, minSdk: int, maxSdk: int): (r: Result<string>)
    ensures r.Ok? ==> |r.value| > |TargetPrefix| && r.value[..|TargetPrefix|] == TargetPrefix
  {
    match SelectLevel(Installed(SplitLines(output)), minSdk, maxSdk)
    case Ok(v) => Ok(TargetName(v))
    case ConfigurationError(msg) => ConfigurationError(msg)
  }

  /** The returned name reads back as an installed level at or above
      minSdk, and the call fails exactly when no listed level reaches
      minSdk. */
  lemma FindBestSdkNamesInstalledLevel(output: string, minSdk: int, maxSdk: int)
    ensures var r := FindBestSdk(output, minSdk, maxSdk);
            r.Ok? ==> ParseTarget(r.value).Some? &&
                      ParseTarget(r.value).value in Installed(SplitLines(output)) &&
                      ParseTarget(r.value).value >= minSdk
    ensures var installed := Installed(SplitLines(output));
            FindBestSdk(output, minSdk, maxSdk).ConfigurationError? <==>
              forall k :: 0 <= k < |installed| ==> installed[k] < minSdk
  {
    var r := SelectLevel(Installed(SplitLines(output)), minSdk, maxSdk);
    if r.Ok? {
      TargetNameRoundTrip(r.value);
    }
  }

  /** Highest depends only on which levels occur, not on their order. */
  lemma HighestIgnoresOrder(a: seq<int>, b: seq<int>, eligible: int -> bool)
    requires forall v :: v in a <==> v in b
    ensures Highest(a, eligible) == Highest(b, eligible)
  {
    var ha, hb := Highest(a, eligible), Highest(b, eligible);
    if ha.Some? {
      var j :| 0 <= j < |b| && b[j] == ha.value;
      assert hb.Some?;
      var i :| 0 <= i < |a| && a[i] == hb.value;
      assert a[i] <= ha.value && b[j] <= hb.value;
    }
  }

  /** The selection depends only on which levels are installed, not on the
      order or repetition of the lines naming them. */
  lemma SelectionIgnoresOrder(a: seq<int>, b: seq<int>, minSdk: int, maxSdk: int)
    requires forall v :: v in a <==> v in b
    ensures SelectLevel(a, minSdk, maxSdk) == SelectLevel(b, minSdk, maxSdk)
  {
    HighestIgnoresOrder(a, b, v => InRange(v, minSdk, maxSdk));
    HighestIgnoresOrder(a, b, v => v >= minSdk);
  }

  /** The same listing in any line order selects the same platform. */
  lemma FindBestSdkIgnoresLineOrder(a: seq<string>, b: seq<string>, minSdk: int, maxSdk: int)
    requires forall line :: line in a <==> line in b
    ensures SelectLevel(Installed(a), minSdk, maxSdk) == SelectLevel(Installed(b), minSdk, maxSdk)
  {
    InstalledLevels(a);
    InstalledLevels(b);
    forall v | v in Installed(a) ensures v in Installed(b) {
      var k :| 0 <= k < |a| && ParseTarget(a[k]) == Some(v);
      assert a[k] in b;
      var k' :| 0 <= k' < |b| && b[k'] == a[k];
    }
    forall v | v in Installed(b) ensures v in Installed(a) {
      var k :| 0 <= k < |b| && ParseTarget(b[k]) == Some(v);
      assert b[k] in a;
      var k' :| 0 <= k' < |a| && a[k'] == b[k];
    }
    SelectionIgnoresOrder(Installed(a), Installed(b), minSdk, maxSdk);
  }

  /** The text the mocked listing tool prints in test_find_android_sdk:
      first three platforms and a noise line, then three platforms out of
      order; and the lines each consists of. */
  const NoisyOutput := "android-3\nandroid-5\nmeaningless\nandroid-10\n"
  const UnorderedOutput := "android-10\nandroid-15\nandroid-7\n"
  const NoisyListing: seq<string> := ["android-3", "android-5", "meaningless", "android-10"]
  const UnorderedListing: seq<string> := ["android-10", "android-15", "android-7"]

  /** The first mocked text is its four lines, each ended by a newline. */
  lemma NoisyListingPrinted()
    ensures JoinLines(NoisyListing) == NoisyOutput
  {
  }

  /** The second mocked text is its three lines, each ended by a newline. */
  lemma UnorderedListingPrinted()
    ensures JoinLines(UnorderedListing) == UnorderedOutput
  {
  }

  /** The listing names exactly three levels, a, b and c, in that order. */
  predicate ListsThreeLevels(output: string, a: int, b: int, c: int)
  {
    var installed := Installed(SplitLines(output));
    |installed| == 3 && installed[0] == a && installed[1] == b && installed[2] == c
  }

  /** The levels the first listing's lines name, noise line skipped. */
  lemma NoisyListingNames()
    ensures Installed(NoisyListing) == [3, 5, 10]
  {
    var lines := NoisyListing;
    TargetNameRoundTrip(3);
    TargetNameRoundTrip(5);
    TargetNameRoundTrip(10);
    assert lines[0] == TargetName(3) && lines[1] == TargetName(5) && lines[3] == TargetName(10);
    assert lines[2][0] != TargetPrefix[0];
    NoiseIgnored(lines[2]);
    LevelsOfNamingLines(lines[..2], [3, 5], lines[2..]);
    LevelsOfNamingLines(lines[3..], [10], []);
    assert lines == lines[..2] + lines[2..] && lines[2..] == [lines[2]] + lines[3..] && lines[3..] == lines[3..] + [];
  }

  /** The levels the second listing's lines name. */
  lemma UnorderedListingNames()
    ensures Installed(UnorderedListing) == [10, 15, 7]
  {
    var lines := UnorderedListing;
    TargetNameRoundTrip(10);
    TargetNameRoundTrip(15);
    TargetNameRoundTrip(7);
    assert lines[0] == TargetName(10) && lines[1] == TargetName(15) && lines[2] == TargetName(7);
    LevelsOfNamingLines(lines, [10, 15, 7], []);
    assert lines == lines + [];
  }

  /** The first listing of test_find_android_sdk names levels 3, 5 and 10;
      its noise line contributes nothing. */
  lemma NoisyListingLevels(output: string)
    requires output == JoinLines(NoisyListing)
    ensures ListsThreeLevels(output, 3, 5, 10)
  {
    SplitJoinedLines(NoisyListing);
    NoisyListingNames();
  }

  /** The second listing names levels 10, 15 and 7, in that order. */
  lemma UnorderedListingLevels(output: string)
    requires output == JoinLines(UnorderedListing)
    ensures ListsThreeLevels(output, 10, 15, 7)
  {
    SplitJoinedLines(UnorderedListing);
    UnorderedListingNames();
  }

  /** FindBestSdk names the highest installed level within the range. */
  lemma FindsHighestInRange(output: string, minSdk: int, maxSdk: int, level: int)
    requires var installed := Installed(SplitLines(output));
             level in installed && InRange(level, minSdk, maxSdk) &&
             forall k :: 0 <= k < |installed| && InRange(installed[k], minSdk, maxSdk) ==> installed[k] <= level
    ensures FindBestSdk(output, minSdk, maxSdk) == Ok(TargetName(level))
  {
    SelectsHighestInRange(Installed(SplitLines(output)), minSdk, maxSdk, level);
  }

  /** FindBestSdk falls back to the highest installed level when the range
      holds none. */
  lemma FindsHighestAboveRange(output: string, minSdk: int, maxSdk: int, level: int)
    requires var installed := Installed(SplitLines(output));
             level in installed && level >= minSdk &&
             forall k :: 0 <= k < |installed| ==> !InRange(installed[k], minSdk, maxSdk) && installed[k] <= level
    ensures FindBestSdk(output, minSdk, maxSdk) == Ok(TargetName(level))
  {
    SelectsHighestAboveRange(Installed(SplitLines(output)), minSdk, maxSdk, level);
  }

  /* The expectations of test_find_android_sdk on any listing that names
     levels 3, 5 and 10 (its first mocked text, by NoisyListingLevels), or
     10, 15 and 7 (its second), one lemma per expectation. */

  lemma Range1To5Among3And5And10(output: string)
    requires ListsThreeLevels(output, 3, 5, 10)
    ensures FindBestSdk(output, 1, 5) == Ok("android-5")
  {
    FindsHighestInRange(output, 1, 5, 5);
    assert TargetName(5) == "android-5";
  }

  lemma Range5To15Among3And5And10(output: string)
    requires ListsThreeLevels(output, 3, 5, 10)
    ensures FindBestSdk(output, 5, 15) == Ok("android-10")
  {
    FindsHighestInRange(output, 5, 15, 10);
    assert TargetName(10) == "android-10";
  }

  /** No installed level lies in [1, 2]; the highest installed level is
      taken rather than an error reported. */
  lemma Range1To2Among3And5And10(output: string)
    requires ListsThreeLevels(output, 3, 5, 10)
    ensures FindBestSdk(output, 1, 2) == Ok("android-10")
  {
    FindsHighestAboveRange(output, 1, 2, 10);
    assert TargetName(10) == "android-10";
  }

  lemma Range11To20Among3And5And10(output: string)
    requires ListsThreeLevels(output, 3, 5, 10)
    ensures FindBestSdk(output, 11, 20).ConfigurationError?
  {
    var installed := Installed(SplitLines(output));
    assert forall k :: 0 <= k < |installed| ==> installed[k] < 11 by {
      assert installed == [3, 5, 10];
    }
    RejectsWhenAllBelow(installed, 11, 20);
  }

  /** [5, 15] picks the highest level, android-15, whatever its position
      among the lines. */
  lemma Range5To15Among10And15And7(output: string)
    requires ListsThreeLevels(output, 10, 15, 7)
    ensures FindBestSdk(output, 5, 15) == Ok("android-15")
  {
    FindsHighestInRange(output, 5, 15, 15);
    assert TargetName(15) == "android-15";
  }

  /* test_find_android_sdk end to end: each expectation on the text the
     mocked tool prints. */

  lemma FindAndroidSdkRange1To5(output: string)
    requires output == NoisyOutput
    ensures FindBestSdk(output, 1, 5) == Ok("android-5")
  {
    NoisyListingPrinted();
    NoisyListingLevels(output);
    Range1To5Among3And5And10(output);
  }

  lemma FindAndroidSdkRange5To15(output: string)
    requires output == NoisyOutput
    ensures FindBestSdk(output, 5, 15) == Ok("android-10")
  {
    NoisyListingPrinted();
    NoisyListingLevels(output);
    Range5To15Among3And5And10(output);
  }

  lemma FindAndroidSdkRange1To2(output: string)
    requires output == NoisyOutput
    ensures FindBestSdk(output, 1, 2) == Ok("android-10")
  {
    NoisyListingPrinted();
    NoisyListingLevels(output);
    Range1To2Among3And5And10(output);
  }

  lemma FindAndroidSdkRange11To20(output: string)
    requires output == NoisyOutput
    ensures FindBestSdk(output, 11, 20).ConfigurationError?
  {
    NoisyListingPrinted();
    NoisyListingLevels(output);
    Range11To20Among3And5And10(output);
  }

  lemma FindAndroidSdkUnordered(output: string)
    requires output == UnorderedOutput
    ensures FindBestSdk(output, 5, 15) == Ok("android-15")
  {
    UnorderedListingPrinted();
    UnorderedListingLevels(output);
    Range5To15Among10And15And7(output);
  }
}
