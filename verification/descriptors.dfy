/** The two configuration descriptors the Android build helpers read:
    AndroidManifest.xml (API levels) and ant's build.xml (project name).

    The markup parser they delegate to is not part of this model. A parsed
    file is modelled as a tree of elements, each with a tag, its attributes
    keyed by their qualified names as written in the markup, and its child
    elements; text the parser cannot read is the single value Malformed.
    The reader that turns the consumed text into such a tree is a parameter
    of the parse methods. */
module Descriptors {
  import opened Config
  import opened Numerals
  import opened FileMocks

  datatype Element = Element(tag: string, attributes: map<string, string>, children: seq<Element>)

  datatype Markup = Malformed | Document(root: Element)

  const ManifestTag := "manifest"
  const UsesSdkTag := "uses-sdk"
  const MinSdkAttribute := "android:minSdkVersion"
  const TargetSdkAttribute := "android:targetSdkVersion"
  const ProjectTag := "project"
  const NameAttribute := "name"

  /** Position of the first child with the given tag, or |children| when
      there is none. */
  function FirstWithTag(children: seq<Element>, tag: string): (i: nat)
    ensures i <= |children|
    ensures i < |children| ==> children[i].tag == tag
    ensures forall j :: 0 <= j < i ==> children[j].tag != tag
  {
    if children == [] then 0
    else if children[0].tag == tag then 0
    else 1 + FirstWithTag(children[1..], tag)
  }

  // ---------------------------------------------------------------------
  // AndroidManifest.xml

  datatype SdkVersions = SdkVersions(minSdk: int, targetSdk: int)

  /** What AndroidManifest._parse makes of a parsed manifest. The root must be
      a manifest element, its first uses-sdk child must carry an integer
      minSdkVersion, and the target level is the integer targetSdkVersion
      when that attribute is present and the minimum level otherwise. No
      range check is made: a negative target is stored as it is. A successful
      result always comes from such a manifest. */
  function ResolveManifest(m: Markup): (r: Result<SdkVersions>)
    ensures r.Ok? ==>
      m.Document? && m.root.tag == ManifestTag &&
      var i := FirstWithTag(m.root.children, UsesSdkTag);
      i < |m.root.children| &&
      var usesSdk := m.root.children[i];
      MinSdkAttribute in usesSdk.attributes &&
      ParseInt(usesSdk.attributes[MinSdkAttribute]) == Some(r.value.minSdk) &&
      (TargetSdkAttribute in usesSdk.attributes ==>
         ParseInt(usesSdk.attributes[TargetSdkAttribute]) == Some(r.value.targetSdk)) &&
      (TargetSdkAttribute !in usesSdk.attributes ==> r.value.targetSdk == r.value.minSdk)
  {
    if m.Malformed? then ConfigurationError("manifest is not well-formed markup")
    else if m.root.tag != ManifestTag then ConfigurationError("manifest root element missing")
    else
      var i := FirstWithTag(m.root.children, UsesSdkTag);
      if i == |m.root.children| then ConfigurationError("uses-sdk element missing")
      else
        var usesSdk := m.root.children[i];
        if MinSdkAttribute !in usesSdk.attributes then ConfigurationError("minSdkVersion missing")
        else
          match ParseInt(usesSdk.attributes[MinSdkAttribute])
          case None => ConfigurationError("minSdkVersion is not an integer")
          case Some(minSdk) =>
            if TargetSdkAttribute !in usesSdk.attributes then Ok(SdkVersions(minSdk, minSdk))
            else
              match ParseInt(usesSdk.attributes[TargetSdkAttribute])
              case None => ConfigurationError("targetSdkVersion is not an integer")
              case Some(targetSdk) => Ok(SdkVersions(minSdk, targetSdk))
  }

  /** A manifest root whose first uses-sdk child is usesSdk. */
  predicate ManifestWith(root: Element, usesSdk: Element)
  {
    root.tag == ManifestTag &&
    FirstWithTag(root.children, UsesSdkTag) < |root.children| &&
    root.children[FirstWithTag(root.children, UsesSdkTag)] == usesSdk
  }

  /** With only a minSdkVersion that reads as the integer n, in any
      spelling int() accepts, both levels resolve to n. */
  lemma TargetDefaultsToMin(root: Element, usesSdk: Element, n: int)
    requires ManifestWith(root, usesSdk)
    requires MinSdkAttribute in usesSdk.attributes && ParseInt(usesSdk.attributes[MinSdkAttribute]) == Some(n)
    requires TargetSdkAttribute !in usesSdk.attributes
    ensures ResolveManifest(Document(root)) == Ok(SdkVersions(n, n))
  {
  }

  /** With both attributes, the target level is whatever integer the
      manifest gives, negative ones included. */
  lemma TargetStoredVerbatim(root: Element, usesSdk: Element, minSdk: int, targetSdk: int)
    requires ManifestWith(root, usesSdk)
    requires MinSdkAttribute in usesSdk.attributes && ParseInt(usesSdk.attributes[MinSdkAttribute]) == Some(minSdk)
    requires TargetSdkAttribute in usesSdk.attributes && ParseInt(usesSdk.attributes[TargetSdkAttribute]) == Some(targetSdk)
    ensures ResolveManifest(Document(root)) == Ok(SdkVersions(minSdk, targetSdk))
  {
  }

  /** Each structural fault is a ConfigurationError: unreadable markup, a
      root other than manifest, no uses-sdk child, a uses-sdk without
      minSdkVersion. */
  lemma ManifestFaultsRejected(m: Markup)
    requires m.Malformed? || m.root.tag != ManifestTag ||
             (forall k :: 0 <= k < |m.root.children| ==> m.root.children[k].tag != UsesSdkTag) ||
             (exists usesSdk :: ManifestWith(m.root, usesSdk) && MinSdkAttribute !in usesSdk.attributes)
    ensures ResolveManifest(m).ConfigurationError?
  {
  }

  class AndroidManifest {
    var minSdk: int
    var targetSdk: int
    var path: Option<string>

    /** AndroidManifest(None): no file, default levels. */
    constructor ()
      ensures minSdk == 0 && targetSdk == 0 && path == None
    {
      minSdk, targetSdk, path := 0, 0, None;
    }

    /** _parse: consumes the whole source, reads it as markup and stores the
        resolved levels; on a ConfigurationError the levels are left as they
        were. The path is never touched. */
    method Parse(source: FileMock, markupOf: string -> Markup) returns (r: Result<()>)
      modifies this, source
      ensures source.text == []
      ensures path == old(path)
      ensures match ResolveManifest(markupOf(old(source.text)))
              case Ok(levels) => r == Ok(()) && minSdk == levels.minSdk && targetSdk == levels.targetSdk
              case ConfigurationError(message) =>
                r == ConfigurationError(message) && minSdk == old(minSdk) && targetSdk == old(targetSdk)
    {
      var text := ReadToEnd(source);
      match ResolveManifest(markupOf(text))
      case Ok(levels) =>
        minSdk, targetSdk := levels.minSdk, levels.targetSdk;
        r := Ok(());
      case ConfigurationError(message) =>
        r := ConfigurationError(message);
    }
  }

  // ---------------------------------------------------------------------
  // build.xml

  /** What BuildXml._parse makes of a parsed build file: the name attribute
      of a project root, taken verbatim; it must be present and not empty. */
  function ResolveProjectName(m: Markup): (r: Result<string>)
    ensures r.Ok? ==>
      m.Document? && m.root.tag == ProjectTag &&
      NameAttribute in m.root.attributes && m.root.attributes[NameAttribute] == r.value &&
      r.value != ""
  {
    if m.Malformed? then ConfigurationError("build file is not well-formed markup")
    else if m.root.tag != ProjectTag then ConfigurationError("project element missing")
    else if NameAttribute !in m.root.attributes || m.root.attributes[NameAttribute] == "" then
      ConfigurationError("project name missing")
    else Ok(m.root.attributes[NameAttribute])
  }

  /** A project root with a non-empty name yields exactly that name. */
  lemma ProjectNameExtracted(root: Element)
    requires root.tag == ProjectTag
    requires NameAttribute in root.attributes && root.attributes[NameAttribute] != ""
    ensures ResolveProjectName(Document(root)) == Ok(root.attributes[NameAttribute])
  {
  }

  /** Unreadable markup, a root other than project, and a project without a
      name are each a ConfigurationError. */
  lemma ProjectFaultsRejected(m: Markup)
    requires m.Malformed? || m.root.tag != ProjectTag || NameAttribute !in m.root.attributes
    ensures ResolveProjectName(m).ConfigurationError?
  {
  }

  class BuildXml {
    var projectName: Option<string>
    var path: Option<string>

    /** BuildXml(None): no file, no project name. */
    constructor ()
      ensures projectName == None && path == None
    {
      projectName, path := None, None;
    }

    /** _parse: consumes the whole source, reads it as markup and stores the
        project name; on a ConfigurationError the name is left as it was.
        The path is never touched. */
    method Parse(source: FileMock, markupOf: string -> Markup) returns (r: Result<()>)
      modifies this, source
      ensures source.text == []
      ensures path == old(path)
      ensures match ResolveProjectName(markupOf(old(source.text)))
              case Ok(name) => r == Ok(()) && projectName == Some(name)
              case ConfigurationError(message) => r == ConfigurationError(message) && projectName == old(projectName)
    {
      var text := ReadToEnd(source);
      match ResolveProjectName(markupOf(text))
      case Ok(name) =>
        projectName := Some(name);
        r := Ok(());
      case ConfigurationError(message) =>
        r := ConfigurationError(message);
    }
  }

  // ---------------------------------------------------------------------
  // The parses of test_android.py, over the trees their markup stands for.

  const AndroidNamespace := "http://schemas.android.com/apk/res/android"

  /** <manifest xmlns:android=...> holding the given children. */
  function ManifestDocument(children: seq<Element>): Markup
  {
    Document(Element(ManifestTag, map["xmlns:android" := AndroidNamespace], children))
  }

  function UsesSdk(attributes: map<string, string>): Element
  {
    Element(UsesSdkTag, attributes, [])
  }

  lemma ManifestParseVectors()
    ensures ResolveManifest(ManifestDocument([UsesSdk(map[MinSdkAttribute := "1"])])) == Ok(SdkVersions(1, 1))
    ensures ResolveManifest(ManifestDocument([UsesSdk(map[MinSdkAttribute := "1", TargetSdkAttribute := "2"])]))
            == Ok(SdkVersions(1, 2))
    ensures ResolveManifest(ManifestDocument([UsesSdk(map[MinSdkAttribute := "1", TargetSdkAttribute := "-2"])]))
            == Ok(SdkVersions(1, -2))
    ensures ResolveManifest(ManifestDocument([UsesSdk(map[])])).ConfigurationError?
    ensures ResolveManifest(ManifestDocument([])).ConfigurationError?
    ensures ResolveManifest(Malformed).ConfigurationError?
  {
    assert ShowInt(1) == "1" && ShowInt(2) == "2" && ShowInt(-2) == "-2";
    ParseShowInt(1);
    ParseShowInt(2);
    ParseShowInt(-2);
    TargetDefaultsToMin(ManifestDocument([UsesSdk(map[MinSdkAttribute := "1"])]).root,
                        UsesSdk(map[MinSdkAttribute := "1"]), 1);
    TargetStoredVerbatim(ManifestDocument([UsesSdk(map[MinSdkAttribute := "1", TargetSdkAttribute := "2"])]).root,
                         UsesSdk(map[MinSdkAttribute := "1", TargetSdkAttribute := "2"]), 1, 2);
    TargetStoredVerbatim(ManifestDocument([UsesSdk(map[MinSdkAttribute := "1", TargetSdkAttribute := "-2"])]).root,
                         UsesSdk(map[MinSdkAttribute := "1", TargetSdkAttribute := "-2"]), 1, -2);
  }

  lemma BuildXmlParseVectors()
    ensures ResolveProjectName(Document(Element(ProjectTag, map[NameAttribute := "foo"], []))) == Ok("foo")
    ensures ResolveProjectName(Document(Element(ProjectTag, map[], []))).ConfigurationError?
    ensures ResolveProjectName(Document(Element("not-project", map[NameAttribute := "foo"], []))).ConfigurationError?
  {
  }

  /* The same tests at the level of the descriptor objects: a fresh
     descriptor, a mock file holding the markup, and a reader that turns
     exactly that markup into its tree. */

  const ManifestBadTargetText :=
    "<manifest xmlns:android=\"http://schemas.android.com/apk/res/android\">\n" +
    "<uses-sdk android:minSdkVersion=\"1\" android:targetSdkVersion=\"-2\"/>\n</manifest>"
  const ManifestErrorText := "<manifest "
  const BuildXmlTrivialText := "<project name=\"foo\"/>"
  const BuildXmlMissingNameText := "<project/>"

  /** test_construct_android_manifest, without a path: default levels. */
  method ConstructManifestWithoutPath() returns (minSdk: int, targetSdk: int, path: Option<string>)
    ensures minSdk == 0 && targetSdk == 0 && path == None
  {
    var m := new AndroidManifest();
    minSdk, targetSdk, path := m.minSdk, m.targetSdk, m.path;
  }

  /** test_construct_buildxml, without a path: no name, no path. */
  method ConstructBuildXmlWithoutPath() returns (projectName: Option<string>, path: Option<string>)
    ensures projectName == None && path == None
  {
    var b := new BuildXml();
    projectName, path := b.projectName, b.path;
  }

  /** test_manifest_parse_with_bad_target: a negative target is stored. */
  method ManifestParseWithBadTarget() returns (r: Result<()>, minSdk: int, targetSdk: int)
    ensures r == Ok(()) && minSdk == 1 && targetSdk == -2
  {
    var doc := ManifestDocument([UsesSdk(map[MinSdkAttribute := "1", TargetSdkAttribute := "-2"])]);
    ManifestParseVectors();
    var m := new AndroidManifest();
    var f := new FileMock(ManifestBadTargetText);
    r := m.Parse(f, t => if t == ManifestBadTargetText then doc else Malformed);
    minSdk, targetSdk := m.minSdk, m.targetSdk;
  }

  /** test_manifest_parse_error: unreadable markup is a ConfigurationError
      and the levels keep their defaults. */
  method ManifestParseError() returns (r: Result<()>, minSdk: int, targetSdk: int)
    ensures r.ConfigurationError? && minSdk == 0 && targetSdk == 0
  {
    var m := new AndroidManifest();
    var f := new FileMock(ManifestErrorText);
    var doc := ManifestDocument([UsesSdk(map[MinSdkAttribute := "1"])]);
    r := m.Parse(f, t => if t == ManifestErrorText then Malformed else doc);
    minSdk, targetSdk := m.minSdk, m.targetSdk;
  }

  /** test_buildxml_parse_trivial: the name is stored and the path stays
      unset. */
  method BuildXmlParseTrivial() returns (r: Result<()>, projectName: Option<string>, path: Option<string>)
    ensures r == Ok(()) && projectName == Some("foo") && path == None
  {
    var doc := Document(Element(ProjectTag, map[NameAttribute := "foo"], []));
    BuildXmlParseVectors();
    var b := new BuildXml();
    var f := new FileMock(BuildXmlTrivialText);
    r := b.Parse(f, t => if t == BuildXmlTrivialText then doc else Malformed);
    projectName, path := b.projectName, b.path;
  }

  /** test_buildxml_missing_name: a ConfigurationError, no name stored. */
  method BuildXmlMissingName() returns (r: Result<()>, projectName: Option<string>)
    ensures r.ConfigurationError? && projectName == None
  {
    var doc := Document(Element(ProjectTag, map[], []));
    BuildXmlParseVectors();
    var b := new BuildXml();
    var f := new FileMock(BuildXmlMissingNameText);
    r := b.Parse(f, t => if t == BuildXmlMissingNameText then doc else Malformed);
    projectName := b.projectName;
  }
}
