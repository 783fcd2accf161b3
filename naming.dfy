/**
 * Tag and base-image naming shared by both build scripts: the postfix a base
 * variant contributes to a tag, the primary tag, the registry-qualified tag,
 * the `python:` base image reference and the build arguments.
 * Both scripts define these helpers identically, so they are modelled once.
 */
module Naming {

  /** The Python runtime version every image is built on. */
  const PythonVersion: string := "3.6"

  /** The tag suffix of a base variant: nothing for the default variant "",
      otherwise a dash followed by the variant. */
  function Postfix(base: string): (r: string)
    ensures r == "" <==> base == ""
    ensures r != "" ==> r[0] == '-' && r[1..] == base
  {
    if base != "" then "-" + base else ""
  }

  /** The primary tag of a (version, variant) pair. */
  function Tag(version: string, base: string): (r: string)
    ensures base == "" ==> r == version
    ensures base != "" ==> r == version + "-" + base
  {
    version + Postfix(base)
  }

  /** A tag is its version followed by the variant's postfix. */
  lemma TagParts(version: string, base: string)
    ensures |Tag(version, base)| >= |version|
    ensures Tag(version, base)[..|version|] == version
    ensures Tag(version, base)[|version|..] == Postfix(base)
  {
  }

  /** Within one version, different variants never share a primary tag. */
  lemma TagDeterminesVariant(version: string, b1: string, b2: string)
    requires Tag(version, b1) == Tag(version, b2)
    ensures b1 == b2
  {
    var t := Tag(version, b1);
    TagParts(version, b1);
    TagParts(version, b2);
    assert Postfix(b1) == t[|version|..] == Postfix(b2);
    if b1 != "" {
      assert b1 == Postfix(b1)[1..] == Postfix(b2)[1..] == b2;
    }
  }

  /** No dangling separator: a tag ends in '-' only when the variant does, or,
      for the default variant, when the version itself does. */
  lemma TagEndsInDashOnlyFromItsParts(version: string, base: string)
    requires Tag(version, base) != "" && Tag(version, base)[|Tag(version, base)| - 1] == '-'
    ensures base == "" ==> version[|version| - 1] == '-'
    ensures base != "" ==> base[|base| - 1] == '-'
  {
  }

  /** The registry-qualified tag `image:tag`. */
  function FullTag(image: string, tag: string): string
  {
    image + ":" + tag
  }

  /** The repository and the tag can be read back from a full tag, on either
      side of the colon at position |image|. */
  lemma FullTagParts(image: string, tag: string)
    ensures |FullTag(image, tag)| == |image| + 1 + |tag|
    ensures FullTag(image, tag)[..|image|] == image
    ensures FullTag(image, tag)[|image|] == ':'
    ensures FullTag(image, tag)[|image| + 1..] == tag
  {
  }

  /** The base image reference `python:<pythonVersion><postfix>`. */
  function BaseImage(pythonVersion: string, base: string): string
  {
    "python:" + pythonVersion + Postfix(base)
  }

  /** A base image reference is `python:`, the Python version, then the postfix. */
  lemma BaseImageParts(pythonVersion: string, base: string)
    ensures |BaseImage(pythonVersion, base)| == 7 + |pythonVersion| + |Postfix(base)|
    ensures BaseImage(pythonVersion, base)[..7] == "python:"
    ensures BaseImage(pythonVersion, base)[7..7 + |pythonVersion|] == pythonVersion
    ensures BaseImage(pythonVersion, base)[7 + |pythonVersion|..] == Postfix(base)
  {
  }

  /** The base image reference for the module-level Python version. */
  function BaseToPython(base: string): (r: string)
    ensures r == BaseImage(PythonVersion, base)
    ensures |r| > |base|
  {
    "python:" + PythonVersion + Postfix(base)
  }

  /** The build arguments handed to the image build: exactly VERSION and BASE. */
  function BuildArgs(version: string, base: string): (r: map<string, string>)
    ensures r.Keys == {"VERSION", "BASE"}
    ensures r["VERSION"] == version && r["BASE"] == base
  {
    map["VERSION" := version, "BASE" := base]
  }
}
