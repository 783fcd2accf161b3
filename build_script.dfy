/**
 * The older build script, build.py: the same matrix and tag derivation written
 * inline, one `make_version` task per (version, variant) pair. The published
 * versions are an input; `latestVersion` is the module-level `versions[-1]`,
 * which build.py computes at import time before any task runs.
 */
module BuildScript {
  import opened Naming
  import opened Matrix
  import Docker
  import ImageBuilder

  /** The base variants build.py builds for. */
  const Bases: set<string> := {"", "stretch", "slim", "jessie", "slim-jessie", "alpine"}

  /** Python iterates a set in an order it does not promise; any duplicate-free
      listing of Bases is a possible iteration order. */
  predicate IsBaseOrder(order: seq<string>)
  {
    Distinct(order) && (set b | b in order) == Bases
  }

  /** `combinations` holds six pairs per version, the default variant among them. */
  lemma CombinationsCount(versions: seq<string>, order: seq<string>)
    requires IsBaseOrder(order)
    ensures |Product(versions, order)| == 6 * |versions|
    ensures forall v :: v in versions ==> (v, "") in Product(versions, order)
  {
    DistinctCardinality(order);
    assert |Bases| == 6;
    forall v | v in versions
      ensures (v, "") in Product(versions, order)
    {
      assert "" in Bases;
      ProductMembership(versions, order, v, "");
    }
  }

  /** The tag `make_version` pushes as the latest alias. build.py:55 has rebound
      `base` to the base image reference before build.py:73 reads it, so the
      alias is that reference and the "latest" fallback is never taken. */
  function LatestTag(base: string): (r: string)
    ensures r == BaseImage(PythonVersion, base)
  {
    var base := "python:" + PythonVersion + Postfix(base);
    if base != "" then base else "latest"
  }

  /** The calls `make_version` makes, given whether the daemon accepted the build. */
  function MakeVersionEvents(image: string, latestVersion: string, version: string, base: string, built: bool): seq<Docker.Event>
  {
    var tag := Tag(version, base);
    [Docker.Build(FullTag(image, tag), BuildArgs(version, BaseToPython(base)))] +
    if !built then []
    else if version == latestVersion then
      [Docker.Push(image, tag), Docker.Tag(image, LatestTag(base)), Docker.Push(image, LatestTag(base))]
    else
      [Docker.Push(image, tag)]
  }

  /** One task of the matrix: build, stop on BuildError, otherwise push the
      primary tag and, for the latest version, the alias. */
  method MakeVersion(client: Docker.Client, image: string, latestVersion: string, version: string, base: string)
    modifies client
    ensures client.log == old(client.log) +
      MakeVersionEvents(image, latestVersion, version, base, FullTag(image, Tag(version, base)) !in client.rejects)
  {
    var postfix := if base != "" then "-" + base else "";
    var tag := version + postfix;
    var fulltag := image + ":" + (version + postfix);
    var baseRef := "python:" + (PythonVersion + postfix);  // build.py:55 rebinds `base` to this
    assert fulltag == FullTag(image, Tag(version, base));
    assert baseRef == BaseToPython(base);

    var ok := client.BuildImage(fulltag, map["VERSION" := version, "BASE" := baseRef]);
    if !ok {
      return;
    }

    client.PushImage(image, tag);

    if version == latestVersion {
      var latestTag := if baseRef != "" then baseRef else "latest";
      client.TagImage(image, latestTag);
      client.PushImage(image, latestTag);
    }
  }

  /** The build call: tagged with the full tag, with VERSION the version and BASE
      the base image reference of the variant. */
  lemma MakeVersionBuildsFirst(image: string, latestVersion: string, version: string, base: string, built: bool)
    ensures var events := MakeVersionEvents(image, latestVersion, version, base, built);
      && events[0].Build?
      && events[0].tag == image + ":" + Tag(version, base)
      && events[0].buildArgs["VERSION"] == version
      && events[0].buildArgs["BASE"] == BaseImage(PythonVersion, base)
  {
  }

  /** A build that raises BuildError is followed by no push and no tag call. */
  lemma FailedBuildPublishesNothing(image: string, latestVersion: string, version: string, base: string)
    ensures |MakeVersionEvents(image, latestVersion, version, base, false)| == 1
    ensures forall e :: e in MakeVersionEvents(image, latestVersion, version, base, false) ==> e.Build?
  {
  }

  /** After a successful build the primary tag is pushed first; an alias tag
      and push follow exactly when the version is the latest one. */
  lemma SuccessfulBuildPushesPrimaryFirst(image: string, latestVersion: string, version: string, base: string)
    ensures var events := MakeVersionEvents(image, latestVersion, version, base, true);
      && events[1] == Docker.Push(image, Tag(version, base))
      && (|events| == 4 <==> version == latestVersion)
      && (|events| == 2 <==> version != latestVersion)
  {
  }

  /** The alias build.py pushes is the base image reference itself: never
      "latest", and never the bare variant name. */
  lemma LatestTagIsBaseImage(base: string)
    ensures LatestTag(base) == BaseImage(PythonVersion, base)
    ensures LatestTag(base) != "latest"
    ensures LatestTag(base) != base
  {
  }

  /** build.py and image_builder.py publish a different latest alias for every
      variant: image_builder.py uses the variant name or "latest". */
  lemma AliasesDiverge(base: string)
    ensures LatestTag(base) != ImageBuilder.LatestAlias(base)
  {
  }

  /** Apart from the alias, a successful `make_version` makes the calls that
      image_builder.py's `build` and `push` make for the same pair. */
  lemma MakeVersionAgreesWithImageBuilder(image: string, latestVersion: string, version: string, base: string)
    ensures var tag := Tag(version, base);
      MakeVersionEvents(image, latestVersion, version, base, true) ==
        [Docker.Build(FullTag(image, tag), BuildArgs(version, BaseImage(PythonVersion, base)))] +
        ImageBuilder.PushEvents(image, tag, if version == latestVersion then [LatestTag(base)] else [])
  {
  }
}
