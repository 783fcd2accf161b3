/**
 * The build-matrix planner and the build and push steps of image_builder.py.
 * The package index is not queried here: the published versions are an input,
 * in the order the index returns them, and `image` is the target repository
 * (the module-level IMAGE).
 */
module ImageBuilder {
  import opened Naming
  import opened Matrix
  import Docker

  /** Planning either yields its configs or fails because there is no latest version. */
  datatype Result<T> = Ok(value: T) | NoVersions

  /** The convenience tag the latest version of a variant is also pushed under. */
  function LatestAlias(baseName: string): (r: string)
    ensures r != ""
    ensures baseName != "" ==> r == baseName
    ensures baseName == "" ==> r == "latest"
  {
    if baseName != "" then baseName else "latest"
  }

  /** The additional tags a config carries once planning is done: one alias for
      the latest version, none for every other version. */
  function Aliases(version: string, latestVersion: string, baseName: string): (r: seq<string>)
    ensures r != [] <==> version == latestVersion
    ensures r != [] ==> r == [LatestAlias(baseName)]
  {
    if version == latestVersion then [LatestAlias(baseName)] else []
  }

  /** One build configuration. Every field but `additionalTags` is fixed when the
      config is made; the alias step appends to `additionalTags` in place. */
  class Config {
    const version: string
    const baseName: string
    const fullTag: string
    const tag: string
    const base: string
    const pythonVersion: string
    var additionalTags: seq<string>

    /** The config of a (version, variant) pair, with no additional tags yet. */
    constructor (image: string, version: string, baseName: string, pythonVersion: string)
      ensures Derived(this, image, pythonVersion, (version, baseName))
      ensures additionalTags == []
    {
      var postfix := Postfix(baseName);
      this.version := version;
      this.baseName := baseName;
      this.tag := version + postfix;
      this.fullTag := image + ":" + (version + postfix);
      this.base := "python:" + (pythonVersion + postfix);
      this.pythonVersion := pythonVersion;
      this.additionalTags := [];
    }
  }

  /** The fixed fields of `c` are those derived from the pair (version, variant). */
  predicate Derived(c: Config, image: string, pythonVersion: string, pair: (string, string))
  {
    && c.version == pair.0
    && c.baseName == pair.1
    && c.tag == Tag(pair.0, pair.1)
    && c.fullTag == FullTag(image, c.tag)
    && c.base == BaseImage(pythonVersion, pair.1)
    && c.pythonVersion == pythonVersion
  }

  /** The fixed fields of each config are those derived from the pair at the same position. */
  predicate AllDerived(configs: seq<Config>, image: string, pythonVersion: string, pairs: seq<(string, string)>)
  {
    |configs| == |pairs| && forall k :: 0 <= k < |configs| ==> Derived(configs[k], image, pythonVersion, pairs[k])
  }

  /** Every config of `configs` is still without additional tags. */
  predicate Untagged(configs: seq<Config>)
    reads set c | c in configs
  {
    forall k :: 0 <= k < |configs| ==> configs[k].additionalTags == []
  }

  /** The build matrix: one config per (version, variant) pair, version-outer,
      with the latest version's configs aliased. Each config is a new object,
      so appending an alias to one never shows up in another. */
  method GetConfigs(image: string, versions: seq<string>, bases: seq<string>, pythonVersion: string)
    returns (r: Result<seq<Config>>)
    ensures r.NoVersions? <==> versions == []
    ensures r.Ok? ==> |r.value| == |versions| * |bases|
    ensures r.Ok? ==> forall k :: 0 <= k < |r.value| ==> fresh(r.value[k])
    ensures r.Ok? ==> Distinct(r.value)
    ensures r.Ok? ==> AllDerived(r.value, image, pythonVersion, Product(versions, bases))
    ensures r.Ok? ==> forall k :: 0 <= k < |r.value| ==>
      r.value[k].additionalTags == Aliases(r.value[k].version, versions[|versions| - 1], r.value[k].baseName)
  {
    if versions == [] {
      return NoVersions;
    }
    var latestVersion := versions[|versions| - 1];
    var configs := Expand(image, versions, bases, pythonVersion);
    AddAliases(configs, latestVersion);
    return Ok(configs);
  }

  /** The comprehension of get_configs: a fresh, untagged config per pair, version-outer. */
  method Expand(image: string, versions: seq<string>, bases: seq<string>, pythonVersion: string)
    returns (configs: seq<Config>)
    ensures forall k :: 0 <= k < |configs| ==> fresh(configs[k])
    ensures Distinct(configs)
    ensures AllDerived(configs, image, pythonVersion, Product(versions, bases))
    ensures Untagged(configs)
  {
    configs := [];
    for i := 0 to |versions|
      invariant forall k :: 0 <= k < |configs| ==> fresh(configs[k])
      invariant Distinct(configs)
      invariant AllDerived(configs, image, pythonVersion, Product(versions[..i], bases))
      invariant Untagged(configs)
    {
      var row := ExpandRow(image, versions[i], bases, pythonVersion);
      assert versions[..i + 1][..i] == versions[..i];
      configs := configs + row;
    }
    assert versions[..|versions|] == versions;
  }

  /** The inner level of the comprehension: a fresh, untagged config per variant
      of one version, in variant order. */
  method ExpandRow(image: string, version: string, bases: seq<string>, pythonVersion: string)
    returns (row: seq<Config>)
    ensures forall k :: 0 <= k < |row| ==> fresh(row[k])
    ensures Distinct(row)
    ensures AllDerived(row, image, pythonVersion, Row(version, bases))
    ensures Untagged(row)
  {
    row := [];
    for j := 0 to |bases|
      invariant forall k :: 0 <= k < |row| ==> fresh(row[k])
      invariant Distinct(row)
      invariant AllDerived(row, image, pythonVersion, Row(version, bases)[..j])
      invariant Untagged(row)
    {
      var c := new Config(image, version, bases[j], pythonVersion);
      assert Row(version, bases)[..j + 1] == Row(version, bases)[..j] + [Row(version, bases)[j]];
      row := row + [c];
    }
    assert Row(version, bases)[..|bases|] == Row(version, bases);
  }

  /** The alias loop of get_configs: appends the latest alias to the configs of
      the latest version, in place, and to no other config. */
  method AddAliases(configs: seq<Config>, latestVersion: string)
    requires Distinct(configs)
    requires Untagged(configs)
    modifies set c | c in configs
    ensures forall k :: 0 <= k < |configs| ==>
      configs[k].additionalTags == Aliases(configs[k].version, latestVersion, configs[k].baseName)
  {
    for k := 0 to |configs|
      invariant forall m :: 0 <= m < |configs| ==>
        configs[m].additionalTags == if m < k then Aliases(configs[m].version, latestVersion, configs[m].baseName) else []
    {
      var config := configs[k];
      if config.version == latestVersion {
        var latestTag := if config.baseName != "" then config.baseName else "latest";
        config.additionalTags := config.additionalTags + [latestTag];
      }
    }
  }

  /** Builds the image of `config`; `ok` is false when the build raises BuildError,
      which image_builder.py lets propagate to its caller. */
  method Build(client: Docker.Client, config: Config) returns (ok: bool)
    modifies client
    ensures client.log == old(client.log) + [Docker.Build(config.fullTag, BuildArgs(config.version, config.base))]
    ensures ok <==> config.fullTag !in client.rejects
  {
    ok := client.BuildImage(config.fullTag, map["VERSION" := config.version, "BASE" := config.base]);
  }

  /** The calls that publish the aliases, in order: tag, then push, per alias. */
  function AliasEvents(repository: string, aliases: seq<string>): (r: seq<Docker.Event>)
    ensures |r| == 2 * |aliases|
  {
    if aliases == [] then []
    else
      var n := |aliases| - 1;
      AliasEvents(repository, aliases[..n]) + [Docker.Tag(repository, aliases[n]), Docker.Push(repository, aliases[n])]
  }

  /** The calls `push` makes: the primary tag, then each alias. */
  function PushEvents(repository: string, tag: string, aliases: seq<string>): seq<Docker.Event>
  {
    [Docker.Push(repository, tag)] + AliasEvents(repository, aliases)
  }

  lemma {:induction false} AliasEventsAt(repository: string, aliases: seq<string>, k: nat)
    requires k < |aliases|
    ensures AliasEvents(repository, aliases)[2 * k] == Docker.Tag(repository, aliases[k])
    ensures AliasEvents(repository, aliases)[2 * k + 1] == Docker.Push(repository, aliases[k])
  {
    var n := |aliases| - 1;
    if k < n {
      AliasEventsAt(repository, aliases[..n], k);
    }
  }

  /** `push` pushes the primary tag first, then for each alias in order tags the
      image and pushes it: 1 + 2 * |aliases| calls in all. */
  lemma PushEventsOrder(repository: string, tag: string, aliases: seq<string>)
    ensures |PushEvents(repository, tag, aliases)| == 1 + 2 * |aliases|
    ensures PushEvents(repository, tag, aliases)[0] == Docker.Push(repository, tag)
    ensures forall k :: 0 <= k < |aliases| ==>
      && PushEvents(repository, tag, aliases)[1 + 2 * k] == Docker.Tag(repository, aliases[k])
      && PushEvents(repository, tag, aliases)[2 + 2 * k] == Docker.Push(repository, aliases[k])
  {
    forall k | 0 <= k < |aliases|
      ensures PushEvents(repository, tag, aliases)[1 + 2 * k] == Docker.Tag(repository, aliases[k])
      ensures PushEvents(repository, tag, aliases)[2 + 2 * k] == Docker.Push(repository, aliases[k])
    {
      AliasEventsAt(repository, aliases, k);
    }
  }

  /** Pushes the primary tag of `config`, then tags and pushes each additional tag. */
  method Push(client: Docker.Client, repository: string, config: Config)
    modifies client
    ensures client.log == old(client.log) + PushEvents(repository, config.tag, config.additionalTags)
  {
    client.PushImage(repository, config.tag);
    var aliases := config.additionalTags;
    for i := 0 to |aliases|
      invariant client.log == old(client.log) + PushEvents(repository, config.tag, aliases[..i])
    {
      assert aliases[..i + 1][..i] == aliases[..i];
      client.TagImage(repository, aliases[i]);
      client.PushImage(repository, aliases[i]);
    }
    assert aliases[..|aliases|] == aliases;
  }

  /** What `push` does with a planned config: only the primary tag for an older
      version; for the latest version, the primary tag and then its one alias. */
  lemma PlannedPush(repository: string, version: string, latestVersion: string, baseName: string)
    ensures var tag := Tag(version, baseName);
      PushEvents(repository, tag, Aliases(version, latestVersion, baseName)) ==
        if version == latestVersion
        then [Docker.Push(repository, tag), Docker.Tag(repository, LatestAlias(baseName)), Docker.Push(repository, LatestAlias(baseName))]
        else [Docker.Push(repository, tag)]
  {
  }
}
