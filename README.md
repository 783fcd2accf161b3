# Build-matrix tag planning and push order, modelled in Dafny

This project models the core of two Python scripts that build one Docker image
per (package version, base variant) pair and push it to a registry:

- `image_builder.py` plans the matrix as a list of config records
  (`_to_config`, `get_configs`). Each record holds the primary tag, the
  registry-qualified tag, the `python:<version>[-variant]` base image and a
  list of additional tags. The latest version gets one alias per variant: the
  variant name, or `latest` for the default variant. `build` builds one config.
  `push` pushes the primary tag and then tags and pushes each alias.
- `build.py` is the older script with the same derivation written inline in
  `make_version`. It skips every push when the build raises `BuildError`. It
  rebinds `base` before computing the alias (see Findings).

Modules:

- `Naming` (naming.dfy): postfix, primary tag, full tag, base image
  reference and build arguments. Both scripts define these helpers the same way
  (image_builder.py:64-69 and build.py:26-31), so they are modelled once.
- `Matrix` (matrix.dfy): the version-outer, variant-inner product that both
  scripts enumerate, with its length, order, membership and distinctness.
- `Docker` (docker.dfy): the container engine client as a class with an
  append-only log of `Build`, `Push` and `Tag` calls. The only daemon
  behaviour it keeps is the set of full tags whose build raises `BuildError`.
- `ImageBuilder` (image_builder.dfy): `Config` is a class. Its fields are
  constants except `additionalTags`, which the alias loop appends to in place.
  `GetConfigs` returns fresh, pairwise-distinct config objects, so appending to
  one config's tags cannot change another's. `Build` and `Push` are methods
  over the client log, specified by event-sequence functions.
- `BuildScript` (build_script.dfy): `MakeVersion` is a method over the client
  log, specified by `MakeVersionEvents`, with lemmas on failure skipping, push
  order, the alias it pushes, and how it compares with image_builder.py.

The code has no aggregated list of failed tasks and no handling of push
errors. build.py runs `pool.map(pull_base, bases)` to completion before
`pool.starmap(make_version, combinations)` starts (build.py:84-85), so pulling
is a phase of its own, while each task builds and then pushes its own image.
An empty version list makes `versions[-1]` raise `IndexError`
(image_builder.py:45); the model returns this as `NoVersions`.

## Model

| member | source | states |
|---|---|---|
| `Naming.Postfix` | image_builder.py:64-65 | the postfix is empty exactly when the variant is empty, and otherwise is '-' followed by the variant |
| `Naming.Tag` | image_builder.py:25-26 | the primary tag is the version for the default variant and `version-variant` otherwise, so there is no trailing separator |
| `Naming.TagParts` | build.py:52-53 | a tag is the version followed by the variant's postfix |
| `Naming.TagDeterminesVariant` | image_builder.py:24-26 | two variants of one version never get the same primary tag |
| `Naming.TagEndsInDashOnlyFromItsParts` | image_builder.py:25-26 | a tag ends in '-' only if the variant does (or the version does, for the default variant) |
| `Naming.FullTagParts` | image_builder.py:27 | the full tag is the repository, a colon right after the repository, then the tag |
| `Naming.BaseImageParts` | image_builder.py:28 | the base image reference is `python:`, the Python version, then the postfix |
| `Naming.BaseToPython` | image_builder.py:68-69 | `_base_to_python` yields the same reference `_to_config` builds for the module's Python version, and it is longer than the variant |
| `Naming.BuildArgs` | image_builder.py:90-92 | the build arguments have exactly the keys VERSION and BASE, bound to the version and the base image |
| `Matrix.Product` | build.py:81 | the product has exactly (number of versions) × (number of variants) pairs |
| `Matrix.ProductAt` | image_builder.py:47-51 | version-outer order: the pair `(versions[i], bases[j])` is at position i × (number of variants) + j |
| `Matrix.ProductMembership` | build.py:81 | a pair is in the product if and only if its version is in the versions and its variant in the variants |
| `Matrix.ProductDistinct` | image_builder.py:47-51 | with distinct versions and distinct variants, no pair occurs twice, so each pair occurs exactly once |
| `Docker.Client.BuildImage` | build.py:60-64 | a build call is logged, and it fails exactly when the daemon rejects that full tag |
| `Docker.Client.PushImage` | image_builder.py:77-79 | the `_push` wrapper (and build.py's `push`, build.py:46-48) appends exactly one push call for that repository and tag |
| `Docker.Client.TagImage` | image_builder.py:106 | `image.tag(IMAGE, tag)` (also build.py:77) appends exactly one tag call for that repository and tag |
| `ImageBuilder.LatestAlias` | image_builder.py:55 | the alias is non-empty: the variant name, or `latest` for the default variant |
| `ImageBuilder.Aliases` | image_builder.py:53-56 | a config's tags after planning are non-empty if and only if its version is the latest, and are then exactly one alias |
| `ImageBuilder.Config.constructor` | image_builder.py:24-38 | `_to_config` sets version, variant, tag, full tag, base image and Python version from the pair, and starts with no additional tags |
| `ImageBuilder.GetConfigs` | image_builder.py:41-58 | fails exactly when there are no versions; otherwise returns one fresh, distinct config per product pair, matching the product position by position, each aliased exactly when its version is the last one |
| `ImageBuilder.Expand` | image_builder.py:47-51 | the comprehension yields fresh, distinct, untagged configs derived from the product in order |
| `ImageBuilder.ExpandRow` | image_builder.py:50 | the inner loop yields one fresh untagged config per variant of one version, in variant order |
| `ImageBuilder.AddAliases` | image_builder.py:53-56 | the alias loop leaves each config with exactly the aliases `Aliases` gives, and changes only `additionalTags` |
| `ImageBuilder.Build` | image_builder.py:82-94 | one build call with the full tag and build args VERSION = version, BASE = base image |
| `ImageBuilder.AliasEvents` | image_builder.py:104-107 | the alias loop makes two calls per alias |
| `ImageBuilder.AliasEventsAt` | image_builder.py:104-107 | for alias k, a tag call at position 2k is followed at once by its push |
| `ImageBuilder.PushEventsOrder` | image_builder.py:97-107 | `push` makes 1 + 2 × (number of aliases) calls: the primary tag first, then a tag and a push per alias, in order |
| `ImageBuilder.Push` | image_builder.py:97-107 | the client log grows by exactly the calls `PushEvents` lists |
| `ImageBuilder.PlannedPush` | image_builder.py:102-107 | for a planned config, `push` pushes only the primary tag for an older version, and the primary tag then one alias (tag and push) for the latest |
| `BuildScript.CombinationsCount` | build.py:81 | for any iteration order of the six-variant set, `combinations` has 6 × (number of versions) pairs and includes the default variant for every version |
| `BuildScript.MakeVersion` | build.py:51-78 | the client log grows by exactly the calls `MakeVersionEvents` lists, with the build outcome given by the daemon |
| `BuildScript.MakeVersionBuildsFirst` | build.py:52-62 | the first call is the build, tagged `IMAGE:version[-variant]`, with VERSION = version and BASE = the base image reference |
| `BuildScript.FailedBuildPublishesNothing` | build.py:59-66 | after a BuildError, the build call is the only call: no push and no tag |
| `BuildScript.SuccessfulBuildPushesPrimaryFirst` | build.py:68-78 | after a successful build, the primary tag is pushed first; four calls if the version is the latest, two otherwise |
| `BuildScript.LatestTag` | build.py:55-73 | with `base` rebound at build.py:55, the alias computed at build.py:73 is the base image reference `python:3.6[-variant]` |
| `BuildScript.LatestTagIsBaseImage` | build.py:55-73 | the alias build.py pushes is the base image reference, never `latest` and never the bare variant |
| `BuildScript.AliasesDiverge` | build.py:73 | for every variant, build.py's alias differs from image_builder.py's |
| `BuildScript.MakeVersionAgreesWithImageBuilder` | build.py:51-78 | a successful `make_version` makes the calls of image_builder.py's `build` then `push`, with its own alias in place of the planned one |

## Left out

- `get_versions` in both scripts is an HTTP call to the package index with JSON parsing. The versions are an input, in the order the index returns them.
- `pull_base` in both scripts is a single daemon call. Its only derived value, the base image reference, is `Naming.BaseToPython`.
- The worker pool (`Pool`, `pool.map`, `pool.starmap`, build.py:83-85) only adds concurrency. Each task is modelled by `MakeVersion`. The interleaving of calls from concurrent tasks is not modelled.
- Environment parsing of `IMAGE`, `PACKAGE` and `THREADS`, and all logging, are plumbing. `image` is an explicit string parameter; an unset `IMAGE`, which Python would format as `None`, is not modelled.
- `get_configs` takes `package` and `image` parameters. The versions replace `package`. The source ignores `image` and uses the module-level `IMAGE`, which is the model's `image`.
- `bases` in build.py is a Python set, iterated in an order Python does not promise. `BuildScript.CombinationsCount` holds for every duplicate-free listing of it.
- build.py computes `latest_version = versions[-1]` at import time, so an empty version list crashes before any task runs. `MakeVersion` takes the latest version as an input.
- Image handles and image contents are not modelled. A `Tag` call does not say which image it tags: in build.py it is the image just built (build.py:60, 77); in image_builder.py it is `push`'s `image` argument (image_builder.py:97, 106), whose caller is not in the file.
- The daemon's answer to a build is assumed to depend only on the full tag (`Docker.Client.rejects`). Full tags can collide across pairs (version `1.0-slim` with the default variant and version `1.0` with `slim` both give `1.0-slim`), and the model then gives both builds the same outcome.
- Push failures are not modelled: `PushImage` always logs its call, and neither script handles push errors.
- ImageBuilder.Build: a `BuildError` propagates out of `build` in image_builder.py, which has no caller that catches it; the model returns `ok = false` instead.

## Findings

| source | as written | input that shows it | evidently intended | confidence | as-written member | corrected member |
|---|---|---|---|---|---|---|
| build.py:55 | `base` is rebound to `python:3.6[-variant]` before build.py:73 reads it, so the latest alias is the base image reference and the `"latest"` branch is dead | latest version with variant `slim`: the alias is `python:3.6-slim` instead of `slim`; with the default variant it is `python:3.6` instead of `latest` | the alias is the variant name, or `latest` for the default variant, as image_builder.py:55 computes it | not executed; high (the rebinding is in the text; the dead `"latest"` branch shows the intent) | `BuildScript.LatestTagIsBaseImage` | `ImageBuilder.LatestAlias` |
