/**
 * The container engine client, reduced to what the scripts observe of it: the
 * ordered calls they make. Image contents and daemon state are not modelled;
 * the only behaviour of the daemon kept is which builds it rejects.
 */
module Docker {

  /** One call made on the client. */
  datatype Event =
    | Build(tag: string, buildArgs: map<string, string>)  // client.images.build(path=".", tag=..., buildargs=...)
    | Push(repository: string, tag: string)               // client.images.push(repository, tag)
    | Tag(repository: string, tag: string)                // image.tag(repository, tag)

  /** A recording client: an append-only log of calls, and the set of full tags
      whose build the daemon answers with a BuildError. */
  class Client {
    var log: seq<Event>
    const rejects: set<string>

    constructor (rejects: set<string>)
      ensures log == [] && this.rejects == rejects
    {
      log := [];
      this.rejects := rejects;
    }

    /** Builds the image tagged `tag`; `ok` is false when the daemon raises BuildError. */
    method BuildImage(tag: string, buildArgs: map<string, string>) returns (ok: bool)
      modifies this
      ensures log == old(log) + [Event.Build(tag, buildArgs)]
      ensures ok <==> tag !in rejects
    {
      log := log + [Event.Build(tag, buildArgs)];
      ok := tag !in rejects;
    }

    method PushImage(repository: string, tag: string)
      modifies this
      ensures log == old(log) + [Event.Push(repository, tag)]
    {
      log := log + [Event.Push(repository, tag)];
    }

    /** Tags the image just built as `repository:tag`. */
    method TagImage(repository: string, tag: string)
      modifies this
      ensures log == old(log) + [Event.Tag(repository, tag)]
    {
      log := log + [Event.Tag(repository, tag)];
    }
  }
}
