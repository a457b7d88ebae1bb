/** The object store (an S3-compatible bucket) and the HTTP archive, the two
    outside services every stage talks to. */
module Store {
  import opened Wrappers
  import opened Tables

  /** A store mutation that took effect, in the order it happened. */
  datatype Action = Wrote(key: string) | Removed(key: string)

  /** The bucket: put overwrites, get fails on an absent key, delete of an
      absent key succeeds. Keys in `rejected` refuse every put and delete
      (an access or write failure), so callers see both outcomes. */
  class ObjectStore {
    var objects: map<string, Blob>
    const rejected: set<string>
    ghost var journal: seq<Action>

    constructor (initial: map<string, Blob>, refuse: set<string>)
      ensures objects == initial && rejected == refuse && journal == []
    {
      objects := initial;
      rejected := refuse;
      journal := [];
    }

    /** s3.get_object(Key=key)["Body"]. */
    function Get(key: string): (r: Result<Blob>)
      reads this
      ensures r.Ok? <==> key in objects
      ensures r.Ok? ==> r.value == objects[key]
      ensures r.Err? ==> r.error == NoSuchKey(key)
    {
      if key in objects then Ok(objects[key]) else Err(NoSuchKey(key))
    }

    /** s3.put_object(Key=key, Body=blob): a full overwrite; raises on a rejected key. */
    method Put(key: string, blob: Blob) returns (r: Result<string>)
      modifies this
      ensures r == if key in rejected then Err(WriteRejected(key)) else Ok(key)
      ensures objects == if key in rejected then old(objects) else old(objects)[key := blob]
      ensures journal == if key in rejected then old(journal) else old(journal) + [Wrote(key)]
    {
      if key in rejected {
        r := Err(WriteRejected(key));
      } else {
        objects := objects[key := blob];
        journal := journal + [Wrote(key)];
        r := Ok(key);
      }
    }

    /** s3.delete_object(Key=key) inside try/except: every error is swallowed,
        and an absent key is not an error. */
    method Delete(key: string)
      modifies this
      ensures objects == if key in rejected then old(objects) else old(objects) - {key}
      ensures journal == if key in rejected then old(journal) else old(journal) + [Removed(key)]
    {
      if key !in rejected {
        objects := objects - {key};
        journal := journal + [Removed(key)];
      }
    }
  }

  /** What requests.get returns for one URL: a response, or an exception
      before any response arrived. */
  datatype Response = Response(status: int, content: seq<byte>) | Unreachable

  /** The GH Archive web service. `requested` records every URL asked for. */
  class Archive {
    const respond: string -> Response
    ghost var requested: seq<string>

    constructor (answers: string -> Response)
      ensures respond == answers && requested == []
    {
      respond := answers;
      requested := [];
    }

    method Fetch(url: string) returns (r: Response)
      modifies this
      ensures r == respond(url)
      ensures requested == old(requested) + [url]
    {
      r := respond(url);
      requested := requested + [url];
    }
  }
}
