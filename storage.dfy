/** The object store the handlers read from and write to, reduced to the
    three calls they make (HEAD, GET, PUT). It is a deterministic fake: an
    object map, plus a map of locations whose requests fail with a given
    error (permissions, throttling, network). Every request is logged. */
module Storage {

  import opened Wrappers
  import opened Streams

  datatype Loc = Loc(bucket: string, key: string)

  datatype StoredObject = StoredObject(data: seq<byte>, contentType: Option<string>)

  /** `NoSuchKeyException` / a 404 `AmazonS3Exception`, or any other
      `S3Exception` with its `getMessage()` and the service's own error
      message (`awsErrorDetails().errorMessage()`). */
  datatype StorageError = NoSuchKey(message: string) | ServiceError(message: string, detail: string)

  datatype Metadata = Metadata(contentLength: int, contentType: Option<string>)

  datatype Request = HeadRequest(loc: Loc) | GetRequest(loc: Loc) | PutRequest(loc: Loc)

  const NotFoundMessage: string := "The specified key does not exist."

  /** The largest object the service stores: 5 TiB. */
  const MaxObjectSize: int := 5 * 1024 * 1024 * 1024 * 1024

  /** The bytes a GET yields for a lookup outcome. */
  function DataOf(found: Result<StoredObject, StorageError>): (r: Result<seq<byte>, StorageError>)
    ensures r.Success? <==> found.Success?
    ensures r.Success? ==> r.value == found.value.data
    ensures r.Failure? ==> r.error == found.error
  {
    match found
    case Success(obj) => Success(obj.data)
    case Failure(e) => Failure(e)
  }

  /** The error a request to `loc` fails with, if any. */
  function FaultAt(faults: map<Loc, StorageError>, loc: Loc): (e: Option<StorageError>)
    ensures e.Some? <==> loc in faults
    ensures e.Some? ==> e.value == faults[loc]
  {
    if loc in faults then Some(faults[loc]) else None
  }

  class ObjectStore {
    var objects: map<Loc, StoredObject>
    var faults: map<Loc, StorageError>
    ghost var log: seq<Request>

    constructor (objects: map<Loc, StoredObject>, faults: map<Loc, StorageError>)
      ensures this.objects == objects && this.faults == faults && log == []
    {
      this.objects := objects;
      this.faults := faults;
      log := [];
    }

    /** No stored object is larger than the service allows. */
    predicate SizesBounded()
      reads this
    {
      forall l :: l in objects ==> |objects[l].data| <= MaxObjectSize
    }

    /** What a read of `loc` finds. */
    function Lookup(loc: Loc): (r: Result<StoredObject, StorageError>)
      reads this
      ensures r.Success? <==> loc !in faults && loc in objects
      ensures r.Success? ==> r.value == objects[loc]
      ensures loc in faults ==> r == Failure(faults[loc])
    {
      if loc in faults then Failure(faults[loc])
      else if loc in objects then Success(objects[loc])
      else Failure(NoSuchKey(NotFoundMessage))
    }

    /** HEAD: the object's length and content type. */
    method HeadObject(loc: Loc) returns (r: Result<Metadata, StorageError>)
      modifies this
      ensures objects == old(objects) && faults == old(faults)
      ensures log == old(log) + [HeadRequest(loc)]
      ensures r.Success? <==> Lookup(loc).Success?
      ensures r.Success? ==> r.value == Metadata(|objects[loc].data|, objects[loc].contentType)
      ensures r.Failure? ==> r.error == Lookup(loc).error
    {
      log := log + [HeadRequest(loc)];
      var found := Lookup(loc);
      if found.Success? {
        r := Success(Metadata(|found.value.data|, found.value.contentType));
      } else {
        r := Failure(found.error);
      }
    }

    /** GET: the object's bytes (the content of the response stream). */
    method GetObject(loc: Loc) returns (r: Result<seq<byte>, StorageError>)
      modifies this
      ensures objects == old(objects) && faults == old(faults)
      ensures log == old(log) + [GetRequest(loc)]
      ensures r.Success? <==> Lookup(loc).Success?
      ensures r.Success? ==> r.value == objects[loc].data
      ensures r.Failure? ==> r.error == Lookup(loc).error
      ensures r == DataOf(Lookup(loc))
    {
      log := log + [GetRequest(loc)];
      var found := Lookup(loc);
      if found.Success? {
        r := Success(found.value.data);
      } else {
        r := Failure(found.error);
      }
    }

    /** PUT: stores the bytes under `loc`, replacing any earlier object. */
    method PutObject(loc: Loc, data: seq<byte>, contentType: Option<string>) returns (r: Result<(), StorageError>)
      modifies this
      ensures faults == old(faults)
      ensures log == old(log) + [PutRequest(loc)]
      ensures r.Success? <==> loc !in faults
      ensures r.Success? ==> objects == old(objects)[loc := StoredObject(data, contentType)]
      ensures r.Failure? ==> objects == old(objects) && r.error == faults[loc]
    {
      log := log + [PutRequest(loc)];
      if loc in faults {
        r := Failure(faults[loc]);
      } else {
        objects := objects[loc := StoredObject(data, contentType)];
        r := Success(());
      }
    }
  }
}
