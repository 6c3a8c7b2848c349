/** The per-invocation resources of the execution host: temporary files
    under /tmp and open stream handles. A handler cleans up when both are
    as they were on entry. */
module HostEnv {

  import opened Streams

  datatype TempFile = TempFile(name: string, data: seq<byte>)

  class Host {
    var files: map<nat, TempFile>
    var created: nat
    var openStreams: set<nat>
    var issued: nat

    /** Ids already handed out are below the counters, so new ones are fresh. */
    ghost predicate Valid()
      reads this
    {
      (forall f :: f in files ==> f < created) && (forall h :: h in openStreams ==> h < issued)
    }

    constructor ()
      ensures Valid() && files == map[] && openStreams == {} && created == 0 && issued == 0
    {
      files := map[];
      openStreams := {};
      created := 0;
      issued := 0;
    }

    /** `Files.createTempFile(prefix, suffix)`: a new, empty file whose name
        ends with the suffix (the random middle part is not modelled). */
    method CreateTempFile(prefix: string, suffix: string) returns (f: nat)
      requires Valid()
      modifies this
      ensures Valid() && f !in old(files) && f == old(created) && created == old(created) + 1
      ensures files == old(files)[f := TempFile(prefix + suffix, [])]
      ensures openStreams == old(openStreams) && issued == old(issued)
    {
      f := created;
      files := files[f := TempFile(prefix + suffix, [])];
      created := created + 1;
    }

    /** Replaces the content of an existing temporary file. */
    method WriteFile(f: nat, data: seq<byte>)
      requires Valid() && f in files
      modifies this
      ensures Valid() && files == old(files)[f := TempFile(old(files)[f].name, data)]
      ensures created == old(created) && openStreams == old(openStreams) && issued == old(issued)
    {
      files := files[f := TempFile(files[f].name, data)];
    }

    /** `File.delete()` / `Files.deleteIfExists`: no error when absent. */
    method DeleteFile(f: nat)
      requires Valid()
      modifies this
      ensures Valid() && files == old(files) - {f}
      ensures created == old(created) && openStreams == old(openStreams) && issued == old(issued)
    {
      files := files - {f};
    }

    /** Opening a stream (an S3 response stream or a file stream). */
    method OpenStream() returns (h: nat)
      requires Valid()
      modifies this
      ensures Valid() && h !in old(openStreams) && h == old(issued) && issued == old(issued) + 1
      ensures openStreams == old(openStreams) + {h}
      ensures files == old(files) && created == old(created)
    {
      h := issued;
      openStreams := openStreams + {h};
      issued := issued + 1;
    }

    /** `close()`: closing twice is harmless. */
    method CloseStream(h: nat)
      requires Valid()
      modifies this
      ensures Valid() && openStreams == old(openStreams) - {h}
      ensures files == old(files) && created == old(created) && issued == old(issued)
    {
      openStreams := openStreams - {h};
    }
  }

  /** `after` is `before` plus fresh entries under the ids `added`. */
  ghost predicate Grows(before: map<nat, TempFile>, after: map<nat, TempFile>, added: set<nat>)
  {
    && after.Keys == before.Keys + added
    && added !! before.Keys
    && forall f :: f in before ==> after[f] == before[f]
  }

  /** Removing the added entries gives back the map before. */
  lemma {:induction false} GrowsThenShrinks(before: map<nat, TempFile>, after: map<nat, TempFile>, added: set<nat>)
    requires Grows(before, after, added)
    ensures after - added == before
  {
    var back := after - added;
    assert back.Keys == before.Keys;
    forall f | f in back
      ensures back[f] == before[f]
    {
    }
  }

  /** `copyStream` from a stream over `content` into a fresh sink. */
  method Copy(content: seq<byte>) returns (copied: seq<byte>)
    ensures copied == content
  {
    var source := new ByteSource(content);
    var sink := new ByteSink();
    ghost var chunks := CopyStream(source, sink);
    copied := sink.written;
  }

  /** A copy loop from an input stream over `content` into a new output
      stream on the temporary file `f`, both opened and closed around it
      (try-with-resources): the file ends up holding exactly `content`,
      and no stream stays open. */
  method CopyIntoFile(host: Host, f: nat, content: seq<byte>)
    requires host.Valid() && f in host.files
    modifies host
    ensures host.Valid() && host.files == old(host.files)[f := TempFile(old(host.files)[f].name, content)]
    ensures host.openStreams == old(host.openStreams) && host.created == old(host.created)
  {
    var copied := Copy(content);
    var inStream := host.OpenStream();
    var outStream := host.OpenStream();
    host.WriteFile(f, copied);
    host.CloseStream(outStream);
    host.CloseStream(inStream);
  }
}
