/**
 * The blob store as the worker uses it (`GCSService`): a bucket mapping object paths
 * to blobs. Transport failures are parameters (`fault`). A download of an absent
 * path raises; as written, the raise itself fails while formatting its message
 * (it reads an attribute the service does not have), so the error text is that of
 * the missing attribute. Deletion swallows every failure.
 */
module Blobs {
  import opened Common

  datatype Blob = Blob(data: seq<byte>, contentType: Option<string>)

  /** What a download returns: the bytes and a content type. */
  datatype Download = Download(data: seq<byte>, contentType: string)

  /** The default content type, spelled as the service spells it. */
  const DefaultContentType: string := "application/actet-stream"

  /** The error a download of an absent path raises. */
  const MissingBlobError: string := "'GCSService' object has no attribute 'bucket_name'"

  /** `blob.content_type or "application/actet-stream"`: an absent or empty type gets the default. */
  function ContentTypeOf(b: Blob): (t: string)
    ensures b.contentType.Some? && b.contentType.value != "" ==> t == b.contentType.value
    ensures (b.contentType.None? || b.contentType.value == "") ==> t == DefaultContentType
  {
    match b.contentType
    case Some(t) => if t != "" then t else DefaultContentType
    case None => DefaultContentType
  }

  /** What `download_file_from_gcs` returns or raises. */
  function Fetch(blobs: map<string, Blob>, path: string, fault: Option<string>): (r: Result<Download>)
    ensures r.Success? <==> fault.None? && path in blobs
    ensures r.Success? ==> r.value == Download(blobs[path].data, ContentTypeOf(blobs[path]))
    ensures fault.Some? ==> r == Failure(fault.value)
    ensures fault.None? && path !in blobs ==> r == Failure(MissingBlobError)
  {
    if fault.Some? then Failure(fault.value)
    else if path !in blobs then Failure(MissingBlobError)
    else Success(Download(blobs[path].data, ContentTypeOf(blobs[path])))
  }

  /** The bucket after `delete_file_from_gcs`. */
  function Deleted(blobs: map<string, Blob>, path: string, fault: bool): (r: map<string, Blob>)
    ensures !fault ==> path !in r
    ensures fault ==> r == blobs
    ensures forall p :: p != path ==> (p in r <==> p in blobs)
    ensures forall p :: p in r ==> r[p] == blobs[p]
  {
    if fault then blobs else blobs - {path}
  }

  class GCSService {
    var blobs: map<string, Blob>

    constructor (blobs0: map<string, Blob>)
      ensures blobs == blobs0
    {
      blobs := blobs0;
    }

    /** `download_file_from_gcs`: reads the bucket and leaves it as it is. */
    method DownloadFileFromGcs(path: string, fault: Option<string>) returns (r: Result<Download>)
      ensures r == Fetch(blobs, path, fault)
    {
      if fault.Some? {
        return Failure(fault.value);
      }
      if path !in blobs {
        return Failure(MissingBlobError);
      }
      var blob := blobs[path];
      r := Success(Download(blob.data, ContentTypeOf(blob)));
    }

    /** `delete_file_from_gcs`: never raises; a failed or absent delete leaves the bucket unchanged. */
    method DeleteFileFromGcs(path: string, fault: bool)
      modifies this
      ensures blobs == Deleted(old(blobs), path, fault)
    {
      if !fault {
        blobs := blobs - {path};
      }
    }
  }
}
