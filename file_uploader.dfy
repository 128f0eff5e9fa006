/** The object store client and the file downloader
    (src/file-uploader/file-uploader.service.ts). The bucket is a map from
    key to stored object; the downloader goes through the network tape. */
module FileUploader {
  import opened Js
  import opened Http

  const PublicRead: string := "public-read"
  const DownloadTimeoutMs: int := 5000

  datatype S3Object = S3Object(body: seq<byte>, acl: string)

  /** What `downloadFileFromUrl` resolves with on success. */
  datatype Download = Download(fileStream: Option<Stream>, fileSize: FileSize)

  /** `downloadFileFromUrl` sends a request only for a truthy URL that does
      not start with '/'. */
  predicate RequestsDownload(url: JsString) {
    Truthy(url) && !StartsWith(url.s, "/")
  }

  /** The cases the service's own test asserts: null, '' and '/test' are
      answered without a request; an absolute URL is requested. */
  lemma DownloadGuardExamples()
    ensures !RequestsDownload(Null) && !RequestsDownload(Undefined)
    ensures !RequestsDownload(Str("")) && !RequestsDownload(Str("/test"))
    ensures RequestsDownload(Str("https://holychords.com/a.jpg"))
  {
    assert Str("/test").s[..1] == "/";
    assert Str("https://holychords.com/a.jpg").s[..1] == "h";
  }

  /** What `downloadFileFromUrl` yields when the network answers from `tape`. */
  function TapeDownload(url: JsString, tape: seq<Option<HttpResponse>>): Option<Download>
  {
    if !RequestsDownload(url) || tape == [] then None
    else match tape[0]
      case None => None
      case Some(resp) => Some(Download(resp.data, resp.contentLength))
  }

  /** The responses left once `downloadFileFromUrl` has run. */
  function TapeAfterDownload(url: JsString, tape: seq<Option<HttpResponse>>): seq<Option<HttpResponse>>
  {
    if RequestsDownload(url) && tape != [] then tape[1..] else tape
  }

  /** Canonical public URL of an object: `https://{bucket}.{endpoint}/{key}`. */
  function CanonicalUrl(bucket: string, endpoint: string, key: string): (u: string)
    ensures StartsWith(u, "https://")
    ensures |u| == 10 + |bucket| + |endpoint| + |key| && u[|u| - |key|..] == key
  {
    "https://" + bucket + "." + endpoint + "/" + key
  }

  /** The canonical URL is reproducible from the key alone: for one bucket and
      endpoint, distinct keys never share a URL. */
  lemma CanonicalUrlInjective(bucket: string, endpoint: string, k1: string, k2: string)
    requires CanonicalUrl(bucket, endpoint, k1) == CanonicalUrl(bucket, endpoint, k2)
    ensures k1 == k2
  {
    var u := CanonicalUrl(bucket, endpoint, k1);
    assert |k1| == |k2|;
    assert k1 == u[|u| - |k1|..] == k2;
  }

  class FileUploaderService {
    const bucket: string
    const endpoint: string
    const net: Network
    var objects: map<string, S3Object>
    /** Keys of the uploads made, in order. */
    ghost var uploads: seq<string>

    constructor(bucket: string, endpoint: string, objects: map<string, S3Object>, net: Network)
      ensures this.bucket == bucket && this.endpoint == endpoint && this.net == net
      ensures this.objects == objects && uploads == []
    {
      this.bucket := bucket;
      this.endpoint := endpoint;
      this.net := net;
      this.objects := objects;
      uploads := [];
    }

    /** `getFromOceanSpaces`: the stored object, or `undefined` both for a
        missing key (NoSuchKey) and for a request the client refuses (no key). */
    method GetFromOceanSpaces(key: Option<string>) returns (r: Option<S3Object>)
      ensures r.Some? <==> key.Some? && key.value in objects
      ensures r.Some? ==> r.value == objects[key.value]
    {
      if key.Some? && key.value in objects {
        r := Some(objects[key.value]);
      } else {
        r := None;
      }
    }

    /** `uploadToS3`: stores the body under exactly the given key with a
        public-read ACL and resolves with that key; a missing key or body is
        rejected by the client. */
    method UploadToS3(body: Option<seq<byte>>, key: Option<string>) returns (r: Option<string>)
      modifies this
      ensures r.Some? <==> body.Some? && key.Some?
      ensures r.Some? ==> r.value == key.value
      ensures r.Some? ==> objects == old(objects)[key.value := S3Object(body.value, PublicRead)]
      ensures r.Some? ==> uploads == old(uploads) + [key.value]
      ensures r.None? ==> objects == old(objects) && uploads == old(uploads)
    {
      if body.Some? && key.Some? {
        objects := objects[key.value := S3Object(body.value, PublicRead)];
        uploads := uploads + [key.value];
        r := Some(key.value);
      } else {
        r := None;
      }
    }

    /** `deleteFromOceanSpaces`: removes exactly the given key (deleting a
        missing key succeeds); a missing key parameter is rejected. */
    method DeleteFromOceanSpaces(key: Option<string>) returns (ok: bool)
      modifies this
      ensures ok <==> key.Some?
      ensures ok ==> objects == old(objects) - {key.value}
      ensures !ok ==> objects == old(objects)
      ensures uploads == old(uploads)
    {
      ok := key.Some?;
      if ok {
        objects := objects - {key.value};
      }
    }

    /** `downloadFileFromUrl`: no request for a falsy or '/'-prefixed URL;
        otherwise one streaming GET with a 5000 ms timeout, whose failure
        yields `undefined` and whose success yields the body stream and the
        content-length. */
    method DownloadFileFromUrl(url: JsString) returns (r: Option<Download>)
      modifies net
      ensures r == TapeDownload(url, old(net.responses))
      ensures net.responses == TapeAfterDownload(url, old(net.responses))
      ensures net.sent == old(net.sent) + (if RequestsDownload(url) then [HttpRequest(url.s, DownloadTimeoutMs)] else [])
    {
      if !RequestsDownload(url) {
        return None;
      }
      var resp := net.Send(HttpRequest(url.s, DownloadTimeoutMs));
      if resp.None? {
        return None;
      }
      r := Some(Download(resp.value.data, resp.value.contentLength));
    }
  }
}
