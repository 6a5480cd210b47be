/**
 * `uploadToAzure(buffer, mimeType)`: derive an extension from the MIME type,
 * build the name `payment_<ms>_<uuid>.<ext>`, write the buffer under that name
 * into the storage container, and return the blob's URL. The clock reading and
 * the random UUID are parameters; the container is a map from blob names to
 * stored blobs.
 */
module AzureBlob {
  import opened Wrappers
  import opened Text

  const NamePrefix: string := "payment_"

  /** The text a template literal prints for `undefined`. */
  const Undefined: string := "undefined"

  /** `mimeType.split("/")[1]`, printed as a template literal prints it. */
  function Extension(mimeType: string): (ext: string)
    ensures '/' !in ext
    ensures '/' !in mimeType ==> ext == Undefined
  {
    var parts := Split(mimeType, '/');
    if |parts| > 1 then parts[1] else Undefined
  }

  /** The extension is the text between the first and the second `/`. */
  lemma ExtensionIsSecondSegment(kind: string, sub: string, tail: string)
    requires '/' !in kind && '/' !in sub
    requires tail == [] || tail[0] == '/'
    ensures Extension(kind + "/" + sub + tail) == sub
  {
    var parts := Split(sub + tail, '/');
    SplitPrefix(sub, tail, '/');
    if tail == [] {
      assert Split(tail, '/') == [""];
    } else {
      assert tail == ['/'] + tail[1..];
      SplitAtSeparator(tail[1..], '/');
    }
    assert parts[0] == sub;
    SplitAtSeparator(sub + tail, '/');
    assert kind + "/" + sub + tail == kind + (['/'] + (sub + tail));
    SplitPrefix(kind, ['/'] + (sub + tail), '/');
  }

  lemma ExtensionExamples()
    ensures Extension("image/png") == "png"
    ensures Extension("application/pdf") == "pdf"
    ensures Extension("a/b/c") == "b"
    ensures Extension("image/") == ""
    ensures Extension("png") == "undefined"
  {
    ExtensionIsSecondSegment("image", "png", "");
    assert "image/png" == "image" + "/" + "png" + "";
    ExtensionIsSecondSegment("application", "pdf", "");
    assert "application/pdf" == "application" + "/" + "pdf" + "";
    ExtensionIsSecondSegment("a", "b", "/c");
    assert "a/b/c" == "a" + "/" + "b" + "/c";
    ExtensionIsSecondSegment("image", "", "");
    assert "image/" == "image" + "/" + "" + "";
  }

  /** `payment_${Date.now()}_${crypto.randomUUID()}.${extension}`. */
  function BlobName(mimeType: string, now: nat, uuid: string): (name: string)
    ensures '/' !in uuid ==> '/' !in name
  {
    NamePrefix + Decimal(now) + "_" + uuid + "." + Extension(mimeType)
  }

  /**
   * The name ends in `.` and the extension, so `.png` for `image/png` and
   * `.pdf` for `application/pdf` (ExtensionExamples).
   */
  lemma BlobNameSuffix(mimeType: string, now: nat, uuid: string)
    ensures var name := BlobName(mimeType, now, uuid);
            var ext := Extension(mimeType);
            |name| > |ext| && name[|name| - |ext| - 1..] == "." + ext
  {
    var pre := NamePrefix + Decimal(now) + "_" + uuid;
    var ext := Extension(mimeType);
    assert BlobName(mimeType, now, uuid) == pre + ("." + ext);
  }

  /** The parts a generated name is made of. */
  datatype NameParts = NameParts(timestamp: nat, uuid: string, extension: string)

  /**
   * Reads a generated name back: the prefix, the digits up to `_`, the UUID up
   * to the first `.`, and the extension after it.
   */
  function ParseBlobName(name: string): Option<NameParts> {
    if |name| < |NamePrefix| || name[..|NamePrefix|] != NamePrefix then None
    else ParseStamped(name[|NamePrefix|..])
  }

  /** `<digits>_<uuid>.<ext>` */
  function ParseStamped(body: string): Option<NameParts> {
    var k := DigitRun(body);
    if k == 0 || k == |body| || body[k] != '_' then None
    else
      match ParseTail(body[k + 1..])
      case None => None
      case Some((uuid, ext)) => Some(NameParts(ParseDecimal(body[..k]), uuid, ext))
  }

  /** `<uuid>.<ext>`, split at the first `.` */
  function ParseTail(rest: string): Option<(string, string)> {
    match IndexOf(rest, '.')
    case None => None
    case Some(j) => Some((rest[..j], rest[j + 1..]))
  }

  lemma ParseTailInverts(uuid: string, ext: string)
    requires '.' !in uuid
    ensures ParseTail(uuid + "." + ext) == Some((uuid, ext))
  {
    var rest := uuid + "." + ext;
    IndexOfAfter(uuid, '.', ext);
    assert rest[..|uuid|] == uuid && rest[|uuid| + 1..] == ext;
  }

  lemma ParseStampedInverts(now: nat, rest: string)
    ensures var digits := Decimal(now);
            ParseStamped(digits + "_" + rest) ==
              match ParseTail(rest)
              case None => None
              case Some((uuid, ext)) => Some(NameParts(now, uuid, ext))
  {
    var digits := Decimal(now);
    var body := digits + "_" + rest;
    assert body == digits + ("_" + rest);
    DigitRunOfDigits(digits, "_" + rest);
    assert body[..|digits|] == digits && body[|digits| + 1..] == rest;
    ParseDecimalOfDecimal(now);
  }

  /** A UUID without `.` (as `crypto.randomUUID` gives) can be read back from the name. */
  lemma ParseBlobNameInverts(mimeType: string, now: nat, uuid: string)
    requires '.' !in uuid
    ensures ParseBlobName(BlobName(mimeType, now, uuid)) == Some(NameParts(now, uuid, Extension(mimeType)))
  {
    var ext := Extension(mimeType);
    var rest := uuid + "." + ext;
    var body := Decimal(now) + "_" + rest;
    assert BlobName(mimeType, now, uuid) == NamePrefix + body;
    assert (NamePrefix + body)[..|NamePrefix|] == NamePrefix && (NamePrefix + body)[|NamePrefix|..] == body;
    ParseTailInverts(uuid, ext);
    ParseStampedInverts(now, rest);
  }

  /** Distinct (timestamp, UUID, extension) triples give distinct names. */
  lemma BlobNameInjective(m1: string, t1: nat, u1: string, m2: string, t2: nat, u2: string)
    requires '.' !in u1 && '.' !in u2
    requires BlobName(m1, t1, u1) == BlobName(m2, t2, u2)
    ensures t1 == t2 && u1 == u2 && Extension(m1) == Extension(m2)
  {
    ParseBlobNameInverts(m1, t1, u1);
    ParseBlobNameInverts(m2, t2, u2);
  }

  /** `blockBlobClient.url`: the container's URL and the blob name. */
  function BlobUrl(containerUrl: string, name: string): (url: string)
    ensures |url| == |containerUrl| + 1 + |name|
    ensures url[..|containerUrl|] == containerUrl && url[|containerUrl|] == '/' && url[|containerUrl| + 1..] == name
  {
    containerUrl + "/" + name
  }

  /** The last path segment of a URL. */
  function LastSegment(url: string): string {
    var parts := Split(url, '/');
    parts[|parts| - 1]
  }

  /** The layout is flat: the last segment of the blob's URL is the whole name. */
  lemma UrlNamesBlob(containerUrl: string, mimeType: string, now: nat, uuid: string)
    requires '?' !in containerUrl
    requires '/' !in uuid
    ensures LastSegment(BlobUrl(containerUrl, BlobName(mimeType, now, uuid))) == BlobName(mimeType, now, uuid)
  {
    var name := BlobName(mimeType, now, uuid);
    SplitLastAfterSeparator(containerUrl, name, '/');
    JoinSplit(name, '/');
    assert containerUrl + "/" + name == containerUrl + ['/'] + name;
  }

  /** What the container keeps for a blob: its bytes and its content type. */
  datatype StoredBlob = StoredBlob(content: seq<bv8>, contentType: string)

  /** The error `uploadData` rejects with; the caller sees it unchanged. */
  datatype StorageError = UploadFailed

  /**
   * The storage container, named once from the environment and shared by all
   * requests; a client for it sees the blobs already stored there.
   */
  class Container {
    const url: string
    var blobs: map<string, StoredBlob>

    constructor (url: string, stored: map<string, StoredBlob>)
      ensures this.url == url && blobs == stored
    {
      this.url := url;
      blobs := stored;
    }

    /** `blockBlobClient.uploadData(buffer, { blobHTTPHeaders: { blobContentType } })`. */
    method UploadData(name: string, buffer: seq<bv8>, contentType: string, fails: bool)
      returns (r: Result<(), StorageError>)
      modifies this
      ensures fails ==> r == Failure(UploadFailed) && blobs == old(blobs)
      ensures !fails ==> r == Success(()) && blobs == old(blobs)[name := StoredBlob(buffer, contentType)]
    {
      if fails {
        return Failure(UploadFailed);
      }
      blobs := blobs[name := StoredBlob(buffer, contentType)];
      return Success(());
    }
  }

  /**
   * `uploadToAzure(buffer, mimeType)` with `Date.now()` as `now`,
   * `crypto.randomUUID()` as `uuid`, and the outcome of the network write as
   * `uploadFails`.
   */
  method UploadToAzure(container: Container, buffer: seq<bv8>, mimeType: string, now: nat, uuid: string,
                       uploadFails: bool)
    returns (r: Result<string, StorageError>)
    modifies container
    ensures uploadFails ==> r == Failure(UploadFailed) && container.blobs == old(container.blobs)
    ensures !uploadFails ==>
              var name := BlobName(mimeType, now, uuid);
              && r == Success(BlobUrl(container.url, name))
              && container.blobs == old(container.blobs)[name := StoredBlob(buffer, mimeType)]
    ensures r.Success? && '/' !in uuid && '?' !in container.url ==>
              var name := LastSegment(r.value);
              name in container.blobs && container.blobs[name] == StoredBlob(buffer, mimeType)
  {
    var blobName := BlobName(mimeType, now, uuid);
    var url := BlobUrl(container.url, blobName);
    var written := container.UploadData(blobName, buffer, mimeType, uploadFails);
    if written.Failure? {
      return Failure(written.error);
    }
    if '/' !in uuid && '?' !in container.url {
      UrlNamesBlob(container.url, mimeType, now, uuid);
    }
    return Success(url);
  }
}
