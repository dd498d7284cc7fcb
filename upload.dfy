/** The upload middleware's file filter, storage naming and limits (src/middlewares/multer.middleware.js). */
module Upload {

  const AllowedMimeTypes: seq<string> := [
    "image/jpeg", "image/png", "image/gif",
    "application/pdf",
    "video/mp4", "video/mpeg", "video/quicktime", "video/x-msvideo"
  ]

  const RejectMessage: string :=
    "Invalid file type. Only images (jpeg, png, gif), PDFs, and videos (mp4, mpeg, avi, mov) are allowed"

  /** 50 MiB per file. */
  const MaxFileSize: nat := 50 * 1024 * 1024

  /** At most five files per request. */
  const MaxFiles: nat := 5

  /** Uploads are written to `<src>/public/temp`. */
  const TempDirectory: string := "public/temp"

  /** What `fileFilter` passes to its callback: `cb(null, true)` or `cb(new Error(...))`. */
  datatype FilterResult = Accept | Reject(message: string)

  function FileFilter(mimetype: string): (r: FilterResult)
    ensures r.Accept? <==> mimetype in AllowedMimeTypes
    ensures r.Reject? ==> r.message == RejectMessage
  {
    if mimetype !in AllowedMimeTypes then Reject(RejectMessage) else Accept
  }

  /** Where disk storage writes a file: the temp directory and the client's own file name. */
  function StoredPath(originalName: string): (r: string)
    ensures |r| == |TempDirectory| + 1 + |originalName|
    ensures r[|TempDirectory| + 1..] == originalName
    ensures r[..|TempDirectory| + 1] == TempDirectory + "/"
  {
    TempDirectory + "/" + originalName
  }

  /** Two uploads land on the same path exactly when the clients sent the same file name. */
  lemma StoredPathCollides(a: string, b: string)
    ensures StoredPath(a) == StoredPath(b) <==> a == b
  {
    if StoredPath(a) == StoredPath(b) {
      assert a == StoredPath(a)[|TempDirectory| + 1..];
    }
  }

  /** The declared limits in bytes and files. */
  predicate WithinLimits(fileSizes: seq<nat>) {
    |fileSizes| <= MaxFiles && forall k :: 0 <= k < |fileSizes| ==> fileSizes[k] <= MaxFileSize
  }

  /** Exactly eight distinct MIME types are allowed; nothing else (for instance `image/webp`) is. */
  lemma AllowList()
    ensures |AllowedMimeTypes| == 8
    ensures forall i, j :: 0 <= i < j < |AllowedMimeTypes| ==> AllowedMimeTypes[i] != AllowedMimeTypes[j]
    ensures FileFilter("image/webp").Reject? && FileFilter("video/mp4").Accept?
    ensures MaxFileSize == 52428800
  {
  }

  /** At most five files of at most 50 MiB each: a sixth file, or one byte more, is too much. */
  lemma Limits()
    ensures MaxFiles == 5
    ensures WithinLimits(seq(MaxFiles, _ => MaxFileSize))
    ensures !WithinLimits(seq(MaxFiles + 1, _ => 0))
    ensures !WithinLimits([MaxFileSize + 1])
  {
    var tooBig: seq<nat> := [MaxFileSize + 1];
    assert tooBig[0] > MaxFileSize;
  }
}
