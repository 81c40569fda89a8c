/** The uploadFile operation up to its request: where the file's extension
    comes from for each input method, the MIME-type table, and the check of
    the extension against the allow-list of the chosen file type. */
module Upload {
  import opened JsonValues

  /** One entry of an item's binary data. An absent `fileName` is "". */
  datatype BinaryEntry = BinaryEntry(fileName: string, mimeType: string, data: string)

  /** What the URL download yields: the `content-type` header ("" when
      absent) and the body, already base64-encoded. */
  datatype Download = Download(contentType: string, body: string)

  /** The node parameters uploadFile reads. */
  datatype UploadParams = UploadParams(
    inputMethod: string,
    fileType: string,
    binaryPropertyName: string,
    fileUrl: string,
    fileName: string,
    fileData: string)

  /** The three locals once the input method's branch is done. */
  datatype PreparedUpload = PreparedUpload(fileName: string, fileData: string, extension: string)

  // ---------------------------------------------------------------------
  // MIME types

  const MimeTable: map<string, string> := map[
    "image/jpeg" := "jpg",
    "image/png" := "png",
    "image/webp" := "webp",
    "video/mp4" := "mp4",
    "audio/wav" := "wav",
    "audio/mpeg" := "mp3"]

  /** getMimeTypeExtension: the table's extension for the six listed types,
      `jpg` for any other; never empty. */
  function MimeTypeExtension(mimeType: string): (r: string)
    ensures mimeType in MimeTable ==> r == MimeTable[mimeType]
    ensures mimeType !in MimeTable ==> r == "jpg"
    ensures r in {"jpg", "png", "webp", "mp4", "wav", "mp3"}
  {
    if mimeType in MimeTable then MimeTable[mimeType] else "jpg"
  }

  // ---------------------------------------------------------------------
  // The allow-list

  /** `supportedExtensions[fileType]`, when the file type has a list. */
  function SupportedExtensions(fileType: string): Option<seq<string>> {
    if fileType == "image" then Some(["jpg", "jpeg", "png", "webp"])
    else if fileType == "video" then Some(["mp4", "mov", "webm"])
    else if fileType == "audio" then Some(["mp3", "wav", "ogg"])
    else None
  }

  /** The check passes: the extension is non-empty and in the list. */
  predicate Allowed(fileType: string, extension: string) {
    extension != "" && SupportedExtensions(fileType).Some? && extension in SupportedExtensions(fileType).value
  }

  function RejectionMessage(extension: string, fileType: string): string {
    var supported := if SupportedExtensions(fileType).Some? then Join(SupportedExtensions(fileType).value, ", ") else "";
    "File extension \"" + extension + "\" is not supported for file type \"" + fileType + "\". " +
    "Supported extensions for " + fileType + ": " + (if supported != "" then supported else "none")
  }

  // ---------------------------------------------------------------------
  // Where the extension comes from

  /** `name.split('.').pop()?.toLowerCase() || fallback`. */
  function ExtensionOf(name: string, fallback: string): string {
    var e := Lower(AfterLast(name, '.'));
    if e != "" then e else fallback
  }

  /** The extension read from a URL: after the last dot, lower-cased, `jpg`
      when that is empty, and cut at the first `?`. */
  function UrlExtension(url: string): string {
    var e := ExtensionOf(url, "jpg");
    if '?' in e then BeforeFirst(e, '?') else e
  }

  /** The generated `<hash>.<extension>` name; the hash is random in the
      source and a parameter here. */
  function HashFileName(randomHash: string, extension: string): (r: string)
    ensures |r| > |extension| && r[|r| - |extension| - 1..] == "." + extension
  {
    randomHash + "." + extension
  }

  /** The outcome of the input method's branch, before the check. */
  function Derived(p: UploadParams, binary: Option<map<string, BinaryEntry>>,
                   download: string -> Result<Download>, randomHash: string): Result<PreparedUpload>
  {
    if p.inputMethod == "binaryFile" then FromBinary(p, binary, randomHash)
    else if p.inputMethod == "url" then FromUrl(p, download, randomHash)
    else if p.inputMethod == "base64" then
      Ok(PreparedUpload(p.fileName, p.fileData, ExtensionOf(p.fileName, "")))
    else
      Ok(PreparedUpload("", "", ""))
  }

  /** The `binaryFile` branch: the item's binary property, its extension
      from the file name, else from the MIME type. */
  function FromBinary(p: UploadParams, binary: Option<map<string, BinaryEntry>>, randomHash: string): Result<PreparedUpload>
  {
    if binary.None? then Err("No binary data exists on item!")
    else if p.binaryPropertyName !in binary.value then
      Err("No binary data found for field \"" + p.binaryPropertyName + "\"!")
    else
      var entry := binary.value[p.binaryPropertyName];
      var extension := if entry.fileName != "" then ExtensionOf(entry.fileName, MimeTypeExtension(entry.mimeType))
                       else MimeTypeExtension(entry.mimeType);
      Ok(PreparedUpload(HashFileName(randomHash, extension), entry.data, extension))
  }

  /** The `url` branch: the download, its extension from the content type,
      else from the URL. */
  function FromUrl(p: UploadParams, download: string -> Result<Download>, randomHash: string): Result<PreparedUpload>
  {
    if p.fileUrl == "" then Err("File URL is required")
    else if download(p.fileUrl).Err? then Err("Failed to download file from URL: " + download(p.fileUrl).msg)
    else
      var response := download(p.fileUrl).value;
      var extension := if response.contentType != "" then MimeTypeExtension(response.contentType)
                       else UrlExtension(p.fileUrl);
      Ok(PreparedUpload(HashFileName(randomHash, extension), response.body, extension))
  }

  /** The outcome of uploadFile up to its request: the branch's error, the
      rejection of the extension, or the name, data and extension to send. */
  function Prepared(p: UploadParams, binary: Option<map<string, BinaryEntry>>,
                    download: string -> Result<Download>, randomHash: string): Result<PreparedUpload>
  {
    match Derived(p, binary, download, randomHash)
    case Err(msg) => Err(msg)
    case Ok(u) => if Allowed(p.fileType, u.extension) then Ok(u) else Err(RejectionMessage(u.extension, p.fileType))
  }

  /** The source's branches, reassigning `fileName`, `fileData` and
      `extension` step by step. */
  method DeriveUpload(p: UploadParams, binary: Option<map<string, BinaryEntry>>,
                      download: string -> Result<Download>, randomHash: string)
    returns (r: Result<PreparedUpload>)
    ensures r == Derived(p, binary, download, randomHash)
  {
    var fileName, fileData, extension := "", "", "";
    if p.inputMethod == "binaryFile" {
      r := DeriveFromBinary(p, binary, randomHash);
      return;
    } else if p.inputMethod == "url" {
      r := DeriveFromUrl(p, download, randomHash);
      return;
    } else if p.inputMethod == "base64" {
      fileName := p.fileName;
      fileData := p.fileData;
      extension := Lower(AfterLast(fileName, '.'));
    }
    return Ok(PreparedUpload(fileName, fileData, extension));
  }

  method DeriveFromBinary(p: UploadParams, binary: Option<map<string, BinaryEntry>>, randomHash: string)
    returns (r: Result<PreparedUpload>)
    ensures r == FromBinary(p, binary, randomHash)
  {
    if binary.None? {
      return Err("No binary data exists on item!");
    }
    if p.binaryPropertyName !in binary.value {
      return Err("No binary data found for field \"" + p.binaryPropertyName + "\"!");
    }
    var binaryData := binary.value[p.binaryPropertyName];
    var extension;
    if binaryData.fileName != "" {
      extension := Lower(AfterLast(binaryData.fileName, '.'));
      if extension == "" {
        extension := MimeTypeExtension(binaryData.mimeType);
      }
    } else {
      extension := MimeTypeExtension(binaryData.mimeType);
    }
    return Ok(PreparedUpload(HashFileName(randomHash, extension), binaryData.data, extension));
  }

  method DeriveFromUrl(p: UploadParams, download: string -> Result<Download>, randomHash: string)
    returns (r: Result<PreparedUpload>)
    ensures r == FromUrl(p, download, randomHash)
  {
    if p.fileUrl == "" {
      return Err("File URL is required");
    }
    var extension := Lower(AfterLast(p.fileUrl, '.'));
    if extension == "" {
      extension := "jpg";
    }
    if '?' in extension {
      extension := BeforeFirst(extension, '?');
    }
    assert extension == UrlExtension(p.fileUrl);
    var fileName := HashFileName(randomHash, extension);
    var response := download(p.fileUrl);
    if response.Err? {
      return Err("Failed to download file from URL: " + response.msg);
    }
    if response.value.contentType != "" {
      var contentTypeExt := MimeTypeExtension(response.value.contentType);
      assert contentTypeExt != "";
      if contentTypeExt != "" {
        extension := contentTypeExt;
        fileName := HashFileName(randomHash, contentTypeExt);
      }
    }
    return Ok(PreparedUpload(fileName, response.value.body, extension));
  }

  /** uploadFile up to its request: the input method's branch, then the
      allow-list check. */
  method PrepareUpload(p: UploadParams, binary: Option<map<string, BinaryEntry>>,
                       download: string -> Result<Download>, randomHash: string)
    returns (r: Result<PreparedUpload>)
    ensures r == Prepared(p, binary, download, randomHash)
  {
    r := DeriveUpload(p, binary, download, randomHash);
    if r.Ok? {
      var extension := r.value.extension;
      if extension == "" || !Allowed(p.fileType, extension) {
        r := Err(RejectionMessage(extension, p.fileType));
      }
    }
  }

  // ---------------------------------------------------------------------
  // Properties

  lemma {:induction false} BeforeFirstOfJoined(a: string, sep: char, b: string)
    requires sep !in a
    ensures BeforeFirst(a + [sep] + b, sep) == a
  {
    if a != [] {
      assert (a + [sep] + b)[1..] == a[1..] + [sep] + b;
      BeforeFirstOfJoined(a[1..], sep, b);
    }
  }

  lemma {:induction false} AfterLastOfJoined(a: string, sep: char, b: string)
    requires sep !in b
    ensures AfterLast(a + [sep] + b, sep) == b
    decreases |b|
  {
    var s := a + [sep] + b;
    if b != [] {
      assert s[..|s| - 1] == a + [sep] + b[..|b| - 1];
      AfterLastOfJoined(a, sep, b[..|b| - 1]);
      assert b[..|b| - 1] + [b[|b| - 1]] == b;
    }
  }

  /** Every extension of the MIME table passes the allow-list of its own
      family, the part before the slash (`image/png` as an image,
      `audio/mpeg` as audio, ...). */
  lemma MimeTableExtensionsAllowed(mimeType: string)
    requires mimeType in MimeTable
    ensures mimeType[5] == '/' && Allowed(mimeType[..5], MimeTypeExtension(mimeType))
  {
    assert MimeTable.Keys == {"image/jpeg", "image/png", "image/webp", "video/mp4", "audio/wav", "audio/mpeg"};
    if mimeType == "image/jpeg" || mimeType == "image/png" || mimeType == "image/webp" {
      assert mimeType[..5] == "image";
    } else if mimeType == "video/mp4" {
      assert mimeType[..5] == "video";
    } else if mimeType == "audio/wav" {
      assert mimeType[..5] == "audio";
    } else {
      assert mimeType == "audio/mpeg";
      assert mimeType[..5] == "audio";
    }
  }

  /** The fallback `jpg` is an image extension only: a video or audio file
      whose MIME type is not in the table is always refused. */
  lemma UnlistedMimeTypeFitsOnlyImages(mimeType: string, fileType: string)
    requires mimeType !in MimeTable
    ensures Allowed(fileType, MimeTypeExtension(mimeType)) <==> fileType == "image"
  {
  }

  lemma LowerKeepsPunctuation(s: string, c: char)
    requires !('A' <= c <= 'Z') && !('a' <= c <= 'z')
    ensures c in Lower(s) <==> c in s
  {
    if c in Lower(s) {
      var i :| 0 <= i < |s| && Lower(s)[i] == c;
      assert s[i] == c;
    }
    if c in s {
      var i :| 0 <= i < |s| && s[i] == c;
      assert Lower(s)[i] == c;
    }
  }

  /** The URL extension is the text after the last dot, lower-cased and cut
      at the first `?`, or `jpg` when nothing follows the last dot. */
  lemma UrlExtensionSpec(url: string)
    ensures var tail := Lower(AfterLast(url, '.'));
      && (tail == "" ==> UrlExtension(url) == "jpg")
      && (tail != "" ==>
            && '?' !in UrlExtension(url) && '.' !in UrlExtension(url)
            && UrlExtension(url) == tail[..|UrlExtension(url)|]
            && (|UrlExtension(url)| < |tail| ==> tail[|UrlExtension(url)|] == '?'))
  {
    var tail := Lower(AfterLast(url, '.'));
    LowerKeepsPunctuation(AfterLast(url, '.'), '.');
    assert ExtensionOf(url, "jpg") == if tail != "" then tail else "jpg";
    if tail != "" {
      CutAtQuestion(tail);
    }
  }

  lemma CutAtQuestion(tail: string)
    requires '.' !in tail
    ensures var e := if '?' in tail then BeforeFirst(tail, '?') else tail;
      && '?' !in e && '.' !in e && e == tail[..|e|] && (|e| < |tail| ==> tail[|e|] == '?')
  {
    if '?' in tail {
      var e := BeforeFirst(tail, '?');
      assert forall i :: 0 <= i < |e| ==> e[i] == tail[i];
    }
  }

  /** A URL without a dot is its own extension, lower-cased and cut at the
      first `?`. */
  lemma UrlWithoutDot(url: string)
    requires '.' !in url && url != ""
    ensures UrlExtension(url) == BeforeFirst(Lower(url), '?')
  {
    AfterLastAbsent(url, '.');
    var e := Lower(url);
    assert |e| == |url|;
    assert ExtensionOf(url, "jpg") == e;
    if '?' !in e {
      BeforeFirstAbsent(e, '?');
    }
  }

  /** The upload is refused, with the message naming the extension and the
      supported list, exactly when the branch succeeded but its extension is
      empty or not in the list of the file type. */
  lemma RejectedIff(p: UploadParams, binary: Option<map<string, BinaryEntry>>,
                    download: string -> Result<Download>, randomHash: string)
    requires Derived(p, binary, download, randomHash).Ok?
    ensures var ext := Derived(p, binary, download, randomHash).value.extension;
      var r := Prepared(p, binary, download, randomHash);
      && (r.Err? <==> ext == "" || SupportedExtensions(p.fileType).None? || ext !in SupportedExtensions(p.fileType).value)
      && (r.Err? ==> r.msg == RejectionMessage(ext, p.fileType))
      && (r.Ok? ==> r.value == Derived(p, binary, download, randomHash).value)
  {
  }

  /** A file type other than image, video and audio is always refused, and
      the message lists `none`. */
  lemma UnknownFileTypeRejected(p: UploadParams, binary: Option<map<string, BinaryEntry>>,
                                download: string -> Result<Download>, randomHash: string)
    requires p.fileType != "image" && p.fileType != "video" && p.fileType != "audio"
    ensures Prepared(p, binary, download, randomHash).Err?
    ensures Derived(p, binary, download, randomHash).Ok? ==>
      var ext := Derived(p, binary, download, randomHash).value.extension;
      Prepared(p, binary, download, randomHash).msg ==
        "File extension \"" + ext + "\" is not supported for file type \"" + p.fileType + "\". " +
        "Supported extensions for " + p.fileType + ": none"
  {
  }

  /** An input method other than the three leaves the extension empty, so
      the upload is always refused. */
  lemma UnknownInputMethodRejected(p: UploadParams, binary: Option<map<string, BinaryEntry>>,
                                   download: string -> Result<Download>, randomHash: string)
    requires p.inputMethod != "binaryFile" && p.inputMethod != "url" && p.inputMethod != "base64"
    ensures Prepared(p, binary, download, randomHash) == Err(RejectionMessage("", p.fileType))
  {
  }

  /** A generated name ends in `.` and the extension that was checked; a
      `content-type` header, when the download has one, decides the
      extension over the URL. */
  lemma GeneratedNameMatchesExtension(p: UploadParams, binary: Option<map<string, BinaryEntry>>,
                                      download: string -> Result<Download>, randomHash: string)
    requires Prepared(p, binary, download, randomHash).Ok?
    requires p.inputMethod == "binaryFile" || p.inputMethod == "url"
    ensures var u := Prepared(p, binary, download, randomHash).value;
      u.fileName == randomHash + "." + u.extension && Allowed(p.fileType, u.extension)
    ensures p.inputMethod == "url" && download(p.fileUrl).value.contentType != "" ==>
      Prepared(p, binary, download, randomHash).value.extension == MimeTypeExtension(download(p.fileUrl).value.contentType)
  {
  }

  /** The URL extension of a `.webm` file is `webm`, a video extension. */
  lemma WebmUrlExtension()
    ensures UrlExtension("https://example.com/clip.webm") == "webm"
    ensures Allowed("video", "webm")
  {
    var url := "https://example.com/clip.webm";
    assert url == "https://example.com/clip" + ['.'] + "webm";
    UrlEndingIn("https://example.com/clip", "webm");
  }

  /** A URL ending in `.` and a lower-case extension without `?` has that
      extension. */
  lemma UrlEndingIn(base: string, ext: string)
    requires ext != [] && forall i :: 0 <= i < |ext| ==> 'a' <= ext[i] <= 'z'
    ensures UrlExtension(base + ['.'] + ext) == ext
  {
    assert '.' !in ext && '?' !in ext;
    AfterLastOfJoined(base, '.', ext);
    assert Lower(ext) == ext;
  }

  /** A consequence of the header taking precedence: a video served as
      `video/webm` gets the fallback `jpg` and is refused as a video, even
      when its URL ends in `.webm`, an extension that alone would pass. */
  lemma WebmServedAsWebmRefused(p: UploadParams, binary: Option<map<string, BinaryEntry>>,
                                download: string -> Result<Download>, randomHash: string)
    requires p.inputMethod == "url" && p.fileType == "video" && p.fileUrl != ""
    requires download(p.fileUrl).Ok? && download(p.fileUrl).value.contentType == "video/webm"
    ensures Prepared(p, binary, download, randomHash) == Err(RejectionMessage("jpg", "video"))
  {
    assert "video/webm" !in MimeTable;
  }
}
