/** File uploads (handlers.go): where an uploaded file is stored, the upload handler's
    answers, and the search for a free temporary location that a direct upload is signed
    for. The uuid generator and the disk are oracles. */
module HandlersUpload {
  import opened Wrappers
  import opened Strings
  import opened Errors
  import LocalDisk

  /** The extension of an uploaded file's name: the text after its last dot, or "" when
      the name has no dot. */
  function Extension(filename: string): string {
    var parts := Split(filename, '.');
    if |parts| > 1 then parts[|parts| - 1] else ""
  }

  /** Where `HandleUploadFile` stores a file: the fresh id, with the extension of the
      uploaded name after a dot when there is one. */
  function UploadLocation(id: string, filename: string): string {
    var extension := Extension(filename);
    if extension != "" then id + "." + extension else id
  }

  /** No part of a split holds the separator. */
  lemma {:induction false} SplitPartsFree(s: string, sep: char)
    ensures forall i :: 0 <= i < |Split(s, sep)| ==> sep !in Split(s, sep)[i]
    decreases |s|
  {
    if |s| > 0 {
      SplitPartsFree(s[1..], sep);
      var rest := Split(s[1..], sep);
      if s[0] != sep {
        assert forall c :: c in [s[0]] + rest[0] ==> c == s[0] || c in rest[0];
      }
    }
  }

  /** The extension is what follows the last dot, and a name without a dot has none. */
  lemma ExtensionOf(before: string, after: string, filename: string)
    requires '.' !in after
    ensures Extension(before + "." + after) == after
    ensures '.' !in filename ==> Extension(filename) == ""
    ensures '.' !in Extension(filename)
  {
    SplitLast(before, '.', after);
    assert before + "." + after == before + ['.'] + after;
    SplitCount(filename, '.');
    SplitPartsFree(filename, '.');
  }

  /** A name with no dot is stored under the bare id; one ending in a non-empty extension
      under the id, a dot and that extension; a trailing dot adds nothing. */
  lemma UploadLocationShape(id: string, before: string, ext: string, filename: string)
    requires '.' !in ext
    ensures '.' !in filename ==> UploadLocation(id, filename) == id
    ensures UploadLocation(id, before + "." + ext) == if ext == "" then id else id + "." + ext
  {
    ExtensionOf(before, ext, filename);
  }

  /** For an id without dots the stored location keeps the uploaded file's extension. */
  lemma UploadKeepsExtension(id: string, filename: string)
    requires '.' !in id
    ensures Extension(UploadLocation(id, filename)) == Extension(filename)
  {
    var ext := Extension(filename);
    ExtensionOf(id, "", filename);
    ExtensionOf(id, ext, id);
  }

  /** A uuid's text: hex digits and dashes, so never a dot nor a leading "/". */
  predicate UuidLike(id: string) {
    |id| > 0 && id[0] != '/' && forall i :: 0 <= i < |id| ==> id[i] != '.' && id[i] != '/'
  }

  /** Every location an upload picks for a uuid id passes the local disk's path check. */
  lemma UploadLocationValidOnLocalDisk(id: string, filename: string)
    requires UuidLike(id)
    ensures LocalDisk.IsValidLocation(UploadLocation(id, filename)) == None
  {
    var loc := UploadLocation(id, filename);
    ExtensionOf(id, "", filename);
    var ext := Extension(filename);
    assert loc[0] == id[0];
    assert !HasPrefix(loc, "/");
    assert forall i :: 0 <= i < |loc| - 1 ==> !(loc[i] == '.' && loc[i + 1] == '.') by {
      forall i | 0 <= i < |loc| - 1
        ensures !(loc[i] == '.' && loc[i + 1] == '.')
      {
        if ext != "" && i == |id| {
          assert loc[i + 1] == ext[0];
        }
      }
    }
    LocalDisk.RelativeAccepted(loc);
  }

  /** What the two upload handlers answer: plain text, a JSON object of strings, or an error
      returned to echo. */
  datatype UploadReply = Text(status: int, text: string) | Json(status: int, fields: map<string, string>) | Failed(err: Error)

  /** One uploaded part: its file name and whether opening it fails. */
  datatype UploadedFile = UploadedFile(filename: string, openErr: Option<Error>)

  /** `HandleUploadFile`. `form` is the multipart form (`None` when the body is not one),
      `id` the uuid drawn for the file, `put` and `url` the disk. Only the first "file" part
      is stored. */
  function HandleUploadFile(form: Option<map<string, seq<UploadedFile>>>, id: string,
                            put: string -> Option<Error>, url: string -> Result<string, Error>): (r: UploadReply)
    ensures form.None? ==> r == Text(406, "only multipart/form-data allowed")
    ensures form.Some? && ("file" !in form.value || form.value["file"] == []) ==> r == Text(400, "missing 'file' part")
    ensures r.Json? <==>
      form.Some? && "file" in form.value && form.value["file"] != [] &&
      form.value["file"][0].openErr.None? &&
      put(UploadLocation(id, form.value["file"][0].filename)).None? &&
      url(UploadLocation(id, form.value["file"][0].filename)).Ok?
    ensures r.Json? ==>
      r == Json(201, map["id" := id, "url" := url(UploadLocation(id, form.value["file"][0].filename)).value])
  {
    if form.None? then Text(406, "only multipart/form-data allowed")
    else if "file" !in form.value || form.value["file"] == [] then Text(400, "missing 'file' part")
    else
      var file := form.value["file"][0];
      if file.openErr.Some? then Failed(Wrapped("Failed to open uploaded file: ", file.openErr.value))
      else
        var location := UploadLocation(id, file.filename);
        match put(location)
        case Some(e) => Failed(Wrapped("Failed to write uploaded file: ", e))
        case None =>
          match url(location)
          case Err(e) => Failed(Wrapped("Failed to write uploaded file: ", e))
          case Ok(u) => Json(201, map["id" := id, "url" := u])
  }

  /** The temporary location signed for a direct upload of `id`. */
  function TmpLocation(id: string): string {
    "tmp/" + id
  }

  /** The existence check ends the search at this id: it failed, or the location is free. */
  predicate EndsSearch(isTaken: string -> Result<bool, Error>, id: string) {
    isTaken(TmpLocation(id)).Err? || !isTaken(TmpLocation(id)).value
  }

  /** The answer once the search stopped at `id`. */
  function UploadUrlReply(id: string, isTaken: string -> Result<bool, Error>, putUrl: string -> Result<string, Error>): UploadReply {
    match isTaken(TmpLocation(id))
    case Err(e) => Failed(Wrapped("Failed to check if location exists: ", e))
    case Ok(_) =>
      match putUrl(TmpLocation(id))
      case Err(e) => Failed(Wrapped("Failed to create put url: ", e))
      case Ok(u) => Json(200, map["id" := id, "url" := u])
  }

  /** `HandleGetUploadUrl`: draws uuids until "tmp/<id>" does not exist or the check fails,
      then signs an upload url for that location. `draws` are the uuids the generator yields,
      in order; the loop runs until one of them ends the search. */
  method HandleGetUploadUrl(draws: seq<string>, isTaken: string -> Result<bool, Error>,
                            putUrl: string -> Result<string, Error>) returns (r: UploadReply)
    requires exists k :: 0 <= k < |draws| && EndsSearch(isTaken, draws[k])
    ensures exists k ::
      0 <= k < |draws| && EndsSearch(isTaken, draws[k]) &&
      (forall j :: 0 <= j < k ==> isTaken(TmpLocation(draws[j])) == Ok(true)) &&
      r == UploadUrlReply(draws[k], isTaken, putUrl)
  {
    var i := 0;
    var id: string;
    while true
      invariant 0 <= i < |draws|
      invariant forall j :: 0 <= j < i ==> isTaken(TmpLocation(draws[j])) == Ok(true)
      invariant exists k :: i <= k < |draws| && EndsSearch(isTaken, draws[k])
      decreases |draws| - i
    {
      id := draws[i];
      var location := TmpLocation(id);
      var found := isTaken(location);
      if found.Err? {
        return Failed(Wrapped("Failed to check if location exists: ", found.error));
      }
      if !found.value {
        break;
      }
      i := i + 1;
    }
    var url := putUrl(TmpLocation(id));
    if url.Err? {
      return Failed(Wrapped("Failed to create put url: ", url.error));
    }
    r := Json(200, map["id" := id, "url" := url.value]);
  }

  /** A signed upload url is always for a location that was found free, and its id is the
      first draw whose location was free. */
  lemma UploadUrlForFreeLocation(draws: seq<string>, isTaken: string -> Result<bool, Error>,
                                 putUrl: string -> Result<string, Error>, k: nat)
    requires k < |draws| && EndsSearch(isTaken, draws[k])
    requires forall j :: 0 <= j < k ==> isTaken(TmpLocation(draws[j])) == Ok(true)
    ensures UploadUrlReply(draws[k], isTaken, putUrl).Json? ==>
      isTaken(TmpLocation(draws[k])) == Ok(false) &&
      UploadUrlReply(draws[k], isTaken, putUrl).fields["id"] == draws[k] &&
      forall j :: 0 <= j < k ==> draws[j] != draws[k]
  {
  }
}
