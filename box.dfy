/**
 * The upload client for the remote storage service: one multipart POST per
 * file, with an `attributes` field naming the file and its target folder.
 */
module Box {
  import opened Wrappers
  import opened Http
  import Files

  const BaseURL: string := "https://upload.box.com/api/2.0"

  /** The upload endpoint. */
  const UploadURL: string := BaseURL + "/files/content"

  const StatusCreated: int := 201
  const StatusConflict: int := 409

  datatype Parent = Parent(id: string)

  /** The `attributes` record: the file's base name and the target folder. */
  datatype Attributes = Attributes(name: string, parent: Parent)

  /** Upload errors: a failed stat or file read, a transport error, or a
      status other than 201 and 409 (carrying the status text). */
  datatype Error =
    | StatError(message: string)
    | ReadError(message: string)
    | TransportError(message: string)
    | StatusError(status: string)

  /** The attributes record as json.Marshal writes it (keys in sorted order). */
  function AttributesJson(a: Attributes): (r: Json)
    ensures r.JObject? && |r.members| == 2 && KeysSorted(r)
    ensures Lookup(r, "name") == Some(JString(a.name))
    ensures Lookup(r, "parent").Some? && var p := Lookup(r, "parent").value;
              p.JObject? && |p.members| == 1 && Lookup(p, "id") == Some(JString(a.parent.id))
  {
    var members := [("name", JString(a.name)), ("parent", JObject([("id", JString(a.parent.id))]))];
    assert LookupIn(members[1..], "parent") == Some(members[1].1);
    JObject(members)
  }

  /** Classification of the upload response: 201 Created and 409 Conflict
      (the file is already there) are both success. */
  function Classify(resp: Response): (err: Option<Error>)
    ensures err.None? <==> resp.statusCode == StatusCreated || resp.statusCode == StatusConflict
    ensures err.Some? ==> err == Some(StatusError(resp.status))
  {
    if resp.statusCode == StatusConflict then None
    else if resp.statusCode != StatusCreated then Some(StatusError(resp.status))
    else None
  }

  /** The client holds the bearer token (Go's `Box`). */
  datatype Box = Box(token: string) {

    /** The upload POST: the attributes field, then the file part, both
        naming the file by its base name; bearer authorisation. */
    function UploadRequest(path: string, targetID: string, content: seq<byte>): (r: Request)
      ensures r.verb == "POST" && r.url == UploadURL && r.cookies == []
      ensures Header("Authorization", "Bearer " + token) in r.headers
      ensures r.payload.Multipart? && |r.payload.parts| == 2
      ensures r.payload.parts[0] ==
                FormField("attributes", AttributesJson(Attributes(Files.BaseName(path), Parent(targetID))))
      ensures r.payload.parts[1] == FormFile("file", Files.BaseName(path), content)
    {
      var name := Files.BaseName(path);
      var attributes := Attributes(name, Parent(targetID));
      Request("POST", UploadURL,
        [Header("Authorization", "Bearer " + token), Header("Content-Type", "multipart/form-data")],
        [],
        Multipart([FormField("attributes", AttributesJson(attributes)), FormFile("file", name, content)]))
    }

    /** Upload of the open file at `path`: stat first (no request on failure),
        then read it into the body, send, and classify the response. */
    function Upload(path: string, targetID: string, transport: Transport, fs: Files.FileSystem)
      : (err: Option<Error>)
      ensures fs.stat(path).Some? ==> err == Some(StatError(fs.stat(path).value))
      ensures fs.stat(path).None? && fs.read(path).Failure? ==> err == Some(ReadError(fs.read(path).error))
      ensures err.None? <==>
                && fs.stat(path).None?
                && fs.read(path).Success?
                && var reply := transport(UploadRequest(path, targetID, fs.read(path).value));
                   reply.Received? && (reply.response.statusCode == 201 || reply.response.statusCode == 409)
      ensures fs.stat(path).None? && fs.read(path).Success? ==>
                var reply := transport(UploadRequest(path, targetID, fs.read(path).value));
                err == (if reply.Failed? then Some(TransportError(reply.message)) else Classify(reply.response))
    {
      match fs.stat(path)
      case Some(m) => Some(StatError(m))
      case None =>
        match fs.read(path)
        case Failure(m) => Some(ReadError(m))
        case Success(content) =>
          match transport(UploadRequest(path, targetID, content))
          case Failed(m) => Some(TransportError(m))
          case Received(resp) => Classify(resp)
    }
  }

  function New(token: string): (b: Box)
    ensures b.token == token
  {
    Box(token)
  }

  /** A conflict (the file already exists remotely) is not an error. */
  lemma ConflictIsSuccess(resp: Response)
    requires resp.statusCode == 409
    ensures Classify(resp).None?
  {
  }

  /** The attributes name of a file under a directory is its own name. */
  lemma {:induction false} BaseNameUnderDirectory(dir: string, name: string)
    requires name != [] && '/' !in name
    ensures Files.BaseName(dir + "/" + name) == name
  {
    var p := dir + "/" + name;
    assert p[|p| - 1] == name[|name| - 1];
    AfterLastSlashOfSuffix(dir + "/", name);
  }

  lemma {:induction false} AfterLastSlashOfSuffix(d: string, name: string)
    requires '/' !in name && |d| > 0 && d[|d| - 1] == '/'
    ensures Files.AfterLastSlash(d + name) == name
    decreases |name|
  {
    if name == [] {
      assert d + name == d;
    } else {
      var n' := name[..|name| - 1];
      assert (d + name)[..|d + name| - 1] == d + n';
      AfterLastSlashOfSuffix(d, n');
    }
  }
}
