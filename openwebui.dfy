/**
 * The OpenWebUI client (src/jopper/openwebui.py). The HTTP endpoints become
 * the oracle `Http`: each call is a function of the request it is sent
 * (its full URL and, for an upload, the file and form fields), and
 * `RequestFailed` stands for a `requests.exceptions.RequestException`
 * (connection error, time-out or an error status from `raise_for_status`).
 */
module OpenWebUI {
  import opened Wrappers
  import opened Text
  import opened Config

  /** The answer of one HTTP request. */
  datatype Reply<+T> = RequestFailed | Answered(value: T)

  /** A knowledge collection as `GET /api/v1/knowledge` lists it. */
  datatype Collection = Collection(id: string, name: string)

  /** What `GET /api/v1/knowledge` answers: its `Content-Type` header ("" when
      absent) and the collections its JSON body holds. */
  datatype Listing = Listing(contentType: string, collections: seq<Collection>)

  /** A multipart `POST /api/v1/files/`: the file part and the form fields. */
  datatype UploadRequest = UploadRequest(url: string, filename: string, content: string, form: map<string, string>)

  /** The OpenWebUI server. `upload` answers the `id` member of the reply's
      JSON object, `None` when there is none; `attach` is
      `POST /api/v1/knowledge/{id}/file/add` with the file id as body, and
      `delete` is `DELETE /api/v1/files/{id}`, both `true` on success. */
  datatype Http = Http(
    knowledge: string -> Reply<Listing>,
    upload: UploadRequest -> Reply<Option<string>>,
    attach: (string, string) -> bool,
    delete: string -> bool)

  /** The characters the filename keeps: alphanumerics, space, `-` and `_`. */
  predicate IsSafeChar(c: char) {
    IsAlnum(c) || c == ' ' || c == '-' || c == '_'
  }

  /** `"".join(c if c.isalnum() or c in " -_" else "_" for c in title)`. */
  function SanitizeTitle(title: string): (r: string)
    ensures |r| == |title|
    ensures forall i :: 0 <= i < |r| ==> IsSafeChar(r[i])
    ensures forall i :: 0 <= i < |r| ==> r[i] == (if IsSafeChar(title[i]) then title[i] else '_')
    decreases |title|
  {
    if title == [] then []
    else
      var rest := SanitizeTitle(title[1..]);
      assert forall i :: 1 <= i < |title| ==> title[i] == title[1..][i - 1];
      [if IsSafeChar(title[0]) then title[0] else '_'] + rest
  }

  /** Sanitising a sanitised title changes nothing, and a title made of safe
      characters only is its own sanitisation. */
  lemma SanitizeIdempotent(title: string)
    ensures SanitizeTitle(SanitizeTitle(title)) == SanitizeTitle(title)
    ensures (forall i :: 0 <= i < |title| ==> IsSafeChar(title[i])) ==> SanitizeTitle(title) == title
  {
  }

  function Min(a: int, b: int): int {
    if a <= b then a else b
  }

  /** `f"{note_id}_{safe_title[:50]}.md"`: the note id, an underscore, at most
      50 sanitised characters of the title and the extension. */
  function Filename(noteId: string, title: string): (r: string)
    ensures |r| == |noteId| + 1 + Min(|title|, 50) + 3
    ensures StartsWith(r, noteId + "_")
    ensures r[|r| - 3..] == ".md"
    ensures r[|noteId| + 1..|r| - 3] == SanitizeTitle(title)[..Min(|title|, 50)]
    ensures forall i :: |noteId| + 1 <= i < |r| - 3 ==> IsSafeChar(r[i])
  {
    var safe := SanitizeTitle(title);
    var part := safe[..Min(|safe|, 50)];
    var head := noteId + "_";
    assert forall k :: 0 <= k < |part| ==> IsSafeChar(part[k]) && part[k] == safe[k];
    var r := head + part + ".md";
    Concat3(head, part, ".md");
    r
  }

  lemma Concat3(a: string, b: string, c: string)
    ensures |a + b + c| == |a| + |b| + |c|
    ensures (a + b + c)[..|a|] == a
    ensures (a + b + c)[|a| + |b|..] == c
    ensures (a + b + c)[|a|..|a| + |b|] == b
    ensures forall i :: |a| <= i < |a| + |b| ==> (a + b + c)[i] == b[i - |a|]
  {
  }

  /** When note ids hold no underscore (Joplin ids are 32 hexadecimal
      digits), two notes with different ids never share a filename. */
  lemma FilenameSeparatesNotes(a: string, titleA: string, b: string, titleB: string)
    requires '_' !in a && '_' !in b
    requires Filename(a, titleA) == Filename(b, titleB)
    ensures a == b
  {
    var f := Filename(a, titleA);
    assert f[..|a| + 1] == a + "_" && f[..|b| + 1] == b + "_";
    assert f[|a|] == '_' && f[|b|] == '_';
    assert forall k :: 0 <= k < |a| ==> f[k] == a[k] && f[k] != '_';
    assert forall k :: 0 <= k < |b| ==> f[k] == b[k] && f[k] != '_';
    assert |a| == |b|;
    assert a == f[..|a|] == b;
  }

  /** The collection id the configuration names, when it is truthy. */
  function ConfiguredCollection(config: OpenWebUIConfig): (r: Option<string>)
    ensures r.Some? ==> r.value != "" && config.collectionId == r
    ensures r.None? <==> config.collectionId.None? || config.collectionId.value == ""
  {
    if config.collectionId.Some? && config.collectionId.value != "" then config.collectionId else None
  }

  /** Python truthiness of an optional id. */
  predicate Present(id: Option<string>) {
    id.Some? && id.value != ""
  }

  /** The client of one OpenWebUI server. */
  class OpenWebUIClient {
    const config: OpenWebUIConfig
    /** `config.url.rstrip("/")`. */
    const baseUrl: string
    /** The cached collection id (`knowledge_base_id`). */
    var knowledgeBaseId: Option<string>

    /** The cache only ever holds the configured collection id. */
    ghost predicate Valid()
      reads this
    {
      baseUrl == RStripChar(config.url, '/') &&
      (knowledgeBaseId.None? || knowledgeBaseId == ConfiguredCollection(config))
    }

    constructor (config: OpenWebUIConfig)
      ensures Valid()
      ensures this.config == config && knowledgeBaseId.None?
      ensures baseUrl != [] ==> baseUrl[|baseUrl| - 1] != '/'
    {
      this.config := config;
      this.baseUrl := RStripChar(config.url, '/');
      this.knowledgeBaseId := None;
    }

    /** `get_or_prompt_collection`: the cached id, else the configured id
        (now cached), else `None`. Every call answers the same. */
    method GetOrPromptCollection() returns (r: Option<string>)
      requires Valid()
      modifies this
      ensures Valid()
      ensures r == ConfiguredCollection(config)
      ensures knowledgeBaseId == r
      ensures old(knowledgeBaseId).Some? ==> r == old(knowledgeBaseId)
    {
      if knowledgeBaseId.Some? && knowledgeBaseId.value != "" {
        return knowledgeBaseId;
      }
      if config.collectionId.Some? && config.collectionId.value != "" {
        knowledgeBaseId := config.collectionId;
        return knowledgeBaseId;
      }
      return None;
    }

    /** `list_collections`: the listed collections when the request succeeds
        and its content type is JSON, the empty list otherwise. */
    function ListCollections(http: Http): (r: seq<Collection>)
      ensures r != [] ==> http.knowledge(baseUrl + "/api/v1/knowledge").Answered?
      ensures match http.knowledge(baseUrl + "/api/v1/knowledge")
              case RequestFailed => r == []
              case Answered(l) => r == (if Contains(l.contentType, "application/json") then l.collections else [])
    {
      match http.knowledge(baseUrl + "/api/v1/knowledge")
      case RequestFailed => []
      case Answered(l) => if Contains(l.contentType, "application/json") then l.collections else []
    }

    /** The request `upload_file` sends: the `collection_name` form field is
        present exactly when a truthy collection id is given. */
    function UploadRequestFor(filename: string, content: string, collectionId: Option<string>): (q: UploadRequest)
      ensures q.url == baseUrl + "/api/v1/files/" && q.filename == filename && q.content == content
      ensures "collection_name" in q.form <==> Present(collectionId)
      ensures "collection_name" in q.form ==> q.form["collection_name"] == config.knowledgeBaseName
      ensures q.form.Keys <= {"collection_name"}
    {
      var form: map<string, string> :=
        if Present(collectionId) then map["collection_name" := config.knowledgeBaseName] else map[];
      UploadRequest(baseUrl + "/api/v1/files/", filename, content, form)
    }

    /** `upload_file`: the id the server answers, `None` on a failed request
        or a reply without an id. */
    function UploadFile(http: Http, filename: string, content: string, collectionId: Option<string>): (r: Option<string>)
      ensures http.upload(UploadRequestFor(filename, content, collectionId)).RequestFailed? ==> r.None?
      ensures r.Some? ==> http.upload(UploadRequestFor(filename, content, collectionId)) == Answered(r)
      ensures http.upload(UploadRequestFor(filename, content, collectionId)).Answered? ==>
                r == http.upload(UploadRequestFor(filename, content, collectionId)).value
    {
      match http.upload(UploadRequestFor(filename, content, collectionId))
      case RequestFailed => None
      case Answered(id) => id
    }

    /** The URL `add_file_to_collection` posts to for a collection. */
    function AttachUrl(collectionId: string): (u: string)
      ensures |u| == |baseUrl + "/api/v1/knowledge/"| + |collectionId| + |"/file/add"|
      ensures StartsWith(u, baseUrl + "/api/v1/knowledge/")
      ensures u[|baseUrl + "/api/v1/knowledge/"|..|u| - |"/file/add"|] == collectionId
      ensures u[|u| - |"/file/add"|..] == "/file/add"
    {
      var head := baseUrl + "/api/v1/knowledge/";
      Concat3(head, collectionId, "/file/add");
      head + collectionId + "/file/add"
    }

    /** The URL `delete_file` sends its request to for a file. */
    function FileUrl(fileId: string): (u: string)
      ensures StartsWith(u, baseUrl + "/api/v1/files/")
      ensures u[|baseUrl + "/api/v1/files/"|..] == fileId
    {
      baseUrl + "/api/v1/files/" + fileId
    }

    /** `add_file_to_collection`: the answer of the add request for that
        collection, with the file id as its body. */
    function AddFileToCollection(http: Http, fileId: string, collectionId: string): (ok: bool)
      ensures ok == http.attach(AttachUrl(collectionId), fileId)
    {
      http.attach(baseUrl + "/api/v1/knowledge/" + collectionId + "/file/add", fileId)
    }

    /** `delete_file`: the answer of the delete request for that file. */
    function DeleteFile(http: Http, fileId: string): (ok: bool)
      ensures ok == http.delete(FileUrl(fileId))
    {
      http.delete(baseUrl + "/api/v1/files/" + fileId)
    }

    /** What `sync_note` returns: the uploaded file's id when it is truthy,
        `None` otherwise. Whether the file could be added to the collection
        plays no part. */
    function SyncNoteResult(http: Http, noteId: string, title: string, content: string): (r: Option<string>)
      ensures r.Some? ==> r.value != ""
      ensures r.Some? <==> Present(UploadFile(http, Filename(noteId, title), content, ConfiguredCollection(config)))
      ensures r.Some? ==> r == UploadFile(http, Filename(noteId, title), content, ConfiguredCollection(config))
    {
      var id := UploadFile(http, Filename(noteId, title), content, ConfiguredCollection(config));
      if Present(id) then id else None
    }

    /** `sync_note`: uploads the note under its sanitised filename and, when
        a collection is configured, adds the file to it, ignoring whether
        that succeeds. `attached` tells whether the add was attempted. */
    method SyncNote(http: Http, noteId: string, title: string, content: string)
      returns (r: Option<string>, ghost attached: bool)
      requires Valid()
      modifies this
      ensures Valid()
      ensures knowledgeBaseId == ConfiguredCollection(config)
      ensures r == SyncNoteResult(http, noteId, title, content)
      ensures attached <==> r.Some? && ConfiguredCollection(config).Some?
    {
      var filename := Filename(noteId, title);
      var collectionId := GetOrPromptCollection();
      var fileId := UploadFile(http, filename, content, collectionId);
      attached := false;
      if !Present(fileId) {
        return None, attached;
      }
      if Present(collectionId) {
        var _ := AddFileToCollection(http, fileId.value, collectionId.value);
        attached := true;
      }
      r := fileId;
    }
  }

  /** Different file ids are deleted with different requests, so a delete
      only ever addresses the file it names. */
  lemma FileUrlsDistinct(c: OpenWebUIClient, a: string, b: string)
    requires a != b
    ensures c.FileUrl(a) != c.FileUrl(b)
  {
    var n := |c.baseUrl + "/api/v1/files/"|;
    assert c.FileUrl(a)[n..] == a && c.FileUrl(b)[n..] == b;
  }

  /** Different collection ids are added to with different requests. */
  lemma AttachUrlsDistinct(c: OpenWebUIClient, a: string, b: string)
    requires a != b
    ensures c.AttachUrl(a) != c.AttachUrl(b)
  {
    var ua := c.AttachUrl(a);
    var ub := c.AttachUrl(b);
    var n := |c.baseUrl + "/api/v1/knowledge/"|;
    assert ua[n..|ua| - 9] == a && ub[n..|ub| - 9] == b;
  }

  /** The result of `sync_note` depends on the upload endpoint only: two
      servers that answer uploads alike give the same result whatever their
      collection endpoint does. */
  lemma SyncNoteIgnoresAttach(c: OpenWebUIClient, h1: Http, h2: Http, noteId: string, title: string, content: string)
    requires h1.upload == h2.upload
    ensures c.SyncNoteResult(h1, noteId, title, content) == c.SyncNoteResult(h2, noteId, title, content)
  {
  }
}
