/**
 * The fallback route of main.go: a request no API route matched.  In
 * production it is answered from the embedded web/dist tree (a single-page
 * application: unknown paths get index.html); in development it is proxied
 * to the front-end dev server, except for API paths.
 *
 * The embedded tree is a map from relative path to what reading the file
 * yields; a missing key is a file that does not open.
 */
module StaticFiles {

  import opened Values

  type byte = x: int | 0 <= x < 256

  /** What opening and reading an embedded file yields. */
  datatype FileState = Readable(data: seq<byte>) | Unreadable

  /** The fallback's answer. */
  datatype Response =
    | JsonError(status: int, error: string)
    | Text(status: int, text: string)
    | Data(status: int, contentType: string, data: seq<byte>)
    | Proxied

  const IndexPage: string := "index.html"
  const HtmlType: string := "text/html; charset=utf-8"

  /** The production test for an API path: any path starting with "/api", "/apiary" included. */
  predicate ProdIsApi(path: string) {
    HasPrefix(path, "/api")
  }

  /** The development test for an API path: longer than four characters and starting with "/api". */
  predicate DevIsApi(path: string) {
    |path| > 4 && path[..4] == "/api"
  }

  /** The file a path names: one leading slash removed, and the empty path naming index.html. */
  function StaticPath(path: string): (p: string)
    ensures p != ""
    ensures HasPrefix(path, "/") && |path| > 1 ==> p == path[1..]
    ensures path == "" || path == "/" ==> p == IndexPage
    ensures !HasPrefix(path, "/") && path != "" ==> p == path
  {
    var stripped := if HasPrefix(path, "/") then path[1..] else path;
    if stripped == "" then IndexPage else stripped
  }

  /** The content type chosen by the file's suffix, application/octet-stream when none is known. */
  function ContentTypeOf(path: string): string {
    if HasSuffix(path, ".html") then HtmlType
    else if HasSuffix(path, ".js") then "application/javascript; charset=utf-8"
    else if HasSuffix(path, ".css") then "text/css; charset=utf-8"
    else if HasSuffix(path, ".svg") then "image/svg+xml"
    else if HasSuffix(path, ".json") then "application/json"
    else if HasSuffix(path, ".png") then "image/png"
    else if HasSuffix(path, ".jpg") || HasSuffix(path, ".jpeg") then "image/jpeg"
    else "application/octet-stream"
  }

  /** The production fallback. */
  function ProdNoRoute(path: string, files: map<string, FileState>): Response {
    if ProdIsApi(path) then JsonError(404, "API endpoint not found")
    else
      var p := StaticPath(path);
      if p !in files then
        if IndexPage !in files then Text(500, "Failed to load application")
        else
          match files[IndexPage]
          case Unreadable => Text(500, "Failed to read application")
          case Readable(data) => Data(200, HtmlType, data)
      else
        match files[p]
        case Unreadable => Text(500, "Failed to read file")
        case Readable(data) => Data(200, ContentTypeOf(p), data)
  }

  /** The development fallback. */
  function DevNoRoute(path: string): Response {
    if DevIsApi(path) then JsonError(404, "API endpoint not found") else Proxied
  }

  // ---------------------------------------------------------------------------
  // Properties

  /** In production every path starting with "/api" gets the JSON 404, whatever the embedded files. */
  lemma ProdApiNotFound(path: string, files: map<string, FileState>)
    ensures ProdNoRoute(path, files) == JsonError(404, "API endpoint not found") <==> ProdIsApi(path)
  {
  }

  /** A readable file is served with its own content and the type its suffix gives. */
  lemma ExistingFileServed(path: string, files: map<string, FileState>)
    requires !ProdIsApi(path)
    requires StaticPath(path) in files && files[StaticPath(path)].Readable?
    ensures ProdNoRoute(path, files) == Data(200, ContentTypeOf(StaticPath(path)), files[StaticPath(path)].data)
  {
  }

  /**
   * A path that names no embedded file gets the single-page application: the
   * content of index.html as HTML, or a 500 when index.html cannot be served.
   */
  lemma UnknownPathServesIndex(path: string, files: map<string, FileState>)
    requires !ProdIsApi(path) && StaticPath(path) !in files
    ensures IndexPage in files && files[IndexPage].Readable? ==>
              ProdNoRoute(path, files) == Data(200, HtmlType, files[IndexPage].data)
    ensures !(IndexPage in files && files[IndexPage].Readable?) ==>
              ProdNoRoute(path, files).Text? && ProdNoRoute(path, files).status == 500
  {
  }

  /** The root and the empty path are both index.html; a missing index.html is then a 500. */
  lemma RootIsIndex(files: map<string, FileState>)
    ensures ProdNoRoute("/", files) == ProdNoRoute("", files)
    ensures IndexPage in files && files[IndexPage].Readable? ==>
              ProdNoRoute("/", files) == Data(200, HtmlType, files[IndexPage].data)
  {
    assert !ProdIsApi("/") && !ProdIsApi("");
    assert HasSuffix(IndexPage, ".html");
  }

  /** Only one leading slash is removed: "//x" names the file "/x". */
  lemma OneSlashStripped(rest: string)
    requires rest != ""
    ensures StaticPath("/" + rest) == rest
    ensures StaticPath("//" + rest) == "/" + rest
  {
    assert ("/" + rest)[..1] == "/";
    assert ("/" + rest)[1..] == rest;
    assert ("//" + rest)[..1] == "/";
    assert ("//" + rest)[1..] == "/" + rest;
  }

  /** The text types follow the file's suffix. */
  lemma TextSuffixes(path: string)
    ensures HasSuffix(path, ".html") ==> ContentTypeOf(path) == HtmlType
    ensures HasSuffix(path, ".js") ==> ContentTypeOf(path) == "application/javascript; charset=utf-8"
    ensures HasSuffix(path, ".css") ==> ContentTypeOf(path) == "text/css; charset=utf-8"
    ensures HasSuffix(path, ".json") ==> ContentTypeOf(path) == "application/json"
  {
    if HasSuffix(path, ".js") {
      DifferentEnding(path, ".js", ".html", 0);
    }
    if HasSuffix(path, ".css") {
      DifferentEnding(path, ".css", ".html", 0);
      DifferentEnding(path, ".css", ".js", 1);
    }
    if HasSuffix(path, ".json") {
      DifferentEnding(path, ".json", ".html", 0);
      DifferentEnding(path, ".json", ".js", 0);
      DifferentEnding(path, ".json", ".css", 0);
      DifferentEnding(path, ".json", ".svg", 0);
    }
  }

  /** The vector and PNG image types follow the file's suffix. */
  lemma ImageSuffixes(path: string)
    ensures HasSuffix(path, ".svg") ==> ContentTypeOf(path) == "image/svg+xml"
    ensures HasSuffix(path, ".png") ==> ContentTypeOf(path) == "image/png"
  {
    if HasSuffix(path, ".svg") {
      DifferentEnding(path, ".svg", ".html", 0);
      DifferentEnding(path, ".svg", ".js", 0);
      DifferentEnding(path, ".svg", ".css", 0);
    }
    if HasSuffix(path, ".png") {
      DifferentEnding(path, ".png", ".html", 0);
      DifferentEnding(path, ".png", ".js", 0);
      DifferentEnding(path, ".png", ".css", 0);
      DifferentEnding(path, ".png", ".svg", 1);
      DifferentEnding(path, ".png", ".json", 0);
    }
  }

  /** Both .jpg and .jpeg are image/jpeg. */
  lemma JpegSuffixes(path: string)
    ensures HasSuffix(path, ".jpg") ==> ContentTypeOf(path) == "image/jpeg"
    ensures HasSuffix(path, ".jpeg") ==> ContentTypeOf(path) == "image/jpeg"
  {
    if HasSuffix(path, ".jpg") {
      JpegIsNoEarlierType(path, ".jpg");
    }
    if HasSuffix(path, ".jpeg") {
      JpegIsNoEarlierType(path, ".jpeg");
    }
  }

  /** A name ending in a JPEG suffix ends in none of the suffixes tested before it. */
  lemma JpegIsNoEarlierType(path: string, suffix: string)
    requires suffix == ".jpg" || suffix == ".jpeg"
    requires HasSuffix(path, suffix)
    ensures !HasSuffix(path, ".html") && !HasSuffix(path, ".js") && !HasSuffix(path, ".css")
    ensures !HasSuffix(path, ".svg") && !HasSuffix(path, ".json") && !HasSuffix(path, ".png")
  {
    DifferentEnding(path, suffix, ".html", 0);
    DifferentEnding(path, suffix, ".js", 0);
    DifferentEnding(path, suffix, ".css", 0);
    DifferentEnding(path, suffix, ".svg", 1);
    DifferentEnding(path, suffix, ".json", 0);
    DifferentEnding(path, suffix, ".png", 1);
  }

  /** Two suffixes that differ k characters from the end cannot both end the same text. */
  lemma DifferentEnding(s: string, a: string, b: string, k: nat)
    requires HasSuffix(s, a) && k < |a| && k < |b| && a[|a| - 1 - k] != b[|b| - 1 - k]
    ensures !HasSuffix(s, b)
  {
    assert s[|s| - 1 - k] == s[|s| - |a|..][|a| - 1 - k];
  }

  /** A name with none of the known suffixes is application/octet-stream. */
  lemma UnknownSuffixIsBinary(path: string)
    requires !HasSuffix(path, ".html") && !HasSuffix(path, ".js") && !HasSuffix(path, ".css")
    requires !HasSuffix(path, ".svg") && !HasSuffix(path, ".json") && !HasSuffix(path, ".png")
    requires !HasSuffix(path, ".jpg") && !HasSuffix(path, ".jpeg")
    ensures ContentTypeOf(path) == "application/octet-stream"
  {
  }

  /**
   * The two API tests differ in exactly one path: development treats "/api"
   * itself as a page and proxies it, production answers it with the JSON 404.
   */
  lemma DevAndProdApiTests(path: string)
    ensures DevIsApi(path) ==> ProdIsApi(path)
    ensures ProdIsApi(path) && !DevIsApi(path) <==> path == "/api"
    ensures DevNoRoute("/api") == Proxied
    ensures ProdNoRoute("/api", map[]) == JsonError(404, "API endpoint not found")
  {
    assert ProdIsApi("/api");
    if ProdIsApi(path) && !DevIsApi(path) {
      assert path[..4] == "/api";
    }
  }
}
