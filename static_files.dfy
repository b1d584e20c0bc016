/**
 * The static-asset side of WebSocketServer: the content type chosen from a
 * request path's extension, `/` served as `/index.html`, the file looked up
 * under the asset root with the leading slashes removed, and 404 otherwise.
 * The asset tree is a map from relative paths to file contents.
 */
module StaticFiles {
  import opened Common

  /** `Path.GetExtension`'s separators on Windows. */
  predicate IsDirectorySeparator(c: char) {
    c == '/' || c == '\\'
  }

  /** Scans `path[..n]` backwards for the last '.', stopping at a separator. */
  function ScanExtension(path: string, n: nat): string
    requires n <= |path|
    decreases n
  {
    if n == 0 then ""
    else if path[n - 1] == '.' then (if n < |path| then path[n - 1..] else "")
    else if IsDirectorySeparator(path[n - 1]) then ""
    else ScanExtension(path, n - 1)
  }

  /** `Path.GetExtension(path)`: "" when there is none, or when the name ends in '.'. */
  function GetExtension(path: string): string {
    ScanExtension(path, |path|)
  }

  predicate NoDotOrSeparator(s: string) {
    forall j :: 0 <= j < |s| ==> s[j] != '.' && !IsDirectorySeparator(s[j])
  }

  lemma {:induction false} ScanExtensionShape(path: string, n: nat)
    requires n <= |path| && NoDotOrSeparator(path[n..])
    ensures var r := ScanExtension(path, n);
      r == "" || (|r| >= 2 && r[0] == '.' && IsSuffix(r, path) && NoDotOrSeparator(r[1..]))
    decreases n
  {
    if n > 0 && path[n - 1] != '.' && !IsDirectorySeparator(path[n - 1]) {
      assert path[n - 1..] == [path[n - 1]] + path[n..];
      ScanExtensionShape(path, n - 1);
    }
  }

  /**
   * An extension, when there is one, is a '.' and at least one more
   * character at the very end of the path, with no other '.' and no separator.
   */
  lemma ExtensionShape(path: string)
    ensures var r := GetExtension(path);
      r == "" || (|r| >= 2 && r[0] == '.' && IsSuffix(r, path) && NoDotOrSeparator(r[1..]))
  {
    ScanExtensionShape(path, |path|);
  }

  lemma {:induction false} ScanExtensionOfName(stem: string, ext: string, n: nat)
    requires ext != [] && NoDotOrSeparator(ext)
    requires |stem| < n <= |stem| + 1 + |ext|
    ensures ScanExtension(stem + "." + ext, n) == "." + ext
    decreases n
  {
    var p := stem + "." + ext;
    if n - 1 != |stem| {
      assert p[n - 1] == ext[n - 2 - |stem|];
      ScanExtensionOfName(stem, ext, n - 1);
    } else {
      assert p[n - 1..] == "." + ext;
    }
  }

  /** Conversely, every name ending in '.' + a dot- and separator-free suffix has that suffix as its extension. */
  lemma ExtensionOfName(stem: string, ext: string)
    requires ext != [] && NoDotOrSeparator(ext)
    ensures GetExtension(stem + "." + ext) == "." + ext
  {
    ScanExtensionOfName(stem, ext, |stem| + 1 + |ext|);
  }

  lemma {:induction false} ScanExtensionOfBareName(dir: string, name: string, n: nat)
    requires NoDotOrSeparator(name)
    requires |dir| < n <= |dir| + 1 + |name|
    ensures ScanExtension(dir + "/" + name, n) == ""
    decreases n
  {
    var p := dir + "/" + name;
    if n - 1 != |dir| {
      assert p[n - 1] == name[n - 2 - |dir|];
      ScanExtensionOfBareName(dir, name, n - 1);
    }
  }

  /** A last path segment without a '.' has no extension, whatever the directories are called. */
  lemma ExtensionOfBareName(dir: string, name: string)
    requires NoDotOrSeparator(name)
    ensures GetExtension(dir + "/" + name) == ""
  {
    ScanExtensionOfBareName(dir, name, |dir| + 1 + |name|);
  }

  lemma {:induction false} ScanExtensionLower(path: string, n: nat)
    requires n <= |path|
    ensures ScanExtension(ToLower(path), n) == ToLower(ScanExtension(path, n))
    decreases n
  {
    if n > 0 && path[n - 1] == '.' && n < |path| {
      assert ToLower(path)[n - 1..] == ToLower(path[n - 1..]);
    } else if n > 0 && path[n - 1] != '.' && !IsDirectorySeparator(path[n - 1]) {
      ScanExtensionLower(path, n - 1);
    }
  }

  /** Lower-casing a path lower-cases its extension and changes nothing else about it. */
  lemma ExtensionOfLower(path: string)
    ensures GetExtension(ToLower(path)) == ToLower(GetExtension(path))
  {
    ScanExtensionLower(path, |path|);
  }

  const DefaultContentType: string := "application/octet-stream"

  /** `GetContentType(path)`: the switch on the lower-cased extension. */
  function GetContentType(path: string): string {
    var ext := ToLower(GetExtension(path));
    if ext == ".html" then "text/html"
    else if ext == ".css" then "text/css"
    else if ext == ".js" then "application/javascript"
    else if ext == ".json" then "application/json"
    else if ext == ".png" then "image/png"
    else if ext == ".jpg" then "image/jpeg"
    else if ext == ".svg" then "image/svg+xml"
    else DefaultContentType
  }

  predicate IsListedExtension(ext: string) {
    ext in {".html", ".css", ".js", ".json", ".png", ".jpg", ".svg"}
  }

  /** Every unlisted extension, and a missing one, gives the generic binary type; listed ones never do. */
  lemma ContentTypeDefault(path: string)
    ensures GetContentType(path) == DefaultContentType <==> !IsListedExtension(ToLower(GetExtension(path)))
  {
  }

  /** The content type does not depend on letter case: `.HTML` is `.html`. */
  lemma {:induction false} ContentTypeCaseInsensitive(path: string)
    ensures GetContentType(ToLower(path)) == GetContentType(path)
  {
    ExtensionOfLower(path);
    ToLowerIdempotent(GetExtension(path));
  }

  /** Listed extensions in any letter case. */
  lemma ContentTypeExamples()
    ensures GetContentType("/INDEX.HTML") == "text/html"
    ensures GetContentType("/app.js") == "application/javascript"
  {
    assert GetExtension("/INDEX.HTML") == ".HTML" by {
      ExtensionOfName("/INDEX", "HTML");
      assert "/INDEX.HTML" == "/INDEX" + "." + "HTML";
    }
    assert ToLower(".HTML") == ".html";
    assert GetExtension("/app.js") == ".js" by {
      ExtensionOfName("/app", "js");
      assert "/app.js" == "/app" + "." + "js";
    }
    assert ToLower(".js") == ".js";
  }

  /** An unlisted extension, and a dot that belongs to a directory name, give the generic type. */
  lemma ContentTypeUnlistedExamples()
    ensures GetContentType("/assets/logo.webp") == DefaultContentType
    ensures GetContentType("/assets.d/README") == DefaultContentType
  {
    assert GetExtension("/assets/logo.webp") == ".webp" by {
      ExtensionOfName("/assets/logo", "webp");
      assert "/assets/logo.webp" == "/assets/logo" + "." + "webp";
    }
    assert ToLower(".webp") == ".webp";
    assert !IsListedExtension(".webp") by {
      assert ".webp"[1] != ".json"[1];
    }
    ContentTypeDefault("/assets/logo.webp");
    assert GetExtension("/assets.d/README") == "" by {
      ExtensionOfBareName("/assets.d", "README");
      assert "/assets.d/README" == "/assets.d" + "/" + "README";
    }
    assert ToLower("") == "";
    ContentTypeDefault("/assets.d/README");
  }

  /** `path.TrimStart('/')`. */
  function TrimStartSlash(s: string): (r: string)
    ensures |r| <= |s|
    decreases |s|
  {
    if s != [] && s[0] == '/' then TrimStartSlash(s[1..]) else s
  }

  function Slashes(n: nat): string
    decreases n
  {
    if n == 0 then "" else "/" + Slashes(n - 1)
  }

  /** Trimming removes exactly the leading run of '/' characters. */
  lemma {:induction false} TrimStartSlashSpec(s: string)
    ensures TrimStartSlash(s) == [] || TrimStartSlash(s)[0] != '/'
    ensures s == Slashes(|s| - |TrimStartSlash(s)|) + TrimStartSlash(s)
    decreases |s|
  {
    if s != [] && s[0] == '/' {
      TrimStartSlashSpec(s[1..]);
      var t := TrimStartSlash(s[1..]);
      assert s[1..] == Slashes(|s| - 1 - |t|) + t;
      assert s == [s[0]] + s[1..];
    }
  }

  datatype Response = Response(status: int, contentType: string, body: seq<bv8>)

  /** The UTF-8 bytes of "404 Not Found". */
  const NotFoundBody: seq<bv8> := [0x34, 0x30, 0x34, 0x20, 0x4E, 0x6F, 0x74, 0x20, 0x46, 0x6F, 0x75, 0x6E, 0x64]

  /** The request path after the `?? "/"` default and the `/` to `/index.html` rewrite. */
  function ServedPath(requestPath: Option<string>): string {
    var path := match requestPath case Some(p) => p case None => "/";
    if path == "/" then "/index.html" else path
  }

  /**
   * `ServeStaticFileAsync`: the content type of the path is set whatever
   * happens; a file present under its trimmed name is served with status
   * 200, anything else is the 404 page.
   */
  function ServeStaticFile(requestPath: Option<string>, files: map<string, seq<bv8>>): Response {
    var path := ServedPath(requestPath);
    var relative := TrimStartSlash(path);
    if relative in files then Response(200, GetContentType(path), files[relative])
    else Response(404, GetContentType(path), NotFoundBody)
  }

  /** `/` (and a missing path) is served as `/index.html`, i.e. from the file "index.html". */
  lemma RootIsIndex(files: map<string, seq<bv8>>)
    ensures ServeStaticFile(Some("/"), files) == ServeStaticFile(Some("/index.html"), files)
    ensures ServeStaticFile(None, files) == ServeStaticFile(Some("/index.html"), files)
    ensures "index.html" in files ==> ServeStaticFile(Some("/"), files) == Response(200, "text/html", files["index.html"])
  {
    assert ServedPath(Some("/")) == "/index.html" == ServedPath(None);
    assert TrimStartSlash("/index.html") == "index.html" by {
      assert "/index.html"[1..] == "index.html";
      assert "index.html"[0] != '/';
    }
    ExtensionOfName("/index", "html");
    assert "/index.html" == "/index" + "." + "html";
    assert ToLower(".html") == ".html";
    assert GetContentType("/index.html") == "text/html";
  }

  /**
   * The status is 404 exactly when the trimmed file name is not in the asset
   * tree, and the body says so; otherwise it is 200 with the file's bytes.
   */
  lemma NotFoundIff(requestPath: Option<string>, files: map<string, seq<bv8>>)
    ensures ServeStaticFile(requestPath, files).status == 404 <==> TrimStartSlash(ServedPath(requestPath)) !in files
    ensures ServeStaticFile(requestPath, files).status != 404 ==> ServeStaticFile(requestPath, files).status == 200
    ensures ServeStaticFile(requestPath, files).status == 200 ==>
      ServeStaticFile(requestPath, files).body == files[TrimStartSlash(ServedPath(requestPath))]
    ensures ServeStaticFile(requestPath, files).status == 404 ==> ServeStaticFile(requestPath, files).body == NotFoundBody
    ensures ServeStaticFile(requestPath, files).contentType == GetContentType(ServedPath(requestPath))
  {
  }
}
