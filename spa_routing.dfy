/**
  The server's choice of static root and its single-page-app route
  `/{path:path}`: which file answers a path, or which error.

  The filesystem is a view: the paths that are files, those that are
  directories, and `resolve`, which follows `..` and symbolic links the way
  `Path.resolve()` does.
 */
module Spa {
  import opened Text

  const BuildSubdir := "/unpackage/dist/build/web"
  const IndexFile := "index.html"

  datatype FileSystem = FileSystem(files: set<string>, dirs: set<string>, resolve: string -> string)

  /** `Path.exists()`. */
  predicate Exists(fs: FileSystem, p: string) {
    p in fs.files || p in fs.dirs
  }

  /** `STATIC_WEB_DIR`: the build output when it exists, else the web sources. */
  function StaticRoot(webDir: string, buildExists: bool): (r: string) {
    if buildExists then webDir + BuildSubdir else webDir
  }

  /** `base / path`: an absolute `path` replaces the base, as in `pathlib`. */
  function JoinPath(base: string, path: string): (r: string) {
    if StartsWith(path, "/") then path else base + "/" + path
  }

  /** `p.relative_to(root)` succeeds: `p` is `root` or lies below it. */
  predicate Inside(p: string, root: string) {
    p == root || StartsWith(p, root + "/")
  }

  datatype Response = File(path: string) | Error(status: int, detail: string)

  /**
    Whichever directory is chosen, the static root is the web directory
    itself or lies below it, and it is the web directory exactly when the
    build output is missing.
   */
  lemma StaticRootWithinWebDir(webDir: string, buildExists: bool)
    ensures Inside(StaticRoot(webDir, buildExists), webDir)
    ensures StaticRoot(webDir, buildExists) == webDir <==> !buildExists
    ensures buildExists ==> StartsWith(StaticRoot(webDir, buildExists), webDir + "/unpackage/")
  {
    if buildExists {
      var root := webDir + BuildSubdir;
      assert |root| > |webDir|;
      assert root[..|webDir| + 1] == webDir + "/";
      assert root[..|webDir| + 11] == webDir + "/unpackage/";
    }
  }

  /** The paths owned by other routes: they never fall through to the app. */
  predicate Reserved(path: string) {
    StartsWith(path, "api/") || StartsWith(path, "static/") || path == "health"
  }

  /** `serve_spa(path)` as written. */
  function ServeSpa(fs: FileSystem, root: string, path: string): (r: Response) {
    if Reserved(path) then Error(404, "Not found")
    else
      var filePath := JoinPath(root, path);
      if filePath in fs.files then
        if Inside(fs.resolve(filePath), fs.resolve(root)) then File(filePath) else Error(403, "Access denied")
      else if filePath in fs.dirs && Exists(fs, JoinPath(filePath, IndexFile)) then File(JoinPath(filePath, IndexFile))
      else if Exists(fs, JoinPath(root, IndexFile)) then File(JoinPath(root, IndexFile))
      else Error(404, "File not found")
  }

  /** Reserved paths get 404 whatever is on disk. */
  lemma ReservedPathsNotFound(fs: FileSystem, other: FileSystem, root: string, path: string)
    requires Reserved(path)
    ensures ServeSpa(fs, root, path) == Error(404, "Not found") == ServeSpa(other, root, path)
  {
  }

  /** An existing file is served when it resolves inside the root and refused with 403 otherwise. */
  lemma ExistingFileServedOrForbidden(fs: FileSystem, root: string, path: string)
    requires !Reserved(path) && JoinPath(root, path) in fs.files
    ensures ServeSpa(fs, root, path) == File(JoinPath(root, path)) <==> Inside(fs.resolve(JoinPath(root, path)), fs.resolve(root))
    ensures !Inside(fs.resolve(JoinPath(root, path)), fs.resolve(root)) ==> ServeSpa(fs, root, path) == Error(403, "Access denied")
  {
  }

  /**
    Outside the reserved paths the answer is a file: the requested one, a
    directory's index, or the app's own index, and a 404 only when the app
    has no index; 403 only for a file that resolves outside the root.
   */
  lemma ResponseCases(fs: FileSystem, root: string, path: string)
    requires !Reserved(path)
    ensures var r := ServeSpa(fs, root, path);
      var filePath := JoinPath(root, path);
      && (r.Error? && r.status == 403 <==> filePath in fs.files && !Inside(fs.resolve(filePath), fs.resolve(root)))
      && (r.Error? && r.status == 404 ==> r.detail == "File not found" && !Exists(fs, JoinPath(root, IndexFile)))
      && (r.File? ==> r.path == filePath || r.path == JoinPath(filePath, IndexFile) || r.path == JoinPath(root, IndexFile))
      && (filePath !in fs.files && Exists(fs, JoinPath(root, IndexFile)) ==> r.File?)
  {
  }

  /** `serve_spa` with the containment check extended to a directory's index. */
  function ServeSpaChecked(fs: FileSystem, root: string, path: string): (r: Response) {
    if Reserved(path) then Error(404, "Not found")
    else
      var filePath := JoinPath(root, path);
      var dirIndex := JoinPath(filePath, IndexFile);
      if filePath in fs.files then
        if Inside(fs.resolve(filePath), fs.resolve(root)) then File(filePath) else Error(403, "Access denied")
      else if filePath in fs.dirs && Exists(fs, dirIndex) then
        if Inside(fs.resolve(dirIndex), fs.resolve(root)) then File(dirIndex) else Error(403, "Access denied")
      else if Exists(fs, JoinPath(root, IndexFile)) then File(JoinPath(root, IndexFile))
      else Error(404, "File not found")
  }

  /** With the check in place, the only file served that is not resolved inside the root is the app's own index. */
  lemma CheckedServesOnlyInsideRoot(fs: FileSystem, root: string, path: string)
    ensures var r := ServeSpaChecked(fs, root, path);
      r.File? ==> Inside(fs.resolve(r.path), fs.resolve(root)) || r.path == JoinPath(root, IndexFile)
    ensures var r := ServeSpaChecked(fs, root, path);
      r.File? && r.path != JoinPath(root, IndexFile) ==> r == ServeSpa(fs, root, path)
  {
  }

  /** The concrete layout of the escape: the web root, a sibling directory with an index, and `..` resolved. */
  function EscapeLayout(): (r: FileSystem) {
    FileSystem({"/srv/web/index.html", "/srv/web/../admin/index.html"}, {"/srv/web", "/srv/web/../admin"},
               p => if p == "/srv/web/../admin/index.html" then "/srv/admin/index.html" else p)
  }

  /**
    As written, a request for `../admin` serves the index of a directory
    outside the static root: the directory branch never checks containment.
   */
  lemma DirectoryIndexEscapesRoot()
    ensures ServeSpa(EscapeLayout(), "/srv/web", "../admin") == File("/srv/web/../admin/index.html")
    ensures !Inside(EscapeLayout().resolve("/srv/web/../admin/index.html"), EscapeLayout().resolve("/srv/web"))
    ensures ServeSpaChecked(EscapeLayout(), "/srv/web", "../admin") == Error(403, "Access denied")
  {
    var fs := EscapeLayout();
    assert "../admin"[..1][0] == '.';
    assert !StartsWith("../admin", "/");
    assert JoinPath("/srv/web", "../admin") == "/srv/web/../admin";
    assert !StartsWith("index.html", "/");
    assert JoinPath("/srv/web/../admin", IndexFile) == "/srv/web/../admin/index.html";
    assert !Reserved("../admin");
    assert "/srv/web/../admin" !in fs.files;
    var resolved := "/srv/admin/index.html";
    assert fs.resolve("/srv/web/../admin/index.html") == resolved;
    assert fs.resolve("/srv/web") == "/srv/web";
    assert resolved[..9][5] == 'a' && ("/srv/web" + "/")[5] == 'w';
    assert resolved[..9] != "/srv/web" + "/";
    assert !Inside(resolved, "/srv/web");
  }
}
