/** The resource-directory search of the SDL host's application start-up: find_resources
    (lib/host/sdl/app.cpp:35-51). A path is a root flag and its names; the file system's
    directory test and the process's working directory are parameters. */
module AppPaths {
  /** A path: whether it starts at the root, then its names in order. */
  datatype Path = Path(rooted: bool, names: seq<string>)

  /** The path with its last name dropped; the root and the empty path are their own parent. */
  function Parent(p: Path): (r: Path)
    ensures r.rooted == p.rooted
    ensures p.names != [] ==> r.names + [p.names[|p.names| - 1]] == p.names
    ensures p.names == [] ==> r == p
  {
    if p.names == [] then p else Path(p.rooted, p.names[..|p.names| - 1])
  }

  /** The last name, or "" for the root and the empty path. */
  function FileName(p: Path): (r: string)
    ensures p.names == [] ==> r == ""
    ensures p.names != [] ==> r == p.names[|p.names| - 1]
  {
    if p.names == [] then "" else p.names[|p.names| - 1]
  }

  /** The path with one more name at the end. */
  function Join(p: Path, name: string): (r: Path)
    ensures r.rooted == p.rooted && |r.names| == |p.names| + 1
    ensures FileName(r) == name && Parent(r) == p
  {
    Path(p.rooted, p.names + [name])
  }

  const RESOURCES: string := "resources"
  const BIN: string := "bin"
  const SHARE: string := "share"

  /** The installed layout's candidate: the program in <prefix>/bin, its resources in
      <prefix>/share/<program>/resources. */
  function ShareResources(appPath: Path): Path {
    Join(Join(Join(Parent(Parent(appPath)), SHARE), FileName(appPath)), RESOURCES)
  }

  /** The candidate next to the program. */
  function LocalResources(appPath: Path): Path {
    Join(Parent(appPath), RESOURCES)
  }

  /** The installed layout applies: the program's directory is called "bin". */
  predicate InBin(appPath: Path) {
    FileName(Parent(appPath)) == BIN
  }

  /** find_resources: the installed candidate when the program sits in a bin directory and the
      candidate is a directory, else the candidate next to the program when it is a directory,
      else resources under the working directory. The result always ends in "resources" and is
      either a directory or the working-directory fallback. */
  function FindResources(appPath: Path, isDirectory: Path -> bool, currentPath: Path): (r: Path)
    ensures FileName(r) == RESOURCES && r.names != []
    ensures isDirectory(r) || r == Join(currentPath, RESOURCES)
    ensures r == ShareResources(appPath) || r == LocalResources(appPath) || r == Join(currentPath, RESOURCES)
  {
    var appDir := Parent(appPath);
    if FileName(appDir) == BIN && isDirectory(ShareResources(appPath)) then ShareResources(appPath)
    else if isDirectory(Join(appDir, RESOURCES)) then Join(appDir, RESOURCES)
    else Join(currentPath, RESOURCES)
  }

  /** In a bin directory the installed candidate wins whenever it exists, whatever else does. */
  lemma InstalledLayoutWins(appPath: Path, isDirectory: Path -> bool, currentPath: Path)
    requires InBin(appPath) && isDirectory(ShareResources(appPath))
    ensures FindResources(appPath, isDirectory, currentPath) == ShareResources(appPath)
  {
  }

  /** The two candidates are always different paths: they differ in the number of names. */
  lemma CandidatesDiffer(appPath: Path)
    ensures LocalResources(appPath) != ShareResources(appPath)
  {
    assert |LocalResources(appPath).names| < |ShareResources(appPath).names|;
  }

  /** Outside a bin directory the installed candidate is never consulted: the result does not
      depend on what the directory test says about it. */
  lemma ShareOnlyUnderBin(appPath: Path, isDirectory: Path -> bool, other: Path -> bool, currentPath: Path)
    requires !InBin(appPath)
    requires forall p :: p != ShareResources(appPath) ==> isDirectory(p) == other(p)
    ensures FindResources(appPath, isDirectory, currentPath) == FindResources(appPath, other, currentPath)
  {
    CandidatesDiffer(appPath);
  }

  /** The candidate next to the program is taken when it exists and the installed one does not
      apply; a result that is neither the installed candidate nor the fallback is that candidate,
      and then it exists. */
  lemma LocalResourcesWhen(appPath: Path, isDirectory: Path -> bool, currentPath: Path)
    ensures var r := FindResources(appPath, isDirectory, currentPath);
      && (!(InBin(appPath) && isDirectory(ShareResources(appPath))) && isDirectory(LocalResources(appPath))
          ==> r == LocalResources(appPath))
      && (r != ShareResources(appPath) && r != Join(currentPath, RESOURCES)
          ==> r == LocalResources(appPath) && isDirectory(r))
  {
    CandidatesDiffer(appPath);
  }

  /** The working directory is the fallback, used when neither candidate exists. */
  lemma FallbackWhenNothingFound(appPath: Path, isDirectory: Path -> bool, currentPath: Path)
    requires !isDirectory(ShareResources(appPath)) && !isDirectory(LocalResources(appPath))
    ensures FindResources(appPath, isDirectory, currentPath) == Join(currentPath, RESOURCES)
  {
  }

  /** Whenever some candidate that is consulted exists, the result is an existing directory. */
  lemma FindsAnExistingCandidate(appPath: Path, isDirectory: Path -> bool, currentPath: Path)
    requires (InBin(appPath) && isDirectory(ShareResources(appPath))) || isDirectory(LocalResources(appPath))
    ensures isDirectory(FindResources(appPath, isDirectory, currentPath))
  {
  }

  /** /usr/local/bin/app with /usr/local/share/app/resources installed finds that directory. */
  lemma InstalledScenario(isDirectory: Path -> bool, currentPath: Path)
    requires isDirectory(Path(true, ["usr", "local", "share", "app", "resources"]))
    ensures FindResources(Path(true, ["usr", "local", "bin", "app"]), isDirectory, currentPath)
      == Path(true, ["usr", "local", "share", "app", "resources"])
  {
    var app := Path(true, ["usr", "local", "bin", "app"]);
    assert Parent(app) == Path(true, ["usr", "local", "bin"]);
    assert Parent(Parent(app)) == Path(true, ["usr", "local"]);
    assert ShareResources(app) == Path(true, ["usr", "local", "share", "app", "resources"]);
  }
}
