/**
 * The build helper install-imports.js: walk a directory tree for source
 * files, normalize every module specifier they import to an npm package name,
 * keep the distinct names, and install them with one `npm install`.
 *
 * The file system is an in-memory tree, the host's `builtinModules` list is a
 * parameter, reading the imports of a file is a function parameter, and the
 * outcome of `npm install` is a parameter.
 */
module InstallImports {
  import opened Wrappers
  import opened Text

  // ---------------------------------------------------------------------------
  // normalize
  // ---------------------------------------------------------------------------

  /** A relative or absolute specifier: it starts with "." or "/". */
  predicate IsRelative(mod: string) {
    StartsWith(mod, ".") || StartsWith(mod, "/")
  }

  /** The text before the first "/" (`mod.split("/")[0]`). */
  function FirstSegment(mod: string): string {
    Split(mod, '/')[0]
  }

  /** A built-in module, by its whole name or by its first segment. */
  predicate IsBuiltin(mod: string, builtins: seq<string>) {
    mod in builtins || FirstSegment(mod) in builtins
  }

  predicate IsScoped(mod: string) {
    StartsWith(mod, "@")
  }

  /**
   * `normalize(mod)`: None (null) for relative, absolute and built-in
   * specifiers and for a scoped one without a package segment; otherwise the
   * package name: "@scope/pkg" for a scoped specifier, the first segment
   * for any other.
   */
  function Normalize(mod: string, builtins: seq<string>): (name: Option<string>)
    ensures name.Some? ==> !IsRelative(mod) && !IsBuiltin(mod, builtins)
    ensures name.Some? ==> name.value <= mod
  {
    if IsRelative(mod) then None
    else if IsBuiltin(mod, builtins) then None
    else if IsScoped(mod) then
      var parts := Split(mod, '/');
      if |parts| < 2 || parts[1] == "" then None
      else
        SplitJoinTwo(parts, '/');
        Some(parts[0] + "/" + parts[1])
    else
      SplitHead(mod, '/');
      Some(FirstSegment(mod))
  }

  /** Relative and absolute specifiers are never packages. */
  lemma NormalizeSkipsRelative(mod: string, builtins: seq<string>)
    requires IsRelative(mod)
    ensures Normalize(mod, builtins) == None
  {
  }

  /**
   * Built-ins are never packages: a non-relative specifier that is a built-in,
   * or whose first segment is one ("fs/promises" when "fs" is), maps to None.
   */
  lemma NormalizeSkipsBuiltins(mod: string, builtins: seq<string>)
    requires mod in builtins || FirstSegment(mod) in builtins
    ensures Normalize(mod, builtins) == None
  {
  }

  /**
   * A scoped specifier "@scope/pkg" followed by nothing or by a "/"-path maps
   * to "@scope/pkg", whatever the path, when it is not relative or built-in.
   */
  lemma NormalizeScoped(scope: string, pkg: string, path: string, builtins: seq<string>)
    requires StartsWith(scope, "@") && '/' !in scope
    requires pkg != "" && '/' !in pkg
    requires path == "" || path[0] == '/'
    requires scope + "/" + pkg + path !in builtins && scope !in builtins
    ensures Normalize(scope + "/" + pkg + path, builtins) == Some(scope + "/" + pkg)
  {
    var mod := scope + "/" + pkg + path;
    ScopedSegments(scope, pkg, path);
    assert mod[0] == '@' && "@" <= mod;
    assert !IsRelative(mod) && !IsBuiltin(mod, builtins) && IsScoped(mod);
  }

  /** The first two "/"-segments of "@scope/pkg" followed by a "/"-path. */
  lemma ScopedSegments(scope: string, pkg: string, path: string)
    requires '/' !in scope && '/' !in pkg
    requires path == "" || path[0] == '/'
    ensures var parts := Split(scope + "/" + pkg + path, '/');
      |parts| >= 2 && parts[0] == scope && parts[1] == pkg
  {
    var mod := scope + "/" + pkg + path;
    assert mod == scope + ['/'] + (pkg + path);
    SplitCons(scope, '/', pkg + path);
    if path == "" {
      assert pkg + path == pkg;
      SplitSingle(pkg, '/');
    } else {
      assert pkg + path == pkg + ['/'] + path[1..];
      SplitCons(pkg, '/', path[1..]);
    }
  }

  /** A scoped specifier with no second segment, or an empty one ("@scope", "@scope/"), is invalid. */
  lemma NormalizeRejectsBareScope(mod: string, builtins: seq<string>)
    requires IsScoped(mod)
    requires |Split(mod, '/')| < 2 || Split(mod, '/')[1] == ""
    ensures Normalize(mod, builtins) == None
  {
  }

  /**
   * Any other specifier maps to its text up to the first "/": a non-empty
   * prefix of it, followed in it by "/" or by nothing, that contains no "/".
   */
  lemma NormalizeUnscoped(mod: string, builtins: seq<string>)
    requires mod != "" && !IsRelative(mod) && !IsBuiltin(mod, builtins) && !IsScoped(mod)
    ensures Normalize(mod, builtins).Some?
    ensures var name := Normalize(mod, builtins).value;
      && name != ""
      && name <= mod
      && '/' !in name
      && (|name| == |mod| || mod[|name|] == '/')
  {
    SplitHead(mod, '/');
    assert mod[0] != '/';
    var name := FirstSegment(mod);
    assert name in Split(mod, '/');
  }

  /**
   * Every package name is a prefix of its specifier; an unscoped name contains
   * no "/", a scoped one exactly one; and the name is empty only for the
   * empty specifier.
   */
  lemma NormalizeResultShape(mod: string, builtins: seq<string>)
    requires Normalize(mod, builtins).Some?
    ensures var name := Normalize(mod, builtins).value;
      && name <= mod
      && (!IsScoped(mod) ==> CountOf(name, '/') == 0)
      && (IsScoped(mod) ==> CountOf(name, '/') == 1 && StartsWith(name, "@"))
      && (name == "" <==> mod == "")
  {
    var parts := Split(mod, '/');
    var name := Normalize(mod, builtins).value;
    SplitHead(mod, '/');
    assert parts[0] in parts;
    if IsScoped(mod) {
      assert parts[1] in parts;
      SplitJoinTwo(parts, '/');
      CountOfAppend(parts[0] + "/", parts[1], '/');
      CountOfAppend(parts[0], "/", '/');
      CountOfAbsent(parts[0], '/');
      CountOfAbsent(parts[1], '/');
      assert name[0] == mod[0];
    } else {
      CountOfAbsent(name, '/');
      if mod != "" {
        assert mod[0] != '/';
        assert IndexOf(mod, '/') > 0;
      }
    }
  }

  /** The first two pieces of a split, rejoined, are a prefix of the text. */
  lemma SplitJoinTwo(parts: seq<string>, sep: char)
    requires |parts| >= 2
    ensures parts[0] + [sep] + parts[1] <= Join(parts, [sep])
  {
    if |parts| > 2 {
      assert Join(parts[1..], [sep]) == parts[1] + [sep] + Join(parts[2..], [sep]);
    }
  }

  // ---------------------------------------------------------------------------
  // walk
  // ---------------------------------------------------------------------------

  /** A directory entry, as `fs.statSync` classifies it. */
  datatype Node =
    | Directory(name: string, entries: seq<Node>)
    | File(name: string)
    | Other(name: string)

  /** A path, as the list of names joined by `path.join`. */
  type Path = seq<string>

  /** Directories `walk` does not descend into: `node_modules` and dot-prefixed ones. */
  predicate Skipped(name: string) {
    name == "node_modules" || StartsWith(name, ".")
  }

  /** Files `walk` keeps: names ending in .js, .jsx, .ts or .tsx. */
  predicate HasSourceExtension(name: string) {
    EndsWith(name, ".js") || EndsWith(name, ".jsx") || EndsWith(name, ".ts") || EndsWith(name, ".tsx")
  }

  /** The source files under the entries of the directory at `dir`, in the order `walk` visits them. */
  function SourceFiles(dir: Path, entries: seq<Node>): (files: seq<Path>)
    ensures forall k :: 0 <= k < |files| ==> |files[k]| > |dir| && HasSourceExtension(files[k][|files[k]| - 1])
    decreases entries
  {
    if entries == [] then []
    else EntrySourceFiles(dir, entries[0]) + SourceFiles(dir, entries[1..])
  }

  function EntrySourceFiles(dir: Path, entry: Node): (files: seq<Path>)
    ensures forall k :: 0 <= k < |files| ==> |files[k]| > |dir| && HasSourceExtension(files[k][|files[k]| - 1])
    decreases entry
  {
    match entry
    case Directory(name, entries) =>
      if Skipped(name) then []
      else
        SourceFiles(dir + [name], entries)
    case File(name) => if HasSourceExtension(name) then [dir + [name]] else []
    case Other(_) => []
  }

  lemma {:induction false} SourceFilesAppend(dir: Path, a: seq<Node>, b: seq<Node>)
    ensures SourceFiles(dir, a + b) == SourceFiles(dir, a) + SourceFiles(dir, b)
    decreases a
  {
    if a == [] {
      assert a + b == b;
    } else {
      assert (a + b)[1..] == a[1..] + b;
      SourceFilesAppend(dir, a[1..], b);
    }
  }

  /**
   * `walk(dir, filelist)`: appends to filelist the source files under the
   * entries of dir, visiting entries in order and descending into every
   * directory that is not skipped; it returns the extended list.
   */
  method Walk(dir: Path, entries: seq<Node>, filelist: seq<Path>) returns (result: seq<Path>)
    ensures result == filelist + SourceFiles(dir, entries)
    decreases entries
  {
    result := filelist;
    var i := 0;
    while i < |entries|
      invariant 0 <= i <= |entries|
      invariant result == filelist + SourceFiles(dir, entries[..i])
    {
      var entry := entries[i];
      ghost var before := result;
      match entry {
        case Directory(name, children) =>
          if !Skipped(name) {
            result := Walk(dir + [name], children, result);
          }
        case File(name) =>
          if HasSourceExtension(name) {
            result := result + [dir + [name]];
          }
        case Other(_) =>
      }
      assert result == before + EntrySourceFiles(dir, entry);
      WalkStep(dir, entries, i, filelist, before);
      i := i + 1;
    }
    assert entries[..i] == entries;
  }

  /** One more entry visited: its files follow those of the entries before it. */
  lemma WalkStep(dir: Path, entries: seq<Node>, i: nat, filelist: seq<Path>, before: seq<Path>)
    requires i < |entries|
    requires before == filelist + SourceFiles(dir, entries[..i])
    ensures before + EntrySourceFiles(dir, entries[i]) == filelist + SourceFiles(dir, entries[..i + 1])
  {
    var entry := entries[i];
    SourceFilesAppend(dir, entries[..i], [entry]);
    assert entries[..i + 1] == entries[..i] + [entry];
    assert [entry][1..] == [];
    assert filelist + SourceFiles(dir, entries[..i]) + EntrySourceFiles(dir, entry)
      == filelist + (SourceFiles(dir, entries[..i]) + EntrySourceFiles(dir, entry));
  }

  /**
   * The entries lead along rel to a file: rel names a file among the entries,
   * or a directory among them whose entries lead along the rest of rel.
   */
  ghost predicate Leads(entries: seq<Node>, rel: Path)
    decreases entries, |rel|
  {
    && |rel| >= 1
    && exists k :: 0 <= k < |entries| &&
         if |rel| == 1 then entries[k] == File(rel[0])
         else entries[k].Directory? && entries[k].name == rel[0] && Leads(entries[k].entries, rel[1..])
  }

  /** A path is one `walk` keeps: a source file reached through directories none of which is skipped. */
  ghost predicate Kept(entries: seq<Node>, rel: Path) {
    && Leads(entries, rel)
    && HasSourceExtension(rel[|rel| - 1])
    && forall j :: 0 <= j < |rel| - 1 ==> !Skipped(rel[j])
  }

  /**
   * `walk` lists exactly the kept files: every path it lists is dir followed
   * by a kept path, and every kept path is listed.
   */
  lemma {:induction false} SourceFilesExact(dir: Path, entries: seq<Node>, rel: Path)
    ensures dir + rel in SourceFiles(dir, entries) <==> Kept(entries, rel)
    decreases entries, |rel|
  {
    if entries == [] {
      return;
    }
    var head, tail := entries[0], entries[1..];
    assert entries == [head] + tail;
    SourceFilesExact(dir, tail, rel);
    KeptCons(head, tail, rel);
    EntrySourceFilesExact(dir, head, rel);
  }

  lemma {:induction false} EntrySourceFilesExact(dir: Path, entry: Node, rel: Path)
    ensures dir + rel in EntrySourceFiles(dir, entry) <==> Kept([entry], rel)
    decreases entry, |rel|
  {
    match entry
    case Directory(name, children) =>
      if |rel| >= 2 && rel[0] == name {
        assert dir + rel == (dir + [name]) + rel[1..];
        SourceFilesExact(dir + [name], children, rel[1..]);
        KeptDirectory(name, children, rel);
      } else {
        NotKeptElsewhere(entry, rel);
        SourceFilesUnder(dir + [name], children, dir + rel);
        if |rel| >= 1 {
          assert (dir + rel)[..|dir| + 1][|dir|] == rel[0];
        }
      }
    case File(name) =>
      if dir + rel in EntrySourceFiles(dir, entry) {
        assert dir + rel == dir + [name];
        assert rel == (dir + rel)[|dir|..] == (dir + [name])[|dir|..] == [name];
        assert [entry][0] == File(rel[0]);
      }
      if Kept([entry], rel) {
        assert |rel| == 1 && [entry][0] == File(rel[0]);
        assert rel == [name];
      }
    case Other(_) =>
  }

  /** Every listed path lies strictly under dir. */
  lemma {:induction false} SourceFilesUnder(dir: Path, entries: seq<Node>, p: Path)
    ensures p in SourceFiles(dir, entries) ==> |p| > |dir| && p[..|dir|] == dir
    decreases entries
  {
    if p in SourceFiles(dir, entries) {
      if p in EntrySourceFiles(dir, entries[0]) {
        match entries[0]
        case Directory(name, children) =>
          SourceFilesUnder(dir + [name], children, p);
        case File(name) =>
        case Other(_) =>
      } else {
        SourceFilesUnder(dir, entries[1..], p);
      }
    }
  }

  lemma KeptCons(head: Node, tail: seq<Node>, rel: Path)
    ensures Kept([head] + tail, rel) <==> Kept([head], rel) || Kept(tail, rel)
  {
    var entries := [head] + tail;
    if Leads(entries, rel) {
      var k :| 0 <= k < |entries| &&
        if |rel| == 1 then entries[k] == File(rel[0])
        else entries[k].Directory? && entries[k].name == rel[0] && Leads(entries[k].entries, rel[1..]);
      if k == 0 {
        assert [head][0] == head;
      } else {
        assert tail[k - 1] == entries[k];
      }
    }
    if Leads([head], rel) {
      assert entries[0] == [head][0];
    }
    if Leads(tail, rel) {
      var k :| 0 <= k < |tail| &&
        if |rel| == 1 then tail[k] == File(rel[0])
        else tail[k].Directory? && tail[k].name == rel[0] && Leads(tail[k].entries, rel[1..]);
      assert entries[k + 1] == tail[k];
    }
  }

  lemma KeptDirectory(name: string, children: seq<Node>, rel: Path)
    requires |rel| >= 2 && rel[0] == name
    ensures Kept([Directory(name, children)], rel) <==> !Skipped(name) && Kept(children, rel[1..])
  {
    var entries := [Directory(name, children)];
    assert Leads(entries, rel) <==> Leads(children, rel[1..]) by {
      if Leads(children, rel[1..]) {
        assert entries[0].Directory? && entries[0].name == rel[0];
      }
    }
    var tailRel := rel[1..];
    assert forall j :: 0 <= j < |tailRel| - 1 ==> tailRel[j] == rel[j + 1];
    assert HasSourceExtension(rel[|rel| - 1]) <==> HasSourceExtension(tailRel[|tailRel| - 1]);
    if !Skipped(name) && Kept(children, tailRel) {
      forall j | 0 <= j < |rel| - 1
        ensures !Skipped(rel[j])
      {
        if j > 0 {
          assert rel[j] == tailRel[j - 1];
        }
      }
    }
  }

  /** A directory entry keeps nothing along a path that does not go through it. */
  lemma NotKeptElsewhere(entry: Node, rel: Path)
    requires entry.Directory?
    requires !(|rel| >= 2 && rel[0] == entry.name)
    ensures !Kept([entry], rel)
  {
  }

  // ---------------------------------------------------------------------------
  // main
  // ---------------------------------------------------------------------------

  /** `if (name) pkgs.add(name)`: a Set keeps its first insertion, in order. */
  function AddName(pkgs: seq<string>, name: Option<string>): (added: seq<string>)
    ensures pkgs <= added && |added| <= |pkgs| + 1
  {
    if Truthy(name) && name.value !in pkgs then pkgs + [name.value] else pkgs
  }

  /** The package set after adding the names of a file's specifiers. */
  function AddFile(pkgs: seq<string>, mods: seq<string>, builtins: seq<string>): (added: seq<string>)
    ensures pkgs <= added && |added| <= |pkgs| + |mods|
    decreases |mods|
  {
    if mods == [] then pkgs
    else AddFile(AddName(pkgs, Normalize(mods[0], builtins)), mods[1..], builtins)
  }

  /** The package set after all files. */
  function Collect(pkgs: seq<string>, files: seq<seq<string>>, builtins: seq<string>): (collected: seq<string>)
    ensures pkgs <= collected
    decreases |files|
  {
    if files == [] then pkgs
    else Collect(AddFile(pkgs, files[0], builtins), files[1..], builtins)
  }

  predicate Distinct(names: seq<string>) {
    forall i, j :: 0 <= i < j < |names| ==> names[i] != names[j]
  }

  /** Some specifier among mods normalizes to name. */
  ghost predicate Names(mods: seq<string>, builtins: seq<string>, name: string) {
    exists m :: m in mods && Normalize(m, builtins) == Some(name)
  }

  /** Some specifier of some file normalizes to name. */
  ghost predicate NamedIn(files: seq<seq<string>>, builtins: seq<string>, name: string) {
    exists f :: f in files && Names(f, builtins, name)
  }

  lemma {:induction false} AddFileSpec(pkgs: seq<string>, mods: seq<string>, builtins: seq<string>)
    requires Distinct(pkgs)
    ensures var out := AddFile(pkgs, mods, builtins);
      && Distinct(out)
      && pkgs <= out
      && forall name :: name in out <==> name in pkgs || (name != "" && Names(mods, builtins, name))
    decreases |mods|
  {
    if mods != [] {
      var next := AddName(pkgs, Normalize(mods[0], builtins));
      AddFileSpec(next, mods[1..], builtins);
      var out := AddFile(pkgs, mods, builtins);
      forall name
        ensures name in out <==> name in pkgs || (name != "" && Names(mods, builtins, name))
      {
        if name != "" && Names(mods[1..], builtins, name) {
          var m :| m in mods[1..] && Normalize(m, builtins) == Some(name);
          assert m in mods;
        }
        if name != "" && Names(mods, builtins, name) && name !in next {
          var m :| m in mods && Normalize(m, builtins) == Some(name);
          if m != mods[0] {
            assert m in mods[1..];
          }
        }
      }
    }
  }

  /**
   * The packages `main` collects: each at most once, those already there
   * kept in front, and exactly the non-empty names some specifier of some
   * file normalizes to (null and "" are dropped).
   */
  lemma {:induction false} CollectSpec(pkgs: seq<string>, files: seq<seq<string>>, builtins: seq<string>)
    requires Distinct(pkgs)
    ensures var out := Collect(pkgs, files, builtins);
      && Distinct(out)
      && pkgs <= out
      && forall name :: name in out <==> name in pkgs || (name != "" && NamedIn(files, builtins, name))
    decreases |files|
  {
    if files != [] {
      var next := AddFile(pkgs, files[0], builtins);
      AddFileSpec(pkgs, files[0], builtins);
      CollectSpec(next, files[1..], builtins);
      var out := Collect(pkgs, files, builtins);
      forall name
        ensures name in out <==> name in pkgs || (name != "" && NamedIn(files, builtins, name))
      {
        if name != "" && NamedIn(files[1..], builtins, name) {
          var f :| f in files[1..] && Names(f, builtins, name);
          assert f in files;
        }
        if name != "" && NamedIn(files, builtins, name) && name !in next {
          var f :| f in files && Names(f, builtins, name);
          if f != files[0] {
            assert f in files[1..];
          }
        }
      }
    }
  }

  lemma {:induction false} CollectAppend(pkgs: seq<string>, files: seq<seq<string>>, mods: seq<string>, builtins: seq<string>)
    ensures Collect(pkgs, files + [mods], builtins) == AddFile(Collect(pkgs, files, builtins), mods, builtins)
    decreases |files|
  {
    if files == [] {
      assert files + [mods] == [mods];
    } else {
      assert (files + [mods])[1..] == files[1..] + [mods];
      CollectAppend(AddFile(pkgs, files[0], builtins), files[1..], mods, builtins);
    }
  }

  lemma {:induction false} AddFileAppend(pkgs: seq<string>, mods: seq<string>, m: string, builtins: seq<string>)
    ensures AddFile(pkgs, mods + [m], builtins) == AddName(AddFile(pkgs, mods, builtins), Normalize(m, builtins))
    decreases |mods|
  {
    if mods == [] {
      assert mods + [m] == [m];
    } else {
      assert (mods + [m])[1..] == mods[1..] + [m];
      AddFileAppend(AddName(pkgs, Normalize(mods[0], builtins)), mods[1..], m, builtins);
    }
  }

  /** One more specifier of a file added. */
  lemma AddFileStep(pkgs: seq<string>, mods: seq<string>, j: nat, builtins: seq<string>)
    requires j < |mods|
    ensures AddFile(pkgs, mods[..j + 1], builtins) == AddName(AddFile(pkgs, mods[..j], builtins), Normalize(mods[j], builtins))
  {
    AddFileAppend(pkgs, mods[..j], mods[j], builtins);
    assert mods[..j + 1] == mods[..j] + [mods[j]];
  }

  /** One more file added. */
  lemma CollectStep(files: seq<seq<string>>, i: nat, builtins: seq<string>)
    requires i < |files|
    ensures Collect([], files[..i + 1], builtins) == AddFile(Collect([], files[..i], builtins), files[i], builtins)
  {
    CollectAppend([], files[..i], files[i], builtins);
    assert files[..i + 1] == files[..i] + [files[i]];
  }

  /**
   * The loops of `main` over the files and their specifiers, adding every
   * truthy normalized name to the package set.
   */
  method CollectPackages(files: seq<seq<string>>, builtins: seq<string>) returns (pkgs: seq<string>)
    ensures pkgs == Collect([], files, builtins)
  {
    pkgs := [];
    var i := 0;
    while i < |files|
      invariant 0 <= i <= |files|
      invariant pkgs == Collect([], files[..i], builtins)
    {
      var mods := files[i];
      var before := pkgs;
      var j := 0;
      while j < |mods|
        invariant 0 <= j <= |mods|
        invariant pkgs == AddFile(before, mods[..j], builtins)
      {
        var name := Normalize(mods[j], builtins);
        AddFileStep(before, mods, j, builtins);
        if Truthy(name) && name.value !in pkgs {
          pkgs := pkgs + [name.value];
        }
        j := j + 1;
      }
      assert mods[..j] == mods;
      CollectStep(files, i, builtins);
      i := i + 1;
    }
    assert files[..i] == files;
  }

  /** How `main` ends. */
  datatype Outcome =
    | NothingToInstall
    | Installed(command: string)
    | InstallFailed(command: string, exitCode: int)

  const NpmInstall := "npm install "

  /** The shell command installing the packages, separated by spaces. */
  function InstallCommand(pkgs: seq<string>): string {
    NpmInstall + Join(pkgs, " ")
  }

  /**
   * The end of `main`: nothing to do for an empty set; otherwise one
   * `npm install` of all the packages, and exit code 1 when it fails.
   */
  function Finish(pkgs: seq<string>, npmSucceeds: bool): (outcome: Outcome)
    ensures outcome.NothingToInstall? <==> pkgs == []
    ensures !outcome.NothingToInstall? ==> outcome.command == InstallCommand(pkgs)
    ensures outcome.InstallFailed? <==> pkgs != [] && !npmSucceeds
    ensures outcome.InstallFailed? ==> outcome.exitCode == 1
  {
    if pkgs == [] then NothingToInstall
    else if npmSucceeds then Installed(InstallCommand(pkgs))
    else InstallFailed(InstallCommand(pkgs), 1)
  }

  /** The directory `main` scans: the first argument when it is non-empty, otherwise the working directory. */
  function TargetDir(argument: Option<string>, cwd: string): string {
    if Truthy(argument) then argument.value else cwd
  }

  /** The specifiers of each file, in the order of the files. */
  function Specifiers(files: seq<Path>, extract: Path -> seq<string>): seq<seq<string>> {
    seq(|files|, i requires 0 <= i < |files| => extract(files[i]))
  }

  /**
   * `main()` over the tree of entries of the target directory: walk it,
   * collect the packages of the specifiers `extract` reads from each file,
   * and install them.
   */
  method ScanAndInstall(argument: Option<string>, cwd: string, tree: seq<Node>, extract: Path -> seq<string>,
                       builtins: seq<string>, npmSucceeds: bool)
    returns (outcome: Outcome)
    ensures var files := SourceFiles([TargetDir(argument, cwd)], tree);
      var pkgs := Collect([], Specifiers(files, extract), builtins);
      outcome == Finish(pkgs, npmSucceeds)
  {
    var targetDir := TargetDir(argument, cwd);
    var files := Walk([targetDir], tree, []);
    assert files == SourceFiles([targetDir], tree);
    var pkgs := CollectPackages(Specifiers(files, extract), builtins);
    outcome := Finish(pkgs, npmSucceeds);
  }
}
