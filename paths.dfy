/**
 * The path expressions of app.py: `os.path.join(directory_path, f)` used to
 * list the files (app.py:65) and the destination
 * `os.path.join(target_directory, os.path.basename(file_path))` of `move_file`
 * (app.py:129), with POSIX path semantics.
 */
module Paths {

  /** `os.path.join(dir, name)` for two components. */
  function PathJoin(dir: string, name: string): string
  {
    if name != "" && name[0] == '/' then name
    else if dir == "" || dir[|dir| - 1] == '/' then dir + name
    else dir + "/" + name
  }

  /** `os.path.basename(path)`: what follows the last '/'. */
  function Basename(path: string): (base: string)
    ensures '/' !in base
    ensures |base| <= |path| && path[|path| - |base|..] == base
    decreases |path|
  {
    if path == "" || path[|path| - 1] == '/' then ""
    else Basename(path[..|path| - 1]) + [path[|path| - 1]]
  }

  /** Where `move_file(path, targetDirectory)` puts the file (app.py:129). */
  function Destination(path: string, targetDirectory: string): string
  {
    PathJoin(targetDirectory, Basename(path))
  }

  /** `join(dir, name)` ends with `name`; unless `name` is absolute it starts with `dir`. */
  lemma PathJoinAffixes(dir: string, name: string)
    ensures var joined := PathJoin(dir, name);
      |name| <= |joined| && joined[|joined| - |name|..] == name &&
      (name == "" || name[0] != '/' ==> |dir| <= |joined| && joined[..|dir|] == dir)
  {
  }

  /** The file lands inside the target directory under its own base name. */
  lemma DestinationAffixes(path: string, targetDirectory: string)
    ensures var dst, base := Destination(path, targetDirectory), Basename(path);
      |targetDirectory| <= |dst| && dst[..|targetDirectory|] == targetDirectory &&
      |base| <= |dst| && dst[|dst| - |base|..] == base
  {
    var base := Basename(path);
    assert base == "" || base[0] != '/' by {
      if base != "" {
        assert base[0] in base;
      }
    }
    PathJoinAffixes(targetDirectory, base);
  }

  lemma {:induction false} BasenameAfterSeparator(prefix: string, name: string)
    requires prefix == "" || prefix[|prefix| - 1] == '/'
    requires '/' !in name
    ensures Basename(prefix + name) == name
    decreases |name|
  {
    if name == [] {
      assert prefix + name == prefix;
    } else {
      var init, last := name[..|name| - 1], name[|name| - 1];
      var s := prefix + name;
      assert last in name;
      assert s[|s| - 1] == last != '/';
      assert s[..|s| - 1] == prefix + init;
      BasenameAfterSeparator(prefix, init);
      assert Basename(s) == Basename(prefix + init) + [last];
      assert name == init + [last];
    }
  }

  /** The base name of a path joined from a directory and a plain file name is that name. */
  lemma BasenameOfJoin(dir: string, name: string)
    requires '/' !in name
    ensures Basename(PathJoin(dir, name)) == name
  {
    if dir == "" || dir[|dir| - 1] == '/' {
      BasenameAfterSeparator(dir, name);
    } else {
      BasenameAfterSeparator(dir + "/", name);
      assert dir + "/" + name == (dir + "/") + name;
    }
  }

  /** A listed file `join(dir, name)` is moved to `join(target, name)`: it keeps its name. */
  lemma DestinationKeepsName(dir: string, name: string, targetDirectory: string)
    requires '/' !in name
    ensures Destination(PathJoin(dir, name), targetDirectory) == PathJoin(targetDirectory, name)
  {
    BasenameOfJoin(dir, name);
  }
}
