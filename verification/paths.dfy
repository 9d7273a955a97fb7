/** POSIX path joining, as `os.path.join(directory, name)` (`posixpath.join`) does it for two
    components. */
module Paths {

  /** True when `p` starts at the file-system root. */
  predicate IsAbsolute(p: string) {
    0 < |p| && p[0] == '/'
  }

  /** An absolute `name` replaces `dir`; otherwise one `/` separates them,
      unless `dir` is empty or already ends with one. */
  function Join(dir: string, name: string): string {
    if IsAbsolute(name) then name
    else if dir == [] || dir[|dir| - 1] == '/' then dir + name
    else dir + "/" + name
  }

  /** A relative name is placed inside the directory: the result starts with
      the directory, ends with the name, and a separator sits between them. */
  lemma JoinPlacesInside(dir: string, name: string)
    requires dir != [] && !IsAbsolute(name)
    ensures var p := Join(dir, name);
      && |p| == |dir| + |name| + (if dir[|dir| - 1] == '/' then 0 else 1)
      && p[..|dir|] == dir
      && p[|p| - |name|..] == name
      && p[|p| - |name| - 1] == '/'
  {
  }

  /** Two relative names joined to the same directory give the same path only
      if they are the same name. */
  lemma JoinInjective(dir: string, a: string, b: string)
    requires !IsAbsolute(a) && !IsAbsolute(b)
    requires Join(dir, a) == Join(dir, b)
    ensures a == b
  {
    var sep := if dir == [] || dir[|dir| - 1] == '/' then dir else dir + "/";
    assert Join(dir, a) == sep + a;
    assert Join(dir, b) == sep + b;
    assert a == (sep + a)[|sep|..];
    assert b == (sep + b)[|sep|..];
  }
}
