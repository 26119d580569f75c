/** path.join of Node's POSIX path module, for a directory and one file name. */
module NodePath {

  const Separator: char := '/'

  /**
   * Puts `name` under `dir`, adding a separator unless `dir` is empty or
   * already ends with one. The file name always ends the path.
   */
  function Join(dir: string, name: string): (p: string)
    ensures |name| <= |p| && p[|p| - |name|..] == name
  {
    if dir == [] then name
    else if dir[|dir| - 1] == Separator then dir + name
    else dir + [Separator] + name
  }

  /** Under one directory, distinct names give distinct paths. */
  lemma JoinInjective(dir: string, a: string, b: string)
    ensures Join(dir, a) == Join(dir, b) ==> a == b
  {
    var pa, pb := Join(dir, a), Join(dir, b);
    assert |pa| - |a| == |pb| - |b|;
  }
}
