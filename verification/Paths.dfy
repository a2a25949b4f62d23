/** What a step relation can reach in any number of steps. */
module Paths {
  ghost predicate IsPath<T(!new)>(step: (T, T) -> bool, path: seq<T>) {
    path != [] && forall i | 0 <= i < |path| - 1 :: step(path[i], path[i + 1])
  }

  ghost predicate Reaches<T(!new)>(step: (T, T) -> bool, x: T, y: T) {
    exists path :: IsPath(step, path) && path[0] == x && path[|path| - 1] == y
  }

  lemma Stay<T(!new)>(step: (T, T) -> bool, x: T)
    ensures Reaches(step, x, x)
  {
    assert IsPath(step, [x]) && [x][0] == x;
  }

  lemma One<T(!new)>(step: (T, T) -> bool, x: T, y: T)
    requires step(x, y)
    ensures Reaches(step, x, y)
  {
    var path := [x, y];
    assert IsPath(step, path) && path[0] == x && path[|path| - 1] == y;
  }

  lemma Through<T(!new)>(step: (T, T) -> bool, x: T, y: T, z: T)
    requires Reaches(step, x, y) && Reaches(step, y, z)
    ensures Reaches(step, x, z)
  {
    var p :| IsPath(step, p) && p[0] == x && p[|p| - 1] == y;
    var q :| IsPath(step, q) && q[0] == y && q[|q| - 1] == z;
    var path := p + q[1..];
    forall i | 0 <= i < |path| - 1 ensures step(path[i], path[i + 1]) {
      if i < |p| - 1 {
        assert path[i] == p[i] && path[i + 1] == p[i + 1];
      } else {
        var j := i - |p| + 1;
        assert path[i] == q[j] && path[i + 1] == q[j + 1];
      }
    }
    assert IsPath(step, path) && path[0] == x && path[|path| - 1] == z;
  }
}
