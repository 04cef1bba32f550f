/** Slash-separated paths, as filepath.Join and filepath.Dir build and split
    them on the platforms the controller runs on. Lexical cleaning ("." and
    ".." elements, doubled separators) is not modelled. */
module Paths {

  const Separator: char := '/'

  /** What Join puts in front of a non-empty element. */
  function Prefix(dir: string): string {
    if dir == "" then "" else dir + [Separator]
  }

  /** Joins two path elements; an empty element is dropped, as filepath.Join drops it. */
  function Join(dir: string, elem: string): (r: string)
    ensures elem != "" ==> r == Prefix(dir) + elem
    ensures elem == "" ==> r == dir
    ensures |r| >= |dir| && |r| >= |elem|
  {
    if dir == "" then elem
    else if elem == "" then dir
    else dir + [Separator] + elem
  }

  /** All but the last element of `p`: what precedes its last separator, "."
      when it has none and "/" when its only separator is the leading one. */
  function Dir(p: string): (r: string)
    ensures r != ""
    ensures r == "." || r <= p
    decreases |p|
  {
    if p == "" then "."
    else if p[|p| - 1] != Separator then Dir(p[..|p| - 1])
    else if |p| == 1 then [Separator]
    else p[..|p| - 1]
  }

  /** Characters after the last separator do not change the directory. */
  lemma {:induction false} DirSkipsName(q: string, e: string)
    requires Separator !in e
    ensures Dir(q + e) == Dir(q)
    decreases |e|
  {
    if e != "" {
      var n := |e| - 1;
      assert (q + e)[|q + e| - 1] == e[n];
      assert (q + e)[..|q + e| - 1] == q + e[..n];
      DirSkipsName(q, e[..n]);
    } else {
      assert q + e == q;
    }
  }

  /** Dir undoes Join: the directory of `dir/elem` is `dir`, for a single element. */
  lemma DirOfJoin(dir: string, elem: string)
    requires dir != "" && elem != "" && Separator !in elem
    ensures Dir(Join(dir, elem)) == dir
  {
    var q := dir + [Separator];
    assert Join(dir, elem) == q + elem;
    DirSkipsName(q, elem);
    assert q[..|q| - 1] == dir;
  }

  /** A path joined from an element without separators has "." as its directory. */
  lemma DirOfBareName(elem: string)
    requires Separator !in elem
    ensures Dir(Join("", elem)) == "."
  {
    DirSkipsName("", elem);
    assert "" + elem == elem;
  }

  /** Join is injective in its element, for a fixed directory. */
  lemma JoinInjective(dir: string, a: string, b: string)
    requires a != "" && b != ""
    ensures Join(dir, a) == Join(dir, b) ==> a == b
  {
    if Join(dir, a) == Join(dir, b) {
      var n := |Prefix(dir)|;
      assert a == Join(dir, a)[n..];
      assert b == Join(dir, b)[n..];
    }
  }

  /** Joining one directory with two elements that differ at some index `k` gives different paths. */
  lemma JoinDiffers(dir: string, a: string, b: string, k: nat)
    requires k < |a| && k < |b| && a[k] != b[k]
    ensures Join(dir, a) != Join(dir, b)
  {
    var n := |Prefix(dir)|;
    assert Join(dir, a)[n + k] == a[k];
    assert Join(dir, b)[n + k] == b[k];
  }
}
