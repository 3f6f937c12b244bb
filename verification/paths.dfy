/** The asserter's location path: a list of rendering tokens that starts with
    "$root" and grows by ".name" or "[index]", rendered by plain
    concatenation for failure messages. */
module Paths {

  /** The path tokens of one node, e.g. ["$root", ".project", "[0]"]. */
  type Path = seq<string>

  const RootToken: string := "$root"

  /** `implode('', $path)`: the tokens joined with no separator. The empty
      path renders as nothing and a one-token path as its token; how longer
      paths render is `RenderConcat`. */
  function Render(p: Path): (r: string)
    ensures |p| == 0 ==> r == ""
    ensures |p| == 1 ==> r == p[0]
  {
    if |p| == 0 then ""
    else
      assert |p| == 1 ==> p[..|p| - 1] == [];
      Render(p[..|p| - 1]) + p[|p| - 1]
  }

  /** `addPath`: a fresh path one token longer; the argument is not changed. */
  function AddPath(p: Path, token: string): (r: Path)
    ensures |r| == |p| + 1 && r[..|p|] == p && r[|p|] == token
    ensures Render(r) == Render(p) + token
  {
    var r := p + [token];
    assert r[..|p|] == p;
    r
  }

  /** A single token renders as itself. */
  lemma RenderSingle(t: string)
    ensures Render([t]) == t
  {
    assert [t][..0] == [];
  }

  /** Rendering is concatenation: it maps joining two paths to joining their
      texts. */
  lemma {:induction false} RenderConcat(a: Path, b: Path)
    ensures Render(a + b) == Render(a) + Render(b)
  {
    if |b| == 0 {
      assert a + b == a;
    } else {
      var b' := b[..|b| - 1];
      assert (a + b)[..|a + b| - 1] == a + b';
      RenderConcat(a, b');
    }
  }

  /** The rendered text of a path starts with the rendered text of each of
      its prefixes, so a child's location names its parent's. */
  lemma {:induction false} PrefixRendersAsPrefix(p: Path, k: nat)
    requires k <= |p|
    ensures Render(p[..k]) <= Render(p)
    decreases |p|
  {
    if k == |p| {
      assert p[..k] == p;
    } else {
      var q := p[..|p| - 1];
      PrefixRendersAsPrefix(q, k);
      assert q[..k] == p[..k];
      assert Render(p) == Render(q) + p[|p| - 1];
    }
  }

  /** Every token occurs in the rendering at the offset given by the tokens
      before it: nothing is inserted between tokens. */
  lemma TokenAtOffset(p: Path, k: nat)
    requires k < |p|
    ensures var off := |Render(p[..k])|;
            off + |p[k]| <= |Render(p)| && Render(p)[off..off + |p[k]|] == p[k]
  {
    RenderConcat(p[..k], p[k..]);
    assert p[..k] + p[k..] == p;
    RenderConcat([p[k]], p[k + 1..]);
    assert [p[k]] + p[k + 1..] == p[k..];
    assert Render([p[k]]) == Render([]) + p[k];
  }
}
