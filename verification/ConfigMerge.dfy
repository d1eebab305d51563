/**
 The recursive merge of src/config_loader.py: a configuration file laid over the defaults.

 A value that is not a dict, lists and null included, is a leaf.
 */
module ConfigMerge {
  import opened Containers

  datatype Key = Key(name: string)

  datatype Tree = Leaf(value: string) | Node(kids: map<Key, Tree>)

  /** Two dicts are merged key by key; otherwise the overlay replaces the base. */
  function Merge(base: Tree, overlay: Tree): Tree
    decreases overlay
  {
    if base.Leaf? || overlay.Leaf? then overlay
    else Node(map k | k in base.kids.Keys + overlay.kids.Keys ::
                if k !in overlay.kids then base.kids[k]
                else if k !in base.kids then overlay.kids[k]
                else Merge(base.kids[k], overlay.kids[k]))
  }

  type Path = seq<Key>

  function At(t: Tree, p: Path): Option<Tree>
    decreases |p|
  {
    if p == [] then Some(t)
    else if t.Leaf? || p[0] !in t.kids then None
    else At(t.kids[p[0]], p[1..])
  }

  /** A leaf on the way to `p`, above it. */
  predicate LeafAbove(t: Tree, p: Path)
    decreases |p|
  {
    p != [] && (t.Leaf? || (p[0] in t.kids && LeafAbove(t.kids[p[0]], p[1..])))
  }

  lemma {:induction false} NothingBelowLeaf(t: Tree, p: Path)
    ensures LeafAbove(t, p) ==> At(t, p).None?
    decreases |p|
  {
    if p != [] && t.Node? && p[0] in t.kids {
      NothingBelowLeaf(t.kids[p[0]], p[1..]);
    }
  }

  function Over(base: Option<Tree>, overlay: Option<Tree>): Option<Tree> {
    if overlay.None? then base
    else if base.None? then overlay
    else Some(Merge(base.value, overlay.value))
  }

  /** At every path the merge has what the two have there, merged; below a leaf of the overlay it
      has nothing. */
  lemma {:induction false} MergeAt(base: Tree, overlay: Tree, p: Path)
    ensures At(Merge(base, overlay), p) == if LeafAbove(overlay, p) then None else Over(At(base, p), At(overlay, p))
    decreases |p|
  {
    NothingBelowLeaf(overlay, p);
    if p != [] && base.Node? && overlay.Node? && p[0] in base.kids && p[0] in overlay.kids {
      MergeAt(base.kids[p[0]], overlay.kids[p[0]], p[1..]);
    }
  }

  lemma {:induction false} LeafAboveIff(t: Tree, p: Path)
    ensures LeafAbove(t, p) <==> exists i :: 0 <= i < |p| && At(t, p[..i]).Some? && At(t, p[..i]).value.Leaf?
    decreases |p|
  {
    if p == [] {
    } else if t.Leaf? {
      assert At(t, p[..0]) == Some(t);
    } else {
      assert p[..0] == [];
      if p[0] in t.kids {
        var kid := t.kids[p[0]];
        LeafAboveIff(kid, p[1..]);
        forall i | 0 <= i < |p[1..]| ensures At(t, p[..i + 1]) == At(kid, p[1..][..i]) {
          assert p[..i + 1][1..] == p[1..][..i];
        }
        if LeafAbove(kid, p[1..]) {
          var i :| 0 <= i < |p[1..]| && At(kid, p[1..][..i]).Some? && At(kid, p[1..][..i]).value.Leaf?;
          assert At(t, p[..i + 1]).value.Leaf?;
        }
        forall i | 0 <= i < |p| && At(t, p[..i]).Some? && At(t, p[..i]).value.Leaf? ensures LeafAbove(kid, p[1..]) {
          assert p[..i] != [] && p[..i] == p[..(i - 1) + 1];
          assert At(kid, p[1..][..i - 1]) == At(t, p[..i]);
        }
      }
    }
  }

  /** A value set in the defaults is in effect exactly when the file has nothing at its path and no
      leaf above it, or sets the same; a value set in the file is always in effect. */
  lemma LeafIff(base: Tree, overlay: Tree, p: Path, v: string)
    ensures At(Merge(base, overlay), p) == Some(Leaf(v)) <==>
              || At(overlay, p) == Some(Leaf(v))
              || (At(base, p) == Some(Leaf(v)) && At(overlay, p).None? &&
                  forall i | 0 <= i < |p| :: !(At(overlay, p[..i]).Some? && At(overlay, p[..i]).value.Leaf?))
  {
    MergeAt(base, overlay, p);
    LeafAboveIff(overlay, p);
    NothingBelowLeaf(overlay, p);
  }

  lemma {:induction false} MergeIdempotent(t: Tree)
    ensures Merge(t, t) == t
    decreases t
  {
    if t.Node? {
      forall k | k in t.kids ensures Merge(t.kids[k], t.kids[k]) == t.kids[k] {
        MergeIdempotent(t.kids[k]);
      }
    }
  }

  /** Loading the same file over its own result changes nothing. */
  lemma {:induction false} MergeAbsorbs(base: Tree, overlay: Tree)
    ensures Merge(Merge(base, overlay), overlay) == Merge(base, overlay)
    decreases overlay
  {
    if overlay.Node? {
      if base.Leaf? {
        MergeIdempotent(overlay);
      } else {
        var m := Merge(base, overlay);
        forall k | k in overlay.kids ensures Merge(m.kids[k], overlay.kids[k]) == m.kids[k] {
          if k in base.kids {
            MergeAbsorbs(base.kids[k], overlay.kids[k]);
          } else {
            MergeIdempotent(overlay.kids[k]);
          }
        }
      }
    }
  }

  // ---------------------------------------------------------------- three layers

  /** `z` has every key of `x`, and so on below where both are dicts. */
  predicate Covers(z: Tree, x: Tree)
    decreases x
  {
    x.Leaf? || z.Leaf? || forall k <- x.kids :: k in z.kids && Covers(z.kids[k], x.kids[k])
  }

  /** Nothing of the base shows through exactly when the overlay has all its keys. */
  lemma {:induction false} CoversIff(x: Tree, z: Tree)
    ensures Merge(x, z) == z <==> Covers(z, x)
    decreases x
  {
    if x.Node? && z.Node? {
      var m := Merge(x, z);
      forall k | k in x.kids && k in z.kids ensures m.kids[k] == z.kids[k] <==> Covers(z.kids[k], x.kids[k]) {
        CoversIff(x.kids[k], z.kids[k]);
      }
      if Covers(z, x) {
        assert m.kids == z.kids;
      } else {
        var k :| k in x.kids && !(k in z.kids && Covers(z.kids[k], x.kids[k]));
        assert k in m.kids;
      }
    }
  }

  /** A leaf of `b` lies between a dict of `a` and a dict of `c`, and `c` lacks a key that `a` has
      there or below. */
  ghost predicate Between(a: Tree, b: Tree, c: Tree, p: Path) {
    var x, y, z := At(a, p), At(b, p), At(c, p);
    x.Some? && y.Some? && z.Some? && x.value.Node? && y.value.Leaf? && z.value.Node?
    && !Covers(z.value, x.value)
  }

  /** Merging three layers in either order gives the same exactly when that happens nowhere. */
  lemma {:induction false} AssociativeIff(a: Tree, b: Tree, c: Tree)
    ensures Merge(Merge(a, b), c) == Merge(a, Merge(b, c)) <==> forall p :: !Between(a, b, c, p)
    decreases c
  {
    if a.Leaf? || c.Leaf? || b.Leaf? {
      forall p | p != [] ensures !Between(a, b, c, p) {
      }
      assert Between(a, b, c, []) <==> a.Node? && b.Leaf? && c.Node? && !Covers(c, a);
      CoversIff(a, c);
    } else {
      var l, r := Merge(Merge(a, b), c), Merge(a, Merge(b, c));
      forall k | k in a.kids && k in b.kids && k in c.kids
        ensures l.kids[k] == r.kids[k] <==> forall p :: !Between(a.kids[k], b.kids[k], c.kids[k], p)
      {
        AssociativeIff(a.kids[k], b.kids[k], c.kids[k]);
      }
      KidsAgreeIff(a, b, c);
    }
  }

  lemma KidsAgreeIff(a: Tree, b: Tree, c: Tree)
    requires a.Node? && b.Node? && c.Node?
    ensures (forall p :: !Between(a, b, c, p)) <==>
            forall k | k in a.kids && k in b.kids && k in c.kids ::
              forall p :: !Between(a.kids[k], b.kids[k], c.kids[k], p)
  {
    forall k, p | k in a.kids && k in b.kids && k in c.kids
      ensures Between(a.kids[k], b.kids[k], c.kids[k], p) <==> Between(a, b, c, [k] + p)
    {
      assert ([k] + p)[1..] == p;
    }
    forall p | Between(a, b, c, p)
      ensures p != [] && p[0] in a.kids && p[0] in b.kids && p[0] in c.kids
           && Between(a.kids[p[0]], b.kids[p[0]], c.kids[p[0]], p[1..])
    {
      assert p == [] ==> At(a, p) == Some(a) && At(b, p) == Some(b);
    }
  }

  const X := Key("x")

  const Y := Key("y")

  const DICT := Node(map[Y := Leaf("1")])

  const EMPTY := Node(map[])

  /** So the order matters: a leaf in the middle layer hides the dict below it for one order only. */
  lemma MergeIsNotAssociative()
    ensures var a, b, c := Node(map[X := DICT]), Node(map[X := Leaf("2")]), Node(map[X := EMPTY]);
            && Merge(Merge(a, b), c) == Node(map[X := EMPTY])
            && Merge(a, Merge(b, c)) == Node(map[X := DICT])
  {
    MergeOne(DICT, Leaf("2"));
    MergeOne(Leaf("2"), EMPTY);
    MergeOne(DICT, EMPTY);
    assert Merge(DICT, EMPTY).kids == DICT.kids;
  }

  lemma MergeOne(x: Tree, y: Tree)
    ensures Merge(Node(map[X := x]), Node(map[X := y])) == Node(map[X := Merge(x, y)])
  {
    assert Merge(Node(map[X := x]), Node(map[X := y])).kids == map[X := Merge(x, y)];
  }

  // ---------------------------------------------------------------- the code

  /** One key while the overlay's keys in `left` are still to come. */
  ghost predicate MergedAt(base: map<Key, Tree>, overlay: map<Key, Tree>, left: set<Key>, out: map<Key, Tree>, k: Key) {
    if k in overlay && k !in left
    then k in out && out[k] == if k in base then Merge(base[k], overlay[k]) else overlay[k]
    else (k in out <==> k in base) && (k in base ==> out[k] == base[k])
  }

  /** `_deep_merge`. The items of the overlay may come in any order. */
  method DeepMerge(base: map<Key, Tree>, overlay: map<Key, Tree>) returns (out: map<Key, Tree>)
    ensures Node(out) == Merge(Node(base), Node(overlay))
    decreases Node(overlay)
  {
    out := base;
    var left := overlay.Keys;
    while left != {}
      invariant left <= overlay.Keys
      invariant forall k :: MergedAt(base, overlay, left, out, k)
      decreases left
    {
      ghost var was, todo := out, left;
      var k :| k in left;
      var v := overlay[k];
      if v.Node? && k in out && out[k].Node? {
        var merged := DeepMerge(out[k].kids, v.kids);
        out := out[k := Node(merged)];
      } else {
        out := out[k := v];
      }
      left := left - {k};
      forall j ensures MergedAt(base, overlay, left, out, j) {
        assert MergedAt(base, overlay, todo, was, j) && MergedAt(base, overlay, todo, was, k);
      }
    }
    assert Merge(Node(base), Node(overlay)).kids == out by {
      forall k ensures k in Merge(Node(base), Node(overlay)).kids <==> k in out {
        assert MergedAt(base, overlay, {}, out, k);
      }
      forall k | k in out ensures Merge(Node(base), Node(overlay)).kids[k] == out[k] {
        assert MergedAt(base, overlay, {}, out, k);
      }
    }
  }
}
