/** Looking up the entries of a dict by key. */
module JsonDicts {
  import opened Wrappers
  import opened Json
  import opened JsonProofs

  function KeySet(fs: seq<Field>): set<string> {
    set f | f in fs :: f.key
  }

  function Get(fs: seq<Field>, key: string): Option<Value> {
    if fs == [] then None else if fs[0].key == key then Some(fs[0].value) else Get(fs[1..], key)
  }

  lemma {:induction false} GetFinds(fs: seq<Field>, key: string)
    ensures Get(fs, key).Some? <==> key in KeySet(fs)
  {
    if fs != [] {
      GetFinds(fs[1..], key);
      assert fs == [fs[0]] + fs[1..];
    }
  }

  lemma {:induction false} GetAt(fs: seq<Field>, i: nat)
    requires DistinctKeys(fs) && i < |fs|
    ensures Get(fs, fs[i].key) == Some(fs[i].value)
  {
    if i > 0 {
      GetAt(fs[1..], i - 1);
    }
  }

  lemma {:induction false} GetSame(f: seq<Field>, g: seq<Field>, key: string)
    requires DistinctKeys(f) && DistinctKeys(g) && SameElements(f, g)
    ensures Get(f, key) == Get(g, key)
  {
    GetFinds(f, key);
    GetFinds(g, key);
    if key in KeySet(f) {
      var x :| x in f && x.key == key;
      var i :| 0 <= i < |f| && f[i] == x;
      var j :| 0 <= j < |g| && g[j] == x;
      GetAt(f, i);
      GetAt(g, j);
    }
  }

  lemma {:induction false} KeySetSame(f: seq<Field>, g: seq<Field>)
    requires SameElements(f, g)
    ensures KeySet(f) == KeySet(g)
  {
  }

  ghost predicate AllScalars(fs: seq<Field>) {
    forall i :: 0 <= i < |fs| ==> fs[i].value.Num? || fs[i].value.Str?
  }

  lemma {:induction false} Scalars(fs: seq<Field>)
    requires DistinctKeys(fs) && AllScalars(fs)
    ensures Unique(Obj(fs)) && forall i :: 0 <= i < |fs| ==> SortKeys(fs[i].value) == fs[i].value
  {
  }
}
