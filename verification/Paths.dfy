/** Absolute paths as lists of names, and the text that names them. */
module Paths {

  type Path = seq<string>

  /** `path.parts` after the root: empty names and single dots are dropped, double dots are kept. */
  function Split(text: string): (parts: seq<string>) {
    SplitFrom(text, "")
  }

  /** `name` is the part of the current name that was already read. */
  function SplitFrom(text: string, name: string): seq<string> {
    if text == "" then NameOnly(name)
    else if text[0] == '/' then NameOnly(name) + SplitFrom(text[1..], "")
    else SplitFrom(text[1..], name + [text[0]])
  }

  function NameOnly(name: string): seq<string> {
    if name == "" || name == "." then [] else [name]
  }

  /** `str(path)` */
  function Join(path: Path): string {
    if path == [] then "/" else JoinNames(path)
  }

  function JoinNames(path: Path): string {
    if path == [] then "" else "/" + path[0] + JoinNames(path[1..])
  }

  predicate Absolute(text: string) {
    text != "" && text[0] == '/'
  }

  predicate CleanName(name: string) {
    name != "" && name != "." && name != ".." && '/' !in name
  }

  ghost predicate Clean(path: Path) {
    forall i :: 0 <= i < |path| ==> CleanName(path[i])
  }

  /** What `resolve` makes of the parts when no prefix is a symbolic link. */
  function Normalize(parts: seq<string>): Path {
    if parts == [] then []
    else
      var before, last := Normalize(parts[..|parts| - 1]), parts[|parts| - 1];
      if last != ".." then before + [last]
      else if before == [] then [] else before[..|before| - 1]
  }

  // ---------- text and path ----------

  lemma {:induction false} SplitName(name: string, rest: string, read: string)
    requires '/' !in name && (rest == "" || rest[0] == '/')
    ensures SplitFrom(name + rest, read)
            == NameOnly(read + name) + (if rest == "" then [] else SplitFrom(rest[1..], ""))
    decreases |name|
  {
    if name == "" {
      assert name + rest == rest && read + name == read;
    } else {
      assert (name + rest)[1..] == name[1..] + rest;
      SplitName(name[1..], rest, read + [name[0]]);
      assert read + [name[0]] + name[1..] == read + name;
    }
  }

  lemma {:induction false} SplitJoined(path: Path)
    requires Clean(path)
    ensures Split(JoinNames(path)) == path
  {
    if path != [] {
      var tail := path[1..];
      assert Clean(tail);
      SplitJoined(tail);
      var rest := JoinNames(tail);
      assert JoinNames(path) == ("/" + path[0]) + rest;
      assert JoinNames(path)[1..] == path[0] + rest;
      SplitName(path[0], rest, "");
      assert "" + path[0] == path[0];
      if tail != [] {
        assert rest == "/" + tail[0] + JoinNames(tail[1..]);
        assert Split(rest) == SplitFrom(rest[1..], "");
      }
      assert path == [path[0]] + tail;
    }
  }

  /** A resolved path is read back from its text. */
  lemma {:induction false} SplitJoin(path: Path)
    requires Clean(path)
    ensures Absolute(Join(path)) && Split(Join(path)) == path
  {
    if path == [] {
      assert Split("/") == [] by {
        assert "/"[1..] == "";
      }
    } else {
      SplitJoined(path);
    }
  }

  // ---------- resolving ----------

  ghost predicate CleanPart(name: string) {
    CleanName(name) || name == ".."
  }

  lemma {:induction false} SplitFromClean(text: string, name: string)
    requires '/' !in name
    ensures forall i :: 0 <= i < |SplitFrom(text, name)| ==> CleanPart(SplitFrom(text, name)[i])
  {
    if text != "" {
      if text[0] == '/' {
        SplitFromClean(text[1..], "");
      } else {
        SplitFromClean(text[1..], name + [text[0]]);
      }
    }
  }

  lemma {:induction false} NormalizeClean(parts: seq<string>)
    requires forall i :: 0 <= i < |parts| ==> CleanPart(parts[i])
    ensures Clean(Normalize(parts)) && |Normalize(parts)| <= |parts|
  {
    if parts != [] {
      NormalizeClean(parts[..|parts| - 1]);
    }
  }

  lemma {:induction false} NormalizeIdle(path: Path)
    requires Clean(path)
    ensures Normalize(path) == path
  {
    if path != [] {
      NormalizeIdle(path[..|path| - 1]);
    }
  }

  /** Every ancestor of the resolved path was passed on the way there. */
  lemma {:induction false} AncestorPassed(parts: seq<string>, k: nat) returns (n: nat)
    requires k <= |Normalize(parts)|
    ensures n <= |parts| && Normalize(parts[..n]) == Normalize(parts)[..k]
    ensures k > 0 ==> n > 0
  {
    if k == |Normalize(parts)| {
      n := |parts|;
      assert parts[..n] == parts;
    } else {
      var init := parts[..|parts| - 1];
      n := AncestorPassed(init, k);
      assert init[..n] == parts[..n];
    }
  }

  // ---------- what does not matter in a path ----------

  lemma {:induction false} NormalizeJoins(a: seq<string>, b: seq<string>)
    ensures Normalize(a + b) == Normalize(Normalize(a) + b)
    decreases |b|
  {
    if b == [] {
      assert a + b == a && Normalize(a) + b == Normalize(a);
      NoDoubleDots(a);
      NormalizeOnce(Normalize(a));
    } else {
      var init := b[..|b| - 1];
      NormalizeJoins(a, init);
      assert (a + b)[..|a + b| - 1] == a + init;
      assert (Normalize(a) + b)[..|Normalize(a) + b| - 1] == Normalize(a) + init;
    }
  }

  lemma {:induction false} NormalizeOnce(path: Path)
    requires ".." !in path
    ensures Normalize(path) == path
  {
    if path != [] {
      var init := path[..|path| - 1];
      assert path == init + [path[|path| - 1]];
      NormalizeOnce(init);
    }
  }

  lemma {:induction false} NoDoubleDots(parts: seq<string>)
    ensures ".." !in Normalize(parts)
  {
    if parts != [] {
      NoDoubleDots(parts[..|parts| - 1]);
    }
  }

  /** Going into a directory and out of it again leads nowhere else. */
  lemma {:induction false} DetourIsIdle(a: seq<string>, name: string, b: seq<string>)
    requires name != ".."
    ensures Normalize(a + ([name, ".."] + b)) == Normalize(a + b)
  {
    var detour := a + [name, ".."];
    assert detour[..|detour| - 1] == a + [name] && (a + [name])[..|a|] == a;
    assert Normalize(detour) == Normalize(a);
    assert a + ([name, ".."] + b) == detour + b;
    NormalizeJoins(detour, b);
    NormalizeJoins(a, b);
  }

  /** The root is its own parent. */
  lemma {:induction false} RootIsTop(b: seq<string>)
    ensures Normalize([".."] + b) == Normalize(b)
  {
    assert [".."][..0] == [];
    assert Normalize([".."]) == [] && [] + b == b;
    NormalizeJoins([".."], b);
  }

  lemma {:induction false} SplitJoins(a: string, rest: string, read: string)
    requires rest == "" || rest[0] == '/'
    ensures SplitFrom(a + rest, read) == SplitFrom(a, read) + Split(rest)
    decreases |a|
  {
    if a == "" {
      assert a + rest == rest;
      if rest != "" {
        assert SplitFrom(rest, read) == NameOnly(read) + SplitFrom(rest[1..], "");
      }
    } else {
      assert (a + rest)[1..] == a[1..] + rest;
      SplitJoins(a[1..], rest, if a[0] == '/' then "" else read + [a[0]]);
    }
  }

  /** A single dot and a second slash name the directory itself. */
  lemma {:induction false} DotIsIdle(a: string, b: string)
    ensures Split(a + ("/./" + b)) == Split(a + ("/" + b)) == Split(a + ("//" + b))
  {
    SplitJoins(a, "/./" + b, "");
    SplitJoins(a, "/" + b, "");
    SplitJoins(a, "//" + b, "");
    assert ("/" + b)[1..] == b && ("/./" + b)[1..] == "./" + b && ("//" + b)[1..] == "/" + b;
    assert ("./" + b)[1..] == "/" + b;
    assert SplitFrom("./" + b, "") == SplitFrom("/" + b, ".");
  }
}
