/** Channel names: dotted strings, the paths they stand for, and how a name is looked up. */
module ChannelNames {
  import opened ChannelJobs

  const ROOT: Path := ["root"]

  // ---------------------------------------------------------------- dotted names

  /** `s.split(".")` */
  function Split(s: string): (p: Path)
    ensures p != [] && forall i :: 0 <= i < |p| ==> '.' !in p[i]
  {
    if s == "" then [""]
    else
      var rest := Split(s[1..]);
      if s[0] == '.' then [""] + rest else [[s[0]] + rest[0]] + rest[1..]
  }

  /** `".".join(p)` */
  function Join(p: Path): string {
    if p == [] then "" else if |p| == 1 then p[0] else p[0] + "." + Join(p[1..])
  }

  predicate DotFree(p: Path) {
    p != [] && forall i :: 0 <= i < |p| ==> '.' !in p[i]
  }

  lemma {:induction false} JoinSplit(s: string)
    ensures Join(Split(s)) == s
  {
    if s == "" {
    } else {
      JoinSplit(s[1..]);
      var rest := Split(s[1..]);
      if s[0] == '.' {
        assert ([""] + rest)[1..] == rest;
      } else {
        var p := [[s[0]] + rest[0]] + rest[1..];
        assert p[1..] == rest[1..];
        assert Join(p) == [s[0]] + Join(rest);
      }
    }
  }

  lemma {:induction false} SplitJoin(p: Path)
    requires DotFree(p)
    ensures Split(Join(p)) == p
    decreases |p|, |p[0]|
  {
    var s := Join(p);
    if |p| == 1 && p[0] == "" {
    } else if p[0] == "" {
      assert s[1..] == Join(p[1..]);
      SplitJoin(p[1..]);
    } else {
      var q := [p[0][1..]] + p[1..];
      assert q[1..] == p[1..];
      assert s[1..] == Join(q);
      SplitJoin(q);
      assert s == [p[0][0]] + Join(q);
      assert s[1..] == Join(q);
      assert [p[0][0]] + q[0] == p[0];
      assert [[s[0]] + q[0]] + q[1..] == [p[0]] + p[1..] == p;
    }
  }

  /** The path a name stands for: an empty name is the root and the root may be left out. */
  function Normalise(name: string): (p: Path)
    ensures ROOT <= p && DotFree(p)
  {
    var p := Split(name);
    if name == "" then ROOT
    else if p == ROOT then ROOT
    else if p[0] == "root" then p
    else ROOT + p
  }

  lemma JoinMore(n: string, p: Path)
    requires p != []
    ensures Join([n] + p) == n + "." + Join(p)
  {
    assert ([n] + p)[1..] == p;
  }

  /** `startswith("root.")` on the name is `root` as first of several segments. */
  lemma StartsWithRoot(name: string)
    ensures "root." <= name <==> |Split(name)| > 1 && Split(name)[0] == "root"
  {
    hide Split, Join;
    JoinSplit(name);
    var p := Split(name);
    if |p| > 1 && p[0] == "root" {
      assert p == ["root"] + p[1..];
      JoinMore("root", p[1..]);
      assert name[..5] == "root.";
    }
    if "root." <= name {
      var rest := name[5..];
      JoinSplit(rest);
      JoinMore("root", Split(rest));
      assert name == "root" + "." + rest;
      SplitJoin(["root"] + Split(rest));
    }
  }

  // ---------------------------------------------------------------- lookup

  /** The closest known channel above `p`. */
  function LongestKnown(keys: set<Path>, p: Path): (q: Path)
    requires |p| > 1 && ROOT <= p
    ensures ROOT <= q <= p && |q| < |p| && (q in keys || q == ROOT)
    ensures forall o :: o in keys && ROOT <= o <= p && |o| < |p| ==> |o| <= |q|
  {
    var up := p[..|p| - 1];
    assert forall o :: ROOT <= o <= p && |o| < |p| ==> o <= up && (|o| == |up| ==> o == up);
    if up == ROOT || up in keys then up else LongestKnown(keys, up)
  }

  /** The channel that a lookup gives, if any; it is created when it is not there. */
  function Resolve(keys: set<Path>, name: string, autocreate: bool, fallback: bool): (r: Option<Path>)
    requires ROOT in keys
    ensures r.Some? ==> ROOT <= r.value
  {
    var p := Normalise(name);
    if p in keys then Some(p)
    else if !autocreate && !fallback then None
    else
      var base := if fallback then LongestKnown(keys, p) else ROOT;
      Some(base + p[1..])
  }

  function Prefixes(p: Path): set<Path> {
    set i | 1 <= i <= |p| :: p[..i]
  }

  function KeysAfter(keys: set<Path>, r: Option<Path>): set<Path> {
    match r
    case None => keys
    case Some(p) => keys + Prefixes(p)
  }

  function Parent(p: Path): Path {
    if p == [] then [] else p[..|p| - 1]
  }

  /** Every key is a path from the root whose parents are keys too. */
  ghost predicate Rooted(keys: set<Path>) {
    && ROOT in keys
    && (forall p :: p in keys ==> ROOT <= p)
    && (forall p {:trigger Parent(p)} :: p in keys && p != ROOT ==> Parent(p) in keys)
  }

  lemma LookupKeepsRooted(keys: set<Path>, p: Path)
    requires Rooted(keys) && ROOT <= p
    ensures Rooted(keys + Prefixes(p)) && p in keys + Prefixes(p)
  {
    var all := keys + Prefixes(p);
    assert p == p[..|p|];
    forall q | q in all ensures ROOT <= q && (q != ROOT ==> Parent(q) in all) {
      if q !in keys {
        var i :| 1 <= i <= |p| && q == p[..i];
        if q != ROOT {
          assert Parent(q) == p[..i - 1];
        }
      }
    }
  }

  /** An empty name is the root, and the root is put in front where it is missing. */
  lemma NormaliseIsFullName(name: string)
    ensures Join(Normalise(name)) ==
            if name == "" || name == "root" then "root" else if "root." <= name then name else "root." + name
  {
    hide Split, Join;
    var p := Split(name);
    JoinSplit(name);
    StartsWithRoot(name);
    JoinRoot();
    if name == "root" {
      SplitJoin(ROOT);
    } else if name != "" && !("root." <= name) {
      assert p[0] == "root" ==> |p| == 1 && p == ROOT;
      JoinMore("root", p);
    }
  }

  lemma JoinRoot()
    ensures Join(ROOT) == "root"
  {
  }

  /** Without fallback, creating what is missing, a lookup gives the channel of that full name. */
  lemma AutocreateFindsTheName(keys: set<Path>, name: string)
    requires Rooted(keys)
    ensures Resolve(keys, name, true, false).Some?
    ensures Join(Resolve(keys, name, true, false).value) ==
            if name == "" || name == "root" then "root" else if "root." <= name then name else "root." + name
  {
    var p := Normalise(name);
    assert ROOT + p[1..] == p;
    NormaliseIsFullName(name);
  }

  /** A known name gives the channel of that full name, however it is looked up, and creates nothing. */
  lemma KnownNameIsFound(keys: set<Path>, p: Path, name: string, autocreate: bool, fallback: bool)
    requires Rooted(keys) && p in keys && DotFree(p)
    requires Join(p) ==
             if name == "" || name == "root" then "root" else if "root." <= name then name else "root." + name
    ensures Resolve(keys, name, autocreate, fallback) == Some(p)
    ensures KeysAfter(keys, Resolve(keys, name, autocreate, fallback)) == keys
  {
    hide Normalise, Rooted;
    NormaliseIsFullName(name);
    SplitJoin(p);
    SplitJoin(Normalise(name));
    PrefixesAreKnown(keys, p);
  }

  lemma {:induction false} PrefixesAreKnown(keys: set<Path>, p: Path)
    requires Rooted(keys) && p in keys
    ensures Prefixes(p) <= keys
    decreases |p|
  {
    if p == ROOT {
      assert forall i :: 1 <= i <= |p| ==> p[..i] == p;
    } else {
      PrefixesAreKnown(keys, Parent(p));
      forall i | 1 <= i <= |p| ensures p[..i] in keys {
        if i == |p| {
          assert p[..i] == p;
        } else {
          assert p[..i] == Parent(p)[..i];
          assert Parent(p)[..i] in Prefixes(Parent(p));
        }
      }
    }
  }

  /** An unknown name gives none when neither creating nor falling back is asked for. */
  lemma UnknownNameIsNotFound(keys: set<Path>, name: string)
    requires Rooted(keys)
    requires forall p :: p in keys && DotFree(p) ==>
        Join(p) != (if name == "" || name == "root" then "root" else if "root." <= name then name else "root." + name)
    ensures Resolve(keys, name, false, false) == None
  {
    NormaliseIsFullName(name);
  }

  /** With fallback, a name that is not known gives a channel below its longest known prefix. */
  lemma FallbackStaysBelowLongestPrefix(keys: set<Path>, name: string)
    requires Rooted(keys) && Normalise(name) !in keys
    ensures var r := Resolve(keys, name, false, true);
            && r.Some?
            && exists base ::
                 && base in keys && base <= Normalise(name) && base <= r.value && r.value == base + Normalise(name)[1..]
                 && forall o :: o in keys && o <= Normalise(name) ==> |o| <= |base|
  {
    var p := Normalise(name);
    assert p != ROOT;
    var base := LongestKnown(keys, p);
    assert forall o :: o in keys && o <= p ==> ROOT <= o && (|o| == |p| ==> o == p);
  }

  /** Looking an unknown name up twice gives the same channel exactly if it falls back on the root,
      or the first segment that is not known differs from the first one below the root. */
  lemma FallbackIsStableExactlyIf(keys: set<Path>, name: string)
    requires Rooted(keys) && Normalise(name) !in keys
    ensures |Normalise(name)| > 1
    ensures var p := Normalise(name);
            var base, r := LongestKnown(keys, p), Resolve(keys, name, false, true);
            Resolve(KeysAfter(keys, r), name, false, true) == r <==> base == ROOT || p[|base|] != p[1]
  {
    hide Split;
    var p := Normalise(name);
    assert p != ROOT;
    var base := LongestKnown(keys, p);
    var r := base + p[1..];
    hide Normalise, LongestKnown, Rooted;
    if base == ROOT {
      assert r == p == r[..|r|];
    } else if p[|base|] == p[1] {
      FirstIsCreated(keys, p, base);
      LookupMoves(keys + Prefixes(r), p, base, base + [p[1]]);
    } else {
      OthersAreCreated(keys, p, base);
      LookupStays(keys, keys + Prefixes(r), p);
    }
  }

  lemma FirstIsCreated(keys: set<Path>, p: Path, base: Path)
    requires |p| > 1 && base <= p && |base| < |p| && p[|base|] == p[1]
    ensures base + [p[1]] in keys + Prefixes(base + p[1..]) && base + [p[1]] <= p
  {
    var r := base + p[1..];
    assert base + [p[1]] == r[..|base| + 1];
    assert base + [p[1]] == p[..|base| + 1];
  }

  lemma OthersAreCreated(keys: set<Path>, p: Path, base: Path)
    requires |p| > 1 && base <= p && |base| < |p| && p[|base|] != p[1]
    ensures forall q :: q in keys + Prefixes(base + p[1..]) && q <= p && |q| > |base| ==> q in keys
  {
    var r := base + p[1..];
    forall q | q in Prefixes(r) && |q| > |base| ensures !(q <= p) {
      var i :| 1 <= i <= |r| && q == r[..i];
      assert q[|base|] == p[1];
    }
  }

  /** The shortest name that is looked up differently the second time: with the channel `root.a` known,
      `a.a` gives `root.a.a.a` first, and from then on `root.a.a`. */
  lemma FallbackMoves()
    ensures var keys, name := {ROOT, ["root", "a"]}, "a.a";
            var r := Resolve(keys, name, false, true);
            && Rooted(keys) && r == Some(["root", "a", "a", "a"])
            && Resolve(KeysAfter(keys, r), name, false, true) == Some(["root", "a", "a"])
  {
    var keys: set<Path> := {ROOT, ["root", "a"]};
    var p: Path := ["root", "a", "a"];
    var r: Path := ["root", "a", "a", "a"];
    assert Normalise("a.a") == p by {
      assert ["a", "a"][1..] == ["a"];
      assert Join(["a", "a"]) == "a.a";
      SplitJoin(["a", "a"]);
    }
    assert p[..2] == ["root", "a"] && Parent(["root", "a"]) == ROOT;
    assert LongestKnown(keys, p) == ["root", "a"];
    assert Resolve(keys, "a.a", false, true) == Some(["root", "a"] + p[1..]);
    assert ["root", "a"] + p[1..] == r;
    assert r[..3] == p;
  }

  /** A longer known prefix makes another channel of the name. */
  lemma LookupMoves(keys: set<Path>, p: Path, base: Path, first: Path)
    requires ROOT in keys && ROOT <= base && |p| > 1 && ROOT <= p && first in keys && first <= p && |first| > |base|
    requires base != ROOT
    ensures p in keys ==> p != base + p[1..]
    ensures p !in keys ==> LongestKnown(keys, p) + p[1..] != base + p[1..]
  {
    if p !in keys {
      var far := LongestKnown(keys, p);
      assert first == p[..|first|] && p == p[..|p|] && first != p;
      assert ROOT == p[..1] == first[..1] && ROOT <= first;
      assert |far + p[1..]| > |base + p[1..]|;
    } else {
      assert |base| == 1 ==> base == ROOT;
    }
  }

  lemma LookupStays(keys: set<Path>, keys': set<Path>, p: Path)
    requires Rooted(keys) && |p| > 1 && ROOT <= p && p !in keys && keys <= keys'
    requires forall q :: q in keys' && q <= p && |q| > |LongestKnown(keys, p)| ==> q in keys
    ensures p !in keys' && LongestKnown(keys', p) == LongestKnown(keys, p)
  {
    var base, far := LongestKnown(keys, p), LongestKnown(keys', p);
    assert base in keys && far in keys';
    assert base == p[..|base|] && far == p[..|far|];
  }
}
