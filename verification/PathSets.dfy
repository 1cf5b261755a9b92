/** Finite sets of URL paths, and the pattern a set of paths gives each of its members.
    A path is the sequence of a URL's non-empty path segments, with id-like segments already
    replaced by the wildcard. */
module PathSets {

  type Path = seq<string>

  const WILDCARD: string := "*"

  /** The distinct first segments of the non-empty paths. */
  function Firsts(paths: set<Path>): set<string> {
    set p | p in paths && p != [] :: p[0]
  }

  /** What follows the segment `key`. */
  function Sub(paths: set<Path>, key: string): set<Path> {
    set p | p in paths && p != [] && p[0] == key :: p[1..]
  }

  /** What follows any first segment: the union of all `Sub` sets. */
  function Tails(paths: set<Path>): set<Path> {
    set p | p in paths && p != [] :: p[1..]
  }

  /** The members that start with one of `keys`. */
  function Starting(paths: set<Path>, keys: set<string>): set<Path> {
    set p | p in paths && p != [] && p[0] in keys
  }

  ghost predicate PrefixClosed(paths: set<Path>) {
    && [] in paths
    && forall p, n | p in paths && 0 <= n <= |p| :: p[..n] in paths
  }

  ghost predicate NoLongerThan(paths: set<Path>, height: nat) {
    forall p | p in paths :: |p| <= height
  }

  /** All prefixes of one path. */
  function Prefixes(path: Path): set<Path> {
    set n | 0 <= n <= |path| :: path[..n]
  }

  /** A node collapses when it is not the root and has at least `threshold` children. */
  predicate Collapses(paths: set<Path>, threshold: int, root: bool) {
    !root && threshold > 0 && |Firsts(paths)| >= threshold
  }

  /** The keys below a node once it has collapsed or not, and the paths below each of them. */
  function KeysBelow(paths: set<Path>, threshold: int, root: bool): set<string> {
    if Collapses(paths, threshold, root) then {WILDCARD} else Firsts(paths)
  }

  function Below(paths: set<Path>, threshold: int, root: bool, key: string): set<Path> {
    if Collapses(paths, threshold, root) then Tails(paths) else Sub(paths, key)
  }

  /** The pattern of one path, read top-down: the rule by which a node is replaced by the
      merge of its children. */
  function Pattern(paths: set<Path>, threshold: int, root: bool, path: Path): (pattern: Path)
    ensures |pattern| == |path|
    decreases |path|
  {
    if path == [] then []
    else
      var key := if Collapses(paths, threshold, root) then WILDCARD else path[0];
      [key] + Pattern(Below(paths, threshold, root, key), threshold, false, path[1..])
  }

  lemma FirstsOfSub(paths: set<Path>, key: string)
    ensures key in Firsts(paths) <==> Sub(paths, key) != {}
  {
    if key in Firsts(paths) {
      var p :| p in paths && p != [] && p[0] == key;
      assert p[1..] in Sub(paths, key);
    }
  }

  lemma SubIsPrefixClosed(paths: set<Path>, key: string)
    requires PrefixClosed(paths) && key in Firsts(paths)
    ensures PrefixClosed(Sub(paths, key))
  {
    var sub := Sub(paths, key);
    var q :| q in paths && q != [] && q[0] == key;
    assert q[..1] in paths && q[..1] == [key];
    assert [key][1..] == [] && [] in sub;
    forall s, n | s in sub && 0 <= n <= |s|
      ensures s[..n] in sub
    {
      var p :| p in paths && p != [] && p[0] == key && p[1..] == s;
      assert p[..n + 1] in paths && p[..n + 1][1..] == s[..n] && p[..n + 1][0] == key;
    }
  }

  lemma TailsIsPrefixClosed(paths: set<Path>)
    requires PrefixClosed(paths) && Firsts(paths) != {}
    ensures PrefixClosed(Tails(paths))
  {
    var tails := Tails(paths);
    var key :| key in Firsts(paths);
    SubIsPrefixClosed(paths, key);
    assert [] in tails;
    forall s, n | s in tails && 0 <= n <= |s|
      ensures s[..n] in tails
    {
      var p :| p in paths && p != [] && p[1..] == s;
      assert p[..n + 1] in paths && p[..n + 1][1..] == s[..n];
    }
  }

  lemma SubOfUnion(a: set<Path>, b: set<Path>, key: string)
    ensures Sub(a + b, key) == Sub(a, key) + Sub(b, key)
    ensures Firsts(a + b) == Firsts(a) + Firsts(b)
  {
    forall s | s in Sub(a, key) + Sub(b, key)
      ensures s in Sub(a + b, key)
    {
      var p :| (p in a || p in b) && p != [] && p[0] == key && p[1..] == s;
      assert p in a + b;
    }
    forall k | k in Firsts(a) + Firsts(b)
      ensures k in Firsts(a + b)
    {
      var p :| (p in a || p in b) && p != [] && p[0] == k;
      assert p in a + b;
    }
  }

  lemma SubOfStarting(paths: set<Path>, keys: set<string>, key: string)
    ensures Sub(Starting(paths, keys), key) == if key in keys then Sub(paths, key) else {}
    ensures Firsts(Starting(paths, keys)) == Firsts(paths) * keys
  {
    var some := Starting(paths, keys);
    if key in keys {
      forall s | s in Sub(paths, key)
        ensures s in Sub(some, key)
      {
        var p :| p in paths && p != [] && p[0] == key && p[1..] == s;
        assert p in some;
      }
    }
    forall k | k in Firsts(paths) * keys
      ensures k in Firsts(some)
    {
      var p :| p in paths && p != [] && p[0] == k;
      assert p in some;
    }
  }

  /** `all` is `mine` with `theirs` hung below the segment `key`. */
  ghost predicate IsGraft(mine: set<Path>, key: string, theirs: set<Path>, all: set<Path>) {
    && [] in all
    && Firsts(all) == Firsts(mine) + {key}
    && Sub(all, key) == Sub(mine, key) + theirs
    && forall k | k in Firsts(mine) && k != key :: Sub(all, k) == Sub(mine, k)
  }

  lemma GraftNext(mine: set<Path>, theirs: set<Path>, done: set<string>, key: string)
    requires [] in mine && key in Firsts(theirs) && key !in done
    ensures IsGraft(mine + Starting(theirs, done), key, Sub(theirs, key), mine + Starting(theirs, done + {key}))
  {
    var before, after := Starting(theirs, done), Starting(theirs, done + {key});
    SubOfUnion(mine, after, key);
    SubOfUnion(mine, before, key);
    SubOfStarting(theirs, done + {key}, key);
    SubOfStarting(theirs, done, key);
    forall k
      ensures Sub(mine + after, k) == if k == key then Sub(mine + before, key) + Sub(theirs, key) else Sub(mine + before, k)
    {
      SubOfUnion(mine, after, k);
      SubOfUnion(mine, before, k);
      SubOfStarting(theirs, done + {key}, k);
      SubOfStarting(theirs, done, k);
    }
  }

  lemma StartingAnywhere(mine: set<Path>, theirs: set<Path>)
    requires [] in mine
    ensures mine + Starting(theirs, {}) == mine
    ensures mine + Starting(theirs, Firsts(theirs)) == mine + theirs
  {
  }

  lemma TailsNext(paths: set<Path>, done: set<string>, key: string)
    ensures Tails(Starting(paths, done + {key})) == Tails(Starting(paths, done)) + Sub(paths, key)
  {
    var some, more := Starting(paths, done), Starting(paths, done + {key});
    forall s | s in Tails(some) + Sub(paths, key)
      ensures s in Tails(more)
    {
      var p :| p in paths && p != [] && (p[0] in done || p[0] == key) && p[1..] == s;
      assert p in more;
    }
  }

  lemma TailsOfAll(paths: set<Path>)
    requires PrefixClosed(paths) && Firsts(paths) != {}
    ensures {[]} + Tails(Starting(paths, {})) == {[]}
    ensures {[]} + Tails(Starting(paths, Firsts(paths))) == Tails(paths)
  {
    TailsIsPrefixClosed(paths);
    forall s | s in Tails(paths)
      ensures s in Tails(Starting(paths, Firsts(paths)))
    {
      var p :| p in paths && p != [] && p[1..] == s;
      assert p in Starting(paths, Firsts(paths));
    }
  }

  lemma BelowIsSmaller(paths: set<Path>, threshold: int, root: bool, key: string, height: nat)
    requires PrefixClosed(paths) && NoLongerThan(paths, height) && key in KeysBelow(paths, threshold, root)
    ensures height > 0 && NoLongerThan(Below(paths, threshold, root, key), height - 1)
    ensures PrefixClosed(Below(paths, threshold, root, key))
  {
    if Collapses(paths, threshold, root) {
      assert Firsts(paths) != {};
      var k :| k in Firsts(paths);
      TailsIsPrefixClosed(paths);
    } else {
      SubIsPrefixClosed(paths, key);
    }
  }

  /** A member that is not the empty path goes on below one of its node's keys. */
  lemma StepDown(paths: set<Path>, threshold: int, root: bool, path: Path)
    requires path in paths && path != []
    ensures var key := if Collapses(paths, threshold, root) then WILDCARD else path[0];
            && key in KeysBelow(paths, threshold, root)
            && path[1..] in Below(paths, threshold, root, key)
            && Pattern(paths, threshold, root, path)
               == [key] + Pattern(Below(paths, threshold, root, key), threshold, false, path[1..])
  {
  }

  lemma GraftOne(paths: set<Path>, key: string)
    requires [] in paths && key !in Firsts(paths)
    ensures IsGraft(paths, key, {[]}, paths + {[key]})
  {
    assert Firsts({[key]}) == {key};
    SubOfUnion(paths, {[key]}, key);
    forall k
      ensures Sub(paths + {[key]}, k) == Sub(paths, k) + if k == key then {[]} else {}
    {
      SubOfUnion(paths, {[key]}, k);
      assert [key][0] == key && [key][1..] == [];
      assert Sub({[key]}, k) == if k == key then {[]} else {};
    }
  }

  lemma SubOfPrefixes(key: string, rest: Path, k: string)
    ensures Sub(Prefixes([key] + rest), k) == if k == key then Prefixes(rest) else {}
    ensures Firsts(Prefixes([key] + rest)) == {key}
    ensures [] in Prefixes([key] + rest) && [key] in Prefixes([key] + rest)
  {
    var path := [key] + rest;
    assert path[..0] == [] && path[..1] == [key];
    forall n | 0 <= n <= |rest|
      ensures path[..n + 1] in Prefixes(path) && path[..n + 1][0] == key && path[..n + 1][1..] == rest[..n]
    {
    }
    forall p | p in Prefixes(path) && p != []
      ensures p[0] == key && p[1..] in Prefixes(rest)
    {
      var n :| 0 <= n <= |path| && p == path[..n];
      assert p[1..] == rest[..n - 1];
    }
    assert path[..1][0] == key && key in Firsts(Prefixes(path));
    if k == key {
      forall s | s in Prefixes(rest)
        ensures s in Sub(Prefixes(path), key)
      {
        var n :| 0 <= n <= |rest| && s == rest[..n];
        assert path[..n + 1][1..] == s;
      }
    }
  }

  lemma GraftPrefixes(paths: set<Path>, key: string, rest: Path)
    requires [] in paths
    ensures IsGraft(paths, key, Prefixes(rest), paths + Prefixes([key] + rest))
  {
    SubOfUnion(paths, Prefixes([key] + rest), key);
    SubOfPrefixes(key, rest, key);
    forall k
      ensures Sub(paths + Prefixes([key] + rest), k) == Sub(paths, k) + if k == key then Prefixes(rest) else {}
    {
      SubOfUnion(paths, Prefixes([key] + rest), k);
      SubOfPrefixes(key, rest, k);
    }
  }

  lemma PrefixesOf(paths: set<Path>, key: string, rest: Path)
    ensures paths + {[key]} + Prefixes([key] + rest) == paths + Prefixes([key] + rest)
  {
    SubOfPrefixes(key, rest, key);
  }
}
