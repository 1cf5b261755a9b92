/** The mutable URL trie of pkg/sitemap/urlshape.go: nodes that share subtrees by reference. */
module UrlTrie {
  import opened PathSets

  class TrieNode {
    var children: map<string, TrieNode>
    var wild: bool
    // every node below and including this one
    ghost var repr: set<TrieNode>

    /** The children own disjoint parts of this node's footprint. */
    ghost predicate Owns()
      reads this, repr
    {
      && this in repr
      && (forall k | k in children :: children[k] in repr && children[k].repr <= repr && this !in children[k].repr)
      && (forall j, k | j in children && k in children && j != k :: children[j].repr !! children[k].repr)
    }

    /** This node is the root of an uncollapsed trie that holds exactly `paths`. */
    ghost predicate Holds(paths: set<Path>)
      reads this, repr
      decreases repr
    {
      && Owns()
      && !wild
      && [] in paths
      && children.Keys == Firsts(paths)
      && forall k | k in children :: children[k].Holds(Sub(paths, k))
    }

    constructor ()
      ensures Holds({[]}) && fresh(this) && repr == {this} && children == map[] && !wild
    {
      children := map[];
      wild := false;
      repr := {this};
    }

    method Adopt(key: string, child: TrieNode, ghost mine: set<Path>, ghost theirs: set<Path>, ghost all: set<Path>)
      requires Holds(mine) && child.Holds(theirs) && repr !! child.repr
      requires IsGraft(mine, key, theirs, all)
      requires key !in children
      modifies this
      ensures Holds(all)
      ensures repr == old(repr) + child.repr
      ensures children == old(children)[key := child]
    {
      children := children[key := child];
      repr := repr + child.repr;
      assert Owns();
      assert Sub(all, key) == theirs by { FirstsOfSub(mine, key); }
      assert forall k | k in children && k != key :: children[k] == old(children)[k] && children[k].Holds(Sub(all, k));
    }

    method Merge(key: string, child: TrieNode, ghost mine: set<Path>, ghost theirs: set<Path>, ghost all: set<Path>)
      requires Holds(mine) && child.Holds(theirs) && repr !! child.repr
      requires IsGraft(mine, key, theirs, all)
      requires key in children
      modifies this, children[key].repr
      ensures Holds(all)
      ensures repr == old(repr) + child.repr
      ensures children == old(children)
      decreases child.repr, 1
    {
      var existing := children[key];
      assert forall k | k in children && k != key :: children[k].Holds(Sub(all, k));
      existing.Absorb(child, Sub(mine, key), theirs);
      repr := repr + child.repr;
      assert Owns();
      assert forall k | k in children && k != key :: children[k].Holds(Sub(all, k));
    }

    method AbsorbChild(key: string, child: TrieNode, ghost mine: set<Path>, ghost theirs: set<Path>, ghost all: set<Path>)
      requires Holds(mine) && child.Holds(theirs) && repr !! child.repr
      requires IsGraft(mine, key, theirs, all)
      modifies this, if key in children then children[key].repr else {}
      ensures Holds(all)
      ensures repr == old(repr) + child.repr
      ensures children == old(children)[key := if key in old(children) then old(children)[key] else child]
      ensures forall k | k in old(children) && k != key :: children[k].repr == old(children[k].repr)
      decreases child.repr, 2
    {
      if key in children {
        Merge(key, child, mine, theirs, all);
      } else {
        Adopt(key, child, mine, theirs, all);
      }
    }

    /** Half-way through absorbing `other`: this trie has grown from `footprint` by parts of `other`,
        whose children named in `todo` are still apart from it, and what this trie has below those
        names lies in its original footprint. */
    ghost predicate Absorbing(other: TrieNode, theirs: set<Path>, todo: set<string>, footprint: set<TrieNode>)
      reads this, repr, other, other.repr
    {
      && this in footprint && footprint !! other.repr && other.Holds(theirs)
      && footprint <= repr <= footprint + other.repr
      && Owns() && todo <= other.children.Keys
      && (forall k | k in todo :: repr !! other.children[k].repr)
      && (forall k | k in todo && k in children :: children[k].repr <= footprint)
    }

    method AbsorbNext(other: TrieNode, key: string, ghost todo: set<string>, ghost footprint: set<TrieNode>,
                      ghost mine: set<Path>, ghost theirs: set<Path>, ghost done: set<string>)
      requires [] in mine && Holds(mine + Starting(theirs, done))
      requires Absorbing(other, theirs, todo, footprint) && key in todo && key !in done
      modifies this, if key in children then children[key].repr else {}
      ensures Holds(mine + Starting(theirs, done + {key}))
      ensures Absorbing(other, theirs, todo - {key}, footprint)
      decreases other.children[key].repr, 3
    {
      GraftNext(mine, theirs, done, key);
      assert other.children[key].repr <= other.repr;
      assert key in children ==> children[key].repr !! other.repr;
      AbsorbChild(key, other.children[key], mine + Starting(theirs, done), Sub(theirs, key), mine + Starting(theirs, done + {key}));
    }

    method Absorb(other: TrieNode, ghost mine: set<Path>, ghost theirs: set<Path>)
      requires Holds(mine) && other.Holds(theirs) && repr !! other.repr
      modifies repr
      ensures Holds(mine + theirs)
      ensures old(repr) <= repr <= old(repr) + other.repr
      decreases other.repr, 0
    {
      var todo := other.children.Keys;
      ghost var done: set<string> := {};
      StartingAnywhere(mine, theirs);
      while todo != {}
        invariant done !! todo && done + todo == other.children.Keys
        invariant Holds(mine + Starting(theirs, done))
        invariant Absorbing(other, theirs, todo, old(repr))
        decreases todo
      {
        var key :| key in todo;
        assert other.children[key].repr < other.repr;
        AbsorbNext(other, key, todo, old(repr), mine, theirs, done);
        todo, done := todo - {key}, done + {key};
      }
      assert done == Firsts(theirs);
    }

    /** Half-way through merging the children into `merged`: those named in `todo` are still whole,
        apart from each other and from `merged`, which is made of parts of `footprint`. */
    ghost predicate Merging(merged: TrieNode, paths: set<Path>, todo: set<string>, footprint: set<TrieNode>)
      reads this, footprint, merged, merged.repr
    {
      && this !in footprint && this !in merged.repr && this != merged
      && merged !in footprint && merged.repr <= {merged} + footprint
      && todo <= children.Keys
      && (forall k | k in todo :: children[k] in footprint && children[k].repr <= footprint)
      && (forall k | k in todo :: children[k].repr !! merged.repr && children[k].Holds(Sub(paths, k)))
      && (forall j, k | j in todo && k in todo && j != k :: children[j].repr !! children[k].repr)
    }

    method MergeNext(merged: TrieNode, key: string, ghost todo: set<string>, ghost footprint: set<TrieNode>,
                     ghost paths: set<Path>, ghost done: set<string>)
      requires Merging(merged, paths, todo, footprint) && key in todo
      requires merged.Holds({[]} + Tails(Starting(paths, done)))
      modifies merged.repr
      ensures merged.Holds({[]} + Tails(Starting(paths, done + {key})))
      ensures Merging(merged, paths, todo - {key}, footprint)
    {
      TailsNext(paths, done, key);
      ghost var before := {[]} + Tails(Starting(paths, done));
      assert before + Sub(paths, key) == {[]} + Tails(Starting(paths, done + {key}));
      merged.Absorb(children[key], before, Sub(paths, key));
    }

    /** `merged` absorbs every child, in any order. */
    method MergeAll(merged: TrieNode, ghost paths: set<Path>, ghost footprint: set<TrieNode>)
      requires Merging(merged, paths, children.Keys, footprint) && merged.repr !! footprint
      requires merged.Holds({[]} + Tails(Starting(paths, {})))
      modifies merged.repr, footprint
      ensures merged.Holds({[]} + Tails(Starting(paths, old(children.Keys))))
      ensures merged.repr <= {merged} + footprint
    {
      var todo := children.Keys;
      ghost var done: set<string> := {};
      while todo != {}
        invariant done !! todo && done + todo == children.Keys
        invariant merged.Holds({[]} + Tails(Starting(paths, done)))
        invariant Merging(merged, paths, todo, footprint)
        decreases todo
      {
        var key :| key in todo;
        MergeNext(merged, key, todo, footprint, paths, done);
        todo, done := todo - {key}, done + {key};
      }
      assert done == children.Keys;
    }

    /** A fresh node that absorbs every child. */
    method MergeChildren(ghost paths: set<Path>) returns (merged: TrieNode)
      requires Holds(paths) && {[]} + Tails(Starting(paths, Firsts(paths))) == Tails(paths)
      modifies repr - {this}
      ensures fresh(merged) && merged.Holds(Tails(paths))
      ensures merged.repr <= {merged} + repr - {this}
    {
      merged := new TrieNode();
      assert {[]} + Tails(Starting(paths, {})) == {[]};
      MergeAll(merged, paths, repr - {this});
    }

    /** This node is the root of a collapsed trie; its shape is a function of `paths` alone. */
    ghost predicate Collapsed(paths: set<Path>, threshold: int, root: bool)
      reads this, repr
      decreases repr
    {
      && Owns()
      && wild == Collapses(paths, threshold, root)
      && children.Keys == KeysBelow(paths, threshold, root)
      && forall k | k in children :: children[k].Collapsed(Below(paths, threshold, root, k), threshold, false)
    }

    /** The node itself has been dealt with; the children named in `todo` have not. */
    ghost predicate Collapsing(paths: set<Path>, threshold: int, root: bool, todo: set<string>)
      reads this, repr
    {
      && Owns()
      && wild == Collapses(paths, threshold, root)
      && children.Keys == KeysBelow(paths, threshold, root)
      && (forall k | k in children && k in todo :: children[k].Holds(Below(paths, threshold, root, k)))
      && (forall k | k in children && k !in todo :: children[k].Collapsed(Below(paths, threshold, root, k), threshold, false))
    }

    /** The children give way to one wildcard child that holds all that lay below them. */
    method ReplaceChildren(merged: TrieNode, threshold: int, ghost paths: set<Path>)
      requires merged.Holds(Tails(paths)) && this !in merged.repr && Collapses(paths, threshold, false)
      modifies this
      ensures Collapsing(paths, threshold, false, children.Keys)
      ensures repr == {this} + merged.repr
    {
      children := map[WILDCARD := merged];
      wild := true;
      repr := {this} + merged.repr;
    }

    method BecomeWild(threshold: int, ghost paths: set<Path>)
      requires Holds(paths) && PrefixClosed(paths) && Collapses(paths, threshold, false)
      modifies repr
      ensures Collapsing(paths, threshold, false, children.Keys)
      ensures fresh(repr - old(repr))
    {
      TailsOfAll(paths);
      var merged := MergeChildren(paths);
      ReplaceChildren(merged, threshold, paths);
    }

    method CollapseSelf(threshold: int, root: bool, ghost paths: set<Path>)
      requires Holds(paths) && PrefixClosed(paths)
      modifies repr
      ensures Collapsing(paths, threshold, root, children.Keys)
      ensures fresh(repr - old(repr))
    {
      assert |children.Keys| == |children|;
      if !root && threshold > 0 && |children| >= threshold {
        BecomeWild(threshold, paths);
      }
    }

    method CollapseChild(key: string, threshold: int, root: bool, ghost paths: set<Path>, ghost todo: set<string>, ghost height: nat)
      requires Collapsing(paths, threshold, root, todo) && key in todo && key in children
      requires PrefixClosed(paths) && NoLongerThan(paths, height)
      modifies this, children[key].repr
      ensures Collapsing(paths, threshold, root, todo - {key})
      ensures children == old(children) && fresh(repr - old(repr))
      decreases height, 0
    {
      BelowIsSmaller(paths, threshold, root, key, height);
      var child := children[key];
      assert forall k | k in children && k != key :: child.repr !! children[k].repr;
      child.Collapse(threshold, false, Below(paths, threshold, root, key), height - 1);
      Widen(key, paths, threshold, root, todo);
    }

    /** Extends the footprint by what the collapse of one child has added. */
    ghost method Widen(key: string, paths: set<Path>, threshold: int, root: bool, todo: set<string>)
      requires key in children && this in repr
      requires wild == Collapses(paths, threshold, root) && children.Keys == KeysBelow(paths, threshold, root)
      requires forall k | k in children && k != key :: children[k] in repr && children[k].repr <= repr && children[k].repr !! children[key].repr
      requires forall k | k in children :: this !in children[k].repr
      requires forall j, k | j in children && k in children && j != k :: children[j].repr !! children[k].repr
      requires children[key].Collapsed(Below(paths, threshold, root, key), threshold, false)
      requires forall k | k in children && k != key && k in todo :: children[k].Holds(Below(paths, threshold, root, k))
      requires forall k | k in children && k != key && k !in todo :: children[k].Collapsed(Below(paths, threshold, root, k), threshold, false)
      modifies this`repr
      ensures Collapsing(paths, threshold, root, todo - {key})
      ensures repr == old(repr) + children[key].repr
    {
      repr := repr + children[key].repr;
    }

    method Collapse(threshold: int, root: bool, ghost paths: set<Path>, ghost height: nat)
      requires Holds(paths) && PrefixClosed(paths) && NoLongerThan(paths, height)
      modifies repr
      ensures Collapsed(paths, threshold, root)
      ensures fresh(repr - old(repr))
      decreases height, 1
    {
      CollapseSelf(threshold, root, paths);
      var todo := children.Keys;
      while todo != {}
        invariant todo <= children.Keys
        invariant Collapsing(paths, threshold, root, todo)
        invariant fresh(repr - old(repr))
        decreases todo
      {
        var key :| key in todo;
        CollapseChild(key, threshold, root, paths, todo, height);
        todo := todo - {key};
      }
    }

    /** Extends the footprint by what an insertion below one child has added. */
    ghost method Extend(key: string, paths: set<Path>, below: set<Path>, all: set<Path>)
      requires key in children && this in repr && !wild
      requires children.Keys == Firsts(paths) && IsGraft(paths, key, below, all)
      requires forall k | k in children && k != key :: children[k] in repr && children[k].repr <= repr
      requires forall k | k in children :: this !in children[k].repr
      requires forall j, k | j in children && k in children && j != k :: children[j].repr !! children[k].repr
      requires children[key].Holds(Sub(paths, key) + below)
      requires forall k | k in children && k != key :: children[k].Holds(Sub(paths, k))
      modifies this`repr
      ensures Holds(all)
      ensures repr == old(repr) + children[key].repr
    {
      repr := repr + children[key].repr;
    }

    method InsertBelow(key: string, rest: Path, ghost paths: set<Path>)
      requires Holds(paths) && key in children
      modifies this, children[key].repr
      ensures Holds(paths + Prefixes([key] + rest))
      ensures fresh(repr - old(repr))
      decreases |rest|, 1
    {
      GraftPrefixes(paths, key, rest);
      var child := children[key];
      assert forall k | k in children && k != key :: child.repr !! children[k].repr;
      child.Insert(rest, Sub(paths, key));
      Extend(key, paths, Prefixes(rest), paths + Prefixes([key] + rest));
    }

    /** The insertion loop of `Templates`, one node at a time. */
    method Insert(segments: Path, ghost paths: set<Path>)
      requires Holds(paths)
      modifies repr
      ensures Holds(paths + Prefixes(segments))
      ensures fresh(repr - old(repr))
      decreases |segments|, 0
    {
      if segments == [] {
        assert paths + Prefixes(segments) == paths;
        return;
      }
      var key, rest := segments[0], segments[1..];
      assert segments == [key] + rest;
      if key in children {
        InsertBelow(key, rest, paths);
      } else {
        var child := new TrieNode();
        GraftOne(paths, key);
        Adopt(key, child, paths, {[]}, paths + {[key]});
        InsertBelow(key, rest, paths + {[key]});
        PrefixesOf(paths, key, rest);
      }
    }

    /** One step of a walk: the segment to report, and the child it leads to. */
    method Step(segments: Path, threshold: int, ghost root: bool, ghost paths: set<Path>) returns (segment: string, child: TrieNode)
      requires Collapsed(paths, threshold, root) && segments != [] && segments in paths
      ensures segment == if Collapses(paths, threshold, root) then WILDCARD else segments[0]
      ensures child.Collapsed(Below(paths, threshold, root, segment), threshold, false)
    {
      StepDown(paths, threshold, root, segments);
      segment := segments[0];
      if wild {
        segment := WILDCARD;
      }
      child := children[segment];
    }

    /** The walk of `templatePattern` over the collapsed trie: it never meets a missing child. */
    method Walk(segments: Path, threshold: int, ghost paths: set<Path>) returns (parts: Path)
      requires Collapsed(paths, threshold, true) && segments in paths
      ensures parts == Pattern(paths, threshold, true, segments)
    {
      parts := [];
      var node := this;
      ghost var here, root, whole := paths, true, Pattern(paths, threshold, true, segments);
      assert [] + whole == whole;
      for i := 0 to |segments|
        invariant segments[i..] in here && node.Collapsed(here, threshold, root)
        invariant whole == parts + Pattern(here, threshold, root, segments[i..])
      {
        assert segments[i..][1..] == segments[i + 1..];
        StepOn(parts, here, threshold, root, segments[i..], whole);
        var segment, child := node.Step(segments[i..], threshold, root, here);
        parts := parts + [segment];
        node := child;
        here, root := Below(here, threshold, root, segment), false;
      }
    }
  }

  /** One step further, the part of the pattern that is known has grown by the step's segment. */
  lemma StepOn(parts: Path, paths: set<Path>, threshold: int, root: bool, path: Path, whole: Path)
    requires path in paths && path != [] && whole == parts + Pattern(paths, threshold, root, path)
    ensures var key := if Collapses(paths, threshold, root) then WILDCARD else path[0];
            && path[1..] in Below(paths, threshold, root, key)
            && whole == (parts + [key]) + Pattern(Below(paths, threshold, root, key), threshold, false, path[1..])
  {
    StepDown(paths, threshold, root, path);
  }
}
