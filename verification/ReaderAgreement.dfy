/** The lazy reader against the recursive one: the same level, wherever the recursive reader goes. */
module ReaderAgreement {
  import opened Options
  import opened PathPatterns
  import opened GitignoreMatcher
  import opened DirectoryReader

  // The recursive reader's tree has the directory reached by `names`, with the given level.
  ghost predicate Reaches(top: seq<Entry>, names: Path, level: seq<Entry>)
    decreases |names|, 1
  {
    if names == [] then level == top
    else exists above: seq<Entry>, i :: ReachesBy(top, names, level, above, i)
  }

  ghost predicate ReachesBy(top: seq<Entry>, names: Path, level: seq<Entry>, above: seq<Entry>, i: int)
    requires names != []
    decreases |names|, 0
  {
    && Reaches(top, names[..|names| - 1], above) && 0 <= i < |above|
    && above[i].name == names[|names| - 1] && above[i].isDir && !above[i].unreadable && level == above[i].children
  }

  ghost predicate Lists(node: Option<Node>) { node.Some? && node.value.Dir? && node.value.listable }

  // What the recursive reader inherits on entering a directory.
  function Inherited(root: Node, rootPath: Path, names: Path): seq<Rule> {
    if names == [] then [] else RulesAt(root, rootPath, names[..|names| - 1])
  }

  lemma RulesThere(root: Node, rootPath: Path, names: Path)
    ensures RulesAt(root, rootPath, names) == Inherited(root, rootPath, names) + LocalRules(Lookup(root, names), rootPath + names)
  {
    assert rootPath + [] == rootPath;
  }

  lemma {:induction false} ListingElement(children: seq<Child>, path: Path, rules: seq<Rule>, glob: Glob, e: Entry)
    requires e in Listing(children, path, rules, glob)
    ensures exists child :: child in children && Shown(child, path, rules, glob) && e == EntryOf(child, path)
  {
    hide Ignores, Shown;
    if children != [] {
      var init, last := children[..|children| - 1], children[|children| - 1];
      assert last in children && forall c :: c in init ==> c in children;
      if e in Listing(init, path, rules, glob) { ListingElement(init, path, rules, glob, e); }
    }
  }

  lemma LevelEntry(node: Option<Node>, path: Path, rules: seq<Rule>, h: Host, i: nat)
    requires Sorts(h) && Level(node, path, rules, h).Some? && i < |Level(node, path, rules, h).value|
    ensures var e := Level(node, path, rules, h).value[i];
            && e.path == path + [e.name] && e.children == []
            && (e.isDir ==> !Ignores(rules, path + [e.name], true, h.glob))
  {
    hide Listing, Ignores;
    var listing := Listing(node.value.children, path, rules, h.glob);
    var es := h.arrange(listing);
    assert es[i] in multiset(es) && multiset(es) == multiset(listing);
    ListingElement(node.value.children, path, rules, h.glob, es[i]);
  }

  lemma TreeParts(node: Node, path: Path, inherited: seq<Rule>, h: Host)
    ensures var rules := inherited + LocalRules(Some(node), path);
            Tree(node, path, inherited, h) == (if Level(Some(node), path, rules, h).None? then None
                                               else Some(FilledAll(node, Level(Some(node), path, rules, h).value, rules, h)))
    ensures Tree(node, path, inherited, h).None? <==> !Lists(Some(node))
  {
    hide Listing, FilledAll;
  }

  // Where the recursive reader arrives, it holds the tree of that directory and nothing on the way was ignored.
  ghost predicate Arrived(root: Node, rootPath: Path, names: Path, h: Host, level: seq<Entry>) {
    && !IgnoredAncestor(root, rootPath, names, h.glob) && Lookup(root, names).Some?
    && Tree(Lookup(root, names).value, rootPath + names, Inherited(root, rootPath, names), h) == Some(level)
  }

  lemma {:induction false} Arrives(root: Node, rootPath: Path, top: seq<Entry>, names: Path, level: seq<Entry>, h: Host)
    requires Sorts(h) && Tree(root, rootPath, [], h) == Some(top) && Reaches(top, names, level)
    ensures Arrived(root, rootPath, names, h, level)
    decreases |names|
  {
    hide Tree, IgnoredAt, Arrived;
    if names == [] {
      ArrivedAtRoot(root, rootPath, h, level);
    } else {
      var above: seq<Entry>, i :| ReachesBy(top, names, level, above, i);
      var init := names[..|names| - 1];
      Arrives(root, rootPath, top, init, above, h);
      ArrivesBelow(root, rootPath, init, above, i, h);
      assert init + [above[i].name] == names;
    }
  }

  lemma ArrivedAtRoot(root: Node, rootPath: Path, h: Host, level: seq<Entry>)
    requires Tree(root, rootPath, [], h) == Some(level)
    ensures Arrived(root, rootPath, [], h, level)
  {
    hide Tree, IgnoredAt;
    assert rootPath + [] == rootPath;
  }

  lemma ArrivesBelow(root: Node, rootPath: Path, names: Path, above: seq<Entry>, i: nat, h: Host)
    requires Sorts(h) && Arrived(root, rootPath, names, h, above) && i < |above| && above[i].isDir && !above[i].unreadable
    ensures Arrived(root, rootPath, names + [above[i].name], h, above[i].children)
  {
    hide Tree, Level, LocalRules, RulesAt, Ignores, Lookup;
    var node, path, rules := Lookup(root, names).value, rootPath + names, RulesAt(root, rootPath, names);
    TreeParts(node, path, Inherited(root, rootPath, names), h);
    RulesThere(root, rootPath, names);
    LevelEntry(Some(node), path, rules, h, i);
    FilledDir(node, Level(Some(node), path, rules, h).value[i], rules, h);
    var more := names + [above[i].name];
    LookupBelow(root, names, above[i].name);
    assert rootPath + more == path + [above[i].name] && more[..|names|] == names;
    forall k | 0 < k <= |more| ensures !IgnoredAt(root, rootPath, more, k, h.glob) {
      if k <= |names| {
        assert more[..k - 1] == names[..k - 1] && more[..k] == names[..k];
        assert !IgnoredAt(root, rootPath, names, k, h.glob);
      } else {
        assert more[..k] == more;
      }
    }
  }

  lemma LookupBelow(root: Node, names: Path, name: string)
    ensures Lookup(root, names + [name]) == Step(Lookup(root, names), name)
  {
    assert (names + [name])[..|names|] == names;
  }

  lemma FilledDir(node: Node, e: Entry, rules: seq<Rule>, h: Host)
    requires Filled(node, e, rules, h).isDir && !Filled(node, e, rules, h).unreadable
    ensures e.isDir && !e.unreadable && Filled(node, e, rules, h).name == e.name
    ensures var child := Step(Some(node), e.name);
            child.Some? && Tree(child.value, e.path, rules, h) == Some(Filled(node, e, rules, h).children)
  {
    hide Tree;
  }

  // A readable entry of the level whose own directory does not list.
  ghost predicate FailsBelow(node: Node, e: Entry) { e.isDir && !e.unreadable && !Lists(Step(Some(node), e.name)) }

  lemma FilledEntry(node: Node, e: Entry, rules: seq<Rule>, h: Host)
    requires e.children == []
    ensures var f := Filled(node, e, rules, h);
            f.(children := [], unreadable := e.unreadable) == e && (f.unreadable <==> e.unreadable || FailsBelow(node, e))
  {
    var child := Step(Some(node), e.name);
    if child.Some? { TreeParts(child.value, e.path, rules, h); }
    hide Tree;
  }

  function Dropped(es: seq<Entry>): seq<Entry> { seq(|es|, i requires 0 <= i < |es| => es[i].(children := [])) }

  /**
   Wherever the recursive reader goes, the shallow reader returns the same level: the same entries in the same order
   with the children dropped, where an entry is marked unreadable by the recursive one also if its own directory
   does not list. So the two levels are equal if and only if every readable directory of the level lists.
   */
  lemma ShallowAgrees(root: Node, rootPath: Path, top: seq<Entry>, names: Path, level: seq<Entry>, h: Host)
    requires Sorts(h) && Tree(root, rootPath, [], h) == Some(top) && Reaches(top, names, level)
    ensures Lookup(root, names).Some? && Shallow(root, rootPath, names, h).Some?
    ensures var node := Lookup(root, names).value; var shallow := Shallow(root, rootPath, names, h).value;
            && |shallow| == |level|
            && (forall i :: 0 <= i < |level| ==>
                  && level[i].(children := [], unreadable := shallow[i].unreadable) == shallow[i]
                  && (level[i].unreadable <==> shallow[i].unreadable || FailsBelow(node, shallow[i])))
            && (Dropped(level) == shallow <==> forall i :: 0 <= i < |shallow| ==> !FailsBelow(node, shallow[i]))
  {
    Arrives(root, rootPath, top, names, level, h);
    hide Tree, Level, LocalRules, RulesAt, Lookup, Reaches, Inherited, IgnoredAncestor, FailsBelow, Filled;
    var node, path, rules := Lookup(root, names).value, rootPath + names, RulesAt(root, rootPath, names);
    TreeParts(node, path, Inherited(root, rootPath, names), h);
    RulesThere(root, rootPath, names);
    var shallow := Level(Some(node), path, rules, h).value;
    forall i | 0 <= i < |level|
      ensures level[i].(children := [], unreadable := shallow[i].unreadable) == shallow[i]
      ensures level[i].unreadable <==> shallow[i].unreadable || FailsBelow(node, shallow[i])
    {
      LevelEntry(Some(node), path, rules, h, i);
      FilledEntry(node, shallow[i], rules, h);
    }
    SameLevels(node, level, shallow);
  }

  lemma SameLevels(node: Node, level: seq<Entry>, shallow: seq<Entry>)
    requires |shallow| == |level|
    requires forall i :: 0 <= i < |level| ==>
               && level[i].(children := [], unreadable := shallow[i].unreadable) == shallow[i]
               && (level[i].unreadable <==> shallow[i].unreadable || FailsBelow(node, shallow[i]))
    ensures Dropped(level) == shallow <==> forall i :: 0 <= i < |shallow| ==> !FailsBelow(node, shallow[i])
  {
    forall i | 0 <= i < |level| ensures Dropped(level)[i] == shallow[i] <==> !FailsBelow(node, shallow[i]) {
      assert FailsBelow(node, shallow[i]) ==> !shallow[i].unreadable;
    }
  }

  /** The claimed equality of levels fails on this tree: one readable directory that does not list. */
  lemma LevelsCanDiffer(h: Host)
    requires Sorts(h)
    ensures var root := Dir(true, [], [Child("a", Some(Meta(0, 0)), Dir(false, [], []))]);
            && Tree(root, [], [], h).Some? && Shallow(root, [], [], h).Some?
            && Dropped(Tree(root, [], [], h).value) != Shallow(root, [], [], h).value
  {
    var child := Child("a", Some(Meta(0, 0)), Dir(false, [], []));
    var root := Dir(true, [], [child]);
    var listed := [EntryOf(child, [])];
    assert Listing(root.children, [], [], h.glob) == listed by { assert root.children[..0] == []; }
    var es := h.arrange(listed);
    assert multiset(es) == multiset(listed);
    assert |es| == |multiset(es)| == 1;
    assert es[0] in multiset(es);
    assert LocalRules(Some(root), []) == [] && [] + LocalRules(Some(root), []) == [];
    assert Reaches(Tree(root, [], [], h).value, [], Tree(root, [], [], h).value);
    ShallowAgrees(root, [], Tree(root, [], [], h).value, [], Tree(root, [], [], h).value, h);
    assert FailsBelow(root, es[0]);
  }

  /** Below an ignored directory the shallow reader returns nothing, and the recursive reader never gets there. */
  lemma NothingBelowIgnored(root: Node, rootPath: Path, names: Path, more: Path, h: Host)
    requires IgnoredAncestor(root, rootPath, names, h.glob)
    ensures Shallow(root, rootPath, names + more, h) == Some([])
    ensures Sorts(h) ==> forall top, level ::
              Tree(root, rootPath, [], h) == Some(top) ==> !Reaches(top, names + more, level)
  {
    hide Tree, Ignores, Reaches, RulesAt;
    var k :| 0 < k <= |names| && IgnoredAt(root, rootPath, names, k, h.glob);
    assert (names + more)[..k - 1] == names[..k - 1] && (names + more)[..k] == names[..k];
    assert IgnoredAt(root, rootPath, names + more, k, h.glob);
    forall top, level | Sorts(h) && Tree(root, rootPath, [], h) == Some(top) ensures !Reaches(top, names + more, level) {
      if Reaches(top, names + more, level) {
        Arrives(root, rootPath, top, names + more, level, h);
      }
    }
  }
}
