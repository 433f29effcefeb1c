/** The directory readers of internal/filesystem/reader.go over an abstract file tree. */
module DirectoryReader {
  import opened Options
  import opened PathPatterns
  import opened GitignoreMatcher

  // ----- the tree on disk -----------------------------------------------------------------------

  type Path = seq<string>

  datatype Meta = Meta(size: int, modTime: int)

  // One parsed .gitignore line.
  datatype Pattern = Pattern(parts: seq<string>, negated: bool, dirOnly: bool, anchored: bool)

  /** A directory can fail to list; its .gitignore is read on its own. Stat of a child can fail (no `meta`). */
  datatype Node = File | Dir(listable: bool, ignores: seq<Pattern>, children: seq<Child>)

  datatype Child = Child(name: string, meta: Option<Meta>, node: Node)

  datatype Rule = Rule(baseDir: Path, pattern: Pattern)

  datatype Entry = Entry(
    name: string, path: Path, isDir: bool, meta: Option<Meta>, unreadable: bool, children: seq<Entry>)

  /** What the host decides: path.Match on one segment, and sort.Slice's arrangement of a level. */
  datatype Host = Host(glob: Glob, arrange: seq<Entry> -> seq<Entry>)

  // Sorting only rearranges.
  ghost predicate Sorts(h: Host) { forall es :: multiset(h.arrange(es)) == multiset(es) }

  function Find(children: seq<Child>, name: string): (node: Option<Node>)
    ensures node.Some? ==> exists k :: 0 <= k < |children| && children[k].name == name && children[k].node == node.value
  {
    if children == [] then None
    else if children[0].name == name then Some(children[0].node)
    else Find(children[1..], name)
  }

  function Step(node: Option<Node>, name: string): Option<Node> {
    if node.Some? && node.value.Dir? then Find(node.value.children, name) else None
  }

  function Lookup(root: Node, names: Path): Option<Node> {
    if names == [] then Some(root) else Step(Lookup(root, names[..|names| - 1]), names[|names| - 1])
  }

  // ----- ignoring -------------------------------------------------------------------------------

  // The name a rule is matched against: relative to its directory when anchored, the last name otherwise.
  function Subject(rule: Rule, path: Path): Path
    requires rule.baseDir <= path
  {
    var rel := if path == rule.baseDir then ["."] else path[|rule.baseDir|..];
    if rule.pattern.anchored then rel else [rel[|rel| - 1]]
  }

  ghost predicate Hits(rule: Rule, path: Path, isDir: bool, glob: Glob) {
    && (rule.pattern.dirOnly ==> isDir) && rule.baseDir <= path
    && GitMatches(rule.pattern.parts, Subject(rule, path), glob)
  }

  // The last rule that matches decides, and it ignores.
  ghost predicate LastHit(rules: seq<Rule>, k: nat, path: Path, isDir: bool, glob: Glob)
    requires k < |rules|
  {
    Hits(rules[k], path, isDir, glob) && forall l :: k < l < |rules| ==> !Hits(rules[l], path, isDir, glob)
  }

  ghost predicate Ignores(rules: seq<Rule>, path: Path, isDir: bool, glob: Glob) {
    exists k: nat :: k < |rules| && LastHit(rules, k, path, isDir, glob) && !rules[k].pattern.negated
  }

  method ShouldIgnore(path: Path, isDir: bool, rules: seq<Rule>, glob: Glob) returns (ignored: bool)
    ensures ignored <==> Ignores(rules, path, isDir, glob)
  {
    hide GitMatches;
    ignored := false;
    ghost var last: int := -1;
    for i := 0 to |rules|
      invariant -1 <= last < i && forall l :: last < l < i ==> !Hits(rules[l], path, isDir, glob)
      invariant last >= 0 ==> Hits(rules[last], path, isDir, glob)
      invariant ignored <==> last >= 0 && !rules[last].pattern.negated
    {
      var rule := rules[i];
      if rule.pattern.dirOnly && !isDir {
        continue;
      }
      if !(rule.baseDir <= path) {
        continue;
      }
      var matched := MatchGitignorePath(rule.pattern.parts, Subject(rule, path), glob);
      if matched {
        ignored, last := !rule.pattern.negated, i;
      }
    }
    if last >= 0 { assert LastHit(rules, last, path, isDir, glob); }
  }

  // ----- one level ------------------------------------------------------------------------------

  function IgnoresOf(node: Option<Node>): seq<Pattern> { if node.Some? && node.value.Dir? then node.value.ignores else [] }

  // loadGitignore: the rules of one directory; none when it is not there.
  function LocalRules(node: Option<Node>, path: Path): seq<Rule> {
    seq(|IgnoresOf(node)|, i requires 0 <= i < |IgnoresOf(node)| => Rule(path, IgnoresOf(node)[i]))
  }

  predicate HiddenDir(child: Child) { child.node.Dir? && child.name != "" && child.name[0] == '.' }

  ghost predicate Shown(child: Child, path: Path, rules: seq<Rule>, glob: Glob) {
    !HiddenDir(child) && (child.name == ".gitignore" || !Ignores(rules, path + [child.name], child.node.Dir?, glob))
  }

  function EntryOf(child: Child, path: Path): Entry {
    Entry(child.name, path + [child.name], child.node.Dir?, child.meta, child.meta.None?, [])
  }

  ghost function Listing(children: seq<Child>, path: Path, rules: seq<Rule>, glob: Glob): seq<Entry> {
    if children == [] then []
    else
      var last := children[|children| - 1];
      Listing(children[..|children| - 1], path, rules, glob) + (if Shown(last, path, rules, glob) then [EntryOf(last, path)] else [])
  }

  // buildEntries: one level, arranged; None when the directory cannot be listed.
  ghost function Level(node: Option<Node>, path: Path, rules: seq<Rule>, h: Host): Option<seq<Entry>> {
    if node.Some? && node.value.Dir? && node.value.listable then Some(h.arrange(Listing(node.value.children, path, rules, h.glob)))
    else None
  }

  method BuildEntries(node: Option<Node>, path: Path, rules: seq<Rule>, h: Host) returns (level: Option<seq<Entry>>)
    ensures level == Level(node, path, rules, h)
  {
    hide Ignores;
    if !(node.Some? && node.value.Dir? && node.value.listable) {
      return None;
    }
    var children := node.value.children;
    var entries: seq<Entry> := [];
    for i := 0 to |children|
      invariant entries == Listing(children[..i], path, rules, h.glob)
    {
      var child := children[i];
      assert children[..i + 1][..i] == children[..i];
      if HiddenDir(child) {
        continue;
      }
      var full := path + [child.name];
      if child.name != ".gitignore" {
        var ignored := ShouldIgnore(full, child.node.Dir?, rules, h.glob);
        if ignored {
          continue;
        }
      }
      entries := entries + [EntryOf(child, path)];
    }
    assert children[..|children|] == children;
    return Some(h.arrange(entries));
  }

  // ----- the recursive reader -------------------------------------------------------------------

  // What recursion makes of one entry of a level.
  ghost function Filled(node: Node, e: Entry, rules: seq<Rule>, h: Host): Entry
    decreases node, 0, 0
  {
    if !e.isDir || e.unreadable then e
    else
      var child := Step(Some(node), e.name);
      var below := if child.Some? then Tree(child.value, e.path, rules, h) else None;
      if below.None? then e.(unreadable := true) else e.(children := below.value)
  }

  ghost function FilledAll(node: Node, es: seq<Entry>, rules: seq<Rule>, h: Host): (filled: seq<Entry>)
    ensures |filled| == |es| && forall i :: 0 <= i < |es| ==> filled[i] == Filled(node, es[i], rules, h)
    decreases node, 1, |es|
  {
    if es == [] then [] else [Filled(node, es[0], rules, h)] + FilledAll(node, es[1..], rules, h)
  }

  // readDirRecursive: the level with the tree below each readable directory.
  ghost function Tree(node: Node, path: Path, inherited: seq<Rule>, h: Host): Option<seq<Entry>>
    decreases node, 2, 0
  {
    var rules := inherited + LocalRules(Some(node), path);
    var level := Level(Some(node), path, rules, h);
    if level.None? then None else Some(FilledAll(node, level.value, rules, h))
  }

  method ReadDirRecursive(node: Node, path: Path, inherited: seq<Rule>, h: Host) returns (r: Option<seq<Entry>>)
    ensures r == Tree(node, path, inherited, h)
    decreases node
  {
    hide Level, LocalRules;
    var rules := inherited + LocalRules(Some(node), path);
    var level := BuildEntries(Some(node), path, rules, h);
    if level.None? {
      return None;
    }
    var entries := level.value;
    var i := 0;
    while i < |entries|
      invariant i <= |entries| == |level.value|
      invariant forall k :: 0 <= k < i ==> entries[k] == Filled(node, level.value[k], rules, h)
      invariant forall k :: i <= k < |entries| ==> entries[k] == level.value[k]
    {
      var e := entries[i];
      if e.isDir && !e.unreadable {
        var child := Step(Some(node), e.name);
        var below: Option<seq<Entry>> := None;
        if child.Some? {
          below := ReadDirRecursive(child.value, e.path, rules, h);
        }
        if below.None? {
          entries := entries[i := e.(unreadable := true)];
        } else {
          entries := entries[i := e.(children := below.value)];
        }
      }
      i := i + 1;
    }
    assert entries == FilledAll(node, level.value, rules, h);
    return Some(entries);
  }

  // ----- the shallow reader ---------------------------------------------------------------------

  // The rules in force in a directory below the root: those of every directory from the root down to it.
  function RulesAt(root: Node, rootPath: Path, names: Path): seq<Rule> {
    if names == [] then LocalRules(Some(root), rootPath)
    else RulesAt(root, rootPath, names[..|names| - 1]) + LocalRules(Lookup(root, names), rootPath + names)
  }

  // A directory on the way down that the rules of those above it ignore.
  ghost predicate IgnoredAt(root: Node, rootPath: Path, names: Path, k: nat, glob: Glob)
    requires 0 < k <= |names|
  {
    Ignores(RulesAt(root, rootPath, names[..k - 1]), rootPath + names[..k], true, glob)
  }

  ghost predicate IgnoredAncestor(root: Node, rootPath: Path, names: Path, glob: Glob) {
    exists k :: 0 < k <= |names| && IgnoredAt(root, rootPath, names, k, glob)
  }

  ghost function Shallow(root: Node, rootPath: Path, names: Path, h: Host): Option<seq<Entry>> {
    if IgnoredAncestor(root, rootPath, names, h.glob) then Some([])
    else Level(Lookup(root, names), rootPath + names, RulesAt(root, rootPath, names), h)
  }

  method LoadGitignoreRules(root: Node, rootPath: Path, names: Path, glob: Glob) returns (rules: seq<Rule>, ignored: bool)
    ensures ignored <==> IgnoredAncestor(root, rootPath, names, glob)
    ensures !ignored ==> rules == RulesAt(root, rootPath, names)
  {
    hide Ignores, Lookup, LocalRules;
    rules := LocalRules(Some(root), rootPath);
    for i := 0 to |names|
      invariant rules == RulesAt(root, rootPath, names[..i])
      invariant forall k :: 0 < k <= i ==> !IgnoredAt(root, rootPath, names, k, glob)
    {
      var current := rootPath + names[..i + 1];
      assert names[..i + 1][..i] == names[..i];
      ignored := ShouldIgnore(current, true, rules, glob);
      assert ignored <==> IgnoredAt(root, rootPath, names, i + 1, glob);
      if ignored {
        return rules, true;
      }
      rules := rules + LocalRules(Lookup(root, names[..i + 1]), current);
    }
    assert names[..|names|] == names;
    return rules, false;
  }

  method ReadDirectoryShallow(root: Node, rootPath: Path, names: Path, h: Host) returns (r: Option<seq<Entry>>)
    ensures r == Shallow(root, rootPath, names, h)
  {
    hide Level, IgnoredAncestor, RulesAt;
    var rules, ignored := LoadGitignoreRules(root, rootPath, names, h.glob);
    if ignored {
      return Some([]);
    }
    r := BuildEntries(Lookup(root, names), rootPath + names, rules, h);
  }
}
