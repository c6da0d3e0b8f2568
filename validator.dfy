/** `FileSystemValidator`: a directory tree is scanned into nested mappings
    from names to sub-trees, 'link', 'file' or None, and then validated by a
    schema followed by extra checks. The filesystem is an abstract tree: a
    node says whether the path itself is a symbolic link and what the path
    resolves to (a directory with its entries, a regular file, or anything
    else, such as a broken link or a device). */
module Validator {
  import opened Common

  /** Directory entry names are never empty. */
  type Name = s: string | |s| > 0 witness "a"

  datatype Node = Node(isSymlink: bool, target: Target)

  datatype Target = Directory(entries: seq<Entry>) | RegularFile | Special

  datatype Entry = Entry(name: Name, node: Node)

  /** What `scan` returns: a dict, the strings 'link' and 'file', or None. */
  datatype Scanned = Tree(children: map<string, Scanned>) | Link | File | Null

  /** Names that scan to None (`IGNORED`). */
  const Ignored: seq<string> := [".git"]

  /** The comprehension's filter `child.name[0] not in IGNORED`: the first
      character, as a one-character string, is looked up among the ignored
      names. */
  predicate KeepChild(name: Name)
  {
    [name[0]] !in Ignored
  }

  /** `scan(path)` for a path with the given name. The directory test comes
      first (and follows links), then the link test, then the file test. */
  function Scan(name: string, node: Node): Scanned
    decreases node, 1
  {
    if name in Ignored then Null
    else match node.target
      case Directory(entries) => Tree(ScanEntries(entries))
      case RegularFile => if node.isSymlink then Link else File
      case Special => if node.isSymlink then Link else Null
  }

  /** The dict comprehension over `iterdir()`, entry by entry; a repeated
      name keeps the value of its last entry, as a Python dict does. */
  function ScanEntries(entries: seq<Entry>): map<string, Scanned>
    decreases entries, 0
  {
    if entries == [] then map[]
    else
      var last := entries[|entries| - 1];
      var prefix := ScanEntries(entries[..|entries| - 1]);
      if KeepChild(last.name) then prefix[last.name := Scan(last.name, last.node)] else prefix
  }

  /** The first-character filter never excludes anything: a one-character
      string can never equal ".git". */
  lemma KeepChildAlways(name: Name)
    ensures KeepChild(name)
  {
    assert |[name[0]]| == 1 && |Ignored[0]| == 4;
  }

  /** The keys of a scanned directory are exactly its entries' names. */
  lemma {:induction false} ScanEntriesKeys(entries: seq<Entry>)
    ensures forall k :: k in ScanEntries(entries) <==> exists i :: 0 <= i < |entries| && entries[i].name == k
  {
    if entries != [] {
      var n := |entries|;
      var init := entries[..n - 1];
      ScanEntriesKeys(init);
      KeepChildAlways(entries[n - 1].name);
      forall k | k in ScanEntries(entries) ensures exists i :: 0 <= i < n && entries[i].name == k {
        if k != entries[n - 1].name {
          assert ScanEntries(entries) == ScanEntries(init)[entries[n - 1].name := Scan(entries[n - 1].name, entries[n - 1].node)];
          assert k in ScanEntries(init);
          var i :| 0 <= i < n - 1 && init[i].name == k;
          assert entries[i].name == k;
        }
      }
      forall k | exists i :: 0 <= i < n && entries[i].name == k ensures k in ScanEntries(entries) {
        var i :| 0 <= i < n && entries[i].name == k;
        if i < n - 1 {
          assert init[i].name == k;
        }
      }
    }
  }

  /** Each name maps to the scan of the last entry with that name. */
  lemma {:induction false} ScanEntriesValues(entries: seq<Entry>, i: nat)
    requires i < |entries|
    requires forall j :: i < j < |entries| ==> entries[j].name != entries[i].name
    ensures entries[i].name in ScanEntries(entries)
    ensures ScanEntries(entries)[entries[i].name] == Scan(entries[i].name, entries[i].node)
  {
    var n := |entries|;
    KeepChildAlways(entries[n - 1].name);
    if i < n - 1 {
      var init := entries[..n - 1];
      assert init[i] == entries[i];
      ScanEntriesValues(init, i);
    }
  }

  /** A directory scans to a mapping keyed by exactly its children's names
      (an empty directory to an empty mapping), whether or not the path is
      itself a link: `is_dir` is asked before `is_symlink`. */
  lemma ScanDirectory(name: string, node: Node)
    requires name !in Ignored && node.target.Directory?
    ensures Scan(name, node).Tree?
    ensures forall k :: k in Scan(name, node).children <==>
              exists i :: 0 <= i < |node.target.entries| && node.target.entries[i].name == k
    ensures node.target.entries == [] ==> Scan(name, node).children == map[]
  {
    ScanEntriesKeys(node.target.entries);
  }

  /** A path named `.git` scans to None, so inside a directory it stays as
      a key whose value is None instead of being dropped. */
  lemma ScanGit(entries: seq<Entry>, i: nat, node: Node)
    requires i < |entries| && entries[i].name == ".git"
    requires forall j :: i < j < |entries| ==> entries[j].name != ".git"
    ensures Scan(".git", node) == Null
    ensures ".git" in ScanEntries(entries) && ScanEntries(entries)[".git"] == Null
  {
    ScanEntriesValues(entries, i);
  }

  /** Anything that is not a directory: a link scans to 'link', a regular
      file that is not a link to 'file', and anything else to None. */
  lemma ScanLeaf(name: string, node: Node)
    requires name !in Ignored && !node.target.Directory?
    ensures Scan(name, node) == Link <==> node.isSymlink
    ensures Scan(name, node) == File <==> !node.isSymlink && node.target.RegularFile?
    ensures Scan(name, node) == Null <==> !node.isSymlink && node.target.Special?
  {
  }

  /** The validator: `tree` is the scan of the root, computed once. */
  class FileSystemValidator {
    const rootName: string
    const root: Node
    const tree: Scanned

    constructor(rootName: string, root: Node)
      ensures this.rootName == rootName && this.root == root
      ensures tree == Scan(rootName, root)
    {
      this.rootName := rootName;
      this.root := root;
      this.tree := Scan(rootName, root);
    }

    /** `validate`: the schema is run on the tree first; only when it
        passes are the extra checks run, and their outcome is the result. */
    method Validate<E>(schema: Scanned -> Outcome<E>, extraChecks: Scanned -> Outcome<E>) returns (r: Outcome<E>)
      ensures schema(tree).Fail? ==> r == schema(tree)
      ensures schema(tree).Pass? ==> r == extraChecks(tree)
    {
      r := schema(tree);
      if r.Pass? {
        r := extraChecks(tree);
      }
    }
  }

  /** The default `perform_extra_checks`: it accepts every tree. */
  function PerformExtraChecks<E>(tree: Scanned): (r: Outcome<E>)
    ensures r.Pass?
  {
    Pass
  }

  /** With the default extra checks, validation is the schema's verdict. */
  method ValidateDefault<E>(v: FileSystemValidator, schema: Scanned -> Outcome<E>) returns (r: Outcome<E>)
    ensures r == schema(v.tree)
  {
    r := v.Validate(schema, PerformExtraChecks);
  }
}
