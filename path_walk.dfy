/**
 * PathTreeWalk: the lazy sequence returned by Path.walk, in depth-first
 * order (a stack of per-directory states) or breadth-first order (a queue of
 * paths with `null` separators between depths).
 *
 * The file system is an abstract finite tree below the start path: the start
 * is missing, a file, or a directory whose entries are named subtrees.  A
 * path is the list of names from the start down (the start itself is []),
 * and isDirectory, exists and listDirectoryEntries are lookups in the tree.
 * Symbolic links, FOLLOW_LINKS and I/O errors are not part of this model.
 */
module PathTreeWalk {
  import opened Wrappers

  /** Names below the start path; [] is the start path itself. */
  type Path = seq<string>

  datatype Node = File | Directory(entries: seq<Entry>)
  datatype Entry = Entry(name: string, node: Node)

  /** PathWalkOption */
  datatype PathWalkOption = IncludeDirectories | Bfs | FollowLinks

  /** The entries of a directory have distinct names, at every level. */
  predicate WellFormed(n: Node)
  {
    match n
    case File => true
    case Directory(es) =>
      && (forall i, j | 0 <= i < j < |es| :: es[i].name != es[j].name)
      && (forall i | 0 <= i < |es| :: WellFormed(es[i].node))
  }

  predicate WellFormedStart(fs: Option<Node>)
  {
    fs.Some? ==> WellFormed(fs.value)
  }

  /** The entry of a directory with the given name. */
  function Child(es: seq<Entry>, name: string): Option<Node>
  {
    if es == [] then None
    else if es[0].name == name then Some(es[0].node)
    else Child(es[1..], name)
  }

  /** What is found at path `p` below the node `n` (None when nothing exists there). */
  function Lookup(n: Option<Node>, p: Path): Option<Node>
    decreases |p|
  {
    if p == [] then n
    else if n.Some? && n.value.Directory? then Lookup(Child(n.value.entries, p[0]), p[1..])
    else None
  }

  predicate IsDirectory(fs: Option<Node>, p: Path)
  {
    var n := Lookup(fs, p);
    n.Some? && n.value.Directory?
  }

  predicate Exists(fs: Option<Node>, p: Path)
  {
    Lookup(fs, p).Some?
  }

  /** The paths of the entries of a directory at `p`, in listing order. */
  function EntryPaths(p: Path, es: seq<Entry>): (r: seq<Path>)
    ensures |r| == |es|
  {
    seq(|es|, i requires 0 <= i < |es| => p + [es[i].name])
  }

  /** listDirectoryEntries on a directory. */
  function ListDirectoryEntries(fs: Option<Node>, p: Path): seq<Path>
    requires IsDirectory(fs, p)
  {
    EntryPaths(p, Lookup(fs, p).value.entries)
  }

  // ---------------------------------------------------------------------
  // Depth-first order.

  /** The paths a depth-first walk yields for the node `n` at path `p`: the
      directory first when directories are included, then each entry's walk
      in listing order. */
  function DfsOrder(n: Node, p: Path, includeDirectories: bool): seq<Path>
    decreases n, 1
  {
    match n
    case File => [p]
    case Directory(es) => (if includeDirectories then [p] else []) + EntriesOrder(es, p, includeDirectories, 0)
  }

  /** The walks of the entries es[i..] of the directory at `p`, concatenated. */
  function EntriesOrder(es: seq<Entry>, p: Path, includeDirectories: bool, i: nat): seq<Path>
    requires i <= |es|
    decreases es, |es| - i
  {
    if i == |es| then []
    else DfsOrder(es[i].node, p + [es[i].name], includeDirectories) + EntriesOrder(es, p, includeDirectories, i + 1)
  }

  /** The depth-first walk of the start: nothing when it does not exist, the
      start alone when it is not a directory. */
  function DfsWalkOrder(fs: Option<Node>, includeDirectories: bool): (r: seq<Path>)
    ensures fs.None? ==> r == []
    ensures fs == Some(File) ==> r == [[]]
  {
    if fs.None? then [] else DfsOrder(fs.value, [], includeDirectories)
  }

  /** A size that every step of the depth-first walk decreases. */
  function NodeSize(n: Node): nat
    decreases n, 1
  {
    match n
    case File => 1
    case Directory(es) => 4 + EntriesSize(es, 0)
  }

  function EntriesSize(es: seq<Entry>, i: nat): nat
    requires i <= |es|
    decreases es, |es| - i
  {
    if i == |es| then 0 else NodeSize(es[i].node) + EntriesSize(es, i + 1)
  }

  // ---------------------------------------------------------------------
  // Lookups in a well-formed tree.

  lemma {:induction false} ChildFinds(es: seq<Entry>, i: nat)
    requires forall j, k | 0 <= j < k < |es| :: es[j].name != es[k].name
    requires i < |es|
    ensures Child(es, es[i].name) == Some(es[i].node)
  {
    if i > 0 {
      assert es[0].name != es[i].name;
      assert es[1..][i - 1] == es[i];
      ChildFinds(es[1..], i - 1);
    }
  }

  lemma {:induction false} ChildWellFormed(es: seq<Entry>, name: string)
    requires forall i | 0 <= i < |es| :: WellFormed(es[i].node)
    ensures WellFormedStart(Child(es, name))
  {
    if es != [] && es[0].name != name {
      assert forall i | 0 <= i < |es[1..]| :: es[1..][i] == es[i + 1];
      ChildWellFormed(es[1..], name);
    }
  }

  /** Looking up p + q is looking up q below what p finds. */
  lemma {:induction false} LookupAppend(n: Option<Node>, p: Path, q: Path)
    ensures Lookup(n, p + q) == Lookup(Lookup(n, p), q)
    decreases |p|
  {
    if q == [] {
      assert p + q == p;
    } else if p == [] {
      assert p + q == q;
    } else {
      assert (p + q)[0] == p[0] && (p + q)[1..] == p[1..] + q;
      if n.Some? && n.value.Directory? {
        LookupAppend(Child(n.value.entries, p[0]), p[1..], q);
      } else {
        assert p + q != [];
        assert Lookup(n, p) == None && Lookup(n, p + q) == None;
      }
    }
  }

  /** Every entry of a directory is found under the directory's path plus its name. */
  lemma LookupEntry(fs: Option<Node>, p: Path, i: nat)
    requires IsDirectory(fs, p) && WellFormed(Lookup(fs, p).value)
    requires i < |Lookup(fs, p).value.entries|
    ensures Lookup(fs, p + [Lookup(fs, p).value.entries[i].name]) == Some(Lookup(fs, p).value.entries[i].node)
  {
    var es := Lookup(fs, p).value.entries;
    LookupAppend(fs, p, [es[i].name]);
    ChildFinds(es, i);
  }

  /** What a lookup finds in a well-formed tree is well formed. */
  lemma {:induction false} LookupWellFormed(fs: Option<Node>, p: Path)
    requires WellFormedStart(fs)
    ensures WellFormedStart(Lookup(fs, p))
    decreases |p|
  {
    if p != [] && fs.Some? && fs.value.Directory? {
      ChildWellFormed(fs.value.entries, p[0]);
      LookupWellFormed(Child(fs.value.entries, p[0]), p[1..]);
    }
  }

  // ---------------------------------------------------------------------
  // The depth-first iterator.

  /** WalkState and its two subclasses: a directory being listed, with its
      visitRoot, fileList and fileIndex fields, and a single file with its
      visited flag.  The failed flag of DirectoryState only matters after an
      IOException and is not part of this model. */
  datatype WalkState =
    | DirectoryState(root: Path, visitRoot: bool, fileList: Option<seq<Path>>, fileIndex: nat)
    | SingleFileState(root: Path, visited: bool)

  /** A state the iterator can hold: a DirectoryState is on a directory whose
      listing, once taken, is its entries; a SingleFileState is on a file. */
  predicate StateValid(fs: Option<Node>, s: WalkState)
  {
    match s
    case DirectoryState(root, visitRoot, fileList, fileIndex) =>
      && IsDirectory(fs, root) && WellFormed(Lookup(fs, root).value)
      && fileIndex <= |Lookup(fs, root).value.entries|
      && (fileList.Some? ==> fileList.value == ListDirectoryEntries(fs, root))
      && (fileList.None? ==> fileIndex == 0)
    case SingleFileState(root, _) => Lookup(fs, root) == Some(File)
  }

  /** step(): the next path of a state, or None when it has none left, and
      the state after the call. */
  function Step(fs: Option<Node>, s: WalkState): (Option<Path>, WalkState)
    requires StateValid(fs, s)
  {
    match s
    case SingleFileState(root, visited) =>
      if visited then (None, s) else (Some(root), SingleFileState(root, true))
    case DirectoryState(root, visitRoot, fileList, fileIndex) =>
      if visitRoot then (Some(root), DirectoryState(root, false, fileList, fileIndex))
      else
        var list := if fileList.None? then ListDirectoryEntries(fs, root) else fileList.value;
        if fileIndex < |list| then (Some(list[fileIndex]), DirectoryState(root, false, Some(list), fileIndex + 1))
        else (None, DirectoryState(root, false, Some(list), fileIndex))
  }

  /** The entries of the directory at `p` (none when it is not a directory). */
  function EntriesAt(fs: Option<Node>, p: Path): seq<Entry>
  {
    if IsDirectory(fs, p) then Lookup(fs, p).value.entries else []
  }

  /** The paths the depth-first walk still yields from one state. */
  function StateOutput(fs: Option<Node>, includeDirectories: bool, s: WalkState): seq<Path>
  {
    match s
    case DirectoryState(root, visitRoot, _, fileIndex) =>
      (if visitRoot then [root] else [])
        + (if fileIndex <= |EntriesAt(fs, root)| then EntriesOrder(EntriesAt(fs, root), root, includeDirectories, fileIndex)
           else [])
    case SingleFileState(root, visited) => if visited then [] else [root]
  }

  function StateWork(fs: Option<Node>, s: WalkState): nat
  {
    match s
    case DirectoryState(root, visitRoot, fileList, fileIndex) =>
      1 + (if visitRoot then 1 else 0) + (if fileList.None? then 1 else 0)
        + (if fileIndex <= |EntriesAt(fs, root)| then EntriesSize(EntriesAt(fs, root), fileIndex) else 0)
    case SingleFileState(_, visited) => if visited then 1 else 2
  }

  predicate StackValid(fs: Option<Node>, stack: seq<WalkState>)
  {
    stack != [] ==> StateValid(fs, stack[|stack| - 1]) && StackValid(fs, stack[..|stack| - 1])
  }

  /** The paths the depth-first walk still yields: the top state's first. */
  function StackOutput(fs: Option<Node>, includeDirectories: bool, stack: seq<WalkState>): seq<Path>
  {
    if stack == [] then []
    else StateOutput(fs, includeDirectories, stack[|stack| - 1])
         + StackOutput(fs, includeDirectories, stack[..|stack| - 1])
  }

  function StackWork(fs: Option<Node>, stack: seq<WalkState>): nat
  {
    if stack == [] then 0 else StateWork(fs, stack[|stack| - 1]) + StackWork(fs, stack[..|stack| - 1])
  }

  lemma ConcatAssociates<T>(a: seq<T>, b: seq<T>, c: seq<T>)
    ensures (a + b) + c == a + (b + c)
  {
  }

  /** Pushing a state on the stack puts its paths first. */
  lemma StackPush(fs: Option<Node>, includeDirectories: bool, rest: seq<WalkState>, top: WalkState)
    ensures StackValid(fs, rest + [top]) <==> StackValid(fs, rest) && StateValid(fs, top)
    ensures StackOutput(fs, includeDirectories, rest + [top])
         == StateOutput(fs, includeDirectories, top) + StackOutput(fs, includeDirectories, rest)
    ensures StackWork(fs, rest + [top]) == StateWork(fs, top) + StackWork(fs, rest)
  {
    assert (rest + [top])[..|rest|] == rest;
  }

  /** Replacing the top state by one with the same paths but the first. */
  lemma ReplaceTopOutput(fs: Option<Node>, includeDirectories: bool, stack: seq<WalkState>, next: WalkState, p: Path)
    requires StackValid(fs, stack) && stack != [] && StateValid(fs, next)
    requires StateOutput(fs, includeDirectories, stack[|stack| - 1]) == [p] + StateOutput(fs, includeDirectories, next)
    ensures StackValid(fs, stack[..|stack| - 1] + [next])
    ensures StackOutput(fs, includeDirectories, stack)
         == [p] + StackOutput(fs, includeDirectories, stack[..|stack| - 1] + [next])
  {
    var rest := stack[..|stack| - 1];
    StackPush(fs, includeDirectories, rest, next);
    ConcatAssociates([p], StateOutput(fs, includeDirectories, next), StackOutput(fs, includeDirectories, rest));
  }

  /** Replacing the top state and pushing a state above it, with the same
      paths between them, at less work. */
  lemma ReplaceTopAndPushOutput(fs: Option<Node>, includeDirectories: bool, stack: seq<WalkState>,
                                next: WalkState, pushed: WalkState)
    requires StackValid(fs, stack) && stack != [] && StateValid(fs, next) && StateValid(fs, pushed)
    requires StateOutput(fs, includeDirectories, stack[|stack| - 1])
          == StateOutput(fs, includeDirectories, pushed) + StateOutput(fs, includeDirectories, next)
    requires StateWork(fs, next) + StateWork(fs, pushed) < StateWork(fs, stack[|stack| - 1])
    ensures StackValid(fs, stack[..|stack| - 1] + [next] + [pushed])
    ensures StackOutput(fs, includeDirectories, stack)
         == StackOutput(fs, includeDirectories, stack[..|stack| - 1] + [next] + [pushed])
    ensures StackWork(fs, stack[..|stack| - 1] + [next] + [pushed]) < StackWork(fs, stack)
  {
    var rest := stack[..|stack| - 1];
    StackPush(fs, includeDirectories, rest, next);
    StackPush(fs, includeDirectories, rest + [next], pushed);
    ConcatAssociates(StateOutput(fs, includeDirectories, pushed), StateOutput(fs, includeDirectories, next),
                     StackOutput(fs, includeDirectories, rest));
  }

  /** A new DirectoryState on a directory stands for the directory's whole
      walk, at less work than the directory's size. */
  lemma FreshDirectoryState(fs: Option<Node>, includeDirectories: bool, p: Path)
    requires IsDirectory(fs, p) && WellFormed(Lookup(fs, p).value)
    ensures StateValid(fs, DirectoryState(p, includeDirectories, None, 0))
    ensures StateOutput(fs, includeDirectories, DirectoryState(p, includeDirectories, None, 0))
         == DfsOrder(Lookup(fs, p).value, p, includeDirectories)
    ensures StateWork(fs, DirectoryState(p, includeDirectories, None, 0)) < NodeSize(Lookup(fs, p).value)
  {
  }

  /** The step of a DirectoryState onto entry `i` of its listing: the
      entry's path, what is found there, and how the rest of the state's
      walk splits around it. */
  lemma EntryStep(fs: Option<Node>, includeDirectories: bool, root: Path, i: nat)
    requires IsDirectory(fs, root) && WellFormed(Lookup(fs, root).value)
    requires i < |Lookup(fs, root).value.entries|
    ensures var es := Lookup(fs, root).value.entries;
            var q := ListDirectoryEntries(fs, root)[i];
            && q == root + [es[i].name] && q != root
            && Lookup(fs, q) == Some(es[i].node) && WellFormed(es[i].node)
            && EntriesOrder(es, root, includeDirectories, i)
               == DfsOrder(es[i].node, q, includeDirectories) + EntriesOrder(es, root, includeDirectories, i + 1)
            && EntriesSize(es, i) == NodeSize(es[i].node) + EntriesSize(es, i + 1)
  {
    LookupEntry(fs, root, i);
    assert |ListDirectoryEntries(fs, root)[i]| == |root| + 1;
  }

  /** A state whose step yields nothing has no paths left. */
  lemma StepExhausted(fs: Option<Node>, includeDirectories: bool, s: WalkState)
    requires StateValid(fs, s) && Step(fs, s).0.None?
    ensures StateOutput(fs, includeDirectories, s) == []
  {
  }

  /** A step that yields the state's root or a non-directory entry: that
      path is the next of the walk. */
  lemma StepYields(fs: Option<Node>, includeDirectories: bool, s: WalkState)
    requires StateValid(fs, s) && Step(fs, s).0.Some?
    requires Step(fs, s).0.value == s.root || !IsDirectory(fs, Step(fs, s).0.value)
    ensures StateValid(fs, Step(fs, s).1)
    ensures StateOutput(fs, includeDirectories, s) == [Step(fs, s).0.value] + StateOutput(fs, includeDirectories, Step(fs, s).1)
  {
    match s
    case SingleFileState(root, visited) =>
    case DirectoryState(root, visitRoot, fileList, fileIndex) =>
      if !visitRoot && fileIndex < |Lookup(fs, root).value.entries| {
        ListedFileStep(fs, includeDirectories, root, fileList, fileIndex);
      }
  }

  lemma ListedFileStep(fs: Option<Node>, includeDirectories: bool, root: Path, fileList: Option<seq<Path>>, i: nat)
    requires StateValid(fs, DirectoryState(root, false, fileList, i))
    requires i < |Lookup(fs, root).value.entries|
    requires !IsDirectory(fs, ListDirectoryEntries(fs, root)[i])
    ensures var list := ListDirectoryEntries(fs, root);
            StateOutput(fs, includeDirectories, DirectoryState(root, false, fileList, i))
            == [list[i]] + StateOutput(fs, includeDirectories, DirectoryState(root, false, Some(list), i + 1))
  {
    EntryStep(fs, includeDirectories, root, i);
    var es := Lookup(fs, root).value.entries;
    var rest := EntriesOrder(es, root, includeDirectories, i + 1);
    assert [] + rest == rest;
  }

  /** A step onto a sub-directory entry: that directory's whole walk comes
      next, and the state keeps less work than it had. */
  lemma StepDescends(fs: Option<Node>, includeDirectories: bool, s: WalkState)
    requires StateValid(fs, s) && Step(fs, s).0.Some?
    requires Step(fs, s).0.value != s.root && IsDirectory(fs, Step(fs, s).0.value)
    ensures var q := Step(fs, s).0.value;
            && StateValid(fs, Step(fs, s).1)
            && WellFormed(Lookup(fs, q).value)
            && StateOutput(fs, includeDirectories, s)
               == DfsOrder(Lookup(fs, q).value, q, includeDirectories) + StateOutput(fs, includeDirectories, Step(fs, s).1)
            && StateWork(fs, Step(fs, s).1) + NodeSize(Lookup(fs, q).value) <= StateWork(fs, s)
  {
    var DirectoryState(root, visitRoot, fileList, fileIndex) := s;
    EntryStep(fs, includeDirectories, root, fileIndex);
    var es := Lookup(fs, root).value.entries;
    assert [] + EntriesOrder(es, root, includeDirectories, fileIndex + 1)
        == EntriesOrder(es, root, includeDirectories, fileIndex + 1);
  }

  /** DSFPathTreeWalkIterator: the stack of walk states, top last. */
  class DfsIterator {
    const fs: Option<Node>
    const includeDirectories: bool
    var state: seq<WalkState>

    predicate Valid()
      reads this
    {
      WellFormedStart(fs) && StackValid(fs, state)
    }

    /** The paths still to come. */
    function Pending(): seq<Path>
      reads this
    {
      StackOutput(fs, includeDirectories, state)
    }

    /** init: a directory start gets a DirectoryState, an existing file a
        SingleFileState, and a missing start nothing. */
    constructor(start: Option<Node>, options: seq<PathWalkOption>)
      requires WellFormedStart(start)
      ensures Valid()
      ensures fs == start && includeDirectories == (IncludeDirectories in options)
      ensures Pending() == DfsWalkOrder(start, includeDirectories)
    {
      fs := start;
      includeDirectories := IncludeDirectories in options;
      if IsDirectory(start, []) {
        state := [DirectoryState([], IncludeDirectories in options, None, 0)];
      } else if Exists(start, []) {
        state := [SingleFileState([], false)];
      } else {
        state := [];
      }
      new;
      if state != [] {
        StackPush(fs, includeDirectories, [], state[0]);
        assert [] + [state[0]] == state;
      }
    }

    function Top(): WalkState
      reads this
      requires state != []
    {
      state[|state| - 1]
    }

    /** state.removeLast() of an exhausted state. */
    method PopTop()
      requires Valid() && state != [] && StateOutput(fs, includeDirectories, Top()) == []
      modifies this
      ensures Valid()
      ensures Pending() == old(Pending()) && StackWork(fs, state) < old(StackWork(fs, state))
    {
      var rest := state[..|state| - 1];
      assert rest + [Top()] == state;
      StackPush(fs, includeDirectories, rest, Top());
      state := rest;
    }

    /** The top state after step() yielded its next path `p`. */
    method ReplaceTop(next: WalkState, p: Path)
      requires Valid() && state != [] && StateValid(fs, next)
      requires StateOutput(fs, includeDirectories, Top()) == [p] + StateOutput(fs, includeDirectories, next)
      modifies this
      ensures Valid()
      ensures old(Pending()) == [p] + Pending()
    {
      ReplaceTopOutput(fs, includeDirectories, state, next, p);
      state := state[..|state| - 1] + [next];
    }

    /** The top state after step() yielded a sub-directory, and a new state
        for that sub-directory pushed above it. */
    method ReplaceTopAndPush(next: WalkState, pushed: WalkState)
      requires Valid() && state != [] && StateValid(fs, next) && StateValid(fs, pushed)
      requires StateOutput(fs, includeDirectories, Top())
            == StateOutput(fs, includeDirectories, pushed) + StateOutput(fs, includeDirectories, next)
      requires StateWork(fs, next) + StateWork(fs, pushed) < StateWork(fs, Top())
      modifies this
      ensures Valid()
      ensures Pending() == old(Pending()) && StackWork(fs, state) < old(StackWork(fs, state))
    {
      ReplaceTopAndPushOutput(fs, includeDirectories, state, next, pushed);
      state := state[..|state| - 1] + [next] + [pushed];
    }

    /** One round of gotoNext on a non-empty stack: step the top state; pop
        it when it is exhausted, return its root or a non-directory entry,
        and push a state for a sub-directory entry. */
    method StepTop() returns (path: Option<Path>, found: bool)
      requires Valid() && state != []
      modifies this
      ensures Valid()
      ensures found ==> path.Some? && old(Pending()) == [path.value] + Pending()
      ensures !found ==> Pending() == old(Pending()) && StackWork(fs, state) < old(StackWork(fs, state))
    {
      var topState := Top();
      var stepped := Step(fs, topState);
      path := stepped.0;
      if path.None? {
        StepExhausted(fs, includeDirectories, topState);
        PopTop();
        found := false;
      } else if path.value == topState.root || !IsDirectory(fs, path.value) {
        StepYields(fs, includeDirectories, topState);
        ReplaceTop(stepped.1, path.value);
        found := true;
      } else {
        StepDescends(fs, includeDirectories, topState);
        FreshDirectoryState(fs, includeDirectories, path.value);
        ReplaceTopAndPush(stepped.1, DirectoryState(path.value, includeDirectories, None, 0));
        found := false;
      }
    }

    /** gotoNext: the next path of the walk, or None when it is over. */
    method GotoNext() returns (next: Option<Path>)
      requires Valid()
      modifies this
      ensures Valid()
      ensures next.None? <==> old(Pending()) == []
      ensures next.None? ==> Pending() == []
      ensures next.Some? ==> old(Pending()) == [next.value] + Pending()
    {
      while true
        invariant Valid()
        invariant Pending() == old(Pending())
        decreases StackWork(fs, state)
      {
        if state == [] {
          return None;
        }
        var path, found := StepTop();
        if found {
          return path;
        }
      }
    }
  }

  // ---------------------------------------------------------------------
  // Breadth-first order.

  /** A path in the queue with what is found there. */
  datatype Item = Item(path: Path, node: Option<Node>)

  /** The items of the entries es[i..] of the directory at `p`. */
  function ChildItems(p: Path, es: seq<Entry>, i: nat): seq<Item>
    requires i <= |es|
    decreases |es| - i
  {
    if i == |es| then [] else [Item(p + [es[i].name], Some(es[i].node))] + ChildItems(p, es, i + 1)
  }

  /** What queue.addAll(listDirectoryEntries) adds for an item: its entries
      when it is a directory. */
  function Children(item: Item): seq<Item>
  {
    if item.node.Some? && item.node.value.Directory? then ChildItems(item.path, item.node.value.entries, 0) else []
  }

  /** The next depth: the children of a depth's items, in queue order. */
  function Expand(level: seq<Item>): seq<Item>
  {
    if level == [] then [] else Children(level[0]) + Expand(level[1..])
  }

  /** What gotoNext yields when it takes an item off the queue: a directory
      only when directories are included, anything else (a file, or a path
      where nothing exists) always. */
  function ItemOutput(item: Item, includeDirectories: bool): seq<Path>
  {
    if item.node.Some? && item.node.value.Directory? then (if includeDirectories then [item.path] else [])
    else [item.path]
  }

  function LevelOutput(level: seq<Item>, includeDirectories: bool): seq<Path>
  {
    if level == [] then [] else ItemOutput(level[0], includeDirectories) + LevelOutput(level[1..], includeDirectories)
  }

  function ItemSize(item: Item): nat
  {
    if item.node.Some? then NodeSize(item.node.value) else 1
  }

  function LevelSize(level: seq<Item>): nat
  {
    if level == [] then 0 else ItemSize(level[0]) + LevelSize(level[1..])
  }

  lemma {:induction false} LevelSizeAppend(a: seq<Item>, b: seq<Item>)
    ensures LevelSize(a + b) == LevelSize(a) + LevelSize(b)
  {
    if a == [] {
      assert a + b == b;
    } else {
      assert (a + b)[0] == a[0] && (a + b)[1..] == a[1..] + b;
      LevelSizeAppend(a[1..], b);
    }
  }

  lemma {:induction false} ChildItemsSize(p: Path, es: seq<Entry>, i: nat)
    requires i <= |es|
    ensures LevelSize(ChildItems(p, es, i)) == EntriesSize(es, i)
    decreases |es| - i
  {
    if i < |es| {
      var c := ChildItems(p, es, i);
      assert c[0] == Item(p + [es[i].name], Some(es[i].node)) && c[1..] == ChildItems(p, es, i + 1);
      ChildItemsSize(p, es, i + 1);
    }
  }

  /** The next depth is smaller than the depth it comes from. */
  lemma {:induction false} ExpandShrinks(level: seq<Item>)
    ensures LevelSize(Expand(level)) + |level| <= LevelSize(level)
  {
    if level != [] {
      var item := level[0];
      if item.node.Some? && item.node.value.Directory? {
        ChildItemsSize(item.path, item.node.value.entries, 0);
      }
      LevelSizeAppend(Children(item), Expand(level[1..]));
      ExpandShrinks(level[1..]);
    }
  }

  /** The breadth-first walk from a depth: that depth's output, then the
      walk from the next depth. */
  function BfsFrom(level: seq<Item>, includeDirectories: bool): seq<Path>
    decreases LevelSize(level)
  {
    if level == [] then []
    else
      ExpandShrinks(level);
      LevelOutput(level, includeDirectories) + BfsFrom(Expand(level), includeDirectories)
  }

  /** The breadth-first walk as the iterator performs it: the queue starts
      with the start path whether or not it exists. */
  function BfsOrderAsWritten(fs: Option<Node>, includeDirectories: bool): seq<Path>
  {
    BfsFrom([Item([], fs)], includeDirectories)
  }

  /** The breadth-first walk as documented: nothing when the start does not
      exist, the start alone when it is not a directory. */
  function BfsOrder(fs: Option<Node>, includeDirectories: bool): (r: seq<Path>)
    ensures fs.None? ==> r == []
    ensures fs == Some(File) ==> r == [[]]
  {
    if fs.None? then []
    else
      assert fs == Some(File) ==> Expand([Item([], fs)]) == [];
      BfsOrderAsWritten(fs, includeDirectories)
  }

  // ---------------------------------------------------------------------
  // Properties of the two orders.

  /** What a walk may yield: a path where something exists, and no
      directory unless directories are included. */
  predicate Walked(fs: Option<Node>, includeDirectories: bool, q: Path)
  {
    Exists(fs, q) && (!includeDirectories ==> !IsDirectory(fs, q))
  }

  lemma {:induction false} DfsOrderWalked(fs: Option<Node>, n: Node, p: Path, includeDirectories: bool)
    requires Lookup(fs, p) == Some(n) && WellFormed(n)
    ensures forall q | q in DfsOrder(n, p, includeDirectories) :: Walked(fs, includeDirectories, q)
    decreases n, 1
  {
    match n
    case File =>
    case Directory(es) => EntriesOrderWalked(fs, es, p, includeDirectories, 0);
  }

  lemma {:induction false} EntriesOrderWalked(fs: Option<Node>, es: seq<Entry>, p: Path, includeDirectories: bool, i: nat)
    requires Lookup(fs, p) == Some(Directory(es)) && WellFormed(Directory(es)) && i <= |es|
    ensures forall q | q in EntriesOrder(es, p, includeDirectories, i) :: Walked(fs, includeDirectories, q)
    decreases es, |es| - i
  {
    if i < |es| {
      LookupEntry(fs, p, i);
      DfsOrderWalked(fs, es[i].node, p + [es[i].name], includeDirectories);
      EntriesOrderWalked(fs, es, p, includeDirectories, i + 1);
    }
  }

  /** The depth-first walk yields only existing paths, and directories only
      with INCLUDE_DIRECTORIES. */
  lemma DfsYieldsWalked(fs: Option<Node>, includeDirectories: bool)
    requires WellFormedStart(fs)
    ensures forall q | q in DfsWalkOrder(fs, includeDirectories) :: Walked(fs, includeDirectories, q)
  {
    if fs.Some? {
      DfsOrderWalked(fs, fs.value, [], includeDirectories);
    }
  }

  /** The depth-first walk of each item of a depth, concatenated (a missing
      item stands for its own path, as the breadth-first iterator yields it). */
  function ItemDfs(item: Item, includeDirectories: bool): seq<Path>
  {
    if item.node.Some? then DfsOrder(item.node.value, item.path, includeDirectories) else [item.path]
  }

  function LevelDfs(level: seq<Item>, includeDirectories: bool): seq<Path>
  {
    if level == [] then [] else ItemDfs(level[0], includeDirectories) + LevelDfs(level[1..], includeDirectories)
  }

  lemma {:induction false} LevelDfsAppend(a: seq<Item>, b: seq<Item>, includeDirectories: bool)
    ensures LevelDfs(a + b, includeDirectories) == LevelDfs(a, includeDirectories) + LevelDfs(b, includeDirectories)
  {
    if a == [] {
      assert a + b == b;
    } else {
      assert (a + b)[0] == a[0] && (a + b)[1..] == a[1..] + b;
      LevelDfsAppend(a[1..], b, includeDirectories);
      ConcatAssociates(ItemDfs(a[0], includeDirectories), LevelDfs(a[1..], includeDirectories),
                       LevelDfs(b, includeDirectories));
    }
  }

  lemma {:induction false} EntriesOrderIsLevelDfs(es: seq<Entry>, p: Path, includeDirectories: bool, i: nat)
    requires i <= |es|
    ensures EntriesOrder(es, p, includeDirectories, i) == LevelDfs(ChildItems(p, es, i), includeDirectories)
    decreases |es| - i
  {
    if i < |es| {
      var c := ChildItems(p, es, i);
      assert c[0] == Item(p + [es[i].name], Some(es[i].node)) && c[1..] == ChildItems(p, es, i + 1);
      EntriesOrderIsLevelDfs(es, p, includeDirectories, i + 1);
    }
  }

  /** An item's depth-first walk is its own output followed by the walks
      of its children. */
  lemma ItemDfsSplits(item: Item, includeDirectories: bool)
    ensures ItemDfs(item, includeDirectories)
         == ItemOutput(item, includeDirectories) + LevelDfs(Children(item), includeDirectories)
  {
    if item.node.Some? && item.node.value.Directory? {
      EntriesOrderIsLevelDfs(item.node.value.entries, item.path, includeDirectories, 0);
    } else {
      assert Children(item) == [];
      assert ItemOutput(item, includeDirectories) + [] == ItemOutput(item, includeDirectories);
    }
  }

  lemma {:induction false} LevelDfsSplits(level: seq<Item>, includeDirectories: bool)
    ensures multiset(LevelDfs(level, includeDirectories))
         == multiset(LevelOutput(level, includeDirectories)) + multiset(LevelDfs(Expand(level), includeDirectories))
  {
    if level != [] {
      ItemDfsSplits(level[0], includeDirectories);
      LevelDfsSplits(level[1..], includeDirectories);
      LevelDfsAppend(Children(level[0]), Expand(level[1..]), includeDirectories);
    }
  }

  lemma {:induction false} BfsFromIsLevelDfs(level: seq<Item>, includeDirectories: bool)
    ensures multiset(BfsFrom(level, includeDirectories)) == multiset(LevelDfs(level, includeDirectories))
    decreases LevelSize(level)
  {
    if level != [] {
      ExpandShrinks(level);
      BfsFromIsLevelDfs(Expand(level), includeDirectories);
      LevelDfsSplits(level, includeDirectories);
    }
  }

  /** Both orders yield the same paths, each as often: they differ only in
      order. */
  lemma BfsIsPermutationOfDfs(fs: Option<Node>, includeDirectories: bool)
    ensures multiset(BfsOrder(fs, includeDirectories)) == multiset(DfsWalkOrder(fs, includeDirectories))
  {
    if fs.Some? {
      var start := [Item([], fs)];
      BfsFromIsLevelDfs(start, includeDirectories);
      assert LevelDfs(start, includeDirectories) == DfsOrder(fs.value, [], includeDirectories) + [];
    }
  }

  /** The documented breadth-first walk yields only existing paths, and
      directories only with INCLUDE_DIRECTORIES. */
  lemma BfsYieldsWalked(fs: Option<Node>, includeDirectories: bool)
    requires WellFormedStart(fs)
    ensures forall q | q in BfsOrder(fs, includeDirectories) :: Walked(fs, includeDirectories, q)
  {
    BfsIsPermutationOfDfs(fs, includeDirectories);
    DfsYieldsWalked(fs, includeDirectories);
    forall q | q in BfsOrder(fs, includeDirectories)
      ensures Walked(fs, includeDirectories, q)
    {
      assert q in multiset(BfsOrder(fs, includeDirectories));
    }
  }

  /** The breadth-first iterator as written yields the start path when
      nothing exists there. */
  lemma BfsYieldsMissingStart(includeDirectories: bool)
    ensures BfsOrderAsWritten(None, includeDirectories) == [[]]
    ensures !Walked(None, includeDirectories, [])
  {
    var start := [Item([], None)];
    assert Expand(start) == [] && LevelOutput(start, includeDirectories) == [[]] + [];
  }

  predicate AtDepth(level: seq<Item>, d: nat)
  {
    forall k | 0 <= k < |level| :: |level[k].path| == d
  }

  /** The lengths of `ps` never decrease, and are all at least d. */
  predicate DepthOrdered(ps: seq<Path>, d: nat)
  {
    && (forall i | 0 <= i < |ps| :: d <= |ps[i]|)
    && (forall i, j | 0 <= i < j < |ps| :: |ps[i]| <= |ps[j]|)
  }

  lemma {:induction false} LevelOutputAtDepth(level: seq<Item>, d: nat, includeDirectories: bool)
    requires AtDepth(level, d)
    ensures forall q | q in LevelOutput(level, includeDirectories) :: |q| == d
  {
    if level != [] {
      LevelOutputAtDepth(level[1..], d, includeDirectories);
    }
  }

  lemma {:induction false} ChildItemsAtDepth(p: Path, es: seq<Entry>, i: nat)
    requires i <= |es|
    ensures AtDepth(ChildItems(p, es, i), |p| + 1)
    decreases |es| - i
  {
    if i < |es| {
      ChildItemsAtDepth(p, es, i + 1);
    }
  }

  lemma {:induction false} ExpandAtDepth(level: seq<Item>, d: nat)
    requires AtDepth(level, d)
    ensures AtDepth(Expand(level), d + 1)
  {
    if level != [] {
      var item := level[0];
      if item.node.Some? && item.node.value.Directory? {
        ChildItemsAtDepth(item.path, item.node.value.entries, 0);
      }
      ExpandAtDepth(level[1..], d);
      var a, b := Children(item), Expand(level[1..]);
      assert forall k | 0 <= k < |a + b| :: (a + b)[k] == (if k < |a| then a[k] else b[k - |a|]);
    }
  }

  lemma {:induction false} BfsFromDepthOrdered(level: seq<Item>, d: nat, includeDirectories: bool)
    requires AtDepth(level, d)
    ensures DepthOrdered(BfsFrom(level, includeDirectories), d)
    decreases LevelSize(level)
  {
    if level != [] {
      ExpandShrinks(level);
      ExpandAtDepth(level, d);
      BfsFromDepthOrdered(Expand(level), d + 1, includeDirectories);
      LevelOutputAtDepth(level, d, includeDirectories);
      DepthOrderedAppend(LevelOutput(level, includeDirectories), BfsFrom(Expand(level), includeDirectories), d);
    }
  }

  lemma DepthOrderedAppend(a: seq<Path>, b: seq<Path>, d: nat)
    requires forall q | q in a :: |q| == d
    requires DepthOrdered(b, d + 1)
    ensures DepthOrdered(a + b, d)
  {
    assert forall k | 0 <= k < |a| :: a[k] in a;
    assert forall k | 0 <= k < |a + b| :: (a + b)[k] == (if k < |a| then a[k] else b[k - |a|]);
  }

  /** The breadth-first walk yields the paths depth by depth: a path never
      comes after a longer one. */
  lemma BfsByDepth(fs: Option<Node>, includeDirectories: bool)
    ensures var r := BfsOrder(fs, includeDirectories);
            forall i, j | 0 <= i < j < |r| :: |r[i]| <= |r[j]|
  {
    BfsFromDepthOrdered([Item([], fs)], 0, includeDirectories);
  }

  // ---------------------------------------------------------------------
  // The breadth-first iterator.

  /** The queue entries for some items. */
  function Queued(items: seq<Item>): seq<Option<Path>>
  {
    if items == [] then [] else [Some(items[0].path)] + Queued(items[1..])
  }

  /** queue.addAll(entries): the entries as queue elements. */
  function Somes(ps: seq<Path>): (r: seq<Option<Path>>)
    ensures |r| == |ps| && forall i | 0 <= i < |ps| :: r[i] == Some(ps[i])
  {
    if ps == [] then [] else [Some(ps[0])] + Somes(ps[1..])
  }

  lemma {:induction false} QueuedAppend(a: seq<Item>, b: seq<Item>)
    ensures Queued(a + b) == Queued(a) + Queued(b)
  {
    if a == [] {
      assert a + b == b;
    } else {
      assert (a + b)[0] == a[0] && (a + b)[1..] == a[1..] + b;
      QueuedAppend(a[1..], b);
    }
  }

  lemma {:induction false} QueuedChildItems(p: Path, es: seq<Entry>, i: nat)
    requires i <= |es|
    ensures Queued(ChildItems(p, es, i)) == Somes(EntryPaths(p, es)[i..])
    decreases |es| - i
  {
    if i < |es| {
      var c := ChildItems(p, es, i);
      assert c[0] == Item(p + [es[i].name], Some(es[i].node)) && c[1..] == ChildItems(p, es, i + 1);
      assert EntryPaths(p, es)[i..][1..] == EntryPaths(p, es)[i + 1..];
      QueuedChildItems(p, es, i + 1);
    }
  }

  /** The items of a queue carry what is found at their paths. */
  predicate ItemsFound(fs: Option<Node>, items: seq<Item>)
  {
    forall k | 0 <= k < |items| :: Lookup(fs, items[k].path) == items[k].node && WellFormedStart(items[k].node)
  }

  lemma ChildrenFound(fs: Option<Node>, item: Item)
    requires ItemsFound(fs, [item])
    ensures ItemsFound(fs, Children(item))
    ensures LevelSize(Children(item)) < ItemSize(item)
  {
    assert [item][0] == item;
    if item.node.Some? && item.node.value.Directory? {
      var es := item.node.value.entries;
      ChildItemsSize(item.path, es, 0);
      forall k | 0 <= k < |es|
        ensures Lookup(fs, item.path + [es[k].name]) == Some(es[k].node) && WellFormed(es[k].node)
      {
        LookupEntry(fs, item.path, k);
      }
      ChildItemsFound(fs, item.path, es, 0);
    }
  }

  lemma {:induction false} ChildItemsFound(fs: Option<Node>, p: Path, es: seq<Entry>, i: nat)
    requires i <= |es|
    requires forall k | 0 <= k < |es| :: Lookup(fs, p + [es[k].name]) == Some(es[k].node) && WellFormed(es[k].node)
    ensures ItemsFound(fs, ChildItems(p, es, i))
    decreases |es| - i
  {
    if i < |es| {
      ChildItemsFound(fs, p, es, i + 1);
      var c := ChildItems(p, es, i);
      assert c[0] == Item(p + [es[i].name], Some(es[i].node)) && c[1..] == ChildItems(p, es, i + 1);
      assert forall k | 1 <= k < |c| :: c[k] == c[1..][k - 1];
    }
  }

  /** Taking the first item of the current depth: its output comes first,
      and its children join the next depth. */
  lemma BfsTakeItem(current: seq<Item>, next: seq<Item>, includeDirectories: bool)
    requires current != []
    ensures LevelOutput(current, includeDirectories) + BfsFrom(next + Expand(current), includeDirectories)
         == ItemOutput(current[0], includeDirectories)
            + (LevelOutput(current[1..], includeDirectories)
               + BfsFrom((next + Children(current[0])) + Expand(current[1..]), includeDirectories))
  {
    ConcatAssociates(next, Children(current[0]), Expand(current[1..]));
    ConcatAssociates(ItemOutput(current[0], includeDirectories), LevelOutput(current[1..], includeDirectories),
                     BfsFrom(next + Expand(current), includeDirectories));
  }

  /** Reaching the separator: the next depth becomes the current one. */
  lemma BfsTakeSeparator(next: seq<Item>, includeDirectories: bool)
    ensures LevelOutput([], includeDirectories) + BfsFrom(next + Expand([]), includeDirectories)
         == LevelOutput(next, includeDirectories) + BfsFrom([] + Expand(next), includeDirectories)
  {
    assert next + Expand([]) == next && [] + Expand(next) == Expand(next);
    assert LevelOutput([], includeDirectories) == [];
  }

  /** The front of the queue: the first item of the current depth, or the
      separator before the next depth. */
  lemma QueueFront(current: seq<Item>, next: seq<Item>)
    ensures var q := Queued(current) + [None] + Queued(next);
            && (current == [] <==> q[0] == None)
            && (current == [] ==> q[1..] == Queued(next))
  {
    if current != [] {
      assert Queued(current)[0] == Some(current[0].path);
    } else {
      assert Queued(current) + [None] + Queued(next) == [None] + Queued(next);
    }
  }

  lemma QueueTake(current: seq<Item>, next: seq<Item>, extra: seq<Item>)
    requires current != []
    ensures Queued(current) + [None] + Queued(next)
         == [Some(current[0].path)] + (Queued(current[1..]) + [None] + Queued(next))
    ensures (Queued(current[1..]) + [None] + Queued(next)) + Queued(extra)
         == Queued(current[1..]) + [None] + Queued(next + extra)
  {
    QueuedAppend(next, extra);
    var s, a, b := [Some(current[0].path)], Queued(current[1..]), Queued(next);
    ConcatAssociates(s, a, [None]);
    ConcatAssociates(s, a + [None], b);
    ConcatAssociates(a + [None], b, Queued(extra));
  }

  /** BFSPathTreeWalkIterator: a queue of paths in which a `null` separates
      one depth from the next.  The ghost fields name the items behind the
      queue: the rest of the current depth, and the next depth so far. */
  class BfsIterator {
    const fs: Option<Node>
    const includeDirectories: bool
    var queue: seq<Option<Path>>
    ghost var current: seq<Item>
    ghost var next: seq<Item>

    ghost predicate Valid()
      reads this
    {
      && WellFormedStart(fs)
      && ItemsFound(fs, current) && ItemsFound(fs, next)
      && (|| (queue == [] && current == [] && next == [])
          || queue == Queued(current) + [None] + Queued(next))
    }

    /** The paths still to come. */
    ghost function Pending(): seq<Path>
      reads this
    {
      LevelOutput(current, includeDirectories) + BfsFrom(next + Expand(current), includeDirectories)
    }

    ghost function Work(): nat
      reads this
    {
      2 * (LevelSize(current) + LevelSize(next)) + (if current == [] then 1 else 0)
    }

    /** init: the start path, then a separator; with the existence check
        the documentation promises, nothing at all for a missing start. */
    constructor(start: Option<Node>, options: seq<PathWalkOption>)
      requires WellFormedStart(start)
      ensures Valid()
      ensures fs == start && includeDirectories == (IncludeDirectories in options)
      ensures Pending() == BfsOrder(start, includeDirectories)
    {
      fs := start;
      includeDirectories := IncludeDirectories in options;
      if start.None? {
        queue := [];
        current := [];
        next := [];
      } else {
        queue := [Some([])] + [None];
        current := [Item([], start)];
        next := [];
      }
      new;
      assert [] + Expand(current) == Expand(current);
      assert Queued(current) == if start.None? then [] else [Some([])];
    }

    /** gotoNext on a separator: it is put back only when the queue holds
        more paths, and the next depth becomes the current one. */
    method TakeSeparator()
      requires Valid() && queue != [] && queue[0] == None
      modifies this
      ensures Valid()
      ensures Pending() == old(Pending())
      ensures Work() < old(Work()) || (Work() == old(Work()) && |queue| < old(|queue|))
    {
      QueueFront(current, next);
      queue := queue[1..];
      if queue != [] {
        queue := queue + [None];
        assert queue == Queued(next) + [None] + Queued([]);
      }
      BfsTakeSeparator(next, includeDirectories);
      current := next;
      next := [];
    }

    /** gotoNext on a path that is not a directory: it is returned. */
    method TakeFile() returns (path: Path)
      requires Valid() && queue != [] && queue[0].Some? && !IsDirectory(fs, queue[0].value)
      modifies this
      ensures Valid()
      ensures path == old(queue[0].value) && old(Pending()) == [path] + Pending()
    {
      QueueFront(current, next);
      ghost var item := current[0];
      QueueTake(current, next, []);
      BfsTakeItem(current, next, includeDirectories);
      assert ([Some(item.path)] + (Queued(current[1..]) + [None] + Queued(next)))[1..]
          == Queued(current[1..]) + [None] + Queued(next);
      path := queue[0].value;
      assert Children(item) == [] && next + Children(item) == next;
      assert ItemOutput(item, includeDirectories) == [path];
      queue := queue[1..];
      assert queue + [] == queue;
      current := current[1..];
    }

    /** gotoNext on a directory: its entries are queued, and it is returned
        only when directories are included. */
    method TakeDirectory() returns (path: Path)
      requires Valid() && queue != [] && queue[0].Some? && IsDirectory(fs, queue[0].value)
      modifies this
      ensures Valid()
      ensures path == old(queue[0].value)
      ensures old(Pending()) == (if includeDirectories then [path] else []) + Pending()
      ensures Work() < old(Work())
    {
      QueueFront(current, next);
      ghost var item := current[0];
      QueueTake(current, next, Children(item));
      ChildrenFound(fs, item);
      LevelSizeAppend(next, Children(item));
      BfsTakeItem(current, next, includeDirectories);
      assert ([Some(item.path)] + (Queued(current[1..]) + [None] + Queued(next)))[1..]
          == Queued(current[1..]) + [None] + Queued(next);
      path := queue[0].value;
      queue := queue[1..];
      var entries := ListDirectoryEntries(fs, path);
      QueuedChildItems(path, item.node.value.entries, 0);
      assert EntryPaths(path, item.node.value.entries)[0..] == entries;
      queue := queue + Somes(entries);
      current := current[1..];
      next := next + Children(item);
    }

    /** gotoNext on a path: a non-directory is returned; a directory has
        its entries queued and is returned only when directories are
        included. */
    method TakeItem() returns (path: Path, yielded: bool)
      requires Valid() && queue != [] && queue[0].Some?
      modifies this
      ensures Valid()
      ensures yielded ==> old(Pending()) == [path] + Pending()
      ensures !yielded ==> Pending() == old(Pending()) && Work() < old(Work())
    {
      if !IsDirectory(fs, queue[0].value) {
        path := TakeFile();
        return path, true;
      }
      path := TakeDirectory();
      yielded := includeDirectories;
      assert [] + Pending() == Pending();
    }

    /** gotoNext: the next path of the walk, or None when it is over. */
    method GotoNext() returns (r: Option<Path>)
      requires Valid()
      modifies this
      ensures Valid()
      ensures r.None? <==> old(Pending()) == []
      ensures r.None? ==> Pending() == []
      ensures r.Some? ==> old(Pending()) == [r.value] + Pending()
    {
      while true
        invariant Valid()
        invariant Pending() == old(Pending())
        decreases Work(), |queue|
      {
        if queue == [] {
          return None;
        }
        if queue[0] == None {
          TakeSeparator();
        } else {
          var path, yielded := TakeItem();
          if yielded {
            return Some(path);
          }
        }
      }
    }
  }

  /** Iterating a breadth-first walk to the end. */
  method WalkBreadthFirst(start: Option<Node>, options: seq<PathWalkOption>) returns (paths: seq<Path>)
    requires WellFormedStart(start)
    ensures paths == BfsOrder(start, IncludeDirectories in options)
  {
    paths := [];
    var it := new BfsIterator(start, options);
    ghost var total := it.Pending();
    while true
      invariant it.Valid() && paths + it.Pending() == total
      decreases |it.Pending()|
    {
      var n := it.GotoNext();
      if n.None? {
        assert paths + [] == paths;
        return;
      }
      ConcatAssociates(paths, [n.value], it.Pending());
      paths := paths + [n.value];
    }
  }

  /** Iterating a depth-first walk to the end. */
  method WalkDepthFirst(start: Option<Node>, options: seq<PathWalkOption>) returns (paths: seq<Path>)
    requires WellFormedStart(start)
    ensures paths == DfsWalkOrder(start, IncludeDirectories in options)
  {
    paths := [];
    var it := new DfsIterator(start, options);
    ghost var total := it.Pending();
    while true
      invariant it.Valid() && paths + it.Pending() == total
      decreases |it.Pending()|
    {
      var n := it.GotoNext();
      if n.None? {
        assert paths + [] == paths;
        return;
      }
      ConcatAssociates(paths, [n.value], it.Pending());
      paths := paths + [n.value];
    }
  }

  /** Path.walk(options) iterated to the end: PathTreeWalk.iterator picks
      the breadth-first iterator with BREADTH_FIRST, the depth-first one
      otherwise. */
  method Walk(start: Option<Node>, options: seq<PathWalkOption>) returns (paths: seq<Path>)
    requires WellFormedStart(start)
    ensures Bfs in options ==> paths == BfsOrder(start, IncludeDirectories in options)
    ensures Bfs !in options ==> paths == DfsWalkOrder(start, IncludeDirectories in options)
  {
    if Bfs in options {
      paths := WalkBreadthFirst(start, options);
    } else {
      paths := WalkDepthFirst(start, options);
    }
  }
}
