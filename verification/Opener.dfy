/** Opening files below a root through a stack of open parent directories. */
module Opener {
  import opened Wrappers

  /** A static file tree.  A file is known by its identity. */
  datatype Node = File(identity: nat) | Directory(children: map<string, Node>) | Other

  /** Directory.OpenDirectory on POSIX systems, where a directory may be reopened by its
      own reference. */
  function Subdirectory(d: Node, name: string): Option<Node> {
    if name == "." then Some(d)
    else if name == ".." || !d.Directory? || name !in d.children || !d.children[name].Directory? then None
    else Some(d.children[name])
  }

  /** Directory.OpenFile. */
  function Leaf(d: Node, name: string): Option<Node> {
    if name == "." || name == ".." || !d.Directory? || name !in d.children || !d.children[name].File? then None
    else Some(d.children[name])
  }

  /** strings.Split with a slash as separator. */
  function Split(path: string): (components: seq<string>)
    ensures |components| >= 1
  {
    if path == "" then [""]
    else
      var rest := Split(path[1..]);
      if path[0] == '/' then [""] + rest else [[path[0]] + rest[0]] + rest[1..]
  }

  function Join(components: seq<string>): string
    requires |components| >= 1
  {
    if |components| == 1 then components[0] else components[0] + "/" + Join(components[1..])
  }

  /** The components are what slashes separate. */
  lemma {:induction false} SplitSeparates(path: string)
    ensures Join(Split(path)) == path
    ensures forall i | 0 <= i < |Split(path)| :: '/' !in Split(path)[i]
  {
    if path != "" {
      var rest := Split(path[1..]);
      SplitSeparates(path[1..]);
      if path[0] == '/' {
        assert Split(path)[1..] == rest;
        assert path == "/" + path[1..];
      } else {
        var first := [path[0]] + rest[0];
        assert Split(path)[1..] == rest[1..];
        assert Join(Split(path)) == [path[0]] + Join(rest);
      }
    }
  }

  // ----- Reference: a fresh walk from the root -----

  function Walk(d: Node, names: seq<string>): Option<Node>
    decreases |names|
  {
    if names == [] then Some(d)
    else
      var next := Subdirectory(d, names[0]);
      if next.None? then None else Walk(next.value, names[1..])
  }

  function Parents(path: string): seq<string> { Split(path)[..|Split(path)| - 1] }

  function OpenFresh(root: Node, path: string): Option<Node> {
    if path == "" then (if root.File? then Some(root) else None)
    else if !root.Directory? then None
    else
      var parent := Walk(root, Parents(path));
      if parent.None? then None else Leaf(parent.value, Split(path)[|Split(path)| - 1])
  }

  /** One component of a path leads from a directory to what it is called there, or, short of
      the last one, to the directory itself. */
  predicate Edge(from: Node, name: string, to: Node, last: bool) {
    && from.Directory? && name != ".."
    && if name == "." then !last && to == from else name in from.children && from.children[name] == to
  }

  /** The nodes are those that the names pass, root first. */
  ghost predicate Route(names: seq<string>, nodes: seq<Node>) {
    && |nodes| == |names| + 1
    && forall i | 0 <= i < |names| :: Edge(nodes[i], names[i], nodes[i + 1], i == |names| - 1)
  }

  lemma {:induction false} RouteIsWalked(d: Node, names: seq<string>, nodes: seq<Node>)
    requires |nodes| == |names| + 1 && nodes[0] == d && nodes[|names|].Directory?
    requires forall i | 0 <= i < |names| :: Edge(nodes[i], names[i], nodes[i + 1], false)
    ensures Walk(d, names) == Some(nodes[|names|])
    decreases |names|
  {
    if names != [] {
      assert Edge(nodes[0], names[0], nodes[1], false);
      assert nodes[1].Directory? by { if |names| > 1 { assert Edge(nodes[1], names[1], nodes[2], false); } }
      RouteIsWalked(nodes[1], names[1..], nodes[1..]);
    }
  }

  lemma {:induction false} WalkIsRouted(d: Node, names: seq<string>) returns (nodes: seq<Node>)
    requires d.Directory? && Walk(d, names).Some?
    ensures |nodes| == |names| + 1 && nodes[0] == d && Walk(d, names) == Some(nodes[|names|])
    ensures forall i | 0 <= i < |names| :: Edge(nodes[i], names[i], nodes[i + 1], false)
    ensures nodes[|names|].Directory?
    decreases |names|
  {
    if names == [] {
      nodes := [d];
    } else {
      var next := Subdirectory(d, names[0]).value;
      var rest := WalkIsRouted(next, names[1..]);
      nodes := [d] + rest;
      forall i | 0 <= i < |names| ensures Edge(nodes[i], names[i], nodes[i + 1], false) {
        if i > 0 { assert Edge(rest[i - 1], names[1..][i - 1], rest[i], false); }
      }
    }
  }

  lemma OpenIsRouted(root: Node, path: string, file: Node) returns (nodes: seq<Node>)
    requires path != "" && OpenFresh(root, path) == Some(file)
    ensures Route(Split(path), nodes) && nodes[0] == root && nodes[|Split(path)|] == file
  {
    var names := Split(path);
    var n := |names| - 1;
    var parents := WalkIsRouted(root, names[..n]);
    nodes := parents + [file];
    forall i | 0 <= i < |names| ensures Edge(nodes[i], names[i], nodes[i + 1], i == n) {
      if i < n { assert Edge(parents[i], names[..n][i], parents[i + 1], false); }
    }
  }

  /** A file is opened exactly when the path leads to it from the root, name by name, through
      directories only and never upwards; the empty path leads to the root itself. */
  lemma OpensWhatPathNames(root: Node, path: string, file: Node)
    ensures
      OpenFresh(root, path) == Some(file) <==>
        && file.File?
        && if path == "" then root == file
           else exists nodes :: Route(Split(path), nodes) && nodes[0] == root && nodes[|Split(path)|] == file
  {
    var names := Split(path);
    if path != "" && OpenFresh(root, path) == Some(file) {
      var nodes := OpenIsRouted(root, path, file);
      assert Route(names, nodes) && nodes[0] == root && nodes[|names|] == file;
    }
    if path != "" && file.File? {
      forall nodes | Route(names, nodes) && nodes[0] == root && nodes[|names|] == file
        ensures OpenFresh(root, path) == Some(file)
      {
        RouteOpens(root, path, nodes);
      }
    }
  }

  lemma RouteOpens(root: Node, path: string, nodes: seq<Node>)
    requires path != "" && Route(Split(path), nodes) && nodes[0] == root && nodes[|Split(path)|].File?
    ensures OpenFresh(root, path) == Some(nodes[|Split(path)|])
  {
    var names := Split(path);
    var n := |names| - 1;
    assert Edge(nodes[0], names[0], nodes[1], 0 == n);
    assert Edge(nodes[n], names[n], nodes[n + 1], true);
    forall i | 0 <= i < n ensures Edge(nodes[..n + 1][i], names[..n][i], nodes[..n + 1][i + 1], false) {
      assert Edge(nodes[i], names[i], nodes[i + 1], i == n);
    }
    RouteIsWalked(root, names[..n], nodes[..n + 1]);
  }

  /** The length of the longest common prefix. */
  function Common(a: seq<string>, b: seq<string>): (k: nat)
    ensures k <= |a| && k <= |b| && a[..k] == b[..k]
    ensures k < |a| && k < |b| ==> a[k] != b[k]
  {
    if |a| == 0 || |b| == 0 || a[0] != b[0] then 0
    else
      var k := Common(a[1..], b[1..]);
      assert a[..k + 1] == [a[0]] + a[1..][..k] && b[..k + 1] == [b[0]] + b[1..][..k];
      k + 1
  }

  lemma {:induction false} WalkOn(d: Node, names: seq<string>, more: seq<string>)
    ensures Walk(d, names + more) == if Walk(d, names).None? then None else Walk(Walk(d, names).value, more)
    decreases |names|
  {
    if names == [] {
      assert names + more == more;
    } else {
      assert (names + more)[1..] == names[1..] + more;
      var next := Subdirectory(d, names[0]);
      if next.Some? { WalkOn(next.value, names[1..], more); }
    }
  }

  lemma WalkOneMore(d: Node, names: seq<string>, k: nat)
    requires k < |names| && Walk(d, names[..k]).Some?
    ensures Walk(d, names[..k + 1]) == Subdirectory(Walk(d, names[..k]).value, names[k])
    ensures Walk(d, names[..k + 1]).None? ==> Walk(d, names).None?
  {
    assert names[..k + 1] == names[..k] + [names[k]];
    WalkOn(d, names[..k], [names[k]]);
    assert [names[k]][1..] == [];
    assert names == names[..k + 1] + names[k + 1..];
    WalkOn(d, names[..k + 1], names[k + 1..]);
  }

  /** An open directory. */
  datatype Handle = Handle(id: nat, node: Node)

  class Opener {
    const root: Node                          // what is at the root path
    var rootDirectory: Option<Handle>
    var openParentNames: seq<string>
    var openParentDirectories: seq<Option<Handle>>
    // The operating system's view: how many handles were opened, and which were closed.
    var handles: nat
    var closed: multiset<nat>

    ghost function Bottom(): seq<Option<Handle>>
      reads this
    {
      if rootDirectory.Some? then [rootDirectory] else []
    }

    /** The stack, root first. */
    ghost function Stack(): seq<Option<Handle>>
      reads this
    {
      Bottom() + openParentDirectories
    }

    ghost predicate Valid()
      reads this
    {
      && Mirrors(root, openParentNames, openParentDirectories)
      && (rootDirectory.None? ==> |openParentNames| == 0)
      && (rootDirectory.Some? ==> root.Directory? && rootDirectory.value.node == root)
      && Accounted(Stack(), handles, closed)
    }

    constructor (root: Node)
      ensures Valid() && this.root == root && Stack() == [] && handles == 0 && closed == multiset{}
    {
      this.root := root;
      rootDirectory, openParentNames, openParentDirectories, handles, closed := None, [], [], 0, multiset{};
    }

    /** Directory.Close, which succeeds. */
    method CloseDirectory(directory: Handle)
      modifies this`closed
      ensures closed == old(closed) + multiset{directory.id}
    {
      closed := closed + multiset{directory.id};
    }

    /** Closes one directory of the stack and leaves nil in its place. */
    method CloseEntry(i: nat)
      requires i < |openParentNames| == |openParentDirectories| && openParentDirectories[i].Some?
      modifies this`openParentNames, this`openParentDirectories, this`closed
      ensures openParentNames == old(openParentNames)[i := ""]
      ensures openParentDirectories == old(openParentDirectories)[i := None]
      ensures closed == old(closed) + multiset{old(openParentDirectories)[i].value.id}
    {
      CloseDirectory(openParentDirectories[i].value);
      openParentNames := openParentNames[i := ""];
      openParentDirectories := openParentDirectories[i := None];
    }

    /** Closes the stack from `c` on, leaving nil entries behind. */
    method CloseFrom(c: nat)
      requires |openParentNames| == |openParentDirectories| && c <= |openParentNames|
      requires forall k | c <= k < |openParentNames| :: openParentDirectories[k].Some?
      modifies this`openParentNames, this`openParentDirectories, this`closed
      ensures |openParentNames| == |openParentDirectories| == |old(openParentNames)|
      ensures openParentNames[..c] == old(openParentNames)[..c]
      ensures openParentDirectories[..c] == old(openParentDirectories)[..c]
      ensures closed == old(closed) + Ids(old(openParentDirectories)[c..])
    {
      ghost var start := Entries(openParentNames, openParentDirectories, closed);
      var i := c;
      assert start.directories[c..c] == [];
      while i < |openParentNames|
        invariant c <= i <= |openParentNames|
        invariant ClosedUpTo(start, c, i, Entries(openParentNames, openParentDirectories, closed))
      {
        CloseOneMore(start, c, i, Entries(openParentNames, openParentDirectories, closed));
        CloseEntry(i);
        i := i + 1;
      }
      assert start.directories[c..i] == start.directories[c..];
    }

    /** Drops the stack from `c` on. */
    method Truncate(c: nat)
      requires Valid() && rootDirectory.Some? && c <= |openParentNames|
      modifies this`openParentNames, this`openParentDirectories, this`closed
      ensures Valid()
      ensures openParentNames == old(openParentNames)[..c]
      ensures openParentDirectories == old(openParentDirectories)[..c]
    {
      ghost var stack := Stack();
      CutAccounted(stack, handles, closed, 1 + c);
      CutMirrors(root, openParentNames, openParentDirectories, c);
      assert stack[1 + c..] == openParentDirectories[c..];
      CloseFrom(c);
      openParentNames := openParentNames[..c];
      openParentDirectories := openParentDirectories[..c];
      assert Stack() == stack[..1 + c];
    }

    /** Puts a newly opened directory on top of the stack. */
    method Push(name: string, node: Node)
      requires Valid() && rootDirectory.Some?
      requires Walk(root, openParentNames + [name]) == Some(node)
      modifies this`openParentNames, this`openParentDirectories, this`handles
      ensures Valid()
      ensures openParentNames == old(openParentNames) + [name]
      ensures openParentDirectories == old(openParentDirectories) + [Some(Handle(old(handles), node))]
    {
      ghost var stack := Stack();
      PushAccounted(stack, handles, closed, node);
      PushMirrors(root, openParentNames, openParentDirectories, name, Handle(handles, node));
      openParentNames := openParentNames + [name];
      openParentDirectories := openParentDirectories + [Some(Handle(handles, node))];
      handles := handles + 1;
      assert Stack() == stack + [Some(Handle(old(handles), node))];
    }

    /** Opens what a fresh walk from the root would open, or fails where it would fail, and
        keeps open the part of the stack that lies on the path. */
    method OpenFile(path: string) returns (file: Option<Node>)
      requires Valid()
      modifies this
      ensures Valid()
      ensures file == OpenFresh(root, path)
      ensures Share(old(openParentDirectories), openParentDirectories, Common(old(openParentNames), Parents(path)))
    {
      if path == "" {
        if rootDirectory.Some? { return None; }
        return if root.File? then Some(root) else None;
      }

      if rootDirectory.None? {
        if !root.Directory? { return None; }
        OpenRoot();
      }
      var components := Split(path);
      var parent := WalkDown(components[..|components| - 1]);
      if parent.None? { return None; }
      return Leaf(parent.value.node, components[|components| - 1]);
    }

    /** Walks down the parent components from the root directory. */
    method WalkDown(parents: seq<string>) returns (parent: Option<Handle>)
      requires Valid() && rootDirectory.Some?
      modifies this`openParentNames, this`openParentDirectories, this`closed, this`handles
      ensures Valid()
      ensures if parent.Some? then Walk(root, parents) == Some(parent.value.node) else Walk(root, parents).None?
      ensures Share(old(openParentDirectories), openParentDirectories, Common(old(openParentNames), parents))
    {
      ghost var shared := Common(openParentNames, parents);
      parent := rootDirectory;
      for c := 0 to |parents|
        invariant Valid() && parent.Some?
        invariant c <= |openParentNames| && openParentNames[..c] == parents[..c]
        invariant Walk(root, parents[..c]) == Some(parent.value.node)
        invariant c <= shared ==> openParentNames == old(openParentNames)
        invariant Share(old(openParentDirectories), openParentDirectories, shared)
      {
        assert c < shared ==> openParentNames[..shared][c] == parents[..shared][c];
        parent := Descend(parents, c, parent.value);
        if parent.None? { return; }
      }
      assert parents[..|parents|] == parents;
    }

    method OpenRoot()
      requires Valid() && rootDirectory.None? && root.Directory?
      modifies this`rootDirectory, this`handles
      ensures Valid() && rootDirectory.Some?
    {
      PushAccounted(Stack(), handles, closed, root);
      rootDirectory := Some(Handle(handles, root));
      handles := handles + 1;
      assert Stack() == old(Stack()) + [rootDirectory];
    }

    /** One step down: the directory on the stack if it is the right one, otherwise a newly
        opened one that replaces what was on the stack from here on. */
    method Descend(parents: seq<string>, c: nat, parent: Handle) returns (next: Option<Handle>)
      requires Valid() && rootDirectory.Some? && c < |parents|
      requires c <= |openParentNames| && openParentNames[..c] == parents[..c]
      requires Walk(root, parents[..c]) == Some(parent.node)
      modifies this`openParentNames, this`openParentDirectories, this`closed, this`handles
      ensures Valid()
      ensures next.None? ==> Walk(root, parents).None?
      ensures
        next.Some? ==>
          && c < |openParentNames| && openParentNames[..c + 1] == parents[..c + 1]
          && Walk(root, parents[..c + 1]) == Some(next.value.node)
      ensures
        if c < |old(openParentNames)| && old(openParentNames)[c] == parents[c] then
          openParentNames == old(openParentNames) && openParentDirectories == old(openParentDirectories)
        else
          Share(old(openParentDirectories), openParentDirectories, c)
    {
      WalkOneMore(root, parents, c);
      assert parents[..c + 1] == parents[..c] + [parents[c]];
      if c < |openParentNames| && openParentNames[c] == parents[c] {
        assert openParentNames[..c + 1] == parents[..c + 1];
        assert Reached(root, openParentNames, c) == Some(openParentDirectories[c].value.node);
        return openParentDirectories[c];
      }
      Truncate(c);
      assert openParentNames == parents[..c];
      var directory := Subdirectory(parent.node, parents[c]);
      if directory.None? { return None; }
      Push(parents[c], directory.value);
      return openParentDirectories[c];
    }

    /** Closes what is still open, so that every handle has been closed exactly once. */
    method Close()
      requires Valid()
      modifies this`closed
      ensures forall id: nat :: closed[id] == if id < handles then 1 else 0
    {
      AllAccounted(Stack(), handles, closed);
      CloseStack();
    }

    method CloseStack()
      requires forall i | 0 <= i < |openParentDirectories| :: openParentDirectories[i].Some?
      modifies this`closed
      ensures closed == old(closed) + Ids(Stack())
    {
      IdsConcat(Bottom(), openParentDirectories);
      if rootDirectory.Some? {
        assert [rootDirectory][..0] == [];
        CloseDirectory(rootDirectory.value);
      }
      assert closed == old(closed) + Ids(Bottom());
      CloseParents();
    }

    method CloseParents()
      requires forall i | 0 <= i < |openParentDirectories| :: openParentDirectories[i].Some?
      modifies this`closed
      ensures closed == old(closed) + Ids(openParentDirectories)
    {
      ghost var directories := openParentDirectories;
      for i := 0 to |openParentDirectories|
        invariant closed == old(closed) + Ids(directories[0..i])
      {
        IdsOneMore(old(closed), directories, 0, i);
        if openParentDirectories[i].Some? { CloseDirectory(openParentDirectories[i].value); }
      }
      assert directories[0..|directories|] == directories;
    }
  }

  lemma {:induction false} IdsConcat(a: seq<Option<Handle>>, b: seq<Option<Handle>>)
    ensures Ids(a + b) == Ids(a) + Ids(b)
    decreases |b|
  {
    if |b| == 0 {
      assert a + b == a;
    } else {
      var top := |b| - 1;
      IdsConcat(a, b[..top]);
      assert (a + b)[..|a + b| - 1] == a + b[..top] && (a + b)[|a + b| - 1] == b[top];
    }
  }

  ghost function Ids(stack: seq<Option<Handle>>): multiset<nat> {
    if |stack| == 0 then multiset{}
    else
      var last := stack[|stack| - 1];
      Ids(stack[..|stack| - 1]) + if last.Some? then multiset{last.value.id} else multiset{}
  }

  lemma IdsOneMore(closed: multiset<nat>, stack: seq<Option<Handle>>, c: nat, i: nat)
    requires c <= i < |stack| && stack[i].Some?
    ensures (closed + Ids(stack[c..i])) + multiset{stack[i].value.id} == closed + Ids(stack[c..i + 1])
  {
    assert stack[c..i + 1][..i - c] == stack[c..i];
  }

  /** The entries of the stack and what has been closed. */
  datatype Entries = Entries(names: seq<string>, directories: seq<Option<Handle>>, closed: multiset<nat>)

  /** The entries from `c` up to `i` have been closed and the others left alone. */
  ghost predicate ClosedUpTo(start: Entries, c: nat, i: nat, now: Entries) {
    && c <= i <= |now.names| == |now.directories| == |start.names| == |start.directories|
    && now.names[..c] == start.names[..c] && now.directories[..c] == start.directories[..c]
    && (forall k | i <= k < |start.directories| :: now.directories[k] == start.directories[k])
    && now.closed == start.closed + Ids(start.directories[c..i])
  }

  lemma CloseOneMore(start: Entries, c: nat, i: nat, now: Entries)
    requires ClosedUpTo(start, c, i, now) && i < |start.directories| && start.directories[i].Some?
    ensures
      ClosedUpTo(start, c, i + 1,
                 Entries(now.names[i := ""], now.directories[i := None],
                         now.closed + multiset{now.directories[i].value.id}))
  {
    IdsOneMore(start.closed, start.directories, c, i);
    UpdateAbove(now.names, i, "", c);
    UpdateAbove(now.directories, i, None, c);
  }

  lemma UpdateAbove<T>(s: seq<T>, i: nat, v: T, c: nat)
    requires c <= i < |s|
    ensures s[i := v][..c] == s[..c]
  {
  }

  /** Both stacks have the first `k` directories in common. */
  ghost predicate Share(a: seq<Option<Handle>>, b: seq<Option<Handle>>, k: nat) {
    k <= |a| && k <= |b| && forall i | 0 <= i < k :: a[i] == b[i]
  }

  /** Where the first i + 1 names lead. */
  ghost function Reached(root: Node, names: seq<string>, i: nat): Option<Node>
    requires i < |names|
  {
    Walk(root, names[..i + 1])
  }

  /** The directories on the stack are those that the names lead to. */
  ghost predicate Mirrors(root: Node, names: seq<string>, directories: seq<Option<Handle>>) {
    && |names| == |directories|
    && forall i | 0 <= i < |names| :: directories[i].Some? && Reached(root, names, i) == Some(directories[i].value.node)
  }

  lemma CutMirrors(root: Node, names: seq<string>, directories: seq<Option<Handle>>, c: nat)
    requires Mirrors(root, names, directories) && c <= |names|
    ensures Mirrors(root, names[..c], directories[..c])
  {
    forall i | 0 <= i < c ensures Reached(root, names[..c], i) == Reached(root, names, i) {
      assert names[..c][..i + 1] == names[..i + 1];
    }
  }

  lemma PushMirrors(root: Node, names: seq<string>, directories: seq<Option<Handle>>, name: string, directory: Handle)
    requires Mirrors(root, names, directories) && Walk(root, names + [name]) == Some(directory.node)
    ensures Mirrors(root, names + [name], directories + [Some(directory)])
  {
    var names' := names + [name];
    forall i | 0 <= i < |names| ensures Reached(root, names', i) == Reached(root, names, i) {
      assert names'[..i + 1] == names[..i + 1];
    }
    assert names'[..|names| + 1] == names';
  }

  /** The handles on the stack are open and no others; each other one was closed once. */
  ghost predicate Accounted(stack: seq<Option<Handle>>, handles: nat, closed: multiset<nat>) {
    && (forall i | 0 <= i < |stack| :: stack[i].Some? && stack[i].value.id < handles)
    && (forall i, j | 0 <= i < j < |stack| && stack[i].Some? && stack[j].Some? :: stack[i].value.id < stack[j].value.id)
    && (forall id: nat :: closed[id] == if id < handles && !OnStack(stack, id) then 1 else 0)
  }

  ghost predicate OnStack(stack: seq<Option<Handle>>, id: nat) {
    exists i :: 0 <= i < |stack| && stack[i].Some? && stack[i].value.id == id
  }

  lemma PushAccounted(stack: seq<Option<Handle>>, handles: nat, closed: multiset<nat>, node: Node)
    requires Accounted(stack, handles, closed)
    ensures Accounted(stack + [Some(Handle(handles, node))], handles + 1, closed)
  {
    var stack' := stack + [Some(Handle(handles, node))];
    forall id: nat ensures OnStack(stack', id) <==> OnStack(stack, id) || id == handles {
      assert stack'[|stack|] == Some(Handle(handles, node));
      if OnStack(stack, id) {
        var i :| 0 <= i < |stack| && stack[i].Some? && stack[i].value.id == id;
        assert stack'[i] == stack[i];
      }
    }
  }

  lemma PopAccounted(stack: seq<Option<Handle>>, handles: nat, closed: multiset<nat>)
    requires Accounted(stack, handles, closed) && |stack| > 0
    ensures Accounted(stack[..|stack| - 1], handles, closed + multiset{stack[|stack| - 1].value.id})
  {
    var last := stack[|stack| - 1].value.id;
    var stack' := stack[..|stack| - 1];
    forall id: nat ensures OnStack(stack, id) <==> OnStack(stack', id) || id == last {
      assert stack[|stack| - 1].Some?;
      if OnStack(stack', id) {
        var i :| 0 <= i < |stack'| && stack'[i].Some? && stack'[i].value.id == id;
        assert stack[i] == stack'[i];
      }
      if OnStack(stack, id) && id != last {
        var i :| 0 <= i < |stack| && stack[i].Some? && stack[i].value.id == id;
        assert stack'[i] == stack[i];
      }
    }
    assert !OnStack(stack', last);
  }

  lemma {:induction false} CutAccounted(stack: seq<Option<Handle>>, handles: nat, closed: multiset<nat>, c: nat)
    requires Accounted(stack, handles, closed) && c <= |stack|
    ensures Accounted(stack[..c], handles, closed + Ids(stack[c..]))
    decreases |stack|
  {
    if c == |stack| {
      assert stack[..c] == stack && stack[c..] == [];
    } else {
      var top := |stack| - 1;
      var stack', closed' := stack[..top], closed + multiset{stack[top].value.id};
      PopAccounted(stack, handles, closed);
      CutAccounted(stack', handles, closed', c);
      assert stack'[..c] == stack[..c] && stack'[c..] == stack[c..top] && stack[c..top + 1] == stack[c..];
      IdsOneMore(closed, stack, c, top);
      Commute(closed, Ids(stack[c..top]), multiset{stack[top].value.id});
    }
  }

  lemma Commute(m: multiset<nat>, a: multiset<nat>, b: multiset<nat>)
    ensures (m + a) + b == (m + b) + a
  {
  }

  lemma AllAccounted(stack: seq<Option<Handle>>, handles: nat, closed: multiset<nat>)
    requires Accounted(stack, handles, closed)
    ensures forall id: nat :: (closed + Ids(stack))[id] == if id < handles then 1 else 0
  {
    CutAccounted(stack, handles, closed, 0);
    assert stack[0..] == stack;
    assert forall id: nat :: !OnStack(stack[..0], id);
  }
}
