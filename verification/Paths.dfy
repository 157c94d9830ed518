/**
 Project-relative paths: as both planners cut them up, trimmed of slashes, split at slashes and
 compared component by component (TaskGraph.SharedPrefix, WorktreePolicy.can_coexist); and as the
 path boundary resolves them to a place below the project root (ProjectPaths.Resolve).
 */
module Paths {
  import opened Wrappers

  function TrimStart(s: string): (t: string)
    ensures t != "" ==> t[0] != '/'
  {
    if s != "" && s[0] == '/' then TrimStart(s[1..]) else s
  }

  function TrimEnd(s: string): (t: string)
    ensures t <= s
    ensures t != "" ==> t[|t| - 1] != '/'
  {
    if s != "" && s[|s| - 1] == '/' then TrimEnd(s[..|s| - 1]) else s
  }

  function Trim(s: string): (t: string)
    ensures t != "" ==> t[0] != '/' && t[|t| - 1] != '/'
  {
    TrimEnd(TrimStart(s))
  }

  /** Cut at every slash; never empty, and the empty string is one empty component. */
  function Split(s: string): (parts: seq<string>)
    ensures parts != []
  {
    if s == "" then [""]
    else
      var rest := Split(s[1..]);
      if s[0] == '/' then [""] + rest else [[s[0]] + rest[0]] + rest[1..]
  }

  function Join(parts: seq<string>): string {
    if parts == [] then ""
    else if |parts| == 1 then parts[0]
    else parts[0] + "/" + Join(parts[1..])
  }

  function Parts(path: string): (parts: seq<string>)
    ensures parts != []
  {
    Split(Trim(path))
  }

  lemma {:induction false} SplitName(name: string)
    requires '/' !in name
    ensures Split(name) == [name]
  {
    if name != "" {
      SplitName(name[1..]);
      assert [name[0]] + name[1..] == name;
    }
  }

  lemma {:induction false} SplitAfter(name: string, rest: string)
    requires '/' !in name
    ensures Split(name + "/" + rest) == [name] + Split(rest)
  {
    var s := name + "/" + rest;
    if name == "" {
      assert s[0] == '/' && s[1..] == rest;
    } else {
      assert s[1..] == name[1..] + "/" + rest;
      SplitAfter(name[1..], rest);
      assert [name[0]] + name[1..] == name;
    }
  }

  /** No component of a path holds a slash, and joined they are cut the same way again. */
  lemma {:induction false} NoSlashInside(s: string)
    ensures forall i :: 0 <= i < |Split(s)| ==> '/' !in Split(s)[i]
  {
    if s != "" {
      NoSlashInside(s[1..]);
    }
  }

  lemma {:induction false} SplitJoin(parts: seq<string>)
    requires parts != [] && forall i :: 0 <= i < |parts| ==> '/' !in parts[i]
    ensures Split(Join(parts)) == parts
  {
    if |parts| == 1 {
      SplitName(parts[0]);
    } else {
      SplitJoin(parts[1..]);
      SplitAfter(parts[0], Join(parts[1..]));
    }
  }

  lemma UntrimmedParts(path: string)
    requires path != "" ==> path[0] != '/' && path[|path| - 1] != '/'
    ensures Parts(path) == Split(path)
  {
    assert TrimStart(path) == path;
    assert TrimEnd(path) == path;
  }

  /** Cut into no component but an empty one: nothing, or slashes only. */
  predicate CutsToNothing(path: string) {
    Trim(path) == ""
  }

  lemma NoSlashFirst(s: string)
    requires s != "" && s[0] != '/'
    ensures Split(s)[0] != ""
  {
  }

  /** Only such a path has an empty first component, and then no other. */
  lemma FirstPart(path: string)
    ensures Parts(path)[0] == "" <==> CutsToNothing(path)
    ensures CutsToNothing(path) ==> Parts(path) == [""]
  {
    if !CutsToNothing(path) {
      NoSlashFirst(Trim(path));
    }
  }

  // --- prefixes ------------------------------------------------------------------------

  /** How many leading components two paths share. */
  ghost function Common(a: seq<string>, b: seq<string>): (n: nat)
    ensures n <= |a| && n <= |b|
  {
    if a == [] || b == [] || a[0] != b[0] then 0 else 1 + Common(a[1..], b[1..])
  }

  /** The common part is shared, and it is as long as can be. */
  lemma {:induction false} CommonIsLongest(a: seq<string>, b: seq<string>)
    ensures a[..Common(a, b)] == b[..Common(a, b)]
    ensures Common(a, b) < |a| && Common(a, b) < |b| ==> a[Common(a, b)] != b[Common(a, b)]
  {
    if a != [] && b != [] && a[0] == b[0] {
      CommonIsLongest(a[1..], b[1..]);
      var n := Common(a, b);
      assert a[..n] == [a[0]] + a[1..][..n - 1] && b[..n] == [b[0]] + b[1..][..n - 1];
    }
  }

  lemma CommonUnique(a: seq<string>, b: seq<string>, n: nat)
    requires n <= |a| && n <= |b| && a[..n] == b[..n]
    requires n < |a| && n < |b| ==> a[n] != b[n]
    ensures n == Common(a, b)
  {
    var m := Common(a, b);
    CommonIsLongest(a, b);
    assert forall k :: 0 <= k < m ==> a[k] == a[..m][k] && b[k] == b[..m][k];
    assert forall k :: 0 <= k < n ==> a[k] == a[..n][k] && b[k] == b[..n][k];
  }

  // --- where a path leads ------------------------------------------------------------------

  /** Going from a place to what one component names there; the root of the file system is its own parent. */
  function Enter(place: seq<string>, part: string): seq<string> {
    if part == "" || part == "." then place
    else if part == ".." then (if place == [] then [] else place[..|place| - 1])
    else place + [part]
  }

  function Walk(place: seq<string>, parts: seq<string>): seq<string>
    decreases |parts|
  {
    if parts == [] then place else Walk(Enter(place, parts[0]), parts[1..])
  }

  predicate IsAbsolute(path: string) {
    path != "" && path[0] == '/'
  }

  /** Combined with the project root, an absolute path is left as it is, and any other starts there. */
  function FullPath(root: seq<string>, path: string): seq<string> {
    Walk(if IsAbsolute(path) then [] else root, Split(path))
  }

  /**
   The place inside the project that a path leads to, by its components below the root; none if it
   leads outside. In a project at the root of the file system only the root itself counts as inside.
   */
  function Resolve(root: seq<string>, path: string): Option<seq<string>> {
    var full := FullPath(root, path);
    if full == root || (root != [] && root <= full) then Some(full[|root|..]) else None
  }

  lemma {:induction false} WalkOn(place: seq<string>, parts: seq<string>, more: seq<string>)
    ensures Walk(place, parts + more) == Walk(Walk(place, parts), more)
    decreases |parts|
  {
    if parts == [] {
      assert parts + more == more;
    } else {
      assert (parts + more)[1..] == parts[1..] + more;
      WalkOn(Enter(place, parts[0]), parts[1..], more);
    }
  }

  lemma {:induction false} SplitEnd(s: string)
    ensures Split(s + "/") == Split(s) + [""]
  {
    if s == "" {
      assert s + "/" == "/" && "/"[1..] == "";
    } else {
      assert (s + "/")[1..] == s[1..] + "/";
      SplitEnd(s[1..]);
    }
  }

  /** Slashes at the end lead nowhere else, and leave the first component alone. */
  lemma {:induction false} TrimEndLeads(place: seq<string>, s: string)
    ensures Walk(place, Split(s)) == Walk(place, Split(TrimEnd(s)))
    ensures Split(TrimEnd(s))[0] == Split(s)[0]
  {
    if s != "" && s[|s| - 1] == '/' {
      var init := s[..|s| - 1];
      assert s == init + "/";
      SplitEnd(init);
      WalkOn(place, Split(init), [""]);
      TrimEndLeads(place, init);
    }
  }

  /** Without a slash in front, a path leads from the root to what it is cut into. */
  lemma FullPathOfParts(root: seq<string>, path: string)
    requires !IsAbsolute(path)
    ensures FullPath(root, path) == Walk(root, Parts(path))
  {
    TrimEndLeads(root, path);
  }

  /** No component of the path climbs. */
  predicate NoClimb(parts: seq<string>) {
    forall i :: 0 <= i < |parts| ==> parts[i] != ".."
  }

  lemma {:induction false} WalkDown(place: seq<string>, parts: seq<string>)
    requires NoClimb(parts)
    ensures place <= Walk(place, parts)
    decreases |parts|
  {
    if parts != [] {
      WalkDown(Enter(place, parts[0]), parts[1..]);
    }
  }

  /** What lies below a place is reached by names. */
  lemma {:induction false} WalkReachesNames(place: seq<string>, parts: seq<string>, n: nat)
    requires forall i :: n <= i < |place| ==> IsName(place[i])
    ensures forall i :: n <= i < |Walk(place, parts)| ==> IsName(Walk(place, parts)[i])
    decreases |parts|
  {
    if parts != [] {
      WalkReachesNames(Enter(place, parts[0]), parts[1..], n);
    }
  }

  lemma ResolvedNames(root: seq<string>, path: string)
    ensures Resolve(root, path).Some? ==>
      forall i :: 0 <= i < |Resolve(root, path).value| ==> IsName(Resolve(root, path).value[i])
  {
    WalkReachesNames(if IsAbsolute(path) then [] else root, Split(path), |root|);
  }

  /** A path that says no more than where it goes: relative, not the root, and made of names only. */
  predicate Plain(path: string) {
    !IsAbsolute(path) && forall i :: 0 <= i < |Parts(path)| ==> IsName(Parts(path)[i])
  }

  predicate IsName(part: string) {
    part != "" && part != "." && part != ".."
  }

  lemma {:induction false} WalkNames(place: seq<string>, parts: seq<string>)
    requires forall i :: 0 <= i < |parts| ==> IsName(parts[i])
    ensures Walk(place, parts) == place + parts
    decreases |parts|
  {
    if parts != [] {
      WalkNames(Enter(place, parts[0]), parts[1..]);
      assert place + [parts[0]] + parts[1..] == place + parts;
    }
  }

  /** A plain path leads to exactly what it is cut into. */
  lemma PlainResolves(root: seq<string>, path: string)
    requires Plain(path)
    ensures Resolve(root, path) == if root == [] then None else Some(Parts(path))
  {
    FullPathOfParts(root, path);
    WalkNames(root, Parts(path));
    assert (root + Parts(path))[|root|..] == Parts(path);
  }

  /** Nothing, and a dot, lead to the project root. */
  lemma DotResolves(root: seq<string>)
    ensures Parts("") == [""] && Resolve(root, "") == Some([])
    ensures Parts(".") == ["."] && Resolve(root, ".") == Some([])
  {
    SplitName("");
    SplitName(".");
    UntrimmedParts("");
    UntrimmedParts(".");
    assert Walk(root, [""]) == Walk(root, []) == Walk(root, ["."]);
    assert FullPath(root, "") == root == FullPath(root, ".") && root[|root|..] == [];
  }

  /** An absolute path leads inside exactly if it names the root first, and then where the rest of it leads. */
  lemma AbsoluteResolves(root: seq<string>, path: string)
    requires root != [] && (forall i :: 0 <= i < |root| ==> IsName(root[i]) && '/' !in root[i]) && Plain(path)
    ensures Resolve(root, "/" + Join(root) + "/" + path) == Some(Parts(path))
  {
    AbsoluteParts(root, path);
    WalkFromTheTop(root, Split(path));
    assert FullPath(root, "/" + Join(root) + "/" + path) == FullPath(root, path);
    PlainResolves(root, path);
  }

  /** As both planners cut it, such a path begins with the root's first component. */
  lemma AbsoluteBegins(root: seq<string>, path: string)
    requires root != [] && (forall i :: 0 <= i < |root| ==> IsName(root[i]) && '/' !in root[i])
    ensures Parts("/" + Join(root) + "/" + path)[0] == root[0]
  {
    SlashFirst(Join(root), path);
    NoSlashFront(root, path);
    SlashInFront(Join(root) + "/" + path);
    SplitJoinAfter(root, path);
  }

  lemma SlashFirst(a: string, b: string)
    ensures "/" + a + "/" + b == "/" + (a + "/" + b)
  {
  }

  lemma SlashInFront(rest: string)
    requires rest != "" && rest[0] != '/'
    ensures Parts("/" + rest)[0] == Split(rest)[0]
  {
    assert ("/" + rest)[1..] == rest && TrimStart("/" + rest) == TrimStart(rest) == rest;
    TrimEndLeads([], rest);
  }

  lemma NoSlashFront(root: seq<string>, path: string)
    requires root != [] && root[0] != "" && '/' !in root[0]
    ensures var rest := Join(root) + "/" + path; rest != "" && rest[0] != '/'
  {
  }

  lemma AbsoluteParts(root: seq<string>, path: string)
    requires root != [] && forall i :: 0 <= i < |root| ==> '/' !in root[i]
    ensures Split("/" + Join(root) + "/" + path) == [""] + (root + Split(path))
  {
    var rest := Join(root) + "/" + path;
    SplitAfter("", rest);
    SplitJoinAfter(root, path);
    SlashFirst(Join(root), path);
    assert "" + "/" + rest == "/" + rest;
  }

  lemma WalkFromTheTop(root: seq<string>, parts: seq<string>)
    requires forall i :: 0 <= i < |root| ==> IsName(root[i])
    ensures Walk([], [""] + (root + parts)) == Walk(root, parts)
  {
    assert ([""] + (root + parts))[1..] == root + parts;
    WalkNames([], root);
    WalkOn([], root, parts);
    assert [] + root == root;
  }

  lemma {:induction false} SplitJoinAfter(parts: seq<string>, rest: string)
    requires parts != [] && forall i :: 0 <= i < |parts| ==> '/' !in parts[i]
    ensures Split(Join(parts) + "/" + rest) == parts + Split(rest)
  {
    if |parts| == 1 {
      SplitAfter(parts[0], rest);
    } else {
      var more := parts[1..];
      SplitJoinAfter(more, rest);
      SplitAfter(parts[0], Join(more) + "/" + rest);
      Reassociate(parts[0], Join(more), rest);
      assert [parts[0]] + (more + Split(rest)) == parts + Split(rest);
    }
  }

  lemma Reassociate(a: string, b: string, c: string)
    ensures a + "/" + b + "/" + c == a + "/" + (b + "/" + c)
  {
  }

  /** Above the root, and in another top-level directory of the file system, nothing is inside. */
  lemma OutsideIsRefused(root: seq<string>, name: string)
    requires root != [] && '/' !in name && IsName(name) && name != root[0]
    ensures Resolve(root, "..").None? && Resolve(root, "/" + name).None?
  {
    SplitName("..");
    SplitName(name);
    SplitAfter("", name);
    assert "" + "/" + name == "/" + name;
    assert Walk(root, [".."]) == Walk(root[..|root| - 1], []);
    assert ["", name][1..] == [name] && Walk([], ["", name]) == Walk([], [name]) == Walk([] + [name], []);
    assert FullPath(root, "/" + name) == [name];
  }

  // --- what a scope owns -----------------------------------------------------------------

  /** A file, given by its components below the root, lies at or beneath where the entry leads. */
  ghost predicate Owns(root: seq<string>, entry: string, file: seq<string>) {
    Resolve(root, entry).Some? && Resolve(root, entry).value <= file
  }

  ghost predicate ScopeOwns(root: seq<string>, scope: seq<string>, file: seq<string>) {
    exists i :: 0 <= i < |scope| && Owns(root, scope[i], file)
  }

  /** Some file belongs to both scopes. */
  ghost predicate Overlapping(root: seq<string>, a: seq<string>, b: seq<string>) {
    exists file :: ScopeOwns(root, a, file) && ScopeOwns(root, b, file)
  }

  /** One of two entries leads to a place at or beneath the other's. */
  predicate Collide(root: seq<string>, a: string, b: string) {
    var left, right := Resolve(root, a), Resolve(root, b);
    left.Some? && right.Some? && (left.value <= right.value || right.value <= left.value)
  }

  /** Entries own a common file exactly if they collide. */
  lemma CollideIff(root: seq<string>, a: string, b: string)
    ensures (exists file :: Owns(root, a, file) && Owns(root, b, file)) <==> Collide(root, a, b)
  {
    if Collide(root, a, b) {
      var left, right := Resolve(root, a).value, Resolve(root, b).value;
      var deeper := if left <= right then right else left;
      assert Owns(root, a, deeper) && Owns(root, b, deeper);
    }
    if file :| Owns(root, a, file) && Owns(root, b, file) {
      var left, right := Resolve(root, a).value, Resolve(root, b).value;
      if |left| <= |right| {
        assert left == file[..|left|] == right[..|left|];
      } else {
        assert right == file[..|right|] == left[..|right|];
      }
    }
  }

  ghost predicate EntriesCollide(root: seq<string>, a: seq<string>, b: seq<string>) {
    exists i, j :: 0 <= i < |a| && 0 <= j < |b| && Collide(root, a[i], b[j])
  }

  lemma OverlappingIff(root: seq<string>, a: seq<string>, b: seq<string>)
    ensures Overlapping(root, a, b) <==> EntriesCollide(root, a, b)
  {
    if file :| ScopeOwns(root, a, file) && ScopeOwns(root, b, file) {
      var i :| 0 <= i < |a| && Owns(root, a[i], file);
      var j :| 0 <= j < |b| && Owns(root, b[j], file);
      CollideIff(root, a[i], b[j]);
    }
    if i, j :| 0 <= i < |a| && 0 <= j < |b| && Collide(root, a[i], b[j]) {
      CollideIff(root, a[i], b[j]);
      var file :| Owns(root, a[i], file) && Owns(root, b[j], file);
      assert ScopeOwns(root, a, file) && ScopeOwns(root, b, file);
    }
  }
}
