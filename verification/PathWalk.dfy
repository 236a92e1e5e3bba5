/** Path resolution, by characters as the kernel does it and by components, and the
    way back from an entry to its path. Root looks, so search is always allowed. */
module PathWalk {
  import opened Machine
  import opened Dentries
  import opened Inodes

  const MAX_SYMLINKS: nat := 40

  /** A file system; `links` holds what the symbolic links say. */
  datatype Fs = Fs(t: Dents, ino: Inos, root: nat, links: map<nat, string>)

  datatype Error = ENAMETOOLONG | ENOTDIR | ENOENT | ELOOP | EEXIST | EINVAL | ENOMEM

  datatype Result = Found(inode: nat, dentry: nat) | Failed(error: Error)

  predicate IsDir(fs: Fs, i: nat) { i in fs.ino && fs.ino[i].kind == Dir }

  predicate IsLink(fs: Fs, i: nat) { i in fs.ino && fs.ino[i].kind == Symlink }

  function Target(fs: Fs, i: nat): string { if i in fs.links then fs.links[i] else "" }

  function RootInode(fs: Fs): nat { if fs.root in fs.t then fs.t[fs.root].inode else NULL }

  // ---- One component ----

  /** The first entry of a list under a name, NULL if there is none. */
  function ChildNamed(t: Dents, cs: seq<nat>, name: string): nat {
    if cs == [] then NULL
    else if cs[0] in t && t[cs[0]].name == name then cs[0]
    else ChildNamed(t, cs[1..], name)
  }

  /** vfs_child */
  function Child(fs: Fs, dir: nat, name: string): nat {
    if IsDir(fs, dir) && fs.ino[dir].ptr in fs.t then ChildNamed(fs.t, fs.t[fs.ino[dir].ptr].children, name) else NULL
  }

  /** step: "." and "..", where "/.." is "/", or an entry. NULL if there is none. */
  function StepTo(fs: Fs, dir: nat, name: string): nat {
    if name == "." then dir
    else if name == ".." then
      var d := if dir in fs.ino then fs.ino[dir].ptr else NULL;
      if d in fs.t && fs.t[d].parent in fs.t then fs.t[fs.t[d].parent].inode else dir
    else
      var c := Child(fs, dir, name);
      if c in fs.t then fs.t[c].inode else NULL
  }

  /** name_of: the entry of a directory is its own; of anything else, the one we
      came through. */
  function NameOf(fs: Fs, dir: nat, n: nat, comp: string): nat {
    if IsDir(fs, n) then fs.ino[n].ptr else Child(fs, dir, comp)
  }

  function OwnName(fs: Fs, n: nat): nat { if IsDir(fs, n) then fs.ino[n].ptr else NULL }

  // ---- A path as components ----

  /** The length of the component at the front. */
  function Span(s: string): (k: nat)
    ensures k <= |s| && '/' !in s[..k] && (k < |s| ==> s[k] == '/')
  {
    if s == "" || s[0] == '/' then 0
    else
      assert forall k :: 0 <= k <= |s[1..]| ==> s[..k + 1] == [s[0]] + s[1..][..k];
      1 + Span(s[1..])
  }

  function Comps(s: string): seq<string>
    decreases |s|
  {
    if s == "" then []
    else if s[0] == '/' then Comps(s[1..])
    else
      [s[..Span(s)]] + Comps(s[Span(s)..])
  }

  predicate EndsInSlash(s: string) { s != "" && s[|s| - 1] == '/' }

  /** The inode a path starts from. */
  function Start(fs: Fs, base: nat, path: string): nat { if path != "" && path[0] == '/' then RootInode(fs) else base }

  /** Resolution by components. A trailing slash asks for a directory, and has a
      link at the end followed. */
  function Resolve(fs: Fs, cur: nat, d: nat, comps: seq<string>, slash: bool, follow: bool, depth: nat): Result
    requires depth <= MAX_SYMLINKS
    decreases MAX_SYMLINKS - depth, |comps|, 0
  {
    if comps == [] then Found(cur, d)
    else if |comps[0]| > NAME_MAX then Failed(ENAMETOOLONG)
    else if !IsDir(fs, cur) then Failed(ENOTDIR)
    else
      var next := StepTo(fs, cur, comps[0]);
      if next == NULL then Failed(ENOENT)
      else
        var r := Enter(fs, cur, next, comps, slash, follow, depth);
        if r.Failed? then r
        else if |comps| == 1 && slash && !IsDir(fs, r.inode) then Failed(ENOTDIR)
        else Resolve(fs, r.inode, r.dentry, comps[1..], slash, follow, depth)
  }

  /** The inode a component leads to, through a link if it is one to be followed. */
  function Enter(fs: Fs, cur: nat, next: nat, comps: seq<string>, slash: bool, follow: bool, depth: nat): Result
    requires depth <= MAX_SYMLINKS && comps != []
    decreases MAX_SYMLINKS - depth, 0, 0
  {
    if IsLink(fs, next) && (|comps| > 1 || slash || follow) then
      if depth == MAX_SYMLINKS then Failed(ELOOP) else ResolvePath(fs, cur, Target(fs, next), true, depth + 1)
    else Found(next, NameOf(fs, cur, next, comps[0]))
  }

  function ResolvePath(fs: Fs, base: nat, path: string, follow: bool, depth: nat): Result
    requires depth <= MAX_SYMLINKS
    decreases MAX_SYMLINKS - depth, |Comps(path)|, 1
  {
    var cur := Start(fs, base, path);
    Resolve(fs, cur, OwnName(fs, cur), Comps(path), EndsInSlash(path), follow, depth)
  }

  // ---- Resolution by characters ----

  method SkipSlashes(path: string, i: nat) returns (j: nat)
    requires i <= |path|
    ensures i <= j <= |path| && Comps(path[i..]) == Comps(path[j..]) && (j < |path| ==> path[j] != '/')
    ensures j == |path| ==> Comps(path[i..]) == []
  {
    j := i;
    while j < |path| && path[j] == '/'
      invariant i <= j <= |path| && Comps(path[i..]) == Comps(path[j..])
    {
      assert path[j..][1..] == path[j + 1..];
      j := j + 1;
    }
  }

  method ComponentEnd(path: string, i: nat) returns (j: nat)
    requires i < |path| && path[i] != '/'
    ensures i < j <= |path| && j == i + Span(path[i..]) && Comps(path[i..]) == [path[i..j]] + Comps(path[j..])
    ensures j < |path| ==> path[j] == '/'
  {
    j := i;
    while j < |path| && path[j] != '/'
      invariant i <= j <= |path| && Span(path[i..]) == j - i + Span(path[j..])
    {
      assert path[j..][1..] == path[j + 1..];
      j := j + 1;
    }
    assert path[i..][..j - i] == path[i..j] && path[i..][j - i..] == path[j..];
  }

  /** Is there nothing but slashes from `i` on? */
  method OnlySlashes(path: string, i: nat) returns (trailing: bool)
    requires i <= |path|
    ensures trailing <==> Comps(path[i..]) == []
  {
    trailing := true;
    var p := i;
    while p < |path|
      invariant i <= p <= |path| && (trailing ==> Comps(path[i..]) == Comps(path[p..]))
      invariant (!trailing ==> Comps(path[i..]) != [])
    {
      assert path[p..][1..] == path[p + 1..];
      trailing := trailing && path[p] == '/';
      p := p + 1;
    }
  }

  /** walk, as the kernel does it. It ends on every graph of links: a link followed
      uses up one of forty, anything else a character. */
  method Walk(fs: Fs, base: nat, path: string, follow: bool, depth: nat) returns (r: Result)
    requires depth <= MAX_SYMLINKS
    ensures r == ResolvePath(fs, base, path, follow, depth)
    decreases MAX_SYMLINKS - depth
  {
    hide Comps, Enter, StepTo, NameOf;
    var cur: nat := if path != "" && path[0] == '/' then RootInode(fs) else base;
    var d: nat := OwnName(fs, cur);
    ghost var slash := EndsInSlash(path);
    var i := 0;
    assert path[0..] == path;
    while i < |path|
      invariant 0 <= i <= |path|
      invariant ResolvePath(fs, base, path, follow, depth) ==
        Resolve(fs, cur, d, Comps(path[i..]), slash, follow, depth)
    {
      var j := SkipSlashes(path, i);
      if j == |path| { break; }
      var k := ComponentEnd(path, j);
      var comp := path[j..k];
      ghost var comps := Comps(path[i..]);
      CompsTail(path[j..k], Comps(path[k..]));
      TailSlash(path, k);
      if |comp| > NAME_MAX { return Failed(ENAMETOOLONG); }
      if !IsDir(fs, cur) { return Failed(ENOTDIR); }
      var next := StepTo(fs, cur, comp);
      if next == NULL { return Failed(ENOENT); }
      var last := k == |path|;
      var nd := NameOf(fs, cur, next, comp);
      EnterFacts(fs, cur, next, comps, slash, follow, depth);
      if IsLink(fs, next) && (!last || follow) {
        if depth == MAX_SYMLINKS { return Failed(ELOOP); }
        var q := Walk(fs, cur, Target(fs, next), true, depth + 1);
        if q.Failed? { return q; }
        next, nd := q.inode, q.dentry;
      }
      if k < |path| && !IsDir(fs, next) {
        var trailing := OnlySlashes(path, k);
        if trailing { return Failed(ENOTDIR); }
      }
      cur, d := next, nd;
      i := k;
    }
    NoMore(path);
    return Found(cur, d);
  }

  lemma NoMore(path: string)
    ensures Comps(path[|path|..]) == []
  {
  }

  lemma CompsTail(c: string, rest: seq<string>)
    ensures ([c] + rest)[0] == c && ([c] + rest)[1..] == rest && |[c] + rest| == 1 + |rest|
  {
  }

  /** Behind the last component there is something only if the path ends in a slash. */
  lemma TailSlash(path: string, k: nat)
    requires k <= |path| && path != "" && (k < |path| ==> path[k] == '/')
    requires (k == |path| ==> k > 0 && path[k - 1] != '/')
    ensures k == |path| ==> !EndsInSlash(path) && Comps(path[k..]) == []
    ensures k < |path| && Comps(path[k..]) == [] ==> EndsInSlash(path)
  {
    if k < |path| && Comps(path[k..]) == [] {
      LastSlash(path[k..]);
      assert path[k..][|path| - k - 1] == path[|path| - 1];
    }
  }

  lemma {:induction false} LastSlash(s: string)
    requires s != "" && Comps(s) == []
    ensures EndsInSlash(s)
  {
    if |s| > 1 { LastSlash(s[1..]); }
  }

  lemma EnterFacts(fs: Fs, cur: nat, next: nat, comps: seq<string>, slash: bool, follow: bool, depth: nat)
    requires depth <= MAX_SYMLINKS && comps != []
    ensures var r := Enter(fs, cur, next, comps, slash, follow, depth);
      if IsLink(fs, next) && (|comps| > 1 || slash || follow)
      then if depth == MAX_SYMLINKS then r == Failed(ELOOP)
        else r == ResolvePath(fs, cur, Target(fs, next), true, depth + 1)
      else r == Found(next, NameOf(fs, cur, next, comps[0]))
  {
  }

  // ---- From an entry back to its path ----

  /** "/a/b" for an entry b in a in the root; nothing for the root itself. */
  function Names(t: Dents, root: nat, depth: map<nat, nat>, next: nat, d: nat): string
    requires TreeOk(t, root, depth, next) && d in t
    decreases if d in depth then depth[d] else 0
  {
    UpFacts(t, root, depth, next, d);
    if d == root then "" else Names(t, root, depth, next, t[d].parent) + "/" + t[d].name
  }

  function PathOf(t: Dents, root: nat, depth: map<nat, nat>, next: nat, d: nat): string
    requires TreeOk(t, root, depth, next) && d in t
  {
    var s := Names(t, root, depth, next, d);
    if s == "" then "/" else s
  }

  /** vfs_dentry_path: the path, written into the buffer from the right, then moved
      to the front; it fails exactly when path and terminator do not fit. */
  method DentryPath(t: Dents, root: nat, ghost depth: map<nat, nat>, ghost next: nat, d: nat, buf: array<char>)
    returns (ok: bool)
    requires TreeOk(t, root, depth, next) && d in t && buf.Length >= 2
    modifies buf
    ensures ok <==> |PathOf(t, root, depth, next, d)| < buf.Length
    ensures ok ==> buf[..|PathOf(t, root, depth, next, d)| + 1] == PathOf(t, root, depth, next, d) + ['\0']
  {
    hide TreeOk, Names;
    ghost var goal, tail := Names(t, root, depth, next, d), "";
    var at := buf.Length - 1;
    buf[at] := '\0';
    var x := d;
    UpFacts(t, root, depth, next, x);
    assert goal + "" == goal;
    while x in t && t[x].parent != NULL
      invariant 0 <= at < buf.Length && x in t && x in depth && buf[at..] == tail + ['\0']
      invariant goal == Names(t, root, depth, next, x) + tail
      invariant tail == "" || tail[0] == '/'
      decreases if x in depth then depth[x] else 0
    {
      UpFacts(t, root, depth, next, x);
      NamesIs(t, root, depth, next, x);
      var len := |t[x].name|;
      if len + 1 > at { return false; }
      at := PutLeft(buf, at, t[x].name);
      Regroup(Names(t, root, depth, next, t[x].parent), "/" + t[x].name, tail);
      Regroup("/" + t[x].name, tail, ['\0']);
      tail := ("/" + t[x].name) + tail;
      x := t[x].parent;
      UpFacts(t, root, depth, next, x);
    }
    UpFacts(t, root, depth, next, x);
    NamesIs(t, root, depth, next, x);
    assert goal == tail;
    FrontIs(buf[..], at, tail);
    if buf[at] == '\0' {
      at := at - 1;
      buf[at] := '/';
      assert buf[at..] == "/" + ['\0'];
    }
    MoveToFront(buf, at);
    return true;
  }

  lemma NamesIs(t: Dents, root: nat, depth: map<nat, nat>, next: nat, d: nat)
    requires TreeOk(t, root, depth, next) && d in t
    ensures d == root ==> Names(t, root, depth, next, d) == ""
    ensures d != root ==> t[d].parent in t && t[d].parent in depth && d in depth && depth[t[d].parent] < depth[d]
    ensures d != root ==> Names(t, root, depth, next, d) == Names(t, root, depth, next, t[d].parent) + "/" + t[d].name
    ensures d != root ==> Names(t, root, depth, next, d) == Names(t, root, depth, next, t[d].parent) + ("/" + t[d].name)
  {
    UpFacts(t, root, depth, next, d);
  }

  lemma FrontIs(s: string, at: nat, tail: string)
    requires at < |s| && s[at..] == tail + ['\0'] && (tail == "" || tail[0] == '/')
    ensures s[at] == '\0' <==> tail == ""
    ensures |s| == at + |tail| + 1
  {
    assert s[at] == s[at..][0];
  }

  /** One name and its slash, to the left of what is there. */
  method PutLeft(buf: array<char>, at: nat, name: string) returns (to: nat)
    requires |name| + 1 <= at < buf.Length
    modifies buf
    ensures to == at - |name| - 1 && buf[to..] == ("/" + name) + old(buf[at..])
  {
    Copy(buf, at - |name|, name);
    assert buf[at - |name|..] == name + old(buf[at..]);
    to := at - |name| - 1;
    buf[to] := '/';
    assert buf[to..] == ['/'] + buf[to + 1..];
  }

  method Copy(buf: array<char>, at: nat, name: string)
    requires at + |name| <= buf.Length
    modifies buf
    ensures buf[..] == old(buf[..at]) + name + old(buf[at + |name|..])
  {
    for i := 0 to |name|
      invariant buf[..] == old(buf[..at]) + name[..i] + old(buf[at + i..])
    {
      buf[at + i] := name[i];
      assert name[..i + 1] == name[..i] + [name[i]];
    }
    assert name[..|name|] == name;
  }

  method MoveToFront(buf: array<char>, at: nat)
    requires at <= buf.Length
    modifies buf
    ensures buf[..buf.Length - at] == old(buf[at..])
  {
    for i := 0 to buf.Length - at
      invariant buf[..i] == old(buf[at..])[..i] && buf[at + i..] == old(buf[at + i..])
    {
      assert buf[at + i] == buf[at + i..][0] == old(buf[at..])[i];
      buf[i] := buf[at + i];
      assert old(buf[at..])[..i + 1] == old(buf[at..])[..i] + [old(buf[at..])[i]];
    }
    assert old(buf[at..])[..buf.Length - at] == old(buf[at..]);
  }

  lemma Regroup(a: string, b: string, c: string)
    ensures (a + b) + c == a + (b + c)
  {
  }

  // ---- The round trip ----

  ghost predicate FsOk(fs: Fs, depth: map<nat, nat>, next: nat) {
    TreeOk(fs.t, fs.root, depth, next) && NamedOk(fs.t, fs.ino) && RootOk(fs.t, fs.ino, fs.root)
  }

  lemma {:induction false} SpanBefore(s: string, rest: string)
    requires rest == "" || rest[0] == '/'
    ensures Span(s + rest) == Span(s)
  {
    if s == "" {
      assert s + rest == rest;
    } else if s[0] != '/' {
      SpanBefore(s[1..], rest);
      assert (s + rest)[1..] == s[1..] + rest;
    }
  }

  lemma {:induction false} SpanWhole(s: string)
    requires '/' !in s
    ensures Span(s) == |s|
  {
    if s != "" { SpanWhole(s[1..]); }
  }

  lemma {:induction false} CompsJoin(s: string, q: string)
    ensures Comps(s + "/" + q) == Comps(s) + Comps(q)
    decreases |s|
  {
    hide Comps, Span;
    var tail := "/" + q;
    assert s + "/" + q == s + tail;
    CompsStep(s);
    CompsStep(s + tail);
    if s == "" {
      assert s + tail == tail && tail[1..] == q;
      assert [] + Comps(q) == Comps(q);
    } else if s[0] == '/' {
      assert (s + tail)[1..] == s[1..] + "/" + q;
      CompsJoin(s[1..], q);
    } else {
      SpanBefore(s, tail);
      var k := Span(s);
      assert (s + tail)[..k] == s[..k] && (s + tail)[k..] == s[k..] + "/" + q;
      CompsJoin(s[k..], q);
      assert [s[..k]] + (Comps(s[k..]) + Comps(q)) == ([s[..k]] + Comps(s[k..])) + Comps(q);
    }
  }

  lemma CompsStep(s: string)
    ensures s == "" ==> Comps(s) == []
    ensures s != "" && s[0] == '/' ==> Comps(s) == Comps(s[1..])
    ensures s != "" && s[0] != '/' ==> 0 < Span(s) <= |s| && Comps(s) == [s[..Span(s)]] + Comps(s[Span(s)..])
  {
  }

  lemma CompsAppend(s: string, name: string)
    requires name != "" && '/' !in name
    ensures Comps(s + "/" + name) == Comps(s) + [name]
  {
    CompsJoin(s, name);
    CompsName(name);
  }

  lemma CompsName(name: string)
    requires name != "" && '/' !in name
    ensures Comps(name) == [name] && !EndsInSlash(name)
  {
    SpanWhole(name);
    assert name[..|name|] == name && name[|name|..] == "";
    assert Comps(name) == [name] + Comps("") == [name];
  }

  /** From `a` down: each entry of `ds` is a child of the one before. */
  ghost predicate Line(t: Dents, a: nat, ds: seq<nat>)
    decreases |ds|
  {
    a in t && (ds == [] || (ds[0] in t && ds[0] in t[a].children && Line(t, ds[0], ds[1..])))
  }

  function NamesAlong(t: Dents, ds: seq<nat>): seq<string> {
    if ds == [] then [] else [if ds[0] in t then t[ds[0]].name else ""] + NamesAlong(t, ds[1..])
  }

  function Last(a: nat, ds: seq<nat>): nat { if ds == [] then a else ds[|ds| - 1] }

  lemma {:induction false} LineAppend(t: Dents, a: nat, ds: seq<nat>, d: nat)
    requires Line(t, a, ds) && d in t && Last(a, ds) in t && d in t[Last(a, ds)].children
    ensures Line(t, a, ds + [d]) && NamesAlong(t, ds + [d]) == NamesAlong(t, ds) + [t[d].name] && Last(a, ds + [d]) == d
    decreases |ds|
  {
    var es := ds + [d];
    if ds == [] {
      assert es[1..] == [];
    } else {
      assert es[1..] == ds[1..] + [d];
      LineAppend(t, ds[0], ds[1..], d);
    }
  }

  /** The entries from the root to `d`. */
  lemma {:induction false} LineTo(t: Dents, root: nat, depth: map<nat, nat>, next: nat, d: nat) returns (ds: seq<nat>)
    requires TreeOk(t, root, depth, next) && d in t
    ensures Line(t, root, ds) && Last(root, ds) == d && NamesAlong(t, ds) == Comps(Names(t, root, depth, next, d))
    decreases if d in depth then depth[d] else 0
  {
    hide TreeOk, Comps, Span;
    UpFacts(t, root, depth, next, d);
    UpFacts2(t, root, depth, next, d);
    if d == root {
      ds := [];
    } else {
      ds := LineTo(t, root, depth, next, t[d].parent);
      LineAppend(t, root, ds, d);
      CompsAppend(Names(t, root, depth, next, t[d].parent), t[d].name);
      ds := ds + [d];
    }
  }

  lemma UpFacts2(t: Dents, root: nat, depth: map<nat, nat>, next: nat, d: nat)
    requires TreeOk(t, root, depth, next) && d in t
    ensures root in t && Comps("") == [] && (d != root ==> GoodName(t[d].name) && |t[d].name| <= NAME_MAX)
  {
    UpFacts(t, root, depth, next, d);
    if d != root {
      var cs := t[t[d].parent].children;
      var i :| 0 <= i < |cs| && cs[i] == d;
      assert KidsOk(t, t[d].parent, cs, next) && Kid(t, t[d].parent, cs[i], next);
    }
  }

  lemma {:induction false} ChildNamedFinds(t: Dents, p: nat, cs: seq<nat>, next: nat, c: nat)
    requires KidsOk(t, p, cs, next) && c in cs
    ensures c in t && ChildNamed(t, cs, t[c].name) == c
  {
    var i :| 0 <= i < |cs| && cs[i] == c;
    assert Kid(t, p, cs[0], next) && Kid(t, p, cs[i], next);
    if i > 0 {
      assert Apart(t, cs[0], cs[i]);
      var rest := cs[1..];
      forall k | 0 <= k < |rest| ensures Kid(t, p, rest[k], next) { assert Kid(t, p, cs[k + 1], next); }
      forall k, l | 0 <= k < l < |rest| ensures Apart(t, rest[k], rest[l]) { assert Apart(t, cs[k + 1], cs[l + 1]); }
      assert rest[i - 1] == c;
      ChildNamedFinds(t, p, rest, next, c);
    }
  }

  /** One component leads from a directory to the child of that name. */
  lemma StepDown(fs: Fs, depth: map<nat, nat>, next: nat, a: nat, c: nat)
    requires FsOk(fs, depth, next) && a in fs.t && c in fs.t && c in fs.t[a].children
    ensures IsDir(fs, fs.t[a].inode) && fs.t[c].inode != NULL && |fs.t[c].name| <= NAME_MAX
    ensures StepTo(fs, fs.t[a].inode, fs.t[c].name) == fs.t[c].inode
    ensures NameOf(fs, fs.t[a].inode, fs.t[c].inode, fs.t[c].name) == c
    ensures fs.t[c].children != [] ==> !IsLink(fs, fs.t[c].inode)
  {
    assert EntryOk(fs.t, fs.ino, a) && EntryOk(fs.t, fs.ino, c);
    KidNotSelf(fs.t, fs.root, depth, next, a, c);
    UpFacts2(fs.t, fs.root, depth, next, c);
    assert KidsOk(fs.t, a, fs.t[a].children, next);
    ChildNamedFinds(fs.t, a, fs.t[a].children, next, c);
  }

  /** Down a line of directories; the last of them may be anything but a link to follow. */
  lemma {:induction false} Descend(
    fs: Fs, depth: map<nat, nat>, next: nat, a: nat, ds: seq<nat>, follow: bool, n: nat)
    requires FsOk(fs, depth, next) && Line(fs.t, a, ds) && n <= MAX_SYMLINKS
    requires Last(a, ds) in fs.t && (follow ==> !IsLink(fs, fs.t[Last(a, ds)].inode))
    ensures Resolve(fs, fs.t[a].inode, a, NamesAlong(fs.t, ds), false, follow, n) ==
      Found(fs.t[Last(a, ds)].inode, Last(a, ds))
    decreases |ds|
  {
    hide FsOk, StepTo, NameOf, Enter;
    if ds != [] {
      var c, rest := ds[0], ds[1..];
      StepDown(fs, depth, next, a, c);
      assert rest != [] ==> fs.t[c].children != [];
      assert Last(a, ds) == Last(c, rest);
      Descend(fs, depth, next, c, rest, follow, n);
      var comps := NamesAlong(fs.t, ds);
      CompsTail(fs.t[c].name, NamesAlong(fs.t, rest));
      EnterFacts(fs, fs.t[a].inode, fs.t[c].inode, comps, false, follow, n);
    }
  }

  /** Resolving the path of an entry gives back its inode and the entry itself, unless
      it is a link and to be followed. */
  lemma RoundTrip(fs: Fs, depth: map<nat, nat>, next: nat, d: nat, base: nat, follow: bool, n: nat)
    requires FsOk(fs, depth, next) && d in fs.t && n <= MAX_SYMLINKS && (follow ==> !IsLink(fs, fs.t[d].inode))
    ensures ResolvePath(fs, base, PathOf(fs.t, fs.root, depth, next, d), follow, n) == Found(fs.t[d].inode, d)
  {
    var ds := LineTo(fs.t, fs.root, depth, next, d);
    RootDir(fs, depth, next);
    Slashes(fs, depth, next, d);
    hide FsOk, Resolve, Names;
    if d == fs.root {
      assert Comps("/") == Comps("/"[1..]) == [];
      ResolveNone(fs, fs.t[d].inode, d, true, follow, n);
    } else {
      LineThere(fs.t, fs.root, ds);
      Descend(fs, depth, next, fs.root, ds, follow, n);
    }
  }

  lemma {:induction false} LineThere(t: Dents, a: nat, ds: seq<nat>)
    requires Line(t, a, ds)
    ensures Last(a, ds) in t
    decreases |ds|
  {
    if ds != [] { LineThere(t, ds[0], ds[1..]); }
  }

  lemma ResolveNone(fs: Fs, cur: nat, d: nat, slash: bool, follow: bool, n: nat)
    requires n <= MAX_SYMLINKS
    ensures Resolve(fs, cur, d, [], slash, follow, n) == Found(cur, d)
  {
  }

  lemma RootDir(fs: Fs, depth: map<nat, nat>, next: nat)
    requires FsOk(fs, depth, next)
    ensures fs.root in fs.t && OwnName(fs, RootInode(fs)) == fs.root
  {
    assert EntryOk(fs.t, fs.ino, fs.root);
  }

  lemma Slashes(fs: Fs, depth: map<nat, nat>, next: nat, d: nat)
    requires FsOk(fs, depth, next) && d in fs.t
    ensures var s := Names(fs.t, fs.root, depth, next, d);
      (s == "" <==> d == fs.root) && (s != "" ==> s[0] == '/' && !EndsInSlash(s))
    decreases if d in depth then depth[d] else 0
  {
    UpFacts(fs.t, fs.root, depth, next, d);
    if d != fs.root {
      UpFacts2(fs.t, fs.root, depth, next, d);
      Slashes(fs, depth, next, fs.t[d].parent);
      var name := fs.t[d].name;
      var s := Names(fs.t, fs.root, depth, next, fs.t[d].parent) + "/" + name;
      assert s[|s| - 1] == name[|name| - 1];
    }
  }

  // ---- Laws of resolution ----

  lemma {:induction false} ResolveAppend(
    fs: Fs, cur: nat, d: nat, xs: seq<string>, ys: seq<string>, slash: bool, follow: bool, n: nat)
    requires n <= MAX_SYMLINKS && ys != []
    ensures Resolve(fs, cur, d, xs + ys, slash, follow, n) ==
      var r := Resolve(fs, cur, d, xs, false, true, n);
      if r.Failed? then r else Resolve(fs, r.inode, r.dentry, ys, slash, follow, n)
    decreases |xs|
  {
    hide StepTo, NameOf, Enter;
    if xs == [] {
      assert xs + ys == ys;
    } else {
      var zs, rest := xs + ys, xs[1..];
      assert zs[0] == xs[0] && zs[1..] == rest + ys && |zs| > 1;
      if |xs[0]| <= NAME_MAX && IsDir(fs, cur) && StepTo(fs, cur, xs[0]) != NULL {
        var there := StepTo(fs, cur, xs[0]);
        EnterFacts(fs, cur, there, zs, slash, follow, n);
        EnterFacts(fs, cur, there, xs, false, true, n);
        var r := Enter(fs, cur, there, zs, slash, follow, n);
        if r.Found? { ResolveAppend(fs, r.inode, r.dentry, rest, ys, slash, follow, n); }
      }
    }
  }

  lemma CompsSome(q: string)
    requires q != "" && q[0] != '/'
    ensures Comps(q) != []
  {
  }

  /** Joining paths: `p/q` is what `q` is in the directory that `p` leads to. */
  lemma Join(fs: Fs, base: nat, p: string, q: string, follow: bool, n: nat)
    requires n <= MAX_SYMLINKS && q != "" && q[0] != '/' && p != "" && (!EndsInSlash(p) || Comps(p) == [])
    ensures ResolvePath(fs, base, p + "/" + q, follow, n) ==
      var r := ResolvePath(fs, base, p, true, n);
      if r.Failed? then r else ResolvePath(fs, r.inode, q, follow, n)
  {
    hide Resolve, Comps;
    var s := p + "/" + q;
    CompsJoin(p, q);
    CompsSome(q);
    assert s[0] == p[0] && s[|s| - 1] == q[|q| - 1];
    var cur := Start(fs, base, p);
    ResolveAppend(fs, cur, OwnName(fs, cur), Comps(p), Comps(q), EndsInSlash(q), follow, n);
    if Comps(p) == [] {
      ResolveNone(fs, cur, OwnName(fs, cur), false, true, n);
      ResolveNone(fs, cur, OwnName(fs, cur), true, true, n);
    }
    var r := Resolve(fs, cur, OwnName(fs, cur), Comps(p), false, true, n);
    if r.Found? { EntryUnused(fs, r.inode, r.dentry, OwnName(fs, r.inode), Comps(q), EndsInSlash(q), follow, n); }
  }

  /** The entry one starts with counts only if there is no component. */
  lemma EntryUnused(fs: Fs, cur: nat, d: nat, e: nat, comps: seq<string>, slash: bool, follow: bool, n: nat)
    requires n <= MAX_SYMLINKS && comps != []
    ensures Resolve(fs, cur, d, comps, slash, follow, n) == Resolve(fs, cur, e, comps, slash, follow, n)
  {
  }

  /** A slash at the end follows a link and asks for a directory. */
  lemma SlashAsks(fs: Fs, base: nat, p: string, follow: bool, n: nat)
    requires n <= MAX_SYMLINKS && p != "" && p[|p| - 1] != '/'
    ensures ResolvePath(fs, base, p + "/", follow, n) ==
      var r := ResolvePath(fs, base, p, true, n);
      if r.Found? && !IsDir(fs, r.inode) then Failed(ENOTDIR) else r
  {
    hide Resolve, Comps;
    var s := p + "/";
    CompsTrail(p);
    assert s[0] == p[0] && s[|s| - 1] == '/';
    LastComponent(p);
    var cur := Start(fs, base, p);
    SlashLast(fs, cur, OwnName(fs, cur), Comps(p), follow, n);
  }

  lemma LastComponent(p: string)
    requires p != "" && p[|p| - 1] != '/'
    ensures Comps(p) != []
  {
    if Comps(p) == [] { LastSlash(p); }
  }

  lemma {:induction false} SlashLast(fs: Fs, cur: nat, d: nat, comps: seq<string>, follow: bool, n: nat)
    requires n <= MAX_SYMLINKS && comps != []
    ensures Resolve(fs, cur, d, comps, true, follow, n) ==
      var r := Resolve(fs, cur, d, comps, false, true, n);
      if r.Found? && !IsDir(fs, r.inode) then Failed(ENOTDIR) else r
    decreases |comps|
  {
    hide StepTo, NameOf, Enter;
    if |comps[0]| <= NAME_MAX && IsDir(fs, cur) && StepTo(fs, cur, comps[0]) != NULL {
      var there := StepTo(fs, cur, comps[0]);
      EnterFacts(fs, cur, there, comps, true, follow, n);
      EnterFacts(fs, cur, there, comps, false, true, n);
      var r := Enter(fs, cur, there, comps, true, follow, n);
      if r.Found? {
        if |comps| > 1 {
          SlashLast(fs, r.inode, r.dentry, comps[1..], follow, n);
        } else {
          assert comps[1..] == [];
        }
      }
    }
  }

  /** One component in the directory entry `a`: itself, its parent, where the root is
      its own, or the child of that name. */
  ghost predicate LeadsTo(t: Dents, root: nat, a: nat, name: string, d: nat)
    requires a in t
  {
    if name == "." then d == a
    else if name == ".." then d == if a == root then root else t[a].parent
    else d in t && d in t[a].children && t[d].name == name
  }

  /** `name` is neither "." nor "..", and no child of `a` has it. */
  ghost predicate LeadsNowhere(t: Dents, a: nat, name: string)
    requires a in t
  {
    name != "." && name != ".." && forall c :: c in t && c in t[a].children ==> t[c].name != name
  }

  lemma OneComponent(fs: Fs, cur: nat, name: string, follow: bool, n: nat)
    requires n <= MAX_SYMLINKS && name != "" && '/' !in name
    ensures ResolvePath(fs, cur, name, follow, n) ==
      if |name| > NAME_MAX then Failed(ENAMETOOLONG)
      else if !IsDir(fs, cur) then Failed(ENOTDIR)
      else
        var there := StepTo(fs, cur, name);
        if there == NULL then Failed(ENOENT)
        else if IsLink(fs, there) && follow then
          if n == MAX_SYMLINKS then Failed(ELOOP) else ResolvePath(fs, cur, Target(fs, there), true, n + 1)
        else Found(there, NameOf(fs, cur, there, name))
  {
    hide StepTo, NameOf, Enter;
    CompsName(name);
    if |name| <= NAME_MAX && IsDir(fs, cur) && StepTo(fs, cur, name) != NULL {
      var there := StepTo(fs, cur, name);
      EnterFacts(fs, cur, there, [name], false, follow, n);
      assert [name][1..] == [];
      var r := Enter(fs, cur, there, [name], false, follow, n);
      if r.Found? { ResolveNone(fs, r.inode, r.dentry, false, follow, n); }
    }
  }

  /** What one component leads to, in the directory with the entry `a`. */
  lemma ComponentLaw(fs: Fs, depth: map<nat, nat>, next: nat, a: nat, name: string, follow: bool, n: nat, d: nat)
    requires FsOk(fs, depth, next) && a in fs.t && IsDir(fs, fs.t[a].inode) && n <= MAX_SYMLINKS
    requires name != "" && '/' !in name
    ensures |name| > NAME_MAX ==> ResolvePath(fs, fs.t[a].inode, name, follow, n) == Failed(ENAMETOOLONG)
    ensures |name| <= NAME_MAX && LeadsNowhere(fs.t, a, name) ==>
      ResolvePath(fs, fs.t[a].inode, name, follow, n) == Failed(ENOENT)
    ensures |name| <= NAME_MAX && LeadsTo(fs.t, fs.root, a, name, d) ==>
      d in fs.t && ResolvePath(fs, fs.t[a].inode, name, follow, n) ==
        if !IsLink(fs, fs.t[d].inode) || !follow then Found(fs.t[d].inode, d)
        else if n == MAX_SYMLINKS then Failed(ELOOP)
        else ResolvePath(fs, fs.t[a].inode, Target(fs, fs.t[d].inode), true, n + 1)
  {
    hide ResolvePath;
    OneComponent(fs, fs.t[a].inode, name, follow, n);
    DirFacts(fs, depth, next, a);
    if name == "." || name == ".." {
      DotSteps(fs, depth, next, a);
    } else if LeadsTo(fs.t, fs.root, a, name, d) {
      StepDown(fs, depth, next, a, d);
    } else if LeadsNowhere(fs.t, a, name) {
      NoChildNamed(fs, depth, next, a, name);
    }
  }

  lemma DirFacts(fs: Fs, depth: map<nat, nat>, next: nat, a: nat)
    requires FsOk(fs, depth, next) && a in fs.t && IsDir(fs, fs.t[a].inode)
    ensures fs.ino[fs.t[a].inode].ptr == a && NULL !in fs.ino && NULL !in fs.t && fs.t[a].inode in fs.ino
  {
    assert EntryOk(fs.t, fs.ino, a);
    if NULL in fs.t { UpFacts(fs.t, fs.root, depth, next, NULL); }
  }

  lemma DotSteps(fs: Fs, depth: map<nat, nat>, next: nat, a: nat)
    requires FsOk(fs, depth, next) && a in fs.t && IsDir(fs, fs.t[a].inode)
    ensures var i := fs.t[a].inode; StepTo(fs, i, ".") == i && i != NULL && NameOf(fs, i, i, ".") == a
    ensures var i, p := fs.t[a].inode, if a == fs.root then fs.root else fs.t[a].parent;
      && p in fs.t && StepTo(fs, i, "..") == fs.t[p].inode && fs.t[p].inode != NULL && IsDir(fs, fs.t[p].inode)
      && NameOf(fs, i, fs.t[p].inode, "..") == p
  {
    var p := if a == fs.root then fs.root else fs.t[a].parent;
    UpFacts(fs.t, fs.root, depth, next, a);
    RootDir(fs, depth, next);
    DirFacts(fs, depth, next, a);
    assert EntryOk(fs.t, fs.ino, p);
    DirFacts(fs, depth, next, p);
  }

  lemma NoChildNamed(fs: Fs, depth: map<nat, nat>, next: nat, a: nat, name: string)
    requires FsOk(fs, depth, next) && a in fs.t && IsDir(fs, fs.t[a].inode) && LeadsNowhere(fs.t, a, name)
    ensures StepTo(fs, fs.t[a].inode, name) == NULL
  {
    DirFacts(fs, depth, next, a);
    NamedIn(fs.t, fs.t[a].children, name);
  }

  lemma {:induction false} NamedIn(t: Dents, cs: seq<nat>, name: string)
    ensures var c := ChildNamed(t, cs, name); c == NULL || (c in cs && c in t && t[c].name == name)
  {
    if cs != [] { NamedIn(t, cs[1..], name); }
  }

  /** Nothing is beneath what is no directory. */
  lemma NoDirectory(fs: Fs, i: nat, name: string, follow: bool, n: nat)
    requires n <= MAX_SYMLINKS && name != "" && '/' !in name && |name| <= NAME_MAX && !IsDir(fs, i)
    ensures ResolvePath(fs, i, name, follow, n) == Failed(ENOTDIR)
  {
    hide ResolvePath;
    OneComponent(fs, i, name, follow, n);
  }

  /** A directory that was removed while someone was in it has nothing left but itself. */
  lemma RemovedDirectory(fs: Fs, depth: map<nat, nat>, next: nat, i: nat, name: string, follow: bool, n: nat)
    requires FsOk(fs, depth, next) && IsDir(fs, i) && fs.ino[i].ptr == NULL && n <= MAX_SYMLINKS
    requires name != "" && '/' !in name && |name| <= NAME_MAX
    ensures ResolvePath(fs, i, name, follow, n) ==
      if name == "." || name == ".." then Found(i, NULL) else Failed(ENOENT)
  {
    hide ResolvePath;
    OneComponent(fs, i, name, follow, n);
    if NULL in fs.t { UpFacts(fs.t, fs.root, depth, next, NULL); }
  }

  /** "d/.." is the directory above d, and the root's is the root; "d/." is d. */
  lemma DotDot(fs: Fs, depth: map<nat, nat>, next: nat, d: nat, base: nat, follow: bool, n: nat)
    requires FsOk(fs, depth, next) && d in fs.t && IsDir(fs, fs.t[d].inode) && n <= MAX_SYMLINKS
    ensures var up := if d == fs.root then d else fs.t[d].parent;
      up in fs.t
      && ResolvePath(fs, base, PathOf(fs.t, fs.root, depth, next, d) + "/..", follow, n) == Found(fs.t[up].inode, up)
    ensures ResolvePath(fs, base, PathOf(fs.t, fs.root, depth, next, d) + "/.", follow, n) == Found(fs.t[d].inode, d)
  {
    var up := if d == fs.root then d else fs.t[d].parent;
    var p := PathOf(fs.t, fs.root, depth, next, d);
    DotSteps(fs, depth, next, d);
    PathEnds(fs, depth, next, d);
    hide ResolvePath, FsOk;
    RoundTrip(fs, depth, next, d, base, true, n);
    assert p + "/.." == p + "/" + ".." && p + "/." == p + "/" + ".";
    Join(fs, base, p, "..", follow, n);
    Join(fs, base, p, ".", follow, n);
    ComponentLaw(fs, depth, next, d, "..", follow, n, up);
    ComponentLaw(fs, depth, next, d, ".", follow, n, d);
  }

  lemma PathEnds(fs: Fs, depth: map<nat, nat>, next: nat, d: nat)
    requires FsOk(fs, depth, next) && d in fs.t
    ensures var p := PathOf(fs.t, fs.root, depth, next, d);
      p != "" && p[0] == '/' && (!EndsInSlash(p) || Comps(p) == []) && (d != fs.root ==> !EndsInSlash(p))
  {
    Slashes(fs, depth, next, d);
    assert Comps("/") == Comps("/"[1..]) == [];
  }

  /** A path with a slash in front is looked up from the root. */
  lemma FromRoot(fs: Fs, base: nat, q: string, follow: bool, n: nat)
    requires n <= MAX_SYMLINKS && q != "" && q[0] != '/'
    ensures ResolvePath(fs, base, "/" + q, follow, n) == ResolvePath(fs, RootInode(fs), q, follow, n)
  {
    var s := "/" + q;
    assert s[1..] == q && s[0] == '/' && s[|s| - 1] == q[|q| - 1];
    hide Resolve;
  }

  lemma AnyBase(fs: Fs, a: nat, b: nat, path: string, follow: bool, n: nat)
    requires n <= MAX_SYMLINKS && path != "" && path[0] == '/'
    ensures ResolvePath(fs, a, path, follow, n) == ResolvePath(fs, b, path, follow, n)
  {
    hide Resolve;
  }

  /** A link leads to what its text leads to, from the directory the link is in; with
      forty links followed already it leads nowhere. */
  lemma LinkLaw(fs: Fs, depth: map<nat, nat>, next: nat, l: nat, base: nat, n: nat)
    requires FsOk(fs, depth, next) && l in fs.t && IsLink(fs, fs.t[l].inode) && n <= MAX_SYMLINKS
    ensures l != fs.root && fs.t[l].parent in fs.t
    ensures ResolvePath(fs, base, PathOf(fs.t, fs.root, depth, next, l), true, n) ==
      if n == MAX_SYMLINKS then Failed(ELOOP)
      else ResolvePath(fs, fs.t[fs.t[l].parent].inode, Target(fs, fs.t[l].inode), true, n + 1)
  {
    RootDir(fs, depth, next);
    UpFacts(fs.t, fs.root, depth, next, l);
    UpFacts2(fs.t, fs.root, depth, next, l);
    var a, name := fs.t[l].parent, fs.t[l].name;
    StepDown(fs, depth, next, a, l);
    NamesIs(fs.t, fs.root, depth, next, l);
    NamesIs(fs.t, fs.root, depth, next, a);
    PathEnds(fs, depth, next, a);
    Slashes(fs, depth, next, a);
    hide ResolvePath, FsOk, Names;
    ComponentLaw(fs, depth, next, a, name, true, n, l);
    if a == fs.root {
      assert "" + "/" + name == "/" + name;
      FromRoot(fs, base, name, true, n);
    } else {
      RoundTrip(fs, depth, next, a, base, true, n);
      Join(fs, base, Names(fs.t, fs.root, depth, next, a), name, true, n);
    }
  }

  /** The text of the link `l` is the path of `e`, or its name if both are in one
      directory. */
  ghost predicate PointsTo(fs: Fs, depth: map<nat, nat>, next: nat, l: nat, e: nat)
    requires FsOk(fs, depth, next)
  {
    && l in fs.t && e in fs.t && IsLink(fs, fs.t[l].inode)
    && var text := Target(fs, fs.t[l].inode);
    || text == PathOf(fs.t, fs.root, depth, next, e)
    || (e != fs.root && fs.t[e].parent == fs.t[l].parent && text == fs.t[e].name)
  }

  lemma Hop(fs: Fs, depth: map<nat, nat>, next: nat, l: nat, e: nat, base: nat, n: nat)
    requires FsOk(fs, depth, next) && PointsTo(fs, depth, next, l, e) && n < MAX_SYMLINKS
    ensures ResolvePath(fs, base, PathOf(fs.t, fs.root, depth, next, l), true, n) ==
      ResolvePath(fs, base, PathOf(fs.t, fs.root, depth, next, e), true, n + 1)
  {
    hide ResolvePath, PathOf, TreeOk;
    LinkLaw(fs, depth, next, l, base, n);
    PathEnds(fs, depth, next, e);
    if Target(fs, fs.t[l].inode) == PathOf(fs.t, fs.root, depth, next, e) {
      AnyBase(fs, fs.t[fs.t[l].parent].inode, base, PathOf(fs.t, fs.root, depth, next, e), true, n + 1);
    } else {
      Sibling(fs, depth, next, e, base, n + 1);
    }
  }

  /** From its directory an entry goes by its name. */
  lemma Sibling(fs: Fs, depth: map<nat, nat>, next: nat, e: nat, base: nat, n: nat)
    requires FsOk(fs, depth, next) && e in fs.t && e != fs.root && n <= MAX_SYMLINKS
    ensures fs.t[e].parent in fs.t
    ensures ResolvePath(fs, fs.t[fs.t[e].parent].inode, fs.t[e].name, true, n) ==
      ResolvePath(fs, base, PathOf(fs.t, fs.root, depth, next, e), true, n)
  {
    UpFacts(fs.t, fs.root, depth, next, e);
    UpFacts2(fs.t, fs.root, depth, next, e);
    var a := fs.t[e].parent;
    StepDown(fs, depth, next, a, e);
    hide ResolvePath, PathOf;
    ComponentLaw(fs, depth, next, a, fs.t[e].name, true, n, e);
    if IsLink(fs, fs.t[e].inode) {
      LinkLaw(fs, depth, next, e, base, n);
    } else {
      RoundTrip(fs, depth, next, e, base, true, n);
    }
  }

  ghost predicate Chain(fs: Fs, depth: map<nat, nat>, next: nat, ls: seq<nat>)
    requires FsOk(fs, depth, next)
  {
    forall i :: 0 <= i < |ls| - 1 ==> PointsTo(fs, depth, next, ls[i], ls[i + 1])
  }

  /** A chain of links leads to its end exactly if it has at most forty; a longer one,
      or one that runs in a circle, gives ELOOP. */
  lemma {:induction false} ChainLaw(fs: Fs, depth: map<nat, nat>, next: nat, ls: seq<nat>, base: nat, n: nat)
    requires FsOk(fs, depth, next) && n <= MAX_SYMLINKS && ls != [] && Chain(fs, depth, next, ls)
    requires ls[0] in fs.t && ls[|ls| - 1] in fs.t
    ensures |ls| - 1 + n > MAX_SYMLINKS ==>
      ResolvePath(fs, base, PathOf(fs.t, fs.root, depth, next, ls[0]), true, n) == Failed(ELOOP)
    ensures |ls| - 1 + n <= MAX_SYMLINKS && !IsLink(fs, fs.t[ls[|ls| - 1]].inode) ==>
      ResolvePath(fs, base, PathOf(fs.t, fs.root, depth, next, ls[0]), true, n) ==
        Found(fs.t[ls[|ls| - 1]].inode, ls[|ls| - 1])
    decreases |ls|
  {
    hide ResolvePath, FsOk, PathOf;
    if |ls| == 1 {
      if !IsLink(fs, fs.t[ls[0]].inode) { RoundTrip(fs, depth, next, ls[0], base, true, n); }
    } else {
      assert PointsTo(fs, depth, next, ls[0], ls[1]);
      LinkLaw(fs, depth, next, ls[0], base, n);
      if n < MAX_SYMLINKS {
        Hop(fs, depth, next, ls[0], ls[1], base, n);
        var rest := ls[1..];
        forall i | 0 <= i < |rest| - 1 ensures PointsTo(fs, depth, next, rest[i], rest[i + 1]) {
          assert PointsTo(fs, depth, next, ls[i + 1], ls[i + 2]);
        }
        ChainLaw(fs, depth, next, rest, base, n + 1);
      }
    }
  }

  lemma LinkToItself(fs: Fs, depth: map<nat, nat>, next: nat, l: nat, base: nat)
    requires FsOk(fs, depth, next) && PointsTo(fs, depth, next, l, l)
    ensures ResolvePath(fs, base, PathOf(fs.t, fs.root, depth, next, l), true, 0) == Failed(ELOOP)
  {
    hide ResolvePath, FsOk, PathOf;
    ChainLaw(fs, depth, next, seq(MAX_SYMLINKS + 2, _ => l), base, 0);
  }

  /** Having followed fewer links changes no answer but ELOOP. */
  lemma {:induction false} FewerLinks(fs: Fs, base: nat, path: string, follow: bool, m: nat, n: nat)
    requires m <= n <= MAX_SYMLINKS && ResolvePath(fs, base, path, follow, n) != Failed(ELOOP)
    ensures ResolvePath(fs, base, path, follow, m) == ResolvePath(fs, base, path, follow, n)
    decreases MAX_SYMLINKS - n, |Comps(path)|, 1
  {
    hide Comps;
    var cur := Start(fs, base, path);
    FewerFrom(fs, cur, OwnName(fs, cur), Comps(path), EndsInSlash(path), follow, m, n);
  }

  lemma {:induction false} FewerFrom(
    fs: Fs, cur: nat, d: nat, comps: seq<string>, slash: bool, follow: bool, m: nat, n: nat)
    requires m <= n <= MAX_SYMLINKS && Resolve(fs, cur, d, comps, slash, follow, n) != Failed(ELOOP)
    ensures Resolve(fs, cur, d, comps, slash, follow, m) == Resolve(fs, cur, d, comps, slash, follow, n)
    decreases MAX_SYMLINKS - n, |comps|, 0
  {
    hide StepTo, NameOf, Comps, Enter;
    if comps != [] && |comps[0]| <= NAME_MAX && IsDir(fs, cur) && StepTo(fs, cur, comps[0]) != NULL {
      var there := StepTo(fs, cur, comps[0]);
      EnterFacts(fs, cur, there, comps, slash, follow, m);
      EnterFacts(fs, cur, there, comps, slash, follow, n);
      if IsLink(fs, there) && (|comps| > 1 || slash || follow) && n < MAX_SYMLINKS {
        FewerLinks(fs, cur, Target(fs, there), true, m + 1, n + 1);
      }
      var r := Enter(fs, cur, there, comps, slash, follow, n);
      if r.Found? && !(|comps| == 1 && slash && !IsDir(fs, r.inode)) {
        FewerFrom(fs, r.inode, r.dentry, comps[1..], slash, follow, m, n);
      }
    }
  }

  // ---- The directory and the last name of a path ----

  datatype Parent = In(dir: nat, name: string) | NoParent(error: Error)

  lemma {:induction false} CompsTrail(s: string)
    ensures Comps(s + "/") == Comps(s)
    decreases |s|
  {
    if s == "" {
      assert s + "/" == "/" && "/"[1..] == "";
    } else if s[0] == '/' {
      assert (s + "/")[1..] == s[1..] + "/";
      CompsTrail(s[1..]);
    } else {
      SpanBefore(s, "/");
      var k := Span(s);
      assert (s + "/")[..k] == s[..k] && (s + "/")[k..] == s[k..] + "/";
      CompsTrail(s[k..]);
    }
  }

  /** Splitting a path at its last component. */
  lemma CompsSplit(path: string, start: nat, end: nat)
    requires start < end <= |path| && '/' !in path[start..end] && (start > 0 ==> path[start - 1] == '/')
    ensures Comps(path[..end]) == Comps(path[..start]) + [path[start..end]]
  {
    var name := path[start..end];
    if start == 0 {
      SpanWhole(name);
      assert path[..end] == name && name[..|name|] == name && name[|name|..] == "" && path[..0] == "";
      assert Comps(name) == [name] + Comps("") == Comps("") + [name];
    } else {
      var s := path[..start - 1];
      assert path[..start] == s + "/" && path[..end] == s + "/" + name;
      CompsTrail(s);
      CompsAppend(s, name);
    }
  }

  /** The path without the slashes at its end. */
  method TrimEnd(path: string) returns (end: nat)
    ensures end <= |path| && Comps(path[..end]) == Comps(path) && (path == "" <==> end == 0)
    ensures (path == "/" ==> end == 1)
    ensures end > 1 ==> path[end - 1] != '/'
    ensures forall i :: end <= i < |path| ==> path[i] == '/'
  {
    hide Comps;
    end := |path|;
    assert path[..end] == path;
    while end > 1 && path[end - 1] == '/'
      invariant 0 <= end <= |path| && Comps(path[..end]) == Comps(path) && (path == "" <==> end == 0)
      invariant (path == "/" ==> end == 1)
      invariant forall i :: end <= i < |path| ==> path[i] == '/'
    {
      CompsTrail(path[..end - 1]);
      assert path[..end - 1] + "/" == path[..end];
      end := end - 1;
    }
  }

  /** Where the last component of path[..end] starts. */
  method LastStart(path: string, end: nat) returns (start: nat)
    requires end <= |path|
    ensures start <= end && '/' !in path[start..end] && (start > 0 ==> path[start - 1] == '/')
    ensures end > 0 && path[end - 1] != '/' ==> start < end
  {
    start := end;
    while start > 0 && path[start - 1] != '/'
      invariant 0 <= start <= end && '/' !in path[start..end]
    {
      start := start - 1;
    }
  }

  /** `name` is the last component of a path, and `dir` all that comes before it. */
  ghost predicate Splits(path: string, dir: string, name: string) {
    && name != "" && '/' !in name && dir + name <= path && (dir != "" ==> dir[|dir| - 1] == '/')
    && (forall i :: |dir| + |name| <= i < |path| ==> path[i] == '/')
    && Comps(path) == Comps(dir) + [name]
  }

  /** There is one way only to split a path. */
  lemma SplitsOnce(path: string, d: string, n: string, e: string, m: string)
    requires Splits(path, d, n) && Splits(path, e, m)
    ensures d == e && n == m
  {
    LastOf(Comps(d), n);
    LastOf(Comps(e), m);
    hide Comps;
    assert n == m;
    SplitsLength(path, d, e, n);
    var i := |d| + |n|;
    assert path[..i] == d + n == e + n;
    assert d == (d + n)[..|d|] && e == (e + n)[..|e|];
  }

  lemma LastOf(cs: seq<string>, n: string)
    ensures (cs + [n])[|cs + [n]| - 1] == n
  {
  }

  /** What comes before the last component is as long in both. */
  lemma SplitsLength(path: string, d: string, e: string, n: string)
    requires Splits(path, d, n) && Splits(path, e, n)
    ensures |d| == |e|
  {
    hide Comps;
    var i, j := |d| + |n|, |e| + |n|;
    assert path[i - 1] == (d + n)[i - 1] == n[|n| - 1] && path[j - 1] == (e + n)[j - 1] == n[|n| - 1];
  }

  /** What becomes of a path that is `name` in the directory `dir`. */
  function ParentIn(fs: Fs, base: nat, dir: string, name: string, memory: bool): Parent {
    if |name| > NAME_MAX then NoParent(ENAMETOOLONG)
    else if name == "." || name == ".." then NoParent(EINVAL)
    else if dir == "" then In(base, name)
    else if !memory then NoParent(ENOMEM)
    else match ResolvePath(fs, base, dir, true, 0)
      case Failed(e) => NoParent(e)
      case Found(i, _) => if IsDir(fs, i) then In(i, name) else NoParent(ENOTDIR)
  }

  /** vfs_parent: the directory that the last component of a path is in, and that
      component. What creates or removes a name gets it from here, so it is never
      empty, "." or "..", and has no slash. */
  method FindParent(fs: Fs, base: nat, path: string, memory: bool) returns (r: Parent)
    requires '\0' !in path
    ensures r.In? ==> GoodName(r.name) && |r.name| <= NAME_MAX
    ensures Comps(path) == [] ==> r == NoParent(if path == "" then EINVAL else EEXIST)
    ensures Comps(path) != [] ==>
      exists dir, name :: Splits(path, dir, name) && r == ParentIn(fs, base, dir, name, memory)
  {
    hide Comps, ResolvePath;
    var end := TrimEnd(path);
    var start := LastStart(path, end);
    var name := path[start..end];
    ghost var dir := path[..start];
    assert start < end ==> name[0] != '/';
    if start < end {
      CompsSplit(path, start, end);
      assert dir + name == path[..end];
      assert Splits(path, dir, name);
    } else {
      NoComponent(path, end);
    }
    if end - start > NAME_MAX { return NoParent(ENAMETOOLONG); }
    if name == "" || name == "." || name == ".." {
      return NoParent(if name == "" && end > 0 then EEXIST else EINVAL);
    }
    if start == 0 { return In(base, name); }
    if !memory { return NoParent(ENOMEM); }
    var q := Walk(fs, base, path[..start], true, 0);
    if q.Failed? { return NoParent(q.error); }
    if !IsDir(fs, q.inode) { return NoParent(ENOTDIR); }
    return In(q.inode, name);
  }

  lemma NoComponent(path: string, end: nat)
    requires end <= |path| && end <= 1 && (end == 1 ==> path[0] == '/') && Comps(path[..end]) == Comps(path)
    ensures Comps(path) == []
  {
    assert path[..0] == "";
    if end == 1 { assert path[..1] == "/" && "/"[1..] == ""; }
  }
}
