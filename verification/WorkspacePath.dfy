/**
 One path rule, written three times: the API's sanitiser (split, filter, join), the worker's
 (reject, then path.Clean), and the agent's (normalise, then compare with the root).
 Names are sequences of characters; '/' and '.' are the only ones looked at.
*/
module WorkspacePath {

  predicate NoSlash(s: string) { '/' !in s }

  /** A segment that names something: not empty, not ".", not "..", and without a slash. */
  predicate Plain(s: string) { s != "" && s != "." && s != ".." && NoSlash(s) }

  predicate AllPlain(segs: seq<string>) { forall s <- segs :: Plain(s) }

  // ---------------------------------------------------------------- split and join

  function Segs(s: string): (r: seq<string>)
    ensures |r| >= 1
  {
    if s == "" then [""]
    else if s[0] == '/' then [""] + Segs(s[1..])
    else var r := Segs(s[1..]); [[s[0]] + r[0]] + r[1..]
  }

  function Join(segs: seq<string>): string
  {
    if segs == [] then ""
    else if |segs| == 1 then segs[0]
    else segs[0] + "/" + Join(segs[1..])
  }

  /** A slash-free run followed by the end or a slash is exactly the first segment. */
  lemma {:induction false} SegsFirst(seg: string, tail: string)
    requires NoSlash(seg) && (tail == "" || tail[0] == '/')
    ensures Segs(tail)[0] == ""
    ensures Segs(seg + tail) == [seg] + Segs(tail)[1..]
    decreases |seg|
  {
    if seg == "" {
      assert seg + tail == tail;
      assert Segs(tail) == [Segs(tail)[0]] + Segs(tail)[1..];
    } else {
      SegsFirst(seg[1..], tail);
      assert (seg + tail)[1..] == seg[1..] + tail;
      assert [seg[0]] + seg[1..] == seg;
    }
  }

  lemma {:induction false} SegsNoSlash(s: string)
    ensures forall seg <- Segs(s) :: NoSlash(seg)
  {
    if s != "" {
      SegsNoSlash(s[1..]);
      var r := Segs(s[1..]);
      assert r[0] in r && NoSlash(r[0]);
      assert forall seg <- r[1..] :: seg in r;
      if s[0] != '/' {
        assert NoSlash([s[0]] + r[0]);
      }
    }
  }

  lemma {:induction false} JoinSnoc(segs: seq<string>, seg: string)
    requires segs != []
    ensures Join(segs + [seg]) == Join(segs) + "/" + seg
  {
    assert (segs + [seg])[1..] == segs[1..] + [seg];
    if |segs| > 1 {
      JoinSnoc(segs[1..], seg);
    } else {
      assert (segs + [seg])[1..] == [seg];
    }
  }

  lemma {:induction false} SplitJoin(segs: seq<string>)
    requires segs != [] && forall s <- segs :: NoSlash(s)
    ensures Segs(Join(segs)) == segs
  {
    if |segs| == 1 {
      SegsFirst(segs[0], "");
      assert segs[0] + "" == segs[0];
    } else {
      SplitJoin(segs[1..]);
      var tail := "/" + Join(segs[1..]);
      assert tail[1..] == Join(segs[1..]);
      SegsFirst(segs[0], tail);
      assert Join(segs) == segs[0] + tail;
    }
  }

  /** Splitting and joining are inverse to each other. */
  lemma {:induction false} JoinSplit(s: string)
    ensures Join(Segs(s)) == s
  {
    if s != "" {
      JoinSplit(s[1..]);
      var r := Segs(s[1..]);
      if s[0] == '/' {
        assert Segs(s)[1..] == r;
        assert Join(Segs(s)) == "" + "/" + Join(r);
      } else {
        assert Segs(s)[1..] == r[1..];
      }
    }
  }

  // ---------------------------------------------------------------- path.Clean on a rooted path

  /** Walks the segments: "" and "." do nothing, ".." goes up (and stays at the root), the rest go down. */
  function Resolve(stack: seq<string>, segs: seq<string>): seq<string>
    decreases |segs|
  {
    if segs == [] then stack
    else if segs[0] == "" || segs[0] == "." then Resolve(stack, segs[1..])
    else if segs[0] == ".." then Resolve(if stack == [] then [] else stack[..|stack| - 1], segs[1..])
    else Resolve(stack + [segs[0]], segs[1..])
  }

  lemma {:induction false} ResolvePlain(stack: seq<string>, segs: seq<string>)
    requires AllPlain(stack) && forall s <- segs :: NoSlash(s)
    ensures AllPlain(Resolve(stack, segs))
    decreases |segs|
  {
    if segs != [] {
      if segs[0] == "" || segs[0] == "." {
        ResolvePlain(stack, segs[1..]);
      } else if segs[0] == ".." {
        ResolvePlain(if stack == [] then [] else stack[..|stack| - 1], segs[1..]);
      } else {
        ResolvePlain(stack + [segs[0]], segs[1..]);
      }
    }
  }

  predicate SegmentEndsAt(path: string, r: nat)
    requires r <= |path|
  {
    r == |path| || path[r] == '/'
  }

  /** Going up: drop characters back to the slash before the last segment, but keep the root. */
  method DropLast(out: string, ghost stack: seq<string>) returns (out': string)
    requires AllPlain(stack) && out == "/" + Join(stack)
    ensures out' == "/" + Join(if stack == [] then [] else stack[..|stack| - 1])
  {
    var w := |out|;
    if w > 1 {
      ghost var init, last := stack[..|stack| - 1], stack[|stack| - 1];
      ghost var stop, from := DropTarget(stack, out);
      w := w - 1;
      while w > 1 && out[w] != '/'
        invariant stop <= w < |out|
        invariant w >= from || w == stop
      {
        w := w - 1;
      }
    } else if stack != [] {
      JoinNonempty(stack);
    }
    out' := out[..w];
  }

  /** Where the last segment starts, and where the path ends once it is dropped. */
  lemma DropTarget(stack: seq<string>, out: string) returns (stop: nat, from: nat)
    requires AllPlain(stack) && out == "/" + Join(stack) && |out| > 1
    ensures stack != [] && 1 <= stop <= from < |out| && from <= stop + 1
    ensures out[..stop] == "/" + Join(stack[..|stack| - 1])
    ensures forall i :: from <= i < |out| ==> out[i] != '/'
    ensures stop == 1 || out[stop] == '/'
    ensures stop == from ==> stop == 1
  {
    assert stack != [];
    var init, last := stack[..|stack| - 1], stack[|stack| - 1];
    assert stack == init + [last] && last in stack && Plain(last);
    if init == [] {
      assert stack == [last];
      assert out == "/" + last;
      stop, from := 1, 1;
    } else {
      JoinSnoc(init, last);
      assert out == "/" + Join(init) + "/" + last;
      stop := |Join(init)| + 1;
      from := stop + 1;
    }
  }

  /** One turn of the cleaning loop in front of the text seg + tail, where seg is a whole segment. */
  lemma TakeSegment(stack: seq<string>, seg: string, tail: string)
    requires NoSlash(seg) && (tail == "" || tail[0] == '/')
    ensures Resolve(stack, Segs(seg + tail)) == Resolve(Resolve(stack, [seg]), Segs(tail))
  {
    SegsFirst(seg, tail);
    ResolveAppend(stack, [seg], Segs(tail)[1..]);
    var stack' := Resolve(stack, [seg]);
    assert Resolve(stack', Segs(tail)) == Resolve(stack', Segs(tail)[1..]);
  }

  lemma ResolveOne(stack: seq<string>, seg: string)
    ensures Resolve(stack, [seg]) ==
              if seg == "" || seg == "." then stack
              else if seg == ".." then (if stack == [] then [] else stack[..|stack| - 1])
              else stack + [seg]
  {
    assert [seg][1..] == [];
  }

  /** The default case: copy one whole segment to the output, after a separator unless at the root. */
  method CopySegment(path: string, r: nat, out: string, ghost stack: seq<string>)
      returns (r': nat, out': string, ghost seg: string)
    requires r < |path| && AllPlain(stack) && out == "/" + Join(stack)
    requires path[r] != '/'
    requires !(path[r] == '.' && SegmentEndsAt(path, r + 1))
    requires !(path[r] == '.' && path[r + 1] == '.' && SegmentEndsAt(path, r + 2))
    ensures r < r' <= |path| && SegmentEndsAt(path, r')
    ensures Plain(seg) && path[r..] == seg + path[r'..]
    ensures out' == "/" + Join(stack + [seg])
  {
    out', r' := out, r;
    if |out'| != 1 {
      out' := out' + "/";
    }
    ghost var base := out';
    while r' < |path| && path[r'] != '/'
      invariant r <= r' <= |path|
      invariant NoSlash(path[r..r'])
      invariant out' == base + path[r..r']
    {
      assert path[r..r' + 1] == path[r..r'] + [path[r']];
      out' := out' + [path[r']];
      r' := r' + 1;
    }
    seg := path[r..r'];
    assert Plain(seg) by {
      assert forall i :: 0 <= i < |seg| ==> seg[i] == path[r + i];
    }
    PushSegment(stack, seg);
  }

  /** What one whole segment does to the stack. */
  function Passed(stack: seq<string>, seg: string): seq<string>
  {
    if seg == "" || seg == "." then stack
    else if seg == ".." then (if stack == [] then [] else stack[..|stack| - 1])
    else stack + [seg]
  }

  lemma PassSegment(stack: seq<string>, path: string, r: nat, seg: string, next: nat)
    requires r <= next <= |path| && path[r..] == seg + path[next..]
    requires NoSlash(seg) && SegmentEndsAt(path, next)
    ensures Resolve(stack, Segs(path[r..])) == Resolve(Passed(stack, seg), Segs(path[next..]))
  {
    TakeSegment(stack, seg, path[next..]);
    ResolveOne(stack, seg);
  }

  lemma PassSlash(stack: seq<string>, path: string, r: nat)
    requires r < |path| && path[r] == '/'
    ensures Resolve(stack, Segs(path[r..])) == Resolve(stack, Segs(path[r + 1..]))
  {
    assert path[r..][1..] == path[r + 1..];
  }

  method Clean(path: string) returns (out: string)
    requires path != "" && path[0] == '/'
    ensures out == "/" + Join(Resolve([], Segs(path[1..])))
  {
    var n := |path|;
    out := "/";
    var r := 1;
    ghost var stack: seq<string> := [];
    ghost var goal := Resolve([], Segs(path[1..]));
    while r < n
      invariant 1 <= r <= n
      invariant AllPlain(stack) && out == "/" + Join(stack)
      invariant Resolve(stack, Segs(path[r..])) == goal
    {
      if path[r] == '/' {
        PassSlash(stack, path, r);
        r := r + 1;
      } else if path[r] == '.' && SegmentEndsAt(path, r + 1) {
        assert path[r..] == "." + path[r + 1..];
        PassSegment(stack, path, r, ".", r + 1);
        r := r + 1;
      } else if path[r] == '.' && path[r + 1] == '.' && SegmentEndsAt(path, r + 2) {
        assert path[r..] == ".." + path[r + 2..];
        PassSegment(stack, path, r, "..", r + 2);
        out := DropLast(out, stack);
        stack := if stack == [] then [] else stack[..|stack| - 1];
        r := r + 2;
      } else {
        ghost var start, seg := r, "";
        r, out, seg := CopySegment(path, r, out, stack);
        PassSegment(stack, path, start, seg, r);
        stack := stack + [seg];
      }
    }
    assert path[r..] == "" && Segs("") == [""];
    ResolveOne(stack, "");
  }

  lemma PushSegment(stack: seq<string>, seg: string)
    requires AllPlain(stack) && Plain(seg)
    ensures "/" + Join(stack + [seg]) == (if |"/" + Join(stack)| != 1 then "/" + Join(stack) + "/" else "/") + seg
  {
    if stack != [] {
      JoinSnoc(stack, seg);
      JoinNonempty(stack);
    } else {
      assert stack + [seg] == [seg];
    }
  }

  lemma JoinNonempty(segs: seq<string>)
    requires AllPlain(segs) && segs != []
    ensures Join(segs) != "" && Join(segs)[0] != '/' && Join(segs)[0] == segs[0][0]
  {
    assert segs[0] in segs && Plain(segs[0]);
    assert segs[0][0] in segs[0];
  }

  /** The rules of cleaning a rooted path: empty and "." segments vanish, ".." takes the plain segment before it along,
      ".." at the root vanishes, and plain segments stay as they are. */
  lemma CleanRules(a: seq<string>, seg: string, b: seq<string>)
    ensures seg == "" || seg == "." ==> Resolve([], a + ([seg] + b)) == Resolve([], a + b)
    ensures Plain(seg) ==> Resolve([], a + ([seg, ".."] + b)) == Resolve([], a + b)
    ensures Resolve([], [".."] + b) == Resolve([], b)
    ensures AllPlain(a) ==> Resolve([], a) == a
  {
    var stack := Resolve([], a);
    ResolveAppend([], a, b);
    ResolveAppend([], a, [seg] + b);
    ResolveAppend([], a, [seg, ".."] + b);
    assert ([seg] + b)[1..] == b && ([".."] + b)[1..] == b;
    if Plain(seg) {
      assert ([seg, ".."] + b)[1..] == [".."] + b;
      assert (stack + [seg])[..|stack|] == stack;
      assert Resolve(stack, [seg, ".."] + b) == Resolve(stack + [seg], [".."] + b);
      assert Resolve(stack + [seg], [".."] + b) == Resolve(stack, b);
    }
    if AllPlain(a) {
      PlainStays([], a);
      assert [] + a == a;
    }
  }

  lemma {:induction false} PlainStays(stack: seq<string>, segs: seq<string>)
    requires AllPlain(segs)
    ensures Resolve(stack, segs) == stack + segs
    decreases |segs|
  {
    if segs == [] {
      assert stack + [] == stack;
    } else {
      assert segs[0] in segs && Plain(segs[0]);
      PlainStays(stack + [segs[0]], segs[1..]);
      assert stack + [segs[0]] + segs[1..] == stack + segs;
    }
  }

  // ---------------------------------------------------------------- the two sanitisers

  datatype Reason = EmptyName | AbsoluteName | Traversal | NotAFile

  datatype Sanitized = Ok(rel: string) | Rejected(reason: Reason)

  function Filter(segs: seq<string>): (r: seq<string>)
    ensures forall s <- r :: s in segs && s != "" && s != "."
  {
    if segs == [] then []
    else (if segs[0] == "" || segs[0] == "." then [] else [segs[0]]) + Filter(segs[1..])
  }

  /** The API: filter the empty and "." segments and join what is left. */
  function SanitizeApi(name: string): Sanitized
  {
    if name == "" then Rejected(EmptyName)
    else if name[0] == '/' then Rejected(AbsoluteName)
    else if ".." in Segs(name) then Rejected(Traversal)
    else
      var cleaned := Join(Filter(Segs(name)));
      if cleaned == "" then Rejected(NotAFile) else Ok(cleaned)
  }

  /** The worker: the same rejections, then clean the rooted name and drop the leading slash. */
  function SanitizeWorker(name: string): Sanitized
  {
    if name == "" then Rejected(EmptyName)
    else if name[0] == '/' then Rejected(AbsoluteName)
    else if ".." in Segs(name) then Rejected(Traversal)
    else
      var rel := Join(Resolve([], Segs(name)));
      if rel == "" || rel == "." then Rejected(NotAFile) else Ok(rel)
  }

  method SanitizeWorkspacePath(name: string) returns (r: Sanitized)
    ensures r == SanitizeWorker(name)
  {
    if name == "" {
      return Rejected(EmptyName);
    }
    if name[0] == '/' {
      return Rejected(AbsoluteName);
    }
    var segs := Segs(name);
    for i := 0 to |segs|
      invariant ".." !in segs[..i]
    {
      if segs[i] == ".." {
        return Rejected(Traversal);
      }
    }
    assert segs[..|segs|] == segs;
    var clean := Clean("/" + name);
    assert ("/" + name)[1..] == name;
    var rel := clean[1..];
    if rel == "" || rel == "." {
      return Rejected(NotAFile);
    }
    return Ok(rel);
  }

  lemma {:induction false} ResolveIsFilter(stack: seq<string>, segs: seq<string>)
    requires ".." !in segs
    ensures Resolve(stack, segs) == stack + Filter(segs)
    decreases |segs|
  {
    if segs != [] {
      if segs[0] == "" || segs[0] == "." {
        ResolveIsFilter(stack, segs[1..]);
      } else {
        ResolveIsFilter(stack + [segs[0]], segs[1..]);
        assert stack + [segs[0]] + Filter(segs[1..]) == stack + Filter(segs);
      }
    }
  }

  lemma {:induction false} FilterSnoc(segs: seq<string>, s: string)
    ensures Filter(segs + [s]) == if s == "" || s == "." then Filter(segs) else Filter(segs) + [s]
  {
    if segs == [] {
      assert segs + [s] == [s] && [s][1..] == [];
    } else {
      assert (segs + [s])[1..] == segs[1..] + [s];
      FilterSnoc(segs[1..], s);
    }
  }

  /** Which names are turned away, and for what: the empty one, one with a leading slash, one with a segment "..", one
      that names nothing; every other name is accepted. */
  lemma SanitiserVerdict(name: string)
    ensures SanitizeApi(name) == Rejected(EmptyName) <==> name == ""
    ensures SanitizeApi(name) == Rejected(AbsoluteName) <==> name != "" && name[0] == '/'
    ensures SanitizeApi(name) == Rejected(Traversal) <==> name != "" && name[0] != '/' && ".." in Segs(name)
    ensures SanitizeApi(name) == Rejected(NotAFile) <==>
            name != "" && name[0] != '/' && forall s <- Segs(name) :: s == "" || s == "."
    ensures SanitizeApi(name).Ok? <==>
            name != "" && name[0] != '/' && ".." !in Segs(name) && exists s <- Segs(name) :: Plain(s)
  {
    SegsNoSlash(name);
    var f := Filter(Segs(name));
    FilterKeeps(Segs(name));
    if ".." !in Segs(name) {
      FilteredArePlain(name);
      if f != [] {
        JoinNonempty(f);
        assert f[0] in f;
      }
    }
  }

  lemma {:induction false} FilterKeeps(segs: seq<string>)
    ensures forall s :: s in Filter(segs) <==> s in segs && s != "" && s != "."
  {
    if segs != [] {
      FilterKeeps(segs[1..]);
      assert segs == [segs[0]] + segs[1..];
    }
  }

  lemma FilteredArePlain(name: string)
    requires ".." !in Segs(name)
    ensures AllPlain(Filter(Segs(name)))
  {
    SegsNoSlash(name);
  }

  /** For every name: accepted or rejected together, for the same reason, with the same path. */
  lemma SanitisersAgree(name: string)
    ensures SanitizeApi(name) == SanitizeWorker(name)
  {
    if ".." !in Segs(name) {
      ResolveIsFilter([], Segs(name));
      FilteredArePlain(name);
      var f := Filter(Segs(name));
      assert [] + f == f;
      if f != [] {
        assert f[0] in f && Plain(f[0]);
        assert |f| > 1 ==> |Join(f)| >= 2;
      }
    }
  }

  /** An accepted path has only plain segments and passes a second time unchanged. */
  lemma AcceptedPathsAreClean(name: string)
    requires SanitizeApi(name).Ok?
    ensures var rel := SanitizeApi(name).rel;
            AllPlain(Segs(rel)) && Segs(rel) == Filter(Segs(name)) && SanitizeApi(rel) == Ok(rel)
  {
    var f := Filter(Segs(name));
    FilteredArePlain(name);
    assert f != [];
    SplitJoin(f);
    JoinNonempty(f);
    assert ".." !in f;
    ResolveIsFilter([], f);
    FilterIdentity(f);
  }

  lemma {:induction false} FilterIdentity(segs: seq<string>)
    requires AllPlain(segs)
    ensures Filter(segs) == segs
  {
    if segs != [] {
      assert segs[0] in segs && Plain(segs[0]);
      FilterIdentity(segs[1..]);
    }
  }

  // ---------------------------------------------------------------- the agent

  const ROOT: string := "/tmp/work"

  function PathJoin(root: string, name: string): string
    requires root != "" && root[|root| - 1] != '/'
  {
    if name != "" && name[0] == '/' then name else root + "/" + name
  }

  /** normpath of an absolute path: exactly two leading slashes are kept, more collapse to one. */
  function NormPath(path: string): string
    requires path != "" && path[0] == '/'
  {
    var two := |path| >= 2 && path[1] == '/' && !(|path| >= 3 && path[2] == '/');
    (if two then "//" else "/") + Join(Resolve([], Segs(path)))
  }

  datatype Dest = Skipped | Writes(path: string)

  /** Where the agent writes a file of this name, if anywhere. */
  function AgentDest(name: string): Dest
  {
    if name == "" then Skipped
    else
      var dest := NormPath(PathJoin(ROOT, name));
      if dest == ROOT || ROOT + "/" <= dest then Writes(dest) else Skipped
  }

  lemma SegsOfRooted(rest: string)
    ensures Segs(ROOT + "/" + rest) == ["", "tmp", "work"] + Segs(rest)
  {
    var t := "/" + rest;
    assert t[1..] == rest;
    SegsFirst("work", t);
    var w := "/" + ("work" + t);
    assert w[1..] == "work" + t;
    SegsFirst("tmp", w);
    var p := "/" + ("tmp" + w);
    assert p[1..] == "tmp" + w;
    assert p == ROOT + "/" + rest;
  }

  lemma {:induction false} ResolveAppend(stack: seq<string>, a: seq<string>, b: seq<string>)
    ensures Resolve(stack, a + b) == Resolve(Resolve(stack, a), b)
    decreases |a|
  {
    if a == [] {
      assert a + b == b;
    } else {
      assert (a + b)[1..] == a[1..] + b;
      if a[0] == "" || a[0] == "." {
        ResolveAppend(stack, a[1..], b);
      } else if a[0] == ".." {
        ResolveAppend(if stack == [] then [] else stack[..|stack| - 1], a[1..], b);
      } else {
        ResolveAppend(stack + [a[0]], a[1..], b);
      }
    }
  }

  lemma ResolveRoot()
    ensures Resolve([], ["", "tmp", "work"]) == ["tmp", "work"]
  {
    var a := ["", "tmp", "work"];
    assert a[1..] == ["tmp", "work"] && a[1..][1..] == ["work"] && a[1..][1..][1..] == [];
    assert Resolve(["tmp", "work"], []) == ["tmp", "work"];
    assert [] + ["tmp"] == ["tmp"] && ["tmp"] + ["work"] == ["tmp", "work"];
    assert Resolve(["tmp"], ["work"]) == ["tmp", "work"];
    assert Resolve([], ["tmp", "work"]) == Resolve(["tmp"], ["work"]);
  }

  lemma JoinRooted(tail: seq<string>)
    requires tail != []
    ensures "/" + Join(["tmp", "work"] + tail) == ROOT + "/" + Join(tail)
  {
    var all := ["tmp", "work"] + tail;
    assert all[1..] == ["work"] + tail && all[1..][1..] == tail;
  }

  /** For an accepted name the agent writes to exactly root + "/" + the sanitised path. */
  lemma AgentFollowsSanitiser(name: string)
    requires SanitizeApi(name).Ok?
    ensures AgentDest(name) == Writes(ROOT + "/" + SanitizeApi(name).rel)
  {
    var path := ROOT + "/" + name;
    var f := Filter(Segs(name));
    assert PathJoin(ROOT, name) == path && path[1] == 't';
    SegsOfRooted(name);
    ResolveAppend([], ["", "tmp", "work"], Segs(name));
    ResolveRoot();
    ResolveIsFilter(["tmp", "work"], Segs(name));
    assert f != [];
    JoinRooted(f);
  }

  /** Plain segments that join to a path below the root start with the root's own, and at least one more follows. */
  lemma BelowRoot(stack: seq<string>, rest: string)
    requires AllPlain(stack) && "/" + Join(stack) == ROOT + "/" + rest
    ensures stack == ["tmp", "work"] + Segs(rest)
  {
    var dest := ROOT + "/" + rest;
    assert dest[1..] == Join(stack) && stack != [];
    SplitJoin(stack);
    SegsOfRooted(rest);
    assert dest[0] == '/' && Segs(dest) == [""] + Segs(dest[1..]);
    assert Segs(dest)[1..] == stack;
    assert (["", "tmp", "work"] + Segs(rest))[1..] == ["tmp", "work"] + Segs(rest);
  }

  /** For every name at all, whatever the agent writes is the root itself or strictly below it: root, then at
      least one segment, all of them plain. */
  lemma AgentStaysInside(name: string)
    requires AgentDest(name).Writes?
    ensures var dest := AgentDest(name).path;
            dest == ROOT
            || exists tail :: tail != [] && AllPlain(tail) && dest == ROOT + "/" + Join(tail)
  {
    var path := PathJoin(ROOT, name);
    var dest := NormPath(path);
    if dest != ROOT {
      var stack := Resolve([], Segs(path));
      SegsNoSlash(path);
      ResolvePlain([], Segs(path));
      var rest := dest[|ROOT| + 1..];
      assert dest == ROOT + "/" + rest && dest[1] == 't';
      assert dest == "/" + Join(stack);
      BelowRoot(stack, rest);
      var tail := Segs(rest);
      forall seg | seg in tail ensures Plain(seg) {
        assert seg in stack;
      }
      JoinRooted(tail);
    }
  }

  /** The segments the agent walks for this name: those of the name, below the root unless the name is absolute. */
  function Walked(name: string): seq<string>
    requires name != ""
  {
    if name[0] == '/' then Segs(name) else ["tmp", "work"] + Segs(name)
  }

  /** Exactly two slashes in front, which normpath keeps. */
  predicate TwoSlashes(name: string)
  {
    |name| >= 2 && name[0] == '/' && name[1] == '/' && (|name| == 2 || name[2] != '/')
  }

  lemma InsideIff(stack: seq<string>)
    requires AllPlain(stack)
    ensures var dest := "/" + Join(stack);
            dest == ROOT || ROOT + "/" <= dest <==> ["tmp", "work"] <= stack
  {
    var dest, top := "/" + Join(stack), ["tmp", "work"];
    assert Join(top[1..]) == "work" && ROOT == "/" + Join(top);
    if dest == ROOT {
      assert Join(stack) == dest[1..] == ROOT[1..] == Join(top);
      assert stack != [];
      SplitJoin(stack);
      SplitJoin(top);
    } else if ROOT + "/" <= dest {
      var rest := dest[|ROOT| + 1..];
      assert dest == ROOT + "/" + rest;
      BelowRoot(stack, rest);
    }
    if top <= stack && stack != top {
      assert stack == top + stack[2..];
      JoinRooted(stack[2..]);
    }
  }

  lemma WalkedFrom(name: string)
    requires name != ""
    ensures Resolve([], Segs(PathJoin(ROOT, name))) == Resolve([], Walked(name))
  {
    if name[0] != '/' {
      SegsOfRooted(name);
      assert ["", "tmp", "work"] + Segs(name) == [""] + Walked(name);
      LeadingSlash(Walked(name));
    }
  }

  lemma LeadingSlash(segs: seq<string>)
    ensures Resolve([], [""] + segs) == Resolve([], segs)
  {
    assert ([""] + segs)[1..] == segs;
  }

  lemma TwoSlashesLeave(name: string)
    requires TwoSlashes(name)
    ensures AgentDest(name).Skipped?
  {
    var dest := NormPath(name);
    assert PathJoin(ROOT, name) == name && dest[1] == '/' && ROOT[1] == 't';
  }

  /** The agent writes a file exactly if walking its name, with every ".." going up, ends at the root or below
      it; and it writes it there. */
  lemma AgentWritesIff(name: string)
    ensures AgentDest(name).Writes? <==>
            name != "" && !TwoSlashes(name) && ["tmp", "work"] <= Resolve([], Walked(name))
    ensures AgentDest(name).Writes? ==> AgentDest(name).path == "/" + Join(Resolve([], Walked(name)))
  {
    if name != "" {
      var path := PathJoin(ROOT, name);
      var stack := Resolve([], Segs(path));
      WalkedFrom(name);
      SegsNoSlash(path);
      ResolvePlain([], Segs(path));
      InsideIff(stack);
      if TwoSlashes(name) {
        TwoSlashesLeave(name);
      } else {
        assert name[0] != '/' ==> path[1] == 't';
        assert NormPath(path) == "/" + Join(stack);
      }
    }
  }
}
