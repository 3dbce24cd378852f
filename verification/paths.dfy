/**
 * The path arithmetic the file-explorer handlers perform: POSIX `os.path.join`
 * of two components and `os.path.normpath`, which is purely lexical (no file
 * system access): runs of `/` collapse, `.` components vanish, a `..` removes
 * the component before it, a `..` directly under the root is dropped, and a
 * path with exactly two leading slashes keeps both (POSIX leaves their meaning
 * to the implementation).
 */
module Paths {

  /** `os.path.join(a, b)` for two components. */
  function Join(a: string, b: string): (r: string)
    ensures |b| <= |r| && r[|r| - |b|..] == b
    ensures |a| > 0 && a[0] == '/' ==> |r| > 0 && r[0] == '/'
    ensures |b| > 0 && b[0] == '/' ==> r == b
    ensures (b == "" || b[0] != '/') && (a == "" || a[|a| - 1] == '/') ==> r == a + b
    ensures (b == "" || b[0] != '/') && a != "" && a[|a| - 1] != '/' ==> r == a + "/" + b
  {
    if |b| > 0 && b[0] == '/' then b
    else if a == "" || a[|a| - 1] == '/' then a + b
    else a + "/" + b
  }

  /** `path.split('/')`. */
  function Split(s: string): (r: seq<string>)
    ensures |r| >= 1
    ensures forall k :: 0 <= k < |r| ==> '/' !in r[k]
  {
    if s == [] then [[]]
    else
      var rest := Split(s[1..]);
      if s[0] == '/' then [[]] + rest
      else [[s[0]] + rest[0]] + rest[1..]
  }

  /** `'/'.join(segs)`. */
  function JoinSlash(segs: seq<string>): string {
    if |segs| == 0 then ""
    else if |segs| == 1 then segs[0]
    else segs[0] + "/" + JoinSlash(segs[1..])
  }

  lemma {:induction false} JoinSplit(s: string)
    ensures JoinSlash(Split(s)) == s
  {
    if s != [] {
      var rest := Split(s[1..]);
      JoinSplit(s[1..]);
      if s[0] == '/' {
        assert ([[]] + rest)[1..] == rest;
      } else {
        var r := [[s[0]] + rest[0]] + rest[1..];
        if |rest| == 1 {
          assert r == [[s[0]] + rest[0]];
        } else {
          assert r[1..] == rest[1..];
          assert JoinSlash(rest) == rest[0] + "/" + JoinSlash(rest[1..]);
        }
      }
    }
  }

  lemma {:induction false} SplitJoin(segs: seq<string>)
    requires |segs| >= 1
    requires forall k :: 0 <= k < |segs| ==> '/' !in segs[k]
    ensures Split(JoinSlash(segs)) == segs
  {
    if |segs| == 1 {
      SplitSegment(segs[0]);
    } else {
      SplitJoin(segs[1..]);
      SplitPrefix(segs[0], JoinSlash(segs[1..]));
      assert [segs[0]] + segs[1..] == segs;
    }
  }

  /** A component without `/` splits into itself. */
  lemma {:induction false} SplitSegment(c: string)
    requires '/' !in c
    ensures Split(c) == [c]
  {
    if c != [] {
      SplitSegment(c[1..]);
      assert [c[0]] + c[1..] == c;
    }
  }

  /** Splitting `c + "/" + t` puts `c` in front of the split of `t`. */
  lemma {:induction false} SplitPrefix(c: string, t: string)
    requires '/' !in c
    ensures Split(c + "/" + t) == [c] + Split(t)
  {
    var s := c + "/" + t;
    if c == [] {
      assert s == "/" + t && s[1..] == t;
    } else {
      assert s[1..] == c[1..] + "/" + t;
      SplitPrefix(c[1..], t);
      assert [c[0]] + c[1..] == c;
    }
  }

  /** A path component that is a real name: not empty, not `.`, and free of `/`. */
  predicate Name(c: string) {
    c != "" && c != "." && '/' !in c
  }

  /**
   * The shape of a normalised component list: every entry is a name, `..`
   * entries only form a leading run, and an absolute path has none.
   */
  predicate Normalised(segs: seq<string>, absolute: bool) {
    && (forall k :: 0 <= k < |segs| ==> Name(segs[k]))
    && (absolute ==> forall k :: 0 <= k < |segs| ==> segs[k] != "..")
    && (forall i, j :: 0 <= i < j < |segs| && segs[j] == ".." ==> segs[i] == "..")
  }

  /** One iteration of normpath's loop over the components. */
  function Step(acc: seq<string>, comp: string, absolute: bool): seq<string> {
    if comp == "" || comp == "." then acc
    else if comp != ".." || (!absolute && acc == []) || (acc != [] && acc[|acc| - 1] == "..") then acc + [comp]
    else if acc != [] then acc[..|acc| - 1]
    else acc
  }

  /** The rest of normpath's loop, from the components kept so far. */
  function ResolveFrom(acc: seq<string>, comps: seq<string>, absolute: bool): (r: seq<string>)
    requires Normalised(acc, absolute)
    requires forall k :: 0 <= k < |comps| ==> '/' !in comps[k]
    ensures Normalised(r, absolute)
    decreases |comps|
  {
    if comps == [] then acc
    else ResolveFrom(Step(acc, comps[0], absolute), comps[1..], absolute)
  }

  /** The number of leading slashes normpath keeps: two for exactly two, otherwise one if any. */
  function InitialSlashes(p: string): (n: nat)
    ensures n <= 2 && n <= |p|
    ensures forall k :: 0 <= k < n ==> p[k] == '/'
    ensures n == 0 <==> (p == "" || p[0] != '/')
  {
    if |p| >= 1 && p[0] == '/' then
      (if |p| >= 2 && p[1] == '/' && !(|p| >= 3 && p[2] == '/') then 2 else 1)
    else 0
  }

  function Slashes(n: nat): (r: string)
    ensures |r| == n && forall k :: 0 <= k < n ==> r[k] == '/'
  {
    if n == 0 then "" else "/" + Slashes(n - 1)
  }

  /** `os.path.normpath(p)`. */
  function NormPath(p: string): (r: string)
    ensures r != ""
  {
    if p == "" then "."
    else
      var n := InitialSlashes(p);
      var q := Slashes(n) + JoinSlash(ResolveFrom([], Split(p), n > 0));
      if q == "" then "." else q
  }

  /** `n` empty components: what `n` leading slashes split into. */
  function Empties(n: nat): (r: seq<string>)
    ensures |r| == n && forall k :: 0 <= k < n ==> r[k] == ""
  {
    if n == 0 then [] else [""] + Empties(n - 1)
  }

  lemma {:induction false} SplitSlashes(n: nat, t: string)
    ensures Split(Slashes(n) + t) == Empties(n) + Split(t)
  {
    if n == 0 {
      assert Slashes(n) + t == t;
    } else {
      var rest := Slashes(n - 1) + t;
      calc {
        Split(Slashes(n) + t);
        { assert Slashes(n) + t == "" + "/" + rest; }
        Split("" + "/" + rest);
        { SplitPrefix("", rest); }
        [""] + Split(rest);
        { SplitSlashes(n - 1, t); }
        [""] + (Empties(n - 1) + Split(t));
        ([""] + Empties(n - 1)) + Split(t);
      }
    }
  }

  lemma {:induction false} ResolveFromAppend(acc: seq<string>, a: seq<string>, b: seq<string>, absolute: bool)
    requires Normalised(acc, absolute)
    requires forall k :: 0 <= k < |a| ==> '/' !in a[k]
    requires forall k :: 0 <= k < |b| ==> '/' !in b[k]
    ensures ResolveFrom(acc, a + b, absolute) == ResolveFrom(ResolveFrom(acc, a, absolute), b, absolute)
    decreases |a|
  {
    if a == [] {
      assert a + b == b;
    } else {
      assert (a + b)[0] == a[0] && (a + b)[1..] == a[1..] + b;
      ResolveFromAppend(Step(acc, a[0], absolute), a[1..], b, absolute);
    }
  }

  /** Components that are already normalised pass through the loop unchanged. */
  lemma {:induction false} ResolveNormalised(acc: seq<string>, segs: seq<string>, absolute: bool)
    requires Normalised(acc + segs, absolute)
    ensures Normalised(acc, absolute)
    ensures forall k :: 0 <= k < |segs| ==> '/' !in segs[k]
    ensures ResolveFrom(acc, segs, absolute) == acc + segs
    decreases |segs|
  {
    var all := acc + segs;
    assert forall k :: 0 <= k < |acc| ==> acc[k] == all[k];
    assert forall k :: 0 <= k < |segs| ==> segs[k] == all[|acc| + k];
    if segs != [] {
      var c := segs[0];
      assert c == all[|acc|];
      if c == ".." && acc != [] {
        assert acc[|acc| - 1] == all[|acc| - 1] == "..";
      }
      assert Step(acc, c, absolute) == acc + [c];
      assert (acc + [c]) + segs[1..] == all;
      ResolveNormalised(acc + [c], segs[1..], absolute);
    } else {
      assert all == acc;
    }
  }

  /** A non-empty list of names joins to a text that starts with the first name. */
  lemma JoinSlashStarts(segs: seq<string>)
    requires |segs| >= 1
    ensures segs[0] <= JoinSlash(segs)
  {
  }

  /** Appending a component to a non-empty list adds `/` and that component. */
  lemma {:induction false} JoinSlashSnoc(segs: seq<string>, c: string)
    requires |segs| >= 1
    ensures JoinSlash(segs + [c]) == JoinSlash(segs) + "/" + c
    decreases |segs|
  {
    if |segs| > 1 {
      assert (segs + [c])[1..] == segs[1..] + [c];
      JoinSlashSnoc(segs[1..], c);
    } else {
      assert (segs + [c])[1..] == [c];
    }
  }

  /** A normalised result, rendered with its leading slashes, is left as it is by normpath. */
  lemma NormalFormFixed(n: nat, segs: seq<string>)
    requires n <= 2 && Normalised(segs, n > 0)
    requires n > 0 || segs != []
    ensures InitialSlashes(Slashes(n) + JoinSlash(segs)) == n
    ensures NormPath(Slashes(n) + JoinSlash(segs)) == Slashes(n) + JoinSlash(segs)
  {
    var body := JoinSlash(segs);
    var q := Slashes(n) + body;
    if segs != [] {
      JoinSlashStarts(segs);
      assert segs[0] != "" && segs[0][0] != '/';
      assert body[0] == segs[0][0];
      assert q[n] == body[0];
    } else {
      assert body == "";
    }
    assert q != "";
    assert InitialSlashes(q) == n;
    SplitSlashes(n, body);
    ResolveFromAppend([], Empties(n), Split(body), n > 0);
    EmptiesVanish(n, n > 0);
    if segs == [] {
      assert Split(body) == [[]];
      assert ResolveFrom([], Split(body), n > 0) == [];
    } else {
      SplitJoin(segs);
      ResolveNormalised([], segs, n > 0);
      assert [] + segs == segs;
    }
  }

  lemma {:induction false} EmptiesVanish(n: nat, absolute: bool)
    ensures ResolveFrom([], Empties(n), absolute) == []
  {
    if n > 0 {
      EmptiesVanish(n - 1, absolute);
    }
  }

  /** normpath of `.` is `.`. */
  lemma NormPathDot()
    ensures NormPath(".") == "."
  {
    SplitSegment(".");
  }

  /** normpath is idempotent. */
  lemma NormPathIdempotent(p: string)
    ensures NormPath(NormPath(p)) == NormPath(p)
  {
    if p == "" {
      NormPathDot();
    } else {
      var n := InitialSlashes(p);
      var segs := ResolveFrom([], Split(p), n > 0);
      if Slashes(n) + JoinSlash(segs) == "" {
        NormPathDot();
      } else {
        assert n > 0 || segs != [];
        NormalFormFixed(n, segs);
      }
    }
  }

  /**
   * The shape of a normalised absolute path: one or two leading slashes, then
   * either nothing or components that are all names other than `..`.
   */
  predicate CleanAbsolute(r: string) {
    var n := InitialSlashes(r);
    && n >= 1
    && (r[n..] == "" || forall k :: 0 <= k < |Split(r[n..])| ==> Name(Split(r[n..])[k]) && Split(r[n..])[k] != "..")
  }

  /** normpath of an absolute path is absolute, keeps its leading slashes and is clean. */
  lemma NormPathAbsolute(p: string)
    requires |p| > 0 && p[0] == '/'
    ensures InitialSlashes(NormPath(p)) == InitialSlashes(p)
    ensures CleanAbsolute(NormPath(p))
  {
    var n := InitialSlashes(p);
    var segs := ResolveFrom([], Split(p), true);
    NormalFormFixed(n, segs);
    var r := Slashes(n) + JoinSlash(segs);
    assert r[n..] == JoinSlash(segs);
    if segs != [] {
      SplitJoin(segs);
    }
  }

  /** Going up from the root stays at the root. */
  lemma ParentOfRoot()
    ensures NormPath(Join("/", "..")) == "/"
  {
    assert Join("/", "..") == "" + "/" + "..";
    SplitPrefix("", "..");
    SplitSegment("..");
    assert Split("/..") == ["", ".."];
  }

  /** The text of an absolute path whose components after the root are `segs`. */
  function Absolute(segs: seq<string>): string {
    "/" + JoinSlash(segs)
  }

  /** A list of components whose last one is not empty joins to a text ending in that component's last character. */
  lemma {:induction false} JoinSlashLast(segs: seq<string>)
    requires |segs| >= 1 && segs[|segs| - 1] != ""
    ensures var j, last := JoinSlash(segs), segs[|segs| - 1];
      |j| > 0 && j[|j| - 1] == last[|last| - 1]
    decreases |segs|
  {
    if |segs| > 1 {
      JoinSlashLast(segs[1..]);
      assert segs[1..][|segs| - 2] == segs[|segs| - 1];
    }
  }

  /** Joining a relative component onto a clean absolute path adds it as the last component. */
  lemma JoinOntoAbsolute(segs: seq<string>, c: string)
    requires Normalised(segs, true)
    requires c == "" || c[0] != '/'
    ensures Join(Absolute(segs), c) == Absolute(segs + [c])
  {
    if segs == [] {
      assert segs + [c] == [c];
      assert Absolute(segs) == "/";
    } else {
      JoinSlashLast(segs);
      JoinSlashSnoc(segs, c);
      var a := Absolute(segs);
      assert a[|a| - 1] != '/';
      assert Join(a, c) == a + "/" + c;
    }
  }

  /** An absolute path splits into an empty component for the root, then its components. */
  lemma SplitAbsolute(segs: seq<string>)
    requires |segs| >= 1 && forall k :: 0 <= k < |segs| ==> Name(segs[k]) || segs[k] == ".."
    ensures InitialSlashes(Absolute(segs)) == 1
    ensures Split(Absolute(segs)) == [""] + segs
  {
    JoinSlashStarts(segs);
    assert Absolute(segs) == Slashes(1) + JoinSlash(segs);
    SplitSlashes(1, JoinSlash(segs));
    SplitJoin(segs);
  }

  /** normpath of a path with a single leading slash is that slash and its resolved components. */
  lemma NormPathOfAbsolute(segs: seq<string>)
    requires |segs| >= 1 && forall k :: 0 <= k < |segs| ==> Name(segs[k]) || segs[k] == ".."
    requires forall k :: 0 <= k < |segs| ==> '/' !in segs[k]
    ensures NormPath(Absolute(segs)) == "/" + JoinSlash(ResolveFrom([], segs, true))
  {
    SplitAbsolute(segs);
    assert Slashes(1) == "/";
    assert ResolveFrom([], [""] + segs, true) == ResolveFrom([], segs, true) by {
      assert ([""] + segs)[1..] == segs;
    }
  }

  /** Resolving a clean absolute list followed by `..` drops its last component. */
  lemma ResolveParent(segs: seq<string>)
    requires Normalised(segs, true) && segs != []
    ensures ResolveFrom([], segs + [".."], true) == segs[..|segs| - 1]
  {
    assert ResolveFrom([], segs, true) == segs by {
      ResolveNormalised([], segs, true);
      assert [] + segs == segs;
    }
    assert ResolveFrom(segs, [".."], true) == segs[..|segs| - 1] by {
      assert segs[|segs| - 1] != "..";
      assert Step(segs, "..", true) == segs[..|segs| - 1];
      assert [".."][1..] == [];
    }
    ResolveFromAppend([], segs, [".."], true);
  }

  /** `..` from a clean absolute directory drops its last component, and stays at the root. */
  lemma ParentDirectory(segs: seq<string>)
    requires Normalised(segs, true)
    ensures NormPath(Join(Absolute(segs), "..")) == Absolute(if segs == [] then [] else segs[..|segs| - 1])
  {
    if segs == [] {
      ParentOfRoot();
    } else {
      JoinOntoAbsolute(segs, "..");
      assert '/' !in "..";
      NormPathOfAbsolute(segs + [".."]);
      ResolveParent(segs);
    }
  }

  /** Empty components (from `//` or a trailing `/`) and `.` components are skipped wherever they occur. */
  lemma {:induction false} ResolveSkips(acc: seq<string>, a: seq<string>, c: string, b: seq<string>, absolute: bool)
    requires Normalised(acc, absolute)
    requires forall k :: 0 <= k < |a| ==> '/' !in a[k]
    requires forall k :: 0 <= k < |b| ==> '/' !in b[k]
    requires c == "" || c == "."
    ensures ResolveFrom(acc, a + [c] + b, absolute) == ResolveFrom(acc, a + b, absolute)
  {
    var cb := [c] + b;
    assert forall k :: 0 <= k < |cb| ==> '/' !in cb[k] by {
      assert forall k :: 1 <= k < |cb| ==> cb[k] == b[k - 1];
    }
    assert a + [c] + b == a + cb;
    ResolveFromAppend(acc, a, cb, absolute);
    var mid := ResolveFrom(acc, a, absolute);
    assert ResolveFrom(mid, cb, absolute) == ResolveFrom(mid, b, absolute) by {
      assert cb[0] == c && cb[1..] == b;
      assert Step(mid, c, absolute) == mid;
    }
    ResolveFromAppend(acc, a, b, absolute);
  }

  /** Splitting slash-free components joined with `/` onto a final text gives those components, then the text's split. */
  lemma {:induction false} SplitJoinSlashSnoc(segs: seq<string>, t: string)
    requires forall k :: 0 <= k < |segs| ==> '/' !in segs[k]
    ensures Split(JoinSlash(segs + [t])) == segs + Split(t)
    decreases |segs|
  {
    if segs == [] {
      assert segs + [t] == [t];
    } else {
      var rest := segs[1..] + [t];
      assert JoinSlash(segs + [t]) == segs[0] + "/" + JoinSlash(rest) by {
        assert (segs + [t])[1..] == rest;
      }
      assert Split(JoinSlash(segs + [t])) == [segs[0]] + Split(JoinSlash(rest)) by {
        SplitPrefix(segs[0], JoinSlash(rest));
      }
      assert Split(JoinSlash(rest)) == segs[1..] + Split(t) by {
        SplitJoinSlashSnoc(segs[1..], t);
      }
      assert [segs[0]] + (segs[1..] + Split(t)) == segs + Split(t);
    }
  }

  /** Clean components followed by a relative path join to a text that does not start with `/`. */
  lemma JoinedRelative(segs: seq<string>, c: string)
    requires Normalised(segs, true)
    requires c == "" || c[0] != '/'
    ensures var body := JoinSlash(segs + [c]); body == "" || body[0] != '/'
  {
    var all := segs + [c];
    if segs == [] {
      assert all == [c];
    } else {
      JoinSlashStarts(all);
      assert all[0] == segs[0] && Name(segs[0]);
    }
  }

  /** A slash in front of a text that does not start with one is a single leading slash. */
  lemma OneLeadingSlash(body: string)
    requires body == "" || body[0] != '/'
    ensures InitialSlashes("/" + body) == 1
  {
    var p := "/" + body;
    assert p[0] == '/' && (|p| == 1 || p[1] == body[0]);
  }

  /** A clean absolute directory with a relative path appended splits into the root, its components, then the path's. */
  lemma SplitOntoAbsolute(segs: seq<string>, c: string)
    requires Normalised(segs, true)
    requires c == "" || c[0] != '/'
    ensures InitialSlashes(Absolute(segs + [c])) == 1
    ensures Split(Absolute(segs + [c])) == [""] + (segs + Split(c))
  {
    var all := segs + [c];
    var body := JoinSlash(all);
    JoinedRelative(segs, c);
    OneLeadingSlash(body);
    assert Split(Absolute(all)) == [""] + Split(body) by {
      assert Absolute(all) == "" + "/" + body;
      SplitPrefix("", body);
    }
    assert Split(body) == segs + Split(c) by {
      SplitJoinSlashSnoc(segs, c);
    }
  }

  /**
   * Normalising any relative path joined onto a clean absolute directory
   * resolves the relative path's components, starting from the directory's.
   */
  lemma NormPathJoinRelative(segs: seq<string>, c: string)
    requires Normalised(segs, true)
    requires c == "" || c[0] != '/'
    ensures NormPath(Join(Absolute(segs), c)) == Absolute(ResolveFrom(segs, Split(c), true))
  {
    var p := Absolute(segs + [c]);
    assert Join(Absolute(segs), c) == p by {
      JoinOntoAbsolute(segs, c);
    }
    SplitOntoAbsolute(segs, c);
    assert ResolveFrom([], Split(p), true) == ResolveFrom(segs, Split(c), true) by {
      assert ([""] + (segs + Split(c)))[1..] == segs + Split(c);
      ResolveNormalised([], segs, true);
      assert [] + segs == segs;
      ResolveFromAppend([], segs, Split(c), true);
    }
    assert Slashes(1) == "/";
  }

  /** A name with a trailing `/` under a clean absolute directory resolves to that directory plus the name. */
  lemma ChildDirectorySlash(segs: seq<string>, name: string)
    requires Normalised(segs, true)
    requires Name(name) && name != ".."
    ensures NormPath(Join(Absolute(segs), name + "/")) == Absolute(segs + [name])
  {
    NormPathJoinRelative(segs, name + "/");
    assert Split(name + "/") == [name, ""] by {
      assert name + "/" == name + "/" + "";
      SplitPrefix(name, "");
    }
    assert ResolveFrom(segs + [name], [""], true) == segs + [name];
  }

  /** An empty line under the cursor opens the directory itself. */
  lemma EmptyName(segs: seq<string>)
    requires Normalised(segs, true)
    ensures NormPath(Join(Absolute(segs), "")) == Absolute(segs)
  {
    NormPathJoinRelative(segs, "");
    assert Split("") == [""];
    assert ResolveFrom(segs, [""], true) == segs;
  }

  /** `.` and `./` under a clean absolute directory resolve to the directory itself. */
  lemma CurrentDirectory(segs: seq<string>)
    requires Normalised(segs, true)
    ensures NormPath(Join(Absolute(segs), ".")) == Absolute(segs)
    ensures NormPath(Join(Absolute(segs), "./")) == Absolute(segs)
  {
    NormPathJoinRelative(segs, ".");
    SplitSegment(".");
    NormPathJoinRelative(segs, "./");
    assert Split("./") == [".", ""] by {
      assert "./" == "." + "/" + "";
      SplitPrefix(".", "");
    }
    assert ResolveFrom(segs, [""], true) == segs;
  }

  /** `../` under a clean absolute directory resolves to its parent, like `..`. */
  lemma ParentDirectorySlash(segs: seq<string>)
    requires Normalised(segs, true)
    ensures NormPath(Join(Absolute(segs), "../")) == Absolute(if segs == [] then [] else segs[..|segs| - 1])
  {
    NormPathJoinRelative(segs, "../");
    assert Split("../") == ["..", ""] by {
      assert "../" == ".." + "/" + "";
      SplitPrefix("..", "");
    }
    var up := Step(segs, "..", true);
    assert up == (if segs == [] then [] else segs[..|segs| - 1]) by {
      if segs != [] {
        assert segs[|segs| - 1] != "..";
      }
    }
    assert ResolveFrom(up, [""], true) == up;
  }

  /** A plain name under a clean absolute directory resolves to that directory plus the name. */
  lemma ChildDirectory(segs: seq<string>, name: string)
    requires Normalised(segs, true)
    requires Name(name) && name != ".."
    ensures NormPath(Join(Absolute(segs), name)) == Absolute(segs + [name])
  {
    JoinOntoAbsolute(segs, name);
    var all := segs + [name];
    assert Normalised(all, true);
    NormalFormFixed(1, all);
  }

  /** `subdir` under `/a/b` is `/a/b/subdir`. */
  lemma ChildExample()
    ensures NormPath(Join("/a/b", "subdir")) == "/a/b/subdir"
  {
    var segs := ["a", "b"];
    assert Normalised(segs, true) by {
      assert Name("a") && Name("b");
    }
    assert Absolute(segs) == "/a/b" by {
      assert JoinSlash(segs) == "a" + "/" + "b";
    }
    assert Absolute(segs + ["subdir"]) == "/a/b/subdir" by {
      JoinSlashSnoc(segs, "subdir");
      assert Absolute(segs + ["subdir"]) == "/a/b" + "/" + "subdir";
    }
    ChildDirectory(segs, "subdir");
  }

  /** `subdir/` under `/a/b` is `/a/b/subdir` too: the trailing slash vanishes. */
  lemma ChildSlashExample()
    ensures NormPath(Join("/a/b", "subdir/")) == "/a/b/subdir"
  {
    var segs := ["a", "b"];
    assert Normalised(segs, true) by {
      assert Name("a") && Name("b");
    }
    assert Absolute(segs) == "/a/b" by {
      assert JoinSlash(segs) == "a" + "/" + "b";
    }
    assert Absolute(segs + ["subdir"]) == "/a/b/subdir" by {
      JoinSlashSnoc(segs, "subdir");
      assert Absolute(segs + ["subdir"]) == "/a/b" + "/" + "subdir";
    }
    assert Join(Absolute(segs), "subdir" + "/") == Join("/a/b", "subdir/") by {
      assert "subdir" + "/" == "subdir/";
    }
    ChildDirectorySlash(segs, "subdir");
  }

  /** The parent of `/a/b` is `/a`. */
  lemma ParentExample()
    ensures NormPath(Join("/a/b", "..")) == "/a"
  {
    var segs := ["a", "b"];
    assert Absolute(segs) == "/a/b";
    assert Normalised(segs, true);
    ParentDirectory(segs);
    assert segs[..1] == ["a"];
  }
}
