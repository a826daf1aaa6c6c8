/** The part of POSIX `pathlib` that the supervisor relies on: building a path
    from a string, rendering it back with `str()`, and appending the `"server"`
    component with the `/` operator. A path is an absolute flag and a list of
    components; empty components and `"."` are dropped when a string is parsed,
    as `pathlib.PurePosixPath` does. */
module Paths {

  datatype FsPath = FsPath(absolute: bool, parts: seq<string>)

  /** A component that `pathlib` keeps after parsing. */
  predicate IsComponent(c: string) {
    c != "" && c != "." && '/' !in c
  }

  predicate WellFormed(p: FsPath) {
    forall i :: 0 <= i < |p.parts| ==> IsComponent(p.parts[i])
  }

  /** `s.split("/")`: the pieces between slashes, empty ones included. */
  function Split(s: string): (r: seq<string>)
    ensures 0 < |r|
    ensures forall i :: 0 <= i < |r| ==> '/' !in r[i]
  {
    if |s| == 0 then [""]
    else
      var rest := Split(s[1..]);
      if s[0] == '/' then [""] + rest else [[s[0]] + rest[0]] + rest[1..]
  }

  /** `"/".join(ps)`. */
  function JoinSlash(ps: seq<string>): string {
    if |ps| == 0 then ""
    else if |ps| == 1 then ps[0]
    else ps[0] + "/" + JoinSlash(ps[1..])
  }

  /** Drops the pieces `pathlib` ignores: empty ones and `"."`. */
  function Significant(ps: seq<string>): (r: seq<string>)
    requires forall i :: 0 <= i < |ps| ==> '/' !in ps[i]
    ensures forall i :: 0 <= i < |r| ==> IsComponent(r[i])
  {
    if |ps| == 0 then []
    else if ps[0] == "" || ps[0] == "." then Significant(ps[1..])
    else [ps[0]] + Significant(ps[1..])
  }

  /** `Path(s)`. */
  function ParsePath(s: string): (p: FsPath)
    ensures WellFormed(p)
  {
    FsPath(0 < |s| && s[0] == '/', Significant(Split(s)))
  }

  /** `str(p)`: the relative empty path is written `"."`. */
  function Render(p: FsPath): string {
    if p.absolute then "/" + JoinSlash(p.parts)
    else if p.parts == [] then "."
    else JoinSlash(p.parts)
  }

  /** `Path(repo) / "server"`: the server executable inside the llama.cpp checkout. */
  function ServerExecutable(repo: string): (p: FsPath)
    ensures WellFormed(p)
  {
    var dir := ParsePath(repo);
    FsPath(dir.absolute, dir.parts + ["server"])
  }

  lemma {:induction false} SplitPrefix(a: string, t: string)
    requires '/' !in a
    ensures Split(a + t) == [a + Split(t)[0]] + Split(t)[1..]
    decreases |a|
  {
    if |a| == 0 {
      assert a + t == t;
      assert a + Split(t)[0] == Split(t)[0];
      assert Split(t) == [Split(t)[0]] + Split(t)[1..];
    } else {
      assert (a + t)[1..] == a[1..] + t;
      SplitPrefix(a[1..], t);
      assert [a[0]] + (a[1..] + Split(t)[0]) == a + Split(t)[0];
    }
  }

  lemma {:induction false} SplitJoinSlash(ps: seq<string>)
    requires 0 < |ps|
    requires forall i :: 0 <= i < |ps| ==> '/' !in ps[i]
    ensures Split(JoinSlash(ps)) == ps
    decreases |ps|
  {
    if |ps| == 1 {
      SplitPrefix(ps[0], "");
      assert ps[0] + "" == ps[0];
    } else {
      var tail := "/" + JoinSlash(ps[1..]);
      assert JoinSlash(ps) == ps[0] + tail;
      SplitPrefix(ps[0], tail);
      assert tail[1..] == JoinSlash(ps[1..]);
      SplitJoinSlash(ps[1..]);
      assert Split(tail) == [""] + ps[1..];
      assert ps[0] + "" == ps[0];
      assert [ps[0]] + ps[1..] == ps;
    }
  }

  lemma {:induction false} SignificantKeepsComponents(ps: seq<string>)
    requires forall i :: 0 <= i < |ps| ==> '/' !in ps[i]
    requires forall i :: 0 <= i < |ps| ==> IsComponent(ps[i])
    ensures Significant(ps) == ps
    decreases |ps|
  {
    if |ps| > 0 {
      SignificantKeepsComponents(ps[1..]);
    }
  }

  /** A piece survives exactly when it is a component. */
  lemma {:induction false} SignificantMembers(ps: seq<string>, c: string)
    requires forall i :: 0 <= i < |ps| ==> '/' !in ps[i]
    ensures c in Significant(ps) <==> c in ps && IsComponent(c)
    decreases |ps|
  {
    if |ps| > 0 {
      SignificantMembers(ps[1..], c);
      assert ps == [ps[0]] + ps[1..];
    }
  }

  /** Dropping pieces keeps the order of the ones kept. */
  lemma {:induction false} SignificantConcat(a: seq<string>, b: seq<string>)
    requires forall i :: 0 <= i < |a| ==> '/' !in a[i]
    requires forall i :: 0 <= i < |b| ==> '/' !in b[i]
    ensures Significant(a + b) == Significant(a) + Significant(b)
    decreases |a|
  {
    if |a| == 0 {
      assert a + b == b;
    } else {
      assert (a + b)[0] == a[0] && (a + b)[1..] == a[1..] + b;
      SignificantConcat(a[1..], b);
    }
  }

  /** Splitting loses nothing: joining the pieces gives the string back. */
  lemma {:induction false} JoinSlashSplit(s: string)
    ensures JoinSlash(Split(s)) == s
    decreases |s|
  {
    if |s| > 0 {
      var rest := Split(s[1..]);
      JoinSlashSplit(s[1..]);
      if s[0] == '/' {
        assert JoinSlash([""] + rest) == "" + "/" + JoinSlash(rest);
        assert s == "/" + s[1..];
      } else if |rest| == 1 {
        assert s == [s[0]] + s[1..];
      } else {
        var ps := [[s[0]] + rest[0]] + rest[1..];
        assert ps[1..] == rest[1..];
        assert JoinSlash(ps) == [s[0]] + (rest[0] + "/" + JoinSlash(rest[1..]));
        assert s == [s[0]] + s[1..];
      }
    }
  }

  /** A slash in the string separates its pieces. */
  lemma {:induction false} SplitSlash(a: string, b: string)
    ensures Split(a + "/" + b) == Split(a) + Split(b)
    decreases |a|
  {
    if |a| == 0 {
      assert a + "/" + b == "/" + b;
      assert ("/" + b)[1..] == b;
    } else {
      assert (a + "/" + b)[0] == a[0] && (a + "/" + b)[1..] == a[1..] + "/" + b;
      SplitSlash(a[1..], b);
    }
  }

  /** `Path(s)` keeps every component of `s`, and nothing else. */
  lemma ParsePathKeepsComponents(s: string, c: string)
    ensures c in ParsePath(s).parts <==> c in Split(s) && IsComponent(c)
  {
    SignificantMembers(Split(s), c);
  }

  /** `Path(a + "/" + b)` has the components of `a` followed by those of `b`,
      and is absolute exactly when `a` starts with a slash (or is empty). */
  lemma ParsePathConcat(a: string, b: string)
    ensures ParsePath(a + "/" + b).parts == ParsePath(a).parts + ParsePath(b).parts
    ensures ParsePath(a + "/" + b).absolute == (a == "" || ParsePath(a).absolute)
  {
    SplitSlash(a, b);
    SignificantConcat(Split(a), Split(b));
    if a != "" {
      assert (a + "/" + b)[0] == a[0];
    }
  }

  /** A string that is one component parses to that relative component. */
  lemma ParseComponent(c: string)
    requires IsComponent(c)
    ensures ParsePath(c) == FsPath(false, [c])
  {
    SplitPrefix(c, "");
    assert c + "" == c;
    assert Split("") == [""];
    assert Split(c) == [c];
    assert [c][1..] == [];
    assert Significant([c]) == [c];
    assert c[0] in c;
  }

  /** A relative checkout path with a leading `./`, such as `./llama.cpp`. */
  lemma ParseDotPrefixed(c: string)
    requires IsComponent(c)
    ensures ParsePath("./" + c) == FsPath(false, [c])
  {
    assert Split(".") == ["."] by {
      assert Split("") == [""];
      assert ['.'] + "" == ".";
    }
    ParseComponent(c);
    ParsePathConcat(".", c);
    assert "./" + c == "." + "/" + c;
  }

  /** An absolute checkout path with a doubled and a trailing slash, such as
      `/opt//llama.cpp/`. */
  lemma ParseExtraSlashes(a: string, b: string)
    requires IsComponent(a) && IsComponent(b)
    ensures ParsePath("/" + a + "//" + b + "/") == FsPath(true, [a, b])
  {
    assert Split("") == [""];
    var z := b + "/" + "";
    ParseComponent(b);
    ParsePathConcat(b, "");
    var y := "" + "/" + z;
    ParsePathConcat("", z);
    var x := a + "/" + y;
    ParseComponent(a);
    ParsePathConcat(a, y);
    ParsePathConcat("", x);
    assert "/" + a + "//" + b + "/" == "" + "/" + x;
  }

  /** Parsing a rendered well-formed path gives that path back. */
  lemma ParseRender(p: FsPath)
    requires WellFormed(p)
    ensures ParsePath(Render(p)) == p
  {
    assert forall i :: 0 <= i < |p.parts| ==> '/' !in p.parts[i] by {
      forall i | 0 <= i < |p.parts| ensures '/' !in p.parts[i] {
        assert IsComponent(p.parts[i]);
      }
    }
    SignificantKeepsComponents(p.parts);
    if p.absolute {
      var s := Render(p);
      assert s[0] == '/' && s[1..] == JoinSlash(p.parts);
      if p.parts == [] {
        assert Split(s) == [""] + Split("");
      } else {
        SplitJoinSlash(p.parts);
        assert Split(s) == [""] + p.parts;
      }
      assert Significant(Split(s)) == Significant(p.parts) by {
        assert Split(s)[0] == "" && Split(s)[1..] == Split(s[1..]);
      }
    } else if p.parts == [] {
      assert Split(".") == ["."] by {
        assert "."[1..] == "";
        assert Split("") == [""];
        assert ['.'] + "" == ".";
      }
    } else {
      SplitJoinSlash(p.parts);
      JoinSlashStart(p.parts);
    }
  }

  lemma JoinSlashStart(ps: seq<string>)
    requires 0 < |ps| && IsComponent(ps[0])
    ensures 0 < |JoinSlash(ps)| && JoinSlash(ps)[0] == ps[0][0]
  {
  }

  lemma {:induction false} JoinSlashSnoc(ps: seq<string>, c: string)
    requires 0 < |ps|
    ensures JoinSlash(ps + [c]) == JoinSlash(ps) + "/" + c
    decreases |ps|
  {
    if |ps| > 1 {
      assert (ps + [c])[1..] == ps[1..] + [c];
      JoinSlashSnoc(ps[1..], c);
    } else {
      assert ps + [c] == [ps[0], c];
    }
  }

  /** Appending a component to a well-formed path appends `"/" + c` to its
      rendering, except for the bare paths `"."` and `"/"`. */
  lemma AppendRendering(dir: FsPath, c: string)
    requires WellFormed(dir) && IsComponent(c)
    ensures var p := FsPath(dir.absolute, dir.parts + [c]);
      WellFormed(p) &&
      Render(p) ==
        if dir.parts != [] then Render(dir) + "/" + c
        else if dir.absolute then "/" + c
        else c
  {
    if dir.parts != [] {
      JoinSlashSnoc(dir.parts, c);
    } else {
      assert dir.parts + [c] == [c];
    }
  }

  /** `str(Path(repo) / "server")` is `str(Path(repo))` with `"/server"`
      appended, except for the two bare paths `"."` and `"/"`. */
  lemma ServerExecutableRendering(repo: string)
    ensures var dir := ParsePath(repo);
      Render(ServerExecutable(repo)) ==
        if dir.parts != [] then Render(dir) + "/server"
        else if dir.absolute then "/server"
        else "server"
  {
    AppendRendering(ParsePath(repo), "server");
  }

  /** The server path ends in the component `"server"`, and its rendering
      parses back to it. */
  lemma ServerExecutableRoundTrip(repo: string)
    ensures var p := ServerExecutable(repo);
      0 < |p.parts| && p.parts[|p.parts| - 1] == "server" &&
      ParsePath(Render(p)) == p
  {
    ParseRender(ServerExecutable(repo));
  }
}
