/** `safe_join(base, target)`: join a path under a base directory, resolve it, and refuse
    the result unless it lies under the resolved base.

    Paths are POSIX paths. `path.resolve` is modelled as a walk over the `/`-separated pieces
    of the path: empty pieces and `.` are skipped, `..` drops the last directory (and stays at
    the root), anything else is entered. A relative path starts from the process's working
    directory `cwd`, given as its list of directory names. */
module Paths {
  import opened Wrappers
  import opened JsString
  import opened SeqLemmas

  /** A resolved path: directory names that are neither empty, `.` nor `..`, and hold no `/`. */
  predicate Clean(segs: seq<string>) {
    forall k :: 0 <= k < |segs| ==> segs[k] != "" && segs[k] != "." && segs[k] != ".." && '/' !in segs[k]
  }

  function Step(acc: seq<string>, piece: string): seq<string> {
    if piece == "" || piece == "." then acc
    else if piece == ".." then (if |acc| == 0 then acc else acc[..|acc| - 1])
    else acc + [piece]
  }

  function Walk(acc: seq<string>, pieces: seq<string>): seq<string>
    decreases |pieces|
  {
    if pieces == [] then acc else Walk(Step(acc, pieces[0]), pieces[1..])
  }

  function StartDir(cwd: seq<string>, p: string): seq<string> {
    if |p| > 0 && p[0] == '/' then [] else cwd
  }

  /** The directory names of `path.resolve(p)`. */
  function Segments(cwd: seq<string>, p: string): seq<string> {
    Walk(StartDir(cwd, p), Split(p, '/'))
  }

  function Render(segs: seq<string>): string {
    "/" + Join(segs, "/")
  }

  /** `path.resolve(p)`. */
  function Resolve(cwd: seq<string>, p: string): string {
    Render(Segments(cwd, p))
  }

  /** `path.join(base, target)` before normalisation: the non-empty arguments joined by `/`.
      Normalising it first changes nothing once the result is resolved. */
  function JoinText(base: string, target: string): string {
    if base == "" then target else if target == "" then base else base + "/" + target
  }

  const InvalidPath := "invalid_path"

  /** `safe_join` as written: the resolved base must be a textual prefix of the resolved join. */
  function SafeJoinAsWritten(cwd: seq<string>, base: string, target: string): (r: Result<string, string>)
    ensures r.Err? ==> r.error == InvalidPath
    ensures r.Ok? <==> StartsWith(Resolve(cwd, JoinText(base, target)), Resolve(cwd, base))
  {
    var resolved := Resolve(cwd, JoinText(base, target));
    if StartsWith(resolved, Resolve(cwd, base)) then Ok(resolved) else Err(InvalidPath)
  }

  /** `safe_join` with the containment test done on directory names: the resolved join must
      lie in the resolved base or below it. */
  function SafeJoin(cwd: seq<string>, base: string, target: string): (r: Result<string, string>)
    ensures r.Err? ==> r.error == InvalidPath
  {
    var segs := Segments(cwd, JoinText(base, target));
    if IsPrefix(Segments(cwd, base), segs) then Ok(Render(segs)) else Err(InvalidPath)
  }

  /** Which containment test a caller of `safe_join` applies: the one the code makes, or the
      one on directory names. */
  datatype Guard = AsWritten | Corrected

  function GuardedJoin(g: Guard, cwd: seq<string>, base: string, target: string): (r: Result<string, string>)
    ensures r.Err? ==> r.error == InvalidPath
  {
    match g
    case AsWritten => SafeJoinAsWritten(cwd, base, target)
    case Corrected => SafeJoin(cwd, base, target)
  }

  // ---------------------------------------------------------------- the walk

  lemma {:induction false} WalkAppend(acc: seq<string>, a: seq<string>, b: seq<string>)
    decreases |a|
    ensures Walk(acc, a + b) == Walk(Walk(acc, a), b)
  {
    if a == [] {
      PrependEmpty(b);
    } else {
      ConsAppend(a, b);
      WalkAppend(Step(acc, a[0]), a[1..], b);
    }
  }

  /** Walking over directory names that need no normalisation enters each of them. */
  lemma {:induction false} WalkClean(acc: seq<string>, segs: seq<string>)
    requires Clean(segs)
    decreases |segs|
    ensures Walk(acc, segs) == acc + segs
  {
    if segs == [] {
      AppendEmpty(acc);
    } else {
      assert Clean(segs[1..]) by {
        forall k | 0 <= k < |segs[1..]|
          ensures segs[1..][k] == segs[k + 1]
        {
        }
      }
      WalkClean(acc + [segs[0]], segs[1..]);
      SeqAssoc(acc, [segs[0]], segs[1..]);
      ConsOfTail(segs);
    }
  }

  lemma {:induction false} WalkStaysClean(acc: seq<string>, pieces: seq<string>)
    requires Clean(acc)
    requires forall k :: 0 <= k < |pieces| ==> '/' !in pieces[k]
    decreases |pieces|
    ensures Clean(Walk(acc, pieces))
  {
    if pieces != [] {
      var next := Step(acc, pieces[0]);
      assert Clean(next) by {
        forall k | 0 <= k < |next|
          ensures next[k] != "" && next[k] != "." && next[k] != ".." && '/' !in next[k]
        {
          if k < |acc| {
            assert next[k] == acc[k];
          } else {
            assert next[k] == pieces[0];
          }
        }
      }
      assert forall k :: 0 <= k < |pieces[1..]| ==> pieces[1..][k] == pieces[k + 1];
      WalkStaysClean(next, pieces[1..]);
    }
  }

  /** Walking over pieces none of which is `..` never leaves the starting directory. */
  lemma {:induction false} WalkDescends(acc: seq<string>, pieces: seq<string>)
    requires forall k :: 0 <= k < |pieces| ==> pieces[k] != ".."
    decreases |pieces|
    ensures IsPrefix(acc, Walk(acc, pieces))
  {
    if pieces != [] {
      var next := Step(acc, pieces[0]);
      assert IsPrefix(acc, next) by {
        AppendAgrees(acc, [pieces[0]]);
      }
      assert forall k :: 0 <= k < |pieces[1..]| ==> pieces[1..][k] == pieces[k + 1];
      WalkDescends(next, pieces[1..]);
    }
  }

  // ---------------------------------------------------------------- resolving

  /** Every resolved path is made of clean directory names. */
  lemma SegmentsClean(cwd: seq<string>, p: string)
    requires Clean(cwd)
    ensures Clean(Segments(cwd, p))
  {
    SplitNoSep(p, '/');
    WalkStaysClean(StartDir(cwd, p), Split(p, '/'));
  }

  /** Rendering clean directory names and resolving the text gives the names back, from
      whatever working directory. */
  lemma SegmentsOfRender(cwd: seq<string>, segs: seq<string>)
    requires Clean(segs)
    ensures Segments(cwd, Render(segs)) == segs
  {
    var body := Join(segs, "/");
    assert Render(segs) == "" + ['/'] + body;
    SplitAppend("", '/', body);
    assert Split("", '/') == [""];
    WalkAppend([], [""], Split(body, '/'));
    if segs == [] {
      assert Split(body, '/') == [""];
      assert Walk([], [""] + [""]) == [];
    } else {
      forall k | 0 <= k < |segs|
        ensures '/' !in segs[k]
      {
      }
      JoinSplit(segs, '/');
      WalkClean([], segs);
      PrependEmpty(segs);
    }
  }

  /** `path.resolve` applied twice resolves nothing more. */
  lemma ResolveIdempotent(cwd: seq<string>, p: string)
    requires Clean(cwd)
    ensures Resolve(cwd, Resolve(cwd, p)) == Resolve(cwd, p)
  {
    SegmentsClean(cwd, p);
    SegmentsOfRender(cwd, Segments(cwd, p));
  }

  /** A rendered path that extends another by directory names extends it as text. */
  lemma RenderPrefix(a: seq<string>, b: seq<string>)
    requires IsPrefix(a, b)
    ensures StartsWith(Render(b), Render(a))
  {
    PrefixSplit(a, b);
    var rest := b[|a|..];
    if a == [] {
    } else if rest == [] {
      AppendEmpty(a);
    } else {
      JoinConcat(a, rest, "/");
      assert Render(b) == Render(a) + ("/" + Join(rest, "/"));
    }
  }

  lemma {:induction false} JoinConcat(a: seq<string>, b: seq<string>, sep: string)
    requires |a| >= 1 && |b| >= 1
    decreases |a|
    ensures Join(a + b, sep) == Join(a, sep) + sep + Join(b, sep)
  {
    ConsAppend(a, b);
    if |a| == 1 {
      SingletonOf(a);
      JoinCons(a[0], b, sep);
    } else {
      JoinConcat(a[1..], b, sep);
      JoinCons(a[0], a[1..] + b, sep);
      ConsOfTail(a);
      JoinCons(a[0], a[1..], sep);
    }
  }

  // ---------------------------------------------------------------- the guard

  /** The corrected guard accepts exactly the joins that resolve into the base directory or
      below it, and what it returns resolves to itself. */
  lemma SafeJoinContained(cwd: seq<string>, base: string, target: string)
    requires Clean(cwd)
    ensures SafeJoin(cwd, base, target).Ok? <==>
              IsPrefix(Segments(cwd, base), Segments(cwd, Resolve(cwd, JoinText(base, target))))
    ensures SafeJoin(cwd, base, target).Ok? ==>
              SafeJoin(cwd, base, target).value == Resolve(cwd, JoinText(base, target))
  {
    var segs := Segments(cwd, JoinText(base, target));
    SegmentsClean(cwd, JoinText(base, target));
    SegmentsOfRender(cwd, segs);
  }

  /** A target none of whose pieces is `..` is accepted under a non-empty base, absolute or not. */
  lemma SafeJoinAcceptsDescent(cwd: seq<string>, base: string, target: string)
    requires base != ""
    requires forall k :: 0 <= k < |Split(target, '/')| ==> Split(target, '/')[k] != ".."
    ensures SafeJoin(cwd, base, target).Ok?
  {
    var start := StartDir(cwd, base);
    var baseSegs := Segments(cwd, base);
    if target == "" {
    } else {
      var joined := base + "/" + target;
      assert joined == base + ['/'] + target;
      assert StartDir(cwd, joined) == start;
      SplitAppend(base, '/', target);
      WalkAppend(start, Split(base, '/'), Split(target, '/'));
      WalkDescends(baseSegs, Split(target, '/'));
    }
  }

  /** Whatever the corrected guard accepts, the guard as written accepts too, with the same path. */
  lemma SafeJoinNarrowsAsWritten(cwd: seq<string>, base: string, target: string)
    requires SafeJoin(cwd, base, target).Ok?
    ensures SafeJoinAsWritten(cwd, base, target) == SafeJoin(cwd, base, target)
  {
    RenderPrefix(Segments(cwd, base), Segments(cwd, JoinText(base, target)));
  }

  /** The guard as written lets a target escape into a sibling directory whose name starts
      with the base's name: `/ws` joined with `../ws2/f` is `/ws2/f`, outside `/ws`. */
  lemma SiblingEscapesAsWritten(cwd: seq<string>)
    ensures SafeJoinAsWritten(cwd, "/ws", "../ws2/f") == Ok("/ws2/f")
    ensures !IsPrefix(Segments(cwd, "/ws"), Segments(cwd, "/ws2/f"))
  {
    SiblingSegments(cwd);
    SiblingTexts();
  }

  /** The corrected guard refuses the same target. */
  lemma SiblingRejected(cwd: seq<string>)
    ensures SafeJoin(cwd, "/ws", "../ws2/f") == Err(InvalidPath)
  {
    SiblingSegments(cwd);
  }

  lemma SiblingTexts()
    ensures Render(["ws"]) == "/ws" && Render(["ws2", "f"]) == "/ws2/f"
    ensures StartsWith("/ws2/f", "/ws")
  {
    JoinCons("ws2", ["f"], "/");
    assert "/ws2/f"[..3] == "/ws";
  }

  lemma SiblingSegments(cwd: seq<string>)
    ensures Segments(cwd, "/ws") == ["ws"]
    ensures Segments(cwd, JoinText("/ws", "../ws2/f")) == ["ws2", "f"]
    ensures Segments(cwd, "/ws2/f") == ["ws2", "f"]
  {
    BaseSegments(cwd);
    JoinedSegments(cwd);
    SiblingPathSegments(cwd);
  }

  lemma BaseSegments(cwd: seq<string>)
    ensures Segments(cwd, "/ws") == ["ws"]
  {
    BasePieces();
    SplitOf("/ws", ["", "ws"]);
    BaseWalk();
  }

  lemma BasePieces()
    ensures "/ws" == Join(["", "ws"], "/")
  {
    JoinCons("", ["ws"], "/");
  }

  lemma BaseWalk()
    ensures Walk([], ["", "ws"]) == ["ws"]
  {
    assert Walk([], ["", "ws"]) == Walk([], ["ws"]);
  }

  lemma JoinedSegments(cwd: seq<string>)
    ensures Segments(cwd, JoinText("/ws", "../ws2/f")) == ["ws2", "f"]
  {
    JoinedPieces();
    SplitOf("/ws/../ws2/f", ["", "ws", "..", "ws2", "f"]);
    JoinedWalk();
  }

  lemma JoinedPieces()
    ensures JoinText("/ws", "../ws2/f") == "/ws/../ws2/f"
    ensures "/ws/../ws2/f" == Join(["", "ws", "..", "ws2", "f"], "/")
  {
    var tail := Join(["ws2", "f"], "/");
    JoinCons("ws2", ["f"], "/");
    assert tail == "ws2/f";
    JoinCons("..", ["ws2", "f"], "/");
    JoinCons("ws", ["..", "ws2", "f"], "/");
    JoinCons("", ["ws", "..", "ws2", "f"], "/");
  }

  lemma JoinedWalk()
    ensures Walk([], ["", "ws", "..", "ws2", "f"]) == ["ws2", "f"]
  {
    var w3 := Step(Step(Step([], ""), "ws"), "..");
    assert w3 == [];
    assert Walk([], ["", "ws", "..", "ws2", "f"]) == Walk(w3, ["ws2", "f"]);
  }

  lemma SiblingPathSegments(cwd: seq<string>)
    ensures Segments(cwd, "/ws2/f") == ["ws2", "f"]
  {
    SiblingPieces();
    SplitOf("/ws2/f", ["", "ws2", "f"]);
    SiblingWalk();
  }

  lemma SiblingPieces()
    ensures "/ws2/f" == Join(["", "ws2", "f"], "/")
  {
    JoinCons("ws2", ["f"], "/");
    JoinCons("", ["ws2", "f"], "/");
  }

  lemma SiblingWalk()
    ensures Walk([], ["", "ws2", "f"]) == ["ws2", "f"]
  {
    assert Walk([], ["", "ws2", "f"]) == Walk([], ["ws2", "f"]);
  }

  lemma SplitOf(s: string, pieces: seq<string>)
    requires |pieces| >= 1 && forall k :: 0 <= k < |pieces| ==> '/' !in pieces[k]
    requires s == Join(pieces, "/")
    ensures Split(s, '/') == pieces
  {
    JoinSplit(pieces, '/');
  }
}
