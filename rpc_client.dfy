/**
 * The push URL of an RPC client (api/client/client.go, `getPushURL`): the
 * RPC address with a websocket scheme turned into its HTTP counterpart and
 * the path moved one level up to `streams/v0/push`.
 */
module RpcClient {
  import opened Base
  import opened Text

  /** A parsed URL, reduced to the parts `getPushURL` reads or keeps. */
  datatype Url = Url(scheme: string, host: string, path: string, rawQuery: string)

  /** The scheme switch: `ws` → `http`, `wss` → `https`, others kept. */
  function PushScheme(scheme: string): (r: string)
    ensures scheme == "ws" ==> r == "http"
    ensures scheme == "wss" ==> r == "https"
    ensures scheme != "ws" && scheme != "wss" ==> r == scheme
  {
    if scheme == "ws" then "http" else if scheme == "wss" then "https" else scheme
  }

  // ---------------------------------------------------------------------
  // path.Clean and path.Join

  /** One element of the path processed onto `stack`: empty and `.`
      elements vanish; `..` removes the element before it, is dropped at
      the root of a rooted path, and is kept otherwise. */
  function ResolveStep(stack: seq<string>, s: string, rooted: bool): seq<string>
  {
    if s == "" || s == "." then stack
    else if s == ".." then
      if |stack| > 0 && stack[|stack| - 1] != ".." then stack[..|stack| - 1]
      else if rooted then stack
      else stack + [".."]
    else stack + [s]
  }

  /** The lexical processing of `path.Clean`, element by element. */
  function Resolve(stack: seq<string>, segs: seq<string>, rooted: bool): seq<string>
    decreases |segs|
  {
    if |segs| == 0 then stack else Resolve(ResolveStep(stack, segs[0], rooted), segs[1..], rooted)
  }

  /** `path.Clean`. */
  function Clean(p: string): string
  {
    var rooted := |p| > 0 && p[0] == '/';
    var body := Join(Resolve([], Split(p, '/'), rooted), "/");
    if rooted then "/" + body else if body == "" then "." else body
  }

  /** The non-empty elements of a two-element `path.Join`, joined by `/`. */
  function JoinElements(a: string, b: string): string
  {
    if a == "" then b else if b == "" then a else a + "/" + b
  }

  /** `path.Join(a, b)`: the non-empty elements joined by `/`, cleaned; empty
      when both are. */
  function JoinPath(a: string, b: string): string
  {
    if a == "" && b == "" then "" else Clean(JoinElements(a, b))
  }

  /** The relative path appended to the RPC path. */
  const PushSuffix := "../streams/v0/push"

  /** `getPushURL`, with the result of `url.Parse` given (its parser and
      `URL.String` are not part of this model): a parse error is returned;
      otherwise the scheme is switched and the path joined with the suffix,
      host and query kept. */
  function GetPushUrl(parsed: Result<Url, string>): (r: Result<Url, string>)
    ensures parsed.Err? ==> r == Err(parsed.error)
    ensures parsed.Ok? ==> r.Ok? && r.value.host == parsed.value.host && r.value.rawQuery == parsed.value.rawQuery
    ensures parsed.Ok? ==> r.value.scheme == PushScheme(parsed.value.scheme)
  {
    match parsed
    case Err(e) => Err(e)
    case Ok(u) => Ok(u.(scheme := PushScheme(u.scheme), path := JoinPath(u.path, PushSuffix)))
  }

  // ---------------------------------------------------------------------
  // Properties

  /** An ordinary path element: not empty, `.` or `..`, and without `/`. */
  predicate IsPlain(s: string)
  {
    s != "" && s != "." && s != ".." && '/' !in s
  }

  lemma {:induction false} ResolvePlain(stack: seq<string>, segs: seq<string>, rooted: bool)
    requires forall i | 0 <= i < |segs| :: IsPlain(segs[i])
    ensures Resolve(stack, segs, rooted) == stack + segs
    decreases |segs|
  {
    if |segs| > 0 {
      ResolvePlain(stack + [segs[0]], segs[1..], rooted);
      assert stack + [segs[0]] + segs[1..] == stack + segs;
    }
  }

  lemma {:induction false} ResolveAppend(stack: seq<string>, a: seq<string>, b: seq<string>, rooted: bool)
    ensures Resolve(stack, a + b, rooted) == Resolve(Resolve(stack, a, rooted), b, rooted)
    decreases |a|
  {
    if |a| > 0 {
      assert (a + b)[0] == a[0] && (a + b)[1..] == a[1..] + b;
      ResolveAppend(ResolveStep(stack, a[0], rooted), a[1..], b, rooted);
    } else {
      assert a + b == b;
    }
  }

  lemma {:induction false} JoinAppend(a: seq<string>, b: seq<string>, sep: string)
    requires |a| >= 1 && |b| >= 1
    ensures Join(a + b, sep) == Join(a, sep) + sep + Join(b, sep)
    decreases |a|
  {
    if |a| == 1 {
      assert (a + b)[0] == a[0] && (a + b)[1..] == b;
    } else {
      assert (a + b)[0] == a[0] && (a + b)[1..] == a[1..] + b;
      JoinAppend(a[1..], b, sep);
    }
  }


  /** The elements of the suffix: `..`, then the target. */
  const PushTarget: seq<string> := ["streams", "v0", "push"]
  const PushTail: seq<string> := [".."] + PushTarget

  lemma PushTailJoin()
    ensures Join(PushTail, "/") == PushSuffix
  {
    assert PushTail[1..] == PushTarget;
    assert PushTail[1..][1..] == ["v0", "push"];
    assert PushTail[1..][1..][1..] == ["push"];
  }

  /** A rooted join of slash-free elements splits back into the root and
      those elements. */
  lemma SplitRootedJoin(segs: seq<string>, tail: seq<string>, suffix: string)
    requires |segs| >= 1 && |tail| >= 1 && Join(tail, "/") == suffix
    requires forall i | 0 <= i < |segs| :: '/' !in segs[i]
    requires forall i | 0 <= i < |tail| :: '/' !in tail[i]
    ensures Split("/" + Join(segs, "/") + "/" + suffix, '/') == [""] + (segs + tail)
  {
    JoinAppend(segs, tail, "/");
    var whole := "/" + Join(segs, "/") + "/" + Join(tail, "/");
    assert whole == "/" + Join(segs + tail, "/");
    assert whole[0] == '/' && whole[1..] == Join(segs + tail, "/");
    forall i | 0 <= i < |segs + tail| ensures '/' !in (segs + tail)[i] {
      if i < |segs| {
        assert (segs + tail)[i] == segs[i];
      } else {
        assert (segs + tail)[i] == tail[i - |segs|];
      }
    }
    SplitJoin(segs + tail, '/');
  }

  lemma PushTargetIsPlain()
    ensures forall i | 0 <= i < |PushTarget| :: IsPlain(PushTarget[i])
  {
    assert IsPlain("streams") && IsPlain("v0") && IsPlain("push");
    forall i | 0 <= i < |PushTarget| ensures IsPlain(PushTarget[i]) {
      if i == 0 {
        assert PushTarget[i] == "streams";
      } else if i == 1 {
        assert PushTarget[i] == "v0";
      } else {
        assert PushTarget[i] == "push";
      }
    }
  }

  /** The root's empty element vanishes. */
  lemma ResolveRooted(segs: seq<string>)
    requires forall i | 0 <= i < |segs| :: IsPlain(segs[i])
    ensures Resolve([], [""] + segs, true) == segs
  {
    var all := [""] + segs;
    assert all[0] == "" && all[1..] == segs;
    ResolvePlain([], segs, true);
  }

  /** A `..` after a plain element removes it. */
  lemma ResolveUp(stack: seq<string>, rest: seq<string>)
    requires |stack| >= 1 && IsPlain(stack[|stack| - 1])
    requires forall i | 0 <= i < |rest| :: IsPlain(rest[i])
    ensures Resolve(stack, [".."] + rest, true) == stack[..|stack| - 1] + rest
  {
    var up := [".."] + rest;
    assert up[0] == ".." && up[1..] == rest;
    ResolvePlain(stack[..|stack| - 1], rest, true);
  }

  /** Resolving the root, plain elements, `..` and more plain elements drops
      the last of the first group. */
  lemma ResolveOneUp(segs: seq<string>, rest: seq<string>)
    requires |segs| >= 1
    requires forall i | 0 <= i < |segs| :: IsPlain(segs[i])
    requires forall i | 0 <= i < |rest| :: IsPlain(rest[i])
    ensures Resolve([], [""] + (segs + ([".."] + rest)), true) == segs[..|segs| - 1] + rest
  {
    var up := [".."] + rest;
    var root := [""] + segs;
    assert [""] + (segs + up) == root + up;
    ResolveAppend([], root, up, true);
    assert Resolve([], root + up, true) == Resolve(Resolve([], root, true), up, true);
    ResolveRooted(segs);
    assert Resolve([], root, true) == segs;
    ResolveUp(segs, rest);
    assert Resolve(segs, up, true) == segs[..|segs| - 1] + rest;
  }

  /** Cleaning a rooted path whose elements resolve to `kept`. */
  lemma CleanOfRooted(p: string, elems: seq<string>, kept: seq<string>)
    requires |p| > 0 && p[0] == '/'
    requires Split(p, '/') == elems && Resolve([], elems, true) == kept
    ensures Clean(p) == "/" + Join(kept, "/")
  {
  }

  /** `suffix` spells `../target` with `target` made of plain elements. */
  predicate UpSuffix(target: seq<string>, suffix: string)
  {
    && |target| >= 1
    && (forall i | 0 <= i < |target| :: IsPlain(target[i]))
    && suffix == Join([".."] + target, "/")
  }

  /** Joining `suffix` = `../target` onto a rooted path of plain elements
      replaces its last element by `target`. */
  lemma JoinUpPath(segs: seq<string>, target: seq<string>, suffix: string)
    requires |segs| >= 1
    requires forall i | 0 <= i < |segs| :: IsPlain(segs[i])
    requires UpSuffix(target, suffix)
    ensures JoinPath("/" + Join(segs, "/"), suffix) == "/" + Join(segs[..|segs| - 1] + target, "/")
  {
    var tail := [".."] + target;
    var whole := "/" + Join(segs, "/") + "/" + suffix;
    var elems := [""] + (segs + tail);
    var kept := segs[..|segs| - 1] + target;
    assert Split(whole, '/') == elems by {
      forall i | 0 <= i < |tail| ensures '/' !in tail[i] {
        if i > 0 {
          assert tail[i] == target[i - 1];
        }
      }
      SplitRootedJoin(segs, tail, suffix);
    }
    assert Resolve([], elems, true) == kept by {
      ResolveOneUp(segs, target);
    }
    CleanOfRooted(whole, elems, kept);
    assert suffix != "" by {
      assert |Join(tail, "/")| >= 2;
    }
    assert JoinElements("/" + Join(segs, "/"), suffix) == whole;
  }

  /** The push suffix is `..` followed by `streams/v0/push`. */
  lemma PushSuffixIsUp()
    ensures UpSuffix(PushTarget, PushSuffix)
  {
    PushTailJoin();
    PushTargetIsPlain();
  }

  /** A rooted path of plain elements ends up with its last element
      replaced by `streams/v0/push`: `/rpc/v0` becomes
      `/rpc/streams/v0/push`. */
  lemma PushPathOfPlainPath(segs: seq<string>)
    requires |segs| >= 1
    requires forall i | 0 <= i < |segs| :: IsPlain(segs[i])
    ensures JoinPath("/" + Join(segs, "/"), PushSuffix) == "/" + Join(segs[..|segs| - 1] + PushTarget, "/")
  {
    PushSuffixIsUp();
    JoinUpPath(segs, PushTarget, PushSuffix);
  }

  /** A `ws` address on a rooted path of plain elements pushes over `http`
      on the same host and query, the last path element replaced by
      `streams/v0/push`. */
  lemma PushUrlOfPlainPath(u: Url, segs: seq<string>)
    requires |segs| >= 1
    requires forall i | 0 <= i < |segs| :: IsPlain(segs[i])
    requires u.path == "/" + Join(segs, "/")
    ensures GetPushUrl(Ok(u)) == Ok(Url(PushScheme(u.scheme), u.host, "/" + Join(segs[..|segs| - 1] + PushTarget, "/"), u.rawQuery))
  {
    PushPathOfPlainPath(segs);
  }
}
