/**
 * The two string operations the dispatcher applies to a request path: `starts_with`
 * to pick a mount, and `trim_left_matches` with the empty-to-root fix-up to rewrite
 * the path before it is handed to the mounted router.
 */
module Paths {

  /** `s.starts_with(p)`: `p` is a prefix of `s`; the empty string is a prefix of every string. */
  predicate StartsWith(s: string, p: string)
  {
    |p| <= |s| && s[..|p|] == p
  }

  /** `r` is a suffix of `s`. */
  predicate EndsWith(s: string, r: string)
  {
    |r| <= |s| && s[|s| - |r|..] == r
  }

  /** `n` copies of `p`, one after the other. */
  function Repeat(p: string, n: nat): string
  {
    if n == 0 then [] else p + Repeat(p, n - 1)
  }

  /**
   * `s.trim_left_matches(p)`: removes every leading copy of `p`, however many there are.
   * With an empty pattern nothing is removed.
   */
  function TrimLeftMatches(s: string, p: string): (r: string)
    ensures EndsWith(s, r)
    ensures p == [] ==> r == s
    ensures p != [] && StartsWith(s, p) ==> |r| <= |s| - |p|
    ensures p != [] ==> !StartsWith(r, p)
    decreases |s|
  {
    if p != [] && StartsWith(s, p) then TrimLeftMatches(s[|p|..], p) else s
  }

  /** What remains after trimming is `s` with some number of copies of `p` taken off its front. */
  lemma {:induction false} TrimLeftMatchesRemovesCopies(s: string, p: string) returns (n: nat)
    ensures s == Repeat(p, n) + TrimLeftMatches(s, p)
    ensures p == [] ==> n == 0
    decreases |s|
  {
    if p != [] && StartsWith(s, p) {
      var m := TrimLeftMatchesRemovesCopies(s[|p|..], p);
      n := m + 1;
      PrependCopy(s, p, m, TrimLeftMatches(s[|p|..], p));
    } else {
      n := 0;
      assert Repeat(p, 0) + s == s;
    }
  }

  /** One more copy of `p` in front: if `s` starts with `p` and goes on with m copies and `t`, it is m + 1 copies and `t`. */
  lemma PrependCopy(s: string, p: string, m: nat, t: string)
    requires StartsWith(s, p) && s[|p|..] == Repeat(p, m) + t
    ensures s == Repeat(p, m + 1) + t
  {
    assert s == s[..|p|] + s[|p|..];
  }

  /**
   * The reference characterisation of trimming: for a non-empty pattern, taking any number
   * of copies of `p` off the front of `Repeat(p, n) + t`, where `t` does not begin with `p`,
   * leaves exactly `t`.
   */
  lemma {:induction false} TrimLeftMatchesOfRepeat(p: string, n: nat, t: string)
    requires p != []
    requires !StartsWith(t, p)
    ensures TrimLeftMatches(Repeat(p, n) + t, p) == t
  {
    if n > 0 {
      var s := Repeat(p, n) + t;
      assert s == p + (Repeat(p, n - 1) + t);
      assert s[..|p|] == p;
      assert s[|p|..] == Repeat(p, n - 1) + t;
      TrimLeftMatchesOfRepeat(p, n - 1, t);
    } else {
      assert Repeat(p, n) + t == t;
    }
  }

  /**
   * The path handed to a mounted router: `path` with all leading copies of the mount
   * `prefix` removed, and `"/"` in place of an empty remainder.
   */
  function RewrittenPath(path: string, prefix: string): (r: string)
    ensures r != []
    ensures r == "/" || EndsWith(path, r)
    ensures prefix != [] && StartsWith(path, prefix) && r != "/" ==> |r| < |path|
    ensures prefix != [] && r != "/" ==> !StartsWith(r, prefix)
  {
    var rest := TrimLeftMatches(path, prefix);
    if rest == "" then "/" else rest
  }

  /** Mounting at the empty key forwards a non-empty path unchanged. */
  lemma EmptyPrefixKeepsPath(path: string)
    requires path != []
    ensures StartsWith(path, "")
    ensures RewrittenPath(path, "") == path
  {
  }

  /** A request for exactly the mount point reaches the mounted router as its root. */
  lemma MountPointBecomesRoot(prefix: string, n: nat)
    ensures RewrittenPath(Repeat(prefix, n), prefix) == "/"
  {
    if prefix != [] {
      TrimLeftMatchesOfRepeat(prefix, n, "");
      assert Repeat(prefix, n) + "" == Repeat(prefix, n);
    } else {
      RepeatEmpty(n);
    }
  }

  /** Copies of the empty string are empty. */
  lemma {:induction false} RepeatEmpty(n: nat)
    ensures Repeat([], n) == []
  {
    if n > 0 {
      RepeatEmpty(n - 1);
    }
  }

  /** A path under a mount reaches the mounted router with every leading copy of the mount removed. */
  lemma {:induction false} RewriteStripsEveryCopy(prefix: string, n: nat, rest: string)
    requires prefix != [] && rest != []
    requires !StartsWith(rest, prefix)
    ensures RewrittenPath(Repeat(prefix, n) + rest, prefix) == rest
  {
    TrimLeftMatchesOfRepeat(prefix, n, rest);
  }

  /**
   * Concrete rewrites: a doubled prefix is removed twice, and a prefix that ends inside a
   * segment leaves a path without its leading slash.
   */
  lemma RewriteExamples()
    ensures RewrittenPath("/api/api/users", "/api") == "/users"
    ensures RewrittenPath("/apiary", "/api") == "ary"
    ensures RewrittenPath("/abc", "/a") == "bc"
    ensures RewrittenPath("/abc", "/ab") == "c"
  {
    assert Repeat("/api", 1) == "/api";
    assert "/users"[1] != "/api"[1];
    assert Repeat("/api", 2) + "/users" == "/api/api/users";
    RewriteStripsEveryCopy("/api", 2, "/users");
    assert Repeat("/api", 1) + "ary" == "/apiary";
    RewriteStripsEveryCopy("/api", 1, "ary");
    assert Repeat("/a", 1) + "bc" == "/abc";
    RewriteStripsEveryCopy("/a", 1, "bc");
    assert Repeat("/ab", 1) + "c" == "/abc";
    RewriteStripsEveryCopy("/ab", 1, "c");
  }
}
