/** The two pieces of Foundation behaviour the core relies on, given definitions of
    their own: trimming `.whitespacesAndNewlines` from a string, and the path of a
    standardized file URL. */
module Foundation {

  // ---------------------------------------------------------------------------
  // String.trimmingCharacters(in: .whitespacesAndNewlines)
  // ---------------------------------------------------------------------------

  /** Membership in `CharacterSet.whitespacesAndNewlines`: the Unicode separators
      (general category Z), the tab, the line and paragraph controls U+000A to
      U+000D, and NEXT LINE (U+0085). Within ASCII that is exactly the space and
      the controls from tab to carriage return. */
  predicate IsWhitespaceOrNewline(c: char): (b: bool)
    ensures c < '\U{0080}' ==> (b <==> c == ' ' || ('\t' <= c <= '\r'))
    ensures b ==> c == ' ' || ('\t' <= c <= '\r') || '\U{0085}' <= c <= '\U{3000}'
  {
    || c == ' ' || c == '\t'
    || ('\n' <= c <= '\r')
    || c == '\U{0085}' || c == '\U{00A0}' || c == '\U{1680}'
    || ('\U{2000}' <= c <= '\U{200A}')
    || c == '\U{2028}' || c == '\U{2029}' || c == '\U{202F}' || c == '\U{205F}'
    || c == '\U{3000}'
  }

  predicate IsBlank(s: string) {
    forall i :: 0 <= i < |s| ==> IsWhitespaceOrNewline(s[i])
  }

  /** `s` without its leading whitespace: a suffix of `s` that does not start with
      whitespace, and everything cut off is whitespace. */
  function TrimLeading(s: string): (r: string)
    ensures |r| <= |s| && r == s[|s| - |r|..]
    ensures r != [] ==> !IsWhitespaceOrNewline(r[0])
    ensures forall i :: 0 <= i < |s| - |r| ==> IsWhitespaceOrNewline(s[i])
  {
    if s != [] && IsWhitespaceOrNewline(s[0]) then TrimLeading(s[1..]) else s
  }

  /** `s` without its trailing whitespace: a prefix of `s` that does not end with
      whitespace, and everything cut off is whitespace. */
  function TrimTrailing(s: string): (r: string)
    ensures |r| <= |s| && r == s[..|r|]
    ensures r != [] ==> !IsWhitespaceOrNewline(r[|r| - 1])
    ensures forall i :: |r| <= i < |s| ==> IsWhitespaceOrNewline(s[i])
  {
    if s != [] && IsWhitespaceOrNewline(s[|s| - 1]) then TrimTrailing(s[..|s| - 1]) else s
  }

  /** A piece `r` of `s` starting at `k`, with only whitespace before and after
      it, has a blank prefix and a blank suffix around it. */
  lemma BlankAroundPiece(s: string, k: nat, r: string)
    requires k + |r| <= |s| && s[k..k + |r|] == r
    requires forall i :: 0 <= i < k ==> IsWhitespaceOrNewline(s[i])
    requires forall i :: k + |r| <= i < |s| ==> IsWhitespaceOrNewline(s[i])
    ensures IsBlank(s[..k]) && IsBlank(s[k + |r|..])
  {
    var lead, back := s[..k], s[k + |r|..];
    forall i | 0 <= i < |lead| ensures IsWhitespaceOrNewline(lead[i]) {
      assert lead[i] == s[i];
    }
    forall i | 0 <= i < |back| ensures IsWhitespaceOrNewline(back[i]) {
      assert back[i] == s[k + |r| + i];
    }
  }

  /** Cutting the whitespace off the front of `s` (leaving `front`) and then off
      the back of `front` (leaving `r`) leaves a piece of `s` with only
      whitespace around it, empty exactly when `s` is all whitespace. */
  lemma TrimmedPiece(s: string, front: string, r: string)
    requires |front| <= |s| && front == s[|s| - |front|..]
    requires front != [] ==> !IsWhitespaceOrNewline(front[0])
    requires forall i :: 0 <= i < |s| - |front| ==> IsWhitespaceOrNewline(s[i])
    requires |r| <= |front| && r == front[..|r|]
    requires r != [] ==> !IsWhitespaceOrNewline(r[|r| - 1])
    requires forall i :: |r| <= i < |front| ==> IsWhitespaceOrNewline(front[i])
    ensures exists i, j :: 0 <= i <= j <= |s| && s[i..j] == r && IsBlank(s[..i]) && IsBlank(s[j..])
    ensures r != [] ==> !IsWhitespaceOrNewline(r[0])
    ensures r == [] <==> IsBlank(s)
  {
    var k := |s| - |front|;
    assert s[k..k + |r|] == r by {
      forall i | 0 <= i < |r| ensures s[k..k + |r|][i] == r[i] {
        assert r[i] == front[i] == s[k + i];
      }
    }
    assert forall i :: k + |r| <= i < |s| ==> IsWhitespaceOrNewline(s[i]) by {
      forall i | k + |r| <= i < |s| ensures IsWhitespaceOrNewline(s[i]) {
        assert s[i] == front[i - k];
      }
    }
    BlankAroundPiece(s, k, r);
    assert r == [] ==> front == [] by {
      if front != [] {
        assert !IsWhitespaceOrNewline(front[0]);
      }
    }
    assert r != [] ==> r[0] == front[0];
  }

  /** `s.trimmingCharacters(in: .whitespacesAndNewlines)`: the part of `s` between
      its leading and its trailing whitespace. It is a contiguous piece of `s`
      with only whitespace cut off on either side, begins and ends with a
      non-whitespace character, and is empty exactly when `s` is all whitespace. */
  function Trim(s: string): (r: string)
    ensures exists i, j :: 0 <= i <= j <= |s| && s[i..j] == r && IsBlank(s[..i]) && IsBlank(s[j..])
    ensures r != [] ==> !IsWhitespaceOrNewline(r[0]) && !IsWhitespaceOrNewline(r[|r| - 1])
    ensures r == [] <==> IsBlank(s)
  {
    var front := TrimLeading(s);
    var r := TrimTrailing(front);
    TrimmedPiece(s, front, r);
    r
  }

  /** Trimming is idempotent: a trimmed string has nothing left to trim. */
  lemma TrimIdempotent(s: string)
    ensures Trim(Trim(s)) == Trim(s)
  {
    var t := Trim(s);
    if t != [] {
      assert TrimLeading(t) == t;
      assert TrimTrailing(t) == t;
    }
  }

  /** A string with no whitespace at either end is its own trimming. */
  lemma TrimOfTrimmed(s: string)
    requires s != [] ==> !IsWhitespaceOrNewline(s[0]) && !IsWhitespaceOrNewline(s[|s| - 1])
    ensures Trim(s) == s
  {
    if s != [] {
      assert TrimLeading(s) == s;
      assert TrimTrailing(s) == s;
    }
  }

  // ---------------------------------------------------------------------------
  // URL.standardizedFileURL.path(percentEncoded: false)
  // ---------------------------------------------------------------------------

  /** An absolute file URL, held as the components of its path: `/tmp/repo` is
      `FileURL(["tmp", "repo"])`; empty components stand for doubled slashes. */
  datatype FileURL = FileURL(pathComponents: seq<string>)

  /** A component that standardization removes or resolves. */
  predicate IsDotOrEmpty(c: string) {
    c == "" || c == "." || c == ".."
  }

  /** A component list with nothing left to standardize. */
  predicate IsStandard(cs: seq<string>) {
    forall i :: 0 <= i < |cs| ==> !IsDotOrEmpty(cs[i])
  }

  /** Standardizes `rest` on top of the already standardized `done`: empty and `.`
      components are dropped, `..` removes the component before it (and is
      dropped at the root). */
  function StandardizeFrom(done: seq<string>, rest: seq<string>): seq<string>
    decreases |rest|
  {
    if rest == [] then done
    else if rest[0] == "" || rest[0] == "." then StandardizeFrom(done, rest[1..])
    else if rest[0] == ".." then StandardizeFrom(if done == [] then [] else done[..|done| - 1], rest[1..])
    else StandardizeFrom(done + [rest[0]], rest[1..])
  }

  function Standardize(cs: seq<string>): seq<string> {
    StandardizeFrom([], cs)
  }

  /** Standardizing only ever produces standard component lists. */
  lemma {:induction false} StandardizeFromIsStandard(done: seq<string>, rest: seq<string>)
    requires IsStandard(done)
    ensures IsStandard(StandardizeFrom(done, rest))
    decreases |rest|
  {
    if rest != [] {
      if rest[0] == "" || rest[0] == "." {
        StandardizeFromIsStandard(done, rest[1..]);
      } else if rest[0] == ".." {
        StandardizeFromIsStandard(if done == [] then [] else done[..|done| - 1], rest[1..]);
      } else {
        StandardizeFromIsStandard(done + [rest[0]], rest[1..]);
      }
    }
  }

  /** Standard components pass through unchanged. */
  lemma {:induction false} StandardizeFromStandard(done: seq<string>, rest: seq<string>)
    requires IsStandard(rest)
    ensures StandardizeFrom(done, rest) == done + rest
    decreases |rest|
  {
    if rest != [] {
      assert !IsDotOrEmpty(rest[0]);
      StandardizeFromStandard(done + [rest[0]], rest[1..]);
      assert done + [rest[0]] + rest[1..] == done + rest;
    }
  }

  /** Standardizing is idempotent, and its result has no `.`, `..` or empty
      component. */
  lemma StandardizeIdempotent(cs: seq<string>)
    ensures IsStandard(Standardize(cs))
    ensures Standardize(Standardize(cs)) == Standardize(cs)
  {
    StandardizeFromIsStandard([], cs);
    StandardizeFromStandard([], Standardize(cs));
  }

  /** The path of a component list, each component preceded by a slash. */
  function JoinPath(cs: seq<string>): string {
    if cs == [] then "" else "/" + cs[0] + JoinPath(cs[1..])
  }

  /** A path component holds no slash: the slashes are the separators. */
  predicate IsSlashFree(cs: seq<string>) {
    forall i, k :: 0 <= i < |cs| && 0 <= k < |cs[i]| ==> cs[i][k] != '/'
  }

  /** Standardizing keeps only components it was given. */
  lemma {:induction false} StandardizeFromKeepsSlashFree(done: seq<string>, rest: seq<string>)
    requires IsSlashFree(done) && IsSlashFree(rest)
    ensures IsSlashFree(StandardizeFrom(done, rest))
    decreases |rest|
  {
    if rest != [] {
      assert IsSlashFree(rest[1..]) by {
        forall i, k | 0 <= i < |rest[1..]| && 0 <= k < |rest[1..][i]| ensures rest[1..][i][k] != '/' {
          assert rest[1..][i] == rest[i + 1];
        }
      }
      if rest[0] == "" || rest[0] == "." {
        StandardizeFromKeepsSlashFree(done, rest[1..]);
      } else if rest[0] == ".." {
        StandardizeFromKeepsSlashFree(if done == [] then [] else done[..|done| - 1], rest[1..]);
      } else {
        var next := done + [rest[0]];
        assert IsSlashFree(next) by {
          forall i, k | 0 <= i < |next| && 0 <= k < |next[i]| ensures next[i][k] != '/' {
            if i < |done| { assert next[i] == done[i]; } else { assert next[i] == rest[0]; }
          }
        }
        StandardizeFromKeepsSlashFree(next, rest[1..]);
      }
    }
  }

  /** A non-empty joined path starts with its separator. */
  lemma JoinPathShape(cs: seq<string>)
    ensures cs == [] <==> JoinPath(cs) == ""
    ensures cs != [] ==> JoinPath(cs)[0] == '/' && |JoinPath(cs)| == 1 + |cs[0]| + |JoinPath(cs[1..])|
  {
  }

  /** In a joined path, the first component runs from index 1 up to the next
      slash or the end. */
  lemma JoinPathFirstComponent(cs: seq<string>)
    requires IsSlashFree(cs) && cs != []
    ensures |JoinPath(cs)| >= 1 + |cs[0]|
    ensures forall k :: 1 <= k <= |cs[0]| ==> JoinPath(cs)[k] != '/'
    ensures |JoinPath(cs)| > 1 + |cs[0]| ==> JoinPath(cs)[1 + |cs[0]|] == '/'
  {
    JoinPathShape(cs);
    JoinPathShape(cs[1..]);
    var p := JoinPath(cs);
    forall k | 1 <= k <= |cs[0]| ensures p[k] != '/' {
      assert p[k] == cs[0][k - 1];
    }
  }

  /** Joining slash-free components loses nothing: different component lists
      give different paths. */
  lemma {:induction false} JoinPathInjective(a: seq<string>, b: seq<string>)
    requires IsSlashFree(a) && IsSlashFree(b)
    requires JoinPath(a) == JoinPath(b)
    ensures a == b
    decreases |a|
  {
    JoinPathShape(a);
    JoinPathShape(b);
    if a != [] && b != [] {
      var p := JoinPath(a);
      var x, y := a[0], b[0];
      var restA, restB := JoinPath(a[1..]), JoinPath(b[1..]);
      assert p == "/" + x + restA && p == "/" + y + restB;
      JoinPathShape(a[1..]);
      JoinPathShape(b[1..]);
      JoinPathFirstComponent(a);
      JoinPathFirstComponent(b);
      assert |p| > 1 + |x| ==> p[1 + |x|] == '/';
      assert |p| > 1 + |y| ==> p[1 + |y|] == '/';
      assert |x| == |y|;
      assert x == p[1..1 + |x|] == y;
      assert restA == p[1 + |x|..] == restB;
      assert IsSlashFree(a[1..]) by {
        forall i, k | 0 <= i < |a[1..]| && 0 <= k < |a[1..][i]| ensures a[1..][i][k] != '/' {
          assert a[1..][i] == a[i + 1];
        }
      }
      assert IsSlashFree(b[1..]) by {
        forall i, k | 0 <= i < |b[1..]| && 0 <= k < |b[1..][i]| ensures b[1..][i][k] != '/' {
          assert b[1..][i] == b[i + 1];
        }
      }
      JoinPathInjective(a[1..], b[1..]);
      assert a == [x] + a[1..] && b == [y] + b[1..];
    }
  }

  /** `url.standardizedFileURL.path(percentEncoded: false)`; the root is `/`. */
  function StandardizedPath(url: FileURL): (p: string)
    ensures p != [] && p[0] == '/'
  {
    var cs := Standardize(url.pathComponents);
    if cs == [] then "/" else JoinPath(cs)
  }
}
