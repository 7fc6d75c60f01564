/**
 * The POSIX `path` operations the scanner uses: `join`, `basename`,
 * `dirname` and `extname`, on paths whose separator is '/'.
 */
module Paths {
  import opened Strings

  /**
   * The two parts with one '/' between them. This is what `path.join(dir, name)`
   * gives when both parts are already normal (no "." or ".." segment, no
   * repeated '/'); the normalization itself is not modelled.
   */
  function JoinPath(dir: string, name: string): (p: string)
    ensures EndsWith(p, name)
    ensures dir != "" && dir[|dir| - 1] != '/' ==> p == dir + "/" + name
  {
    if dir == "" then name
    else if dir[|dir| - 1] == '/' then dir + name
    else dir + "/" + name
  }

  /** `path.basename(p)`: what follows the last '/'. */
  function Basename(p: string): (b: string)
    ensures EndsWith(p, b)
    ensures '/' !in b
    ensures '/' !in p ==> b == p
  {
    var i := LastIndexOf(p, '/');
    var b := p[i + 1..];
    assert forall k :: 0 <= k < |b| ==> b[k] == p[i + 1 + k];
    b
  }

  /** `path.dirname(p)`: what precedes the last '/', "/" for a root entry, "." for a bare name. */
  function Dirname(p: string): (d: string)
    ensures '/' !in p ==> d == "."
    ensures '/' in p && LastIndexOf(p, '/') > 0 ==> p == d + "/" + Basename(p)
  {
    var i := LastIndexOf(p, '/');
    if i < 0 then "."
    else if i == 0 then "/"
    else
      assert p == p[..i] + "/" + p[i + 1..];
      p[..i]
  }

  /**
   * `path.extname(p)`: the last '.' of the basename and what follows it, or
   * "" when the basename has no '.', starts with its only '.', or is "..".
   */
  function Extname(p: string): (e: string)
    ensures EndsWith(Basename(p), e)
    ensures e == "" || (e[0] == '.' && '.' !in e[1..])
  {
    ExtensionOf(Basename(p))
  }

  /** The extension of a basename `b`. */
  function ExtensionOf(b: string): (e: string)
    ensures EndsWith(b, e)
    ensures e == "" || (e[0] == '.' && '.' !in e[1..])
  {
    var i := LastIndexOf(b, '.');
    if i <= 0 || b == ".." then ""
    else
      var e := b[i..];
      assert forall k :: 1 <= k < |e| ==> e[k] == b[i + k];
      e
  }

  /** A name joined onto a directory keeps its own basename and extension. */
  lemma JoinKeepsName(dir: string, name: string)
    requires '/' !in name
    ensures Basename(JoinPath(dir, name)) == name
    ensures Extname(JoinPath(dir, name)) == Extname(name)
  {
    var pre := if dir == "" then "" else if dir[|dir| - 1] == '/' then dir else dir + "/";
    assert JoinPath(dir, name) == pre + name;
    BasenameAfterSlash(pre, name);
    assert Extname(JoinPath(dir, name)) == ExtensionOf(name) == Extname(name);
  }

  /** After a prefix that is empty or ends in '/', the basename is what follows. */
  lemma BasenameAfterSlash(pre: string, name: string)
    requires '/' !in name
    requires pre == "" || pre[|pre| - 1] == '/'
    ensures Basename(pre + name) == name
  {
    var p := pre + name;
    assert forall k :: |pre| <= k < |p| ==> p[k] == name[k - |pre|];
    if pre == "" {
      assert p == name;
    } else {
      LastIndexFromSuffix(p, '/', |pre| - 1);
      assert p[|pre|..] == name;
    }
  }

  /** The last `c` is the one at `j` when nothing after `j` is a `c`. */
  lemma LastIndexFromSuffix(s: string, c: char, j: nat)
    requires j < |s| && s[j] == c
    requires forall k :: j < k < |s| ==> s[k] != c
    ensures LastIndexOf(s, c) == j
  {
  }
}
