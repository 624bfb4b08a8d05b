/**
 * The few `os.path` and `str` operations the player relies on, for POSIX
 * paths: `basename`, `join`, the extension part of `splitext`, `lower` and
 * `split(".")[0]`.
 */
module Paths {

  /** Index of the last occurrence of `c` in `s`, or -1 when there is none. */
  function LastIndexOf(s: string, c: char): (k: int)
    ensures -1 <= k < |s|
    ensures k >= 0 ==> s[k] == c
  {
    if s == [] then -1
    else if s[|s| - 1] == c then |s| - 1
    else LastIndexOf(s[..|s| - 1], c)
  }

  /** No occurrence of `c` follows the one `LastIndexOf` finds, so -1 means `c` is absent. */
  lemma {:induction false} LastIndexOfIsLast(s: string, c: char)
    ensures forall j :: LastIndexOf(s, c) < j < |s| ==> s[j] != c
    ensures LastIndexOf(s, c) == -1 <==> c !in s
  {
    if s != [] && s[|s| - 1] != c {
      LastIndexOfIsLast(s[..|s| - 1], c);
    }
  }

  /** Index of the first occurrence of `c` in `s`, or |s| when there is none. */
  function FirstIndexOf(s: string, c: char): (k: nat)
    ensures k <= |s|
    ensures k < |s| ==> s[k] == c
    ensures forall j :: 0 <= j < k ==> s[j] != c
  {
    if s == [] then 0
    else if s[0] == c then 0
    else 1 + FirstIndexOf(s[1..], c)
  }

  /** `os.path.basename`: the part of the path after its last separator. */
  function Basename(p: string): (b: string)
    ensures '/' !in b
    ensures |b| <= |p| && p[|p| - |b|..] == b
    ensures |b| < |p| ==> p[|p| - |b| - 1] == '/'
  {
    LastIndexOfIsLast(p, '/');
    p[LastIndexOf(p, '/') + 1..]
  }

  /** The basename is determined by the separator in front of it. */
  lemma BasenameOfSuffix(q: string, b: string)
    requires '/' !in b
    requires q == [] || q[|q| - 1] == '/'
    ensures Basename(q + b) == b
  {
    var p := q + b;
    var k := LastIndexOf(p, '/');
    LastIndexOfIsLast(p, '/');
    if q == [] {
      assert p == b;
    } else {
      assert p[|q| - 1] == '/';
    }
    assert k == |q| - 1;
  }

  /**
   * `os.path.join(root, name)`: `name` itself when it is absolute, otherwise
   * `name` appended to `root` with a separator in between unless `root` is
   * empty or already ends in one.
   */
  function Join(root: string, name: string): string
  {
    if |name| > 0 && name[0] == '/' then name
    else if root == [] || root[|root| - 1] == '/' then root + name
    else root + "/" + name
  }

  /** A plain file name joined under any directory keeps it as its basename. */
  lemma BasenameOfJoin(root: string, name: string)
    requires '/' !in name
    ensures Basename(Join(root, name)) == name
  {
    if root == [] || root[|root| - 1] == '/' {
      BasenameOfSuffix(root, name);
    } else {
      BasenameOfSuffix(root + "/", name);
      assert root + "/" + name == (root + "/") + name;
    }
  }

  /** `s.split(".")[0]`: the part of `s` before its first dot. */
  function BeforeFirstDot(s: string): (r: string)
    ensures '.' !in r
    ensures |r| <= |s| && s[..|r|] == r
    ensures |r| < |s| ==> s[|r|] == '.'
  {
    s[..FirstIndexOf(s, '.')]
  }

  /** True when `s` consists of dots only (the empty string included). */
  predicate AllDots(s: string)
  {
    forall j :: 0 <= j < |s| ==> s[j] == '.'
  }

  /**
   * The extension `os.path.splitext` splits off a file name (one without a
   * separator): from the last dot to the end, provided some character before
   * that dot is not a dot; otherwise the empty string.
   */
  function Extension(name: string): string
  {
    var k := LastIndexOf(name, '.');
    if k > 0 && !AllDots(name[..k]) then name[k..] else ""
  }

  /** A non-empty extension is a dot followed by no other dot, and ends the name after a stem that is not only dots. */
  lemma ExtensionShape(name: string)
    requires Extension(name) != []
    ensures var e := Extension(name);
      && e[0] == '.' && '.' !in e[1..]
      && |e| < |name| && name[|name| - |e|..] == e
      && !AllDots(name[..|name| - |e|])
  {
    LastIndexOfIsLast(name, '.');
  }

  /** ASCII case folding: what `str.lower` does to the characters of a file extension. */
  function LowerChar(c: char): (d: char)
  {
    if 'A' <= c <= 'Z' then (c as int - 'A' as int + 'a' as int) as char else c
  }

  function Lower(s: string): (r: string)
    ensures |r| == |s|
  {
    seq(|s|, j requires 0 <= j < |s| => LowerChar(s[j]))
  }
}
