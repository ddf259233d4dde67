/** `std::filesystem::path` on POSIX, as far as `operator/` needs it. */
module Paths {
  /** `a / b`: an absolute `b` replaces `a`, and a separator is added only behind a file name. */
  function Join(a: string, b: string): string {
    if b != "" && b[0] == '/' then b
    else if a == "" || a[|a| - 1] == '/' then a + b
    else a + "/" + b
  }

  /** A name as file systems have them. */
  predicate PlainName(n: string) {
    n != "" && '/' !in n
  }

  /** A path that ends with a name. */
  predicate EndsWithName(p: string) {
    p != "" && p[|p| - 1] != '/'
  }

  lemma JoinPlain(p: string, n: string)
    requires EndsWithName(p) && PlainName(n)
    ensures Join(p, n) == p + "/" + n && EndsWithName(Join(p, n))
  {
  }

  /** One past the last separator in `p`. */
  function AfterLastSeparator(p: string): (k: nat)
    ensures k <= |p|
    ensures k > 0 ==> p[k - 1] == '/'
    ensures forall i | k <= i < |p| :: p[i] != '/'
  {
    if p == "" then 0
    else if p[|p| - 1] == '/' then |p|
    else AfterLastSeparator(p[..|p| - 1])
  }

  /** The directory an entry lies in, with its trailing separator, as a tar archive lists it. */
  function ParentOf(p: string, isDir: bool): string {
    var q := if isDir && p != "" then p[..|p| - 1] else p;
    q[..AfterLastSeparator(q)]
  }

  lemma ParentOfChild(p: string, n: string)
    requires PlainName(n)
    ensures ParentOf(p + "/" + n, false) == p + "/"
    ensures ParentOf(p + "/" + n + "/", true) == p + "/"
  {
    var q := p + "/" + n;
    var k := AfterLastSeparator(q);
    assert q[|p|] == '/';
    assert forall i | |p| < i < |q| :: q[i] == n[i - |p| - 1];
    assert forall i | 0 <= i < |n| :: n[i] in n;
    assert k == |p| + 1;
    assert (q + "/")[..|q|] == q;
  }
}
