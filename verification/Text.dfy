/** Strings with the index arithmetic of `std::string` on a 64-bit platform. */
module Text {
  import opened Wrappers

  /** `std::string::npos`, the largest `size_t`. */
  const NPOS: nat := 0xFFFF_FFFF_FFFF_FFFF

  /** `std::string::max_size()` of the common implementations. */
  const MAX_SIZE: nat := 0x7FFF_FFFF_FFFF_FFFF

  type Text = s: string | |s| <= MAX_SIZE

  /** The values of `size_t`; its addition and subtraction wrap. */
  type Size = n: nat | n <= NPOS

  function Plus(a: Size, b: Size): (r: Size)
    ensures r == if a + b <= NPOS then a + b else a + b - NPOS - 1
  {
    (a + b) % (NPOS + 1)
  }

  function Minus(a: Size, b: Size): (r: Size)
    ensures r == if b <= a then a - b else a - b + NPOS + 1
  {
    (a - b) % (NPOS + 1)
  }

  /** `p` stands in `m` at index `i`. */
  predicate OccursAt(m: string, p: string, i: nat) {
    i + |p| <= |m| && forall k | 0 <= k < |p| :: m[i + k] == p[k]
  }

  ghost predicate Contains(m: string, p: string) {
    exists i: nat :: OccursAt(m, p, i)
  }

  function FindFrom(m: string, p: string, i: nat): (r: Option<nat>)
    ensures r.Some? ==> i <= r.value && OccursAt(m, p, r.value)
    ensures forall j: nat :: i <= j && OccursAt(m, p, j) ==> r.Some? && r.value <= j
    decreases |m| - i
  {
    if i + |p| > |m| then None
    else if OccursAt(m, p, i) then Some(i)
    else FindFrom(m, p, i + 1)
  }

  /** `m.find(p)`: the first occurrence, or `NPOS`. */
  function Find(m: Text, p: string): (r: Size)
    ensures r == NPOS <==> !Contains(m, p)
    ensures r != NPOS ==> OccursAt(m, p, r) && forall j: nat :: OccursAt(m, p, j) ==> r <= j
  {
    match FindFrom(m, p, 0)
    case None => NPOS
    case Some(i) => i
  }

  predicate EndsWith(m: string, p: string) {
    |p| <= |m| && OccursAt(m, p, |m| - |p|)
  }

  /** `m.substr(pos, n)`: `None` where the library throws `std::out_of_range`; a count past the end is clipped. */
  function Substr(m: Text, pos: Size, n: Size): Option<Text> {
    if pos > |m| then None
    else if n <= |m| - pos then Some(m[pos..pos + n])
    else Some(m[pos..])
  }

  /** Cutting `n` letters off the end of a tail: where the tail is too short the count wraps and nothing is cut. */
  lemma SubstrOfTail(m: Text, from: Size, n: Size)
    requires from <= |m| && n <= |m|
    ensures Substr(m, from, Minus(Minus(|m|, from), n)) ==
            Some(m[from..if from + n <= |m| then |m| - n else |m|])
  {
    var count := Minus(Minus(|m|, from), n);
    if from + n <= |m| {
      assert count == |m| - from - n;
      assert from + count == |m| - n;
    } else {
      assert count > |m| - from;
      assert m[from..] == m[from..|m|];
    }
  }
}
