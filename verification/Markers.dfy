/** The four markers that the container images print. */
module Markers {
  import opened MarkerTheory

  const CODE_TESTS_SEPARATOR := "user_code_ok_f936a25e"
  const USER_CODE_SEPARATOR := "user_solution_ok_f936a25e"
  const TEST_CASES_ERROR := "tests_cases_error_f936a25e"
  const USER_SOLUTION_ERROR := "user_solution_error_f936a25e"

  const MARKERS: set<string> :=
    {CODE_TESTS_SEPARATOR, USER_CODE_SEPARATOR, TEST_CASES_ERROR, USER_SOLUTION_ERROR}

  predicate Opens(p: string) {
    |p| >= 2 && ((p[0] == 'u' && p[1] == 's') || (p[0] == 't' && p[1] == 'e'))
  }

  lemma MarkerIsSolid(p: string)
    requires p in MARKERS
    ensures Solid(p) && Opens(p)
  {
  }

  /** Inside a marker nothing reads like the start of a marker. */
  lemma NoInnerStart(p: string, d: nat)
    requires p in MARKERS && 0 < d < |p|
    ensures p[d] == 'u' ==> d + 1 < |p| && p[d + 1] != 's'
    ensures p[d] == 't' ==> d + 1 < |p| && p[d + 1] != 'e'
  {
    if p == CODE_TESTS_SEPARATOR {
    } else if p == USER_CODE_SEPARATOR {
    } else if p == TEST_CASES_ERROR {
    } else {
    }
  }

  lemma ShiftsClash(p: string, q: string, d: nat)
    requires p in MARKERS && 0 < d < |p| && Opens(q)
    ensures Clash(p, q, d)
  {
    NoInnerStart(p, d);
    assert p[d + 0] != q[0] || p[d + 1] != q[1];
  }

  lemma MarkersClash(p: string, q: string)
    requires p in MARKERS && q in MARKERS && p != q
    ensures Clash(p, q, 0)
  {
    var a, b, c, d := CODE_TESTS_SEPARATOR, USER_CODE_SEPARATOR, TEST_CASES_ERROR, USER_SOLUTION_ERROR;
    assert a[5] == 'c' && b[5] == 's' && d[5] == 's';
    assert a[0] == b[0] == d[0] == 'u' && c[0] == 't';
    assert b[14] == 'o' && d[14] == 'e';
    assert p[0 + 0] != q[0] || p[0 + 5] != q[5] || p[0 + 14] != q[14];
  }

  lemma MarkersAreAFamily()
    ensures Family(MARKERS)
  {
    forall p | p in MARKERS ensures Solid(p) { MarkerIsSolid(p); }
    forall p, q, d: nat | p in MARKERS && q in MARKERS && d < |p| && (d > 0 || p != q)
      ensures Clash(p, q, d)
    {
      if d > 0 {
        MarkerIsSolid(q);
        ShiftsClash(p, q, d);
      } else {
        MarkersClash(p, q);
      }
    }
  }
}
