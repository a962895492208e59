/**
 * The part of a semantic version that the Helm double compares: major, minor
 * and patch, each an unsigned 64-bit number, ordered by the precedence rule of
 * section 11 of Semantic Versioning 2.0.0 (pre-release and build metadata are
 * not modelled).
 */
module Semver {

  const U64Limit: int := 0x1_0000_0000_0000_0000

  type U64 = x: nat | x < 0x1_0000_0000_0000_0000

  datatype Version = Version(major: U64, minor: U64, patch: U64)

  /** Reference order: `a` has lower precedence than `b` (numeric, major first). */
  predicate Less(a: Version, b: Version)
  {
    || a.major < b.major
    || (a.major == b.major && a.minor < b.minor)
    || (a.major == b.major && a.minor == b.minor && a.patch < b.patch)
  }

  /** Three-way comparison, component by component, as the semver library does it. */
  function Compare(a: Version, b: Version): (r: int)
    ensures r == 0 <==> a == b
    ensures r < 0 <==> Less(a, b)
    ensures r > 0 <==> Less(b, a)
    ensures -1 <= r <= 1
  {
    if a.major != b.major then (if a.major < b.major then -1 else 1)
    else if a.minor != b.minor then (if a.minor < b.minor then -1 else 1)
    else if a.patch != b.patch then (if a.patch < b.patch then -1 else 1)
    else 0
  }

  /** `Less` is a strict total order on versions. */
  lemma LessIsStrictTotalOrder(a: Version, b: Version, c: Version)
    ensures !Less(a, a)
    ensures Less(a, b) && Less(b, c) ==> Less(a, c)
    ensures a == b || Less(a, b) || Less(b, a)
    ensures !(Less(a, b) && Less(b, a))
  {
  }
}
