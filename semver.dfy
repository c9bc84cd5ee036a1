/** The part of semantic versioning the fix relies on: a release version
    `major.minor.patch` and the `gte` comparison between two of them.
    Pre-release and build tags are not modelled. */
module Semver {

  datatype Version = Version(major: nat, minor: nat, patch: nat)

  /** `a >= b` in semantic-version precedence: the first of major, minor
      and patch in which the two differ decides. */
  function Gte(a: Version, b: Version): (r: bool)
    ensures a.major != b.major ==> (r <==> a.major > b.major)
    ensures a.major == b.major && a.minor != b.minor ==> (r <==> a.minor > b.minor)
    ensures a.major == b.major && a.minor == b.minor ==> (r <==> a.patch >= b.patch)
  {
    || a.major > b.major
    || (a.major == b.major && a.minor > b.minor)
    || (a.major == b.major && a.minor == b.minor && a.patch >= b.patch)
  }
}
