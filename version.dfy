/** The version string the daemon reports: the git description of the build
    when there is one, else the release version, followed by "-" and the
    prerelease tag when that tag is non-empty. */
module Version {

  /** The part before the prerelease suffix: the git description wins over
      the release version whenever it is non-empty. */
  function Base(version: string, gitDescribe: string): string
  {
    if gitDescribe != "" then gitDescribe else version
  }

  /** The reported version string. */
  function VersionString(version: string, prerelease: string, gitDescribe: string): (r: string)
    ensures |Base(version, gitDescribe)| <= |r|
    ensures r[..|Base(version, gitDescribe)|] == Base(version, gitDescribe)
    ensures prerelease == "" <==> |r| == |Base(version, gitDescribe)|
    ensures prerelease != "" ==>
              |r| == |Base(version, gitDescribe)| + 1 + |prerelease|
              && r[|Base(version, gitDescribe)|] == '-'
              && r[|Base(version, gitDescribe)| + 1..] == prerelease
  {
    var ver := Base(version, gitDescribe);
    var rel := if prerelease != "" then "-" + prerelease else "";
    ver + rel
  }

  /** Reads the prerelease tag back off a version string whose base is known. */
  function PrereleaseOf(r: string, base: string): string
  {
    if |r| <= |base| + 1 then "" else r[|base| + 1..]
  }

  /** The prerelease tag can always be recovered from the version string. */
  lemma PrereleaseRoundTrip(version: string, prerelease: string, gitDescribe: string)
    ensures PrereleaseOf(VersionString(version, prerelease, gitDescribe), Base(version, gitDescribe)) == prerelease
  {
  }

  /** When a git description is present the release version is ignored. */
  lemma GitDescribeOverridesVersion(v1: string, v2: string, prerelease: string, gitDescribe: string)
    requires gitDescribe != ""
    ensures VersionString(v1, prerelease, gitDescribe) == VersionString(v2, prerelease, gitDescribe)
    ensures VersionString(v1, prerelease, gitDescribe)[..|gitDescribe|] == gitDescribe
  {
  }

  /** Two builds with the same base report the same string only if they carry the same prerelease tag. */
  lemma PrereleaseInjective(version: string, gitDescribe: string, p1: string, p2: string)
    requires VersionString(version, p1, gitDescribe) == VersionString(version, p2, gitDescribe)
    ensures p1 == p2
  {
    PrereleaseRoundTrip(version, p1, gitDescribe);
    PrereleaseRoundTrip(version, p2, gitDescribe);
  }

  /** Concrete cases: an empty prerelease adds no hyphen. */
  lemma VersionExamples()
    ensures VersionString("v7", "", "") == "v7"
    ensures VersionString("v7", "rc1", "") == "v7-rc1"
    ensures VersionString("v7", "", "v7-3-gabc") == "v7-3-gabc"
    ensures VersionString("v7", "dev", "v7-3-gabc") == "v7-3-gabc-dev"
  {
  }
}
