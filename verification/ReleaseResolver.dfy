/**
 Which service release a request resolves to. Versions and ranges are taken as parsed; the closed grammar
 writes each version in one way only, so that equal texts are equal versions.
 */
module ReleaseResolver {
  import opened Wrappers

  const DEPENDENCY_MAX_ATTEMPTS: nat := 2

  datatype Version = Version(major: nat, minor: nat, patch: nat)
  datatype Range = Exact(base: Version) | Caret(base: Version)
  datatype Release = Release(releaseId: string, version: Version, platform: string, architecture: string, artifact: string)
  /** Names a release by its id, or all releases of a version that fit the platform and architecture given. */
  datatype Revocation = ById(releaseId: string) | ByVersion(version: Version, platform: Option<string>, architecture: Option<string>)
  datatype Request = Request(range: Range, platform: string, architecture: string)
  /** The reply to one attempt at a dependency: semantic failures are final, transient ones are not. */
  datatype Reply = Url(url: string) | Missing | Invalid | Transient
  datatype Outcome = Found(release: Release, url: string) | NotFound | Unavailable

  /** Negative, zero or positive as a version is below, equal to or above another. */
  function CompareParsed(a: Version, b: Version): int {
    if a.major != b.major then a.major - b.major else if a.minor != b.minor then a.minor - b.minor else a.patch - b.patch
  }

  predicate RangeSatisfied(range: Range, candidate: Version) {
    match range
    case Exact(base) => CompareParsed(candidate, base) == 0
    case Caret(base) =>
      if CompareParsed(candidate, base) < 0 then false
      else if base.major > 0 then candidate.major == base.major
      else if base.minor > 0 then candidate.major == 0 && candidate.minor == base.minor
      else CompareParsed(candidate, base) == 0
  }

  /** The first version a range no longer admits. */
  function Beyond(range: Range): Version {
    match range
    case Exact(base) => Version(base.major, base.minor, base.patch + 1)
    case Caret(base) =>
      if base.major > 0 then Version(base.major + 1, 0, 0)
      else if base.minor > 0 then Version(0, base.minor + 1, 0)
      else Version(0, 0, base.patch + 1)
  }

  /** A range is a half-open interval of the version order. */
  lemma RangeIsInterval(range: Range, candidate: Version)
    ensures RangeSatisfied(range, candidate) <==> CompareParsed(range.base, candidate) <= 0 && CompareParsed(candidate, Beyond(range)) < 0
  {
  }

  lemma VersionsTotallyOrdered(a: Version, b: Version, c: Version)
    ensures CompareParsed(a, b) == 0 <==> a == b
    ensures CompareParsed(a, b) < 0 <==> CompareParsed(b, a) > 0
    ensures CompareParsed(a, b) <= 0 && CompareParsed(b, c) <= 0 ==> CompareParsed(a, c) <= 0
  {
  }

  /** The order is that of the numbers, the major first. */
  lemma ComparesNumbers(a: Version, b: Version)
    ensures CompareParsed(a, b) < 0 <==>
      a.major < b.major || (a.major == b.major && (a.minor < b.minor || (a.minor == b.minor && a.patch < b.patch)))
  {
  }

  predicate RevocationMatches(entry: Revocation, release: Release) {
    match entry
    case ById(releaseId) => releaseId == release.releaseId
    case ByVersion(version, platform, architecture) =>
      version == release.version && (platform.None? || platform.value == release.platform)
      && (architecture.None? || architecture.value == release.architecture)
  }

  predicate Revoked(revocations: seq<Revocation>, release: Release) {
    exists i :: 0 <= i < |revocations| && RevocationMatches(revocations[i], release)
  }

  predicate Eligible(request: Request, revocations: seq<Revocation>, release: Release) {
    && release.platform == request.platform && release.architecture == request.architecture
    && RangeSatisfied(request.range, release.version) && !Revoked(revocations, release)
  }

  /** Revoking takes away exactly the releases it names: by their id, or all those of a version unless a
      platform or an architecture is given that is not theirs. */
  lemma RevokingRemovesExactly(request: Request, revocations: seq<Revocation>, entry: Revocation, release: Release)
    ensures Eligible(request, revocations + [entry], release) <==>
      && Eligible(request, revocations, release)
      && match entry
         case ById(releaseId) => release.releaseId != releaseId
         case ByVersion(version, platform, architecture) =>
           release.version != version || platform !in {None, Some(release.platform)}
           || architecture !in {None, Some(release.architecture)}
  {
    var more := revocations + [entry];
    assert more[|revocations|] == entry;
    assert forall i :: 0 <= i < |revocations| ==> more[i] == revocations[i];
  }

  /** Without revocations every release of the platform and architecture in the range is eligible: the base
      itself, and for a caret also what follows it below the next step of its first number that is not zero. */
  lemma EligibleUnrevoked(request: Request, release: Release)
    ensures Eligible(request, [], release) <==>
      && release.platform == request.platform && release.architecture == request.architecture
      && var (v, base) := (release.version, request.range.base);
         || v == base
         || (request.range.Caret? && v.major == base.major
             && ((base.major > 0 && (v.minor > base.minor || (v.minor == base.minor && v.patch > base.patch)))
                 || (base.major == 0 && base.minor > 0 && v.minor == base.minor && v.patch > base.patch)))
  {
  }

  function Candidates(releases: seq<Release>, request: Request, revocations: seq<Revocation>): (c: seq<Release>)
    ensures forall r :: r in c <==> r in releases && Eligible(request, revocations, r)
  {
    if releases == [] then []
    else
      var rest := Candidates(releases[1..], request, revocations);
      if Eligible(request, revocations, releases[0]) then [releases[0]] + rest else rest
  }

  /** Highest version first. */
  function Insert(release: Release, sorted: seq<Release>): seq<Release> {
    if sorted == [] || CompareParsed(release.version, sorted[0].version) >= 0 then [release] + sorted
    else [sorted[0]] + Insert(release, sorted[1..])
  }

  function Sort(releases: seq<Release>): seq<Release> {
    if releases == [] then [] else Insert(releases[0], Sort(releases[1..]))
  }

  ghost predicate Descending(releases: seq<Release>) {
    forall i, j :: 0 <= i < j < |releases| ==> CompareParsed(releases[i].version, releases[j].version) >= 0
  }

  lemma {:induction false} InsertSorted(release: Release, sorted: seq<Release>)
    requires Descending(sorted)
    ensures Descending(Insert(release, sorted))
    ensures forall r :: r in Insert(release, sorted) <==> r == release || r in sorted
  {
    if sorted != [] && CompareParsed(release.version, sorted[0].version) < 0 {
      InsertSorted(release, sorted[1..]);
      var rest := Insert(release, sorted[1..]);
      assert forall r :: r in sorted <==> r == sorted[0] || r in sorted[1..];
      forall i | 0 <= i < |rest| ensures CompareParsed(sorted[0].version, rest[i].version) >= 0 {
        assert rest[i] in rest;
      }
    }
  }

  lemma {:induction false} SortSorts(releases: seq<Release>)
    ensures Descending(Sort(releases)) && forall r :: r in Sort(releases) <==> r in releases
  {
    if releases != [] {
      SortSorts(releases[1..]);
      InsertSorted(releases[0], Sort(releases[1..]));
    }
  }

  /** What a call with one bounded retry comes to, given the reply to each attempt. */
  function Final(reply: nat -> Reply): Reply {
    if reply(1).Transient? then reply(2) else reply(1)
  }

  predicate Skips(reply: Reply) {
    reply.Missing? || reply.Invalid?
  }

  /** The release is the greatest eligible one whose publication check passes, and every greater one fails it
      for good. */
  ghost predicate Resolves(releases: seq<Release>, revocations: seq<Revocation>, request: Request,
                           presign: Release -> nat -> Reply, release: Release, url: string)
  {
    && release in releases && Eligible(request, revocations, release) && Final(presign(release)) == Url(url)
    && GreaterSkip(releases, revocations, request, presign, release)
  }

  ghost predicate GreaterSkip(releases: seq<Release>, revocations: seq<Revocation>, request: Request,
                              presign: Release -> nat -> Reply, release: Release)
  {
    forall other :: other in releases && Eligible(request, revocations, other) && CompareParsed(other.version, release.version) > 0 ==>
      Skips(Final(presign(other)))
  }

  /** At most one attempt more, never after a semantic failure. */
  method DependencyCall(reply: nat -> Reply) returns (r: Reply, attempts: nat)
    ensures r == Final(reply)
    ensures attempts == (if reply(1).Transient? then 2 else 1) && r == reply(attempts)
  {
    attempts := 0;
    r := Transient;
    while attempts < DEPENDENCY_MAX_ATTEMPTS && r.Transient?
      invariant attempts <= DEPENDENCY_MAX_ATTEMPTS
      invariant attempts == 0 ==> r.Transient?
      invariant attempts == 1 ==> r == reply(1)
      invariant attempts == 2 ==> reply(1).Transient? && r == reply(2)
    {
      attempts := attempts + 1;
      r := reply(attempts);
    }
  }

  method Resolve(releases: seq<Release>, revocations: seq<Revocation>, request: Request, presign: Release -> nat -> Reply)
    returns (outcome: Outcome)
    ensures outcome.Found? ==> Resolves(releases, revocations, request, presign, outcome.release, outcome.url)
    ensures outcome.NotFound? <==>
      forall r :: r in releases && Eligible(request, revocations, r) ==> Skips(Final(presign(r)))
    ensures outcome.Unavailable? ==>
      exists r :: r in releases && Eligible(request, revocations, r) && Final(presign(r)).Transient?
                  && GreaterSkip(releases, revocations, request, presign, r)
  {
    var candidates := Sort(Candidates(releases, request, revocations));
    SortSorts(Candidates(releases, request, revocations));
    hide Candidates, Sort, Eligible, CompareParsed;
    var i := 0;
    while i < |candidates|
      invariant 0 <= i <= |candidates| && forall j :: 0 <= j < i ==> Skips(Final(presign(candidates[j])))
    {
      var reply, _ := DependencyCall(presign(candidates[i]));
      if reply.Url? {
        AboveSkipped(candidates, i);
        return Found(candidates[i], reply.url);
      }
      if reply.Transient? {
        AboveSkipped(candidates, i);
        assert candidates[i] in releases && GreaterSkip(releases, revocations, request, presign, candidates[i]);
        return Unavailable;
      }
      i := i + 1;
    }
    return NotFound;
  }

  /** In a descending list what is greater than an element stands before it. */
  lemma AboveSkipped(candidates: seq<Release>, i: nat)
    requires Descending(candidates) && i < |candidates|
    ensures forall r :: r in candidates && CompareParsed(r.version, candidates[i].version) > 0 ==>
      exists j :: 0 <= j < i && candidates[j] == r
  {
    forall r | r in candidates && CompareParsed(r.version, candidates[i].version) > 0
      ensures exists j :: 0 <= j < i && candidates[j] == r
    {
      var j :| 0 <= j < |candidates| && candidates[j] == r;
      assert j < i by {
        if j > i {
          VersionsTotallyOrdered(candidates[i].version, r.version, r.version);
        } else if j == i {
          VersionsTotallyOrdered(r.version, r.version, r.version);
        }
      }
    }
  }

  /** Revoking more never raises what a request resolves to. */
  lemma RevokingNeverRaises(releases: seq<Release>, revocations: seq<Revocation>, more: seq<Revocation>, request: Request,
                            presign: Release -> nat -> Reply, before: Release, url: string, after: Release, url': string)
    requires Resolves(releases, revocations, request, presign, before, url)
    requires Resolves(releases, revocations + more, request, presign, after, url')
    ensures CompareParsed(after.version, before.version) <= 0
  {
    assert Eligible(request, revocations, after) by {
      forall i | 0 <= i < |revocations| ensures !RevocationMatches(revocations[i], after) {
        assert (revocations + more)[i] == revocations[i];
      }
    }
  }
}
