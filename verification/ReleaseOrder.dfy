/**
 The order of release folders and the newest release of an update channel. Names are taken as parsed; how
 two tags, or two names that are no versions, compare is a parameter.
 */
module ReleaseOrder {
  import opened Wrappers

  datatype Channel = Stable | Beta
  /** A version with or without a pre-release tag, or a name that is none. */
  datatype Name = Parsed(major: nat, minor: nat, patch: nat, prerelease: Option<string>) | Unparsed(text: string)

  type Collation = (string, string) -> int

  /** The comparison of texts is a total preorder. */
  ghost predicate Collates(collate: Collation) {
    && (forall a, b :: collate(a, b) < 0 <==> collate(b, a) > 0)
    && (forall a :: collate(a, a) == 0)
    && (forall a, b, c :: collate(a, b) <= 0 && collate(b, c) <= 0 ==> collate(a, c) <= 0)
  }

  predicate IsPrerelease(name: Name) {
    name.Parsed? && name.prerelease.Some?
  }

  predicate IsOnChannel(name: Name, channel: Channel) {
    channel == Beta || !IsPrerelease(name)
  }

  /** Negative when `a` is newer. */
  function CompareDesc(collate: Collation, a: Name, b: Name): int {
    if a.Unparsed? || b.Unparsed? then
      if a.Parsed? then -1 else if b.Parsed? then 1 else collate(b.text, a.text)
    else if b.major != a.major then b.major - a.major
    else if b.minor != a.minor then b.minor - a.minor
    else if b.patch != a.patch then b.patch - a.patch
    else if a.prerelease == b.prerelease then 0
    else if a.prerelease.None? then -1
    else if b.prerelease.None? then 1
    else collate(b.prerelease.value, a.prerelease.value)
  }

  /** The comparison is a total preorder: any two names compare, in opposite ways when swapped, transitively. */
  lemma TotalPreorder(collate: Collation, a: Name, b: Name, c: Name)
    requires Collates(collate)
    ensures CompareDesc(collate, a, a) == 0
    ensures CompareDesc(collate, a, b) < 0 <==> CompareDesc(collate, b, a) > 0
    ensures CompareDesc(collate, a, b) <= 0 && CompareDesc(collate, b, c) <= 0 ==> CompareDesc(collate, a, c) <= 0
  {
    if a.Unparsed? && b.Unparsed? && c.Unparsed? {
      assert collate(c.text, b.text) <= 0 && collate(b.text, a.text) <= 0 ==> collate(c.text, a.text) <= 0;
    } else if IsPrerelease(a) && IsPrerelease(b) && IsPrerelease(c) {
      var x, y, z := c.prerelease.value, b.prerelease.value, a.prerelease.value;
      assert collate(x, y) <= 0 && collate(y, z) <= 0 ==> collate(x, z) <= 0;
      assert collate(x, x) == 0 && collate(y, y) == 0;
    }
  }

  /** Newer stands before older: by its numbers, the major first, among equal ones a final release first and
      tags from the highest down; what is no version stands last, from the highest text down. */
  lemma NewerFirst(collate: Collation, a: Name, b: Name)
    requires Collates(collate)
    ensures a.Parsed? && b.Parsed? ==>
      (CompareDesc(collate, a, b) < 0 <==>
         || a.major > b.major
         || (a.major == b.major && a.minor > b.minor)
         || (a.major == b.major && a.minor == b.minor && a.patch > b.patch)
         || (a.major == b.major && a.minor == b.minor && a.patch == b.patch && b.prerelease.Some?
             && (a.prerelease.None? || collate(a.prerelease.value, b.prerelease.value) > 0)))
    ensures a.Unparsed? ==> (CompareDesc(collate, a, b) < 0 <==> b.Unparsed? && collate(a.text, b.text) > 0)
    ensures a.Parsed? && b.Unparsed? ==> CompareDesc(collate, a, b) < 0
  {
  }

  /** A final release outranks every candidate of its own version, and every name that is no version. */
  lemma FinalOutranks(collate: Collation, final: Name, other: Name)
    requires final.Parsed? && final.prerelease.None?
    requires other.Unparsed? || (IsPrerelease(other) && other.major == final.major && other.minor == final.minor && other.patch == final.patch)
    ensures CompareDesc(collate, final, other) < 0 && CompareDesc(collate, other, final) > 0
  {
  }

  function Insert(collate: Collation, name: Name, sorted: seq<Name>): seq<Name> {
    if sorted == [] || CompareDesc(collate, name, sorted[0]) <= 0 then [name] + sorted
    else [sorted[0]] + Insert(collate, name, sorted[1..])
  }

  function Sort(collate: Collation, names: seq<Name>): seq<Name> {
    if names == [] then [] else Insert(collate, names[0], Sort(collate, names[1..]))
  }

  function OnChannel(names: seq<Name>, channel: Channel): (eligible: seq<Name>)
    ensures forall n :: n in eligible <==> n in names && n != Unparsed("latest") && IsOnChannel(n, channel)
  {
    if names == [] then []
    else
      var rest := OnChannel(names[1..], channel);
      if names[0] != Unparsed("latest") && IsOnChannel(names[0], channel) then [names[0]] + rest else rest
  }

  /** The first of the eligible names, newest first. */
  function NewestRelease(collate: Collation, names: seq<Name>, channel: Channel): Option<Name> {
    var sorted := Sort(collate, OnChannel(names, channel));
    if sorted == [] then None else Some(sorted[0])
  }

  lemma {:induction false} InsertFirst(collate: Collation, name: Name, sorted: seq<Name>)
    requires Collates(collate) && forall n :: n in sorted ==> CompareDesc(collate, sorted[0], n) <= 0
    ensures forall n :: n in Insert(collate, name, sorted) <==> n == name || n in sorted
    ensures forall n :: n in Insert(collate, name, sorted) ==> CompareDesc(collate, Insert(collate, name, sorted)[0], n) <= 0
  {
    TotalPreorder(collate, name, name, name);
    if sorted != [] {
      InsertMembers(collate, name, sorted);
      var first := Insert(collate, name, sorted)[0];
      forall n | n in Insert(collate, name, sorted) ensures CompareDesc(collate, first, n) <= 0 {
        TotalPreorder(collate, first, sorted[0], n);
        TotalPreorder(collate, sorted[0], name, name);
      }
    }
  }

  lemma {:induction false} InsertMembers(collate: Collation, name: Name, sorted: seq<Name>)
    ensures forall n :: n in Insert(collate, name, sorted) <==> n == name || n in sorted
  {
    if sorted != [] && CompareDesc(collate, name, sorted[0]) > 0 {
      InsertMembers(collate, name, sorted[1..]);
      assert forall n :: n in sorted <==> n == sorted[0] || n in sorted[1..];
    }
  }

  lemma {:induction false} SortFirst(collate: Collation, names: seq<Name>)
    requires Collates(collate)
    ensures forall n :: n in Sort(collate, names) <==> n in names
    ensures forall n :: n in Sort(collate, names) ==> CompareDesc(collate, Sort(collate, names)[0], n) <= 0
  {
    if names != [] {
      SortFirst(collate, names[1..]);
      InsertFirst(collate, names[0], Sort(collate, names[1..]));
    }
  }

  /** The newest release is a maximum of its channel, in whatever order the listing comes; there is none exactly
      if the channel is empty, and it is never a pre-release on the stable channel. */
  lemma NewestIsMaximum(collate: Collation, names: seq<Name>, channel: Channel)
    requires Collates(collate)
    ensures NewestRelease(collate, names, channel).None? <==>
      forall n :: n in names ==> n == Unparsed("latest") || (channel == Stable && IsPrerelease(n))
    ensures NewestRelease(collate, names, channel).Some? ==>
      var newest := NewestRelease(collate, names, channel).value;
      && newest in names && newest != Unparsed("latest") && (channel == Stable ==> !IsPrerelease(newest))
      && forall n :: n in names && n != Unparsed("latest") && (channel == Stable ==> !IsPrerelease(n)) ==>
           CompareDesc(collate, newest, n) <= 0
  {
    var eligible := OnChannel(names, channel);
    SortFirst(collate, eligible);
    if Sort(collate, eligible) == [] {
      assert forall n :: n in eligible ==> n in Sort(collate, eligible);
    } else {
      assert Sort(collate, eligible)[0] in eligible;
    }
  }
}
