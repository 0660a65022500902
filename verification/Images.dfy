/** Which version and images a Velero object may use (velero_controller.go, api/v1alpha1). */
module Images {
  import opened Basics

  // ----- requested version -----

  datatype Identifier = Numeric(n: nat) | Alphanumeric(s: string)

  /** A parsed semantic version; build metadata plays no part in precedence. */
  datatype Version = Version(major: nat, minor: nat, patch: nat, pre: seq<Identifier>)

  function CompareNat(a: nat, b: nat): int {
    if a < b then -1 else if a > b then 1 else 0
  }

  function CompareText(a: string, b: string): int {
    if a == [] && b == [] then 0
    else if a == [] then -1
    else if b == [] then 1
    else if a[0] != b[0] then (if a[0] < b[0] then -1 else 1)
    else CompareText(a[1..], b[1..])
  }

  function CompareIdentifier(a: Identifier, b: Identifier): int {
    match (a, b)
    case (Numeric(m), Numeric(n)) => CompareNat(m, n)
    case (Numeric(_), Alphanumeric(_)) => -1
    case (Alphanumeric(_), Numeric(_)) => 1
    case (Alphanumeric(s), Alphanumeric(t)) => CompareText(s, t)
  }

  function ComparePre(a: seq<Identifier>, b: seq<Identifier>): int {
    if a == [] && b == [] then 0
    else if a == [] then -1
    else if b == [] then 1
    else
      var c := CompareIdentifier(a[0], b[0]);
      if c != 0 then c else ComparePre(a[1..], b[1..])
  }

  /** Precedence as in section 11 of Semantic Versioning 2.0.0. */
  function Compare(a: Version, b: Version): int {
    if a.major != b.major then CompareNat(a.major, b.major)
    else if a.minor != b.minor then CompareNat(a.minor, b.minor)
    else if a.patch != b.patch then CompareNat(a.patch, b.patch)
    else if a.pre == [] && b.pre == [] then 0
    else if a.pre == [] then 1
    else if b.pre == [] then -1
    else ComparePre(a.pre, b.pre)
  }

  lemma {:induction false} TextPrecedence(a: string, b: string, c: string)
    ensures CompareText(b, a) == -CompareText(a, b)
    ensures CompareText(a, b) == 0 <==> a == b
    ensures CompareText(a, b) <= 0 && CompareText(b, c) <= 0 ==> CompareText(a, c) <= 0
  {
    if a != [] && b != [] {
      TextPrecedence(a[1..], b[1..], if c == [] then [] else c[1..]);
      assert a == [a[0]] + a[1..] && b == [b[0]] + b[1..];
    }
  }

  lemma IdentifierPrecedence(a: Identifier, b: Identifier, c: Identifier)
    ensures CompareIdentifier(b, a) == -CompareIdentifier(a, b)
    ensures CompareIdentifier(a, b) == 0 <==> a == b
    ensures CompareIdentifier(a, b) <= 0 && CompareIdentifier(b, c) <= 0 ==> CompareIdentifier(a, c) <= 0
  {
    if a.Alphanumeric? && b.Alphanumeric? {
      TextPrecedence(a.s, b.s, if c.Alphanumeric? then c.s else "");
    }
  }

  lemma {:induction false} PrePrecedence(a: seq<Identifier>, b: seq<Identifier>, c: seq<Identifier>)
    ensures ComparePre(b, a) == -ComparePre(a, b)
    ensures ComparePre(a, b) == 0 <==> a == b
    ensures ComparePre(a, b) <= 0 && ComparePre(b, c) <= 0 ==> ComparePre(a, c) <= 0
  {
    if a != [] && b != [] {
      PrePrecedence(a[1..], b[1..], if c == [] then [] else c[1..]);
      IdentifierPrecedence(a[0], b[0], if c == [] then a[0] else c[0]);
      if c != [] {
        IdentifierPrecedence(b[0], c[0], a[0]);
        IdentifierPrecedence(c[0], a[0], b[0]);
      }
      assert a == [a[0]] + a[1..] && b == [b[0]] + b[1..];
    }
  }

  /** Precedence is a total order on parsed versions. */
  lemma PrecedenceIsTotalOrder(a: Version, b: Version, c: Version)
    ensures Compare(b, a) == -Compare(a, b)
    ensures Compare(a, b) == 0 <==> a == b
    ensures Compare(a, b) <= 0 && Compare(b, c) <= 0 ==> Compare(a, c) <= 0
  {
    PrePrecedence(a.pre, b.pre, c.pre);
    PrePrecedence(b.pre, c.pre, a.pre);
    PrePrecedence(c.pre, a.pre, b.pre);
  }

  /** The first `n` identifiers of two pre-releases are the same. */
  ghost predicate SameUpTo(a: seq<Identifier>, b: seq<Identifier>, n: nat) {
    n <= |a| && n <= |b| && a[..n] == b[..n]
  }

  /** The first different identifier decides; when one pre-release continues the other, the longer one is higher. */
  lemma {:induction false} PreRules(a: seq<Identifier>, b: seq<Identifier>, n: nat)
    requires SameUpTo(a, b, n)
    ensures n == |a| < |b| ==> ComparePre(a, b) < 0
    ensures n < |a| && n < |b| ==>
              && (a[n].Numeric? && b[n].Numeric? && a[n].n < b[n].n ==> ComparePre(a, b) < 0)
              && (a[n].Numeric? && b[n].Alphanumeric? ==> ComparePre(a, b) < 0)
              && (a[n].Alphanumeric? && b[n].Alphanumeric? && CompareText(a[n].s, b[n].s) < 0 ==> ComparePre(a, b) < 0)
  {
    if n > 0 {
      assert a[0] == a[..n][0] == b[0] && a[1..][..n - 1] == a[..n][1..] == b[1..][..n - 1];
      PreRules(a[1..], b[1..], n - 1);
      IdentifierPrecedence(a[0], b[0], a[0]);
    }
  }

  /** Text is compared by its first different character; a text is higher than its proper beginnings. */
  lemma {:induction false} TextRules(a: string, b: string, n: nat)
    requires n <= |a| && n <= |b| && a[..n] == b[..n]
    ensures n == |a| < |b| ==> CompareText(a, b) < 0
    ensures n < |a| && n < |b| && a[n] < b[n] ==> CompareText(a, b) < 0
  {
    if n > 0 {
      assert a[0] == a[..n][0] == b[0] && a[1..][..n - 1] == a[..n][1..] == b[1..][..n - 1];
      TextRules(a[1..], b[1..], n - 1);
    }
  }

  /**
   The rules of section 11, one by one: major, minor and patch version numerically, a pre-release before its
   release, and pre-releases by their first different identifier.
  */
  lemma PrecedenceRules(a: Version, b: Version, n: nat)
    ensures a.major < b.major ==> Compare(a, b) < 0
    ensures a.major == b.major && a.minor < b.minor ==> Compare(a, b) < 0
    ensures a.major == b.major && a.minor == b.minor && a.patch < b.patch ==> Compare(a, b) < 0
    ensures a.(pre := []) == b && a.pre != [] ==> Compare(a, b) < 0
    ensures a.(pre := b.pre) == b && a.pre != [] && SameUpTo(a.pre, b.pre, n) ==>
              && (n == |a.pre| < |b.pre| ==> Compare(a, b) < 0)
              && (n < |a.pre| && n < |b.pre| ==>
                    var x, y := a.pre[n], b.pre[n];
                    && (x.Numeric? && y.Numeric? && x.n < y.n ==> Compare(a, b) < 0)
                    && (x.Numeric? && y.Alphanumeric? ==> Compare(a, b) < 0)
                    && (x.Alphanumeric? && y.Alphanumeric? ==>
                          forall k: nat :: k < |x.s| && k < |y.s| && x.s[..k] == y.s[..k] && x.s[k] < y.s[k] ==>
                                             Compare(a, b) < 0)
                    && (x.Alphanumeric? && y.Alphanumeric? && x.s < y.s ==> Compare(a, b) < 0))
  {
    if SameUpTo(a.pre, b.pre, n) {
      PreRules(a.pre, b.pre, n);
      if n < |a.pre| && n < |b.pre| && a.pre[n].Alphanumeric? && b.pre[n].Alphanumeric? {
        var s, t := a.pre[n].s, b.pre[n].s;
        forall k: nat | k < |s| && k < |t| && s[..k] == t[..k] && s[k] < t[k]
          ensures CompareText(s, t) < 0
        {
          TextRules(s, t, k);
        }
        if s < t {
          assert s[..|s|] == t[..|s|];
          TextRules(s, t, |s|);
        }
      }
    }
  }

  const WINDOW_START := Version(1, 16, 0, [])
  const WINDOW_END := Version(1, 19, 0, [])

  /** The range ">=1.16.0 <1.19.0". */
  predicate InWindow(v: Version) {
    Compare(v, WINDOW_START) >= 0 && Compare(v, WINDOW_END) < 0
  }

  predicate Supported(version: string, parse: string -> Option<Version>) {
    var v := parse(version);
    v.Some? && InWindow(v.value)
  }

  /** The window spelled out. It admits every pre-release of 1.19.0, which precedes 1.19.0. */
  lemma WindowExactly(v: Version)
    ensures InWindow(v) <==>
            && v.major == 1
            && (|| (v.minor == 16 && (v.patch > 0 || v.pre == []))
                || v.minor == 17
                || v.minor == 18
                || (v.minor == 19 && v.patch == 0 && v.pre != []))
  {
  }

  /** A version between two supported versions is supported. */
  lemma WindowHasNoGaps(a: Version, v: Version, b: Version)
    requires InWindow(a) && InWindow(b) && Compare(a, v) <= 0 && Compare(v, b) <= 0
    ensures InWindow(v)
  {
  }

  // ----- requested images -----

  /** One entry of ProviderConfig.spec.availableImages. */
  datatype Available = Available(name: string, versions: seq<string>, image: string)

  /** A requested component: the server or a plugin. */
  datatype Request = Request(name: string, version: string)

  datatype VeleroSpec = VeleroSpec(version: string, plugins: seq<Request>)

  const SERVER := "velero"

  function Tagged(image: string, version: string): string {
    image + ":" + version
  }

  /** An image reference: the image first, then a colon, then the version. */
  predicate IsReference(reference: string, image: string, version: string) {
    && |reference| == |image| + 1 + |version|
    && image <= reference && reference[|image|] == ':' && reference[|image| + 1..] == version
  }

  ghost predicate ListedAs(r: Request, a: Available, image: string) {
    a.name == r.name && r.version in a.versions && IsReference(image, a.image, r.version)
  }

  /** Entry `i` is the first one that lists the name and the version. */
  ghost predicate FirstListing(r: Request, available: seq<Available>, i: int) {
    && 0 <= i < |available| && available[i].name == r.name && r.version in available[i].versions
    && forall j :: 0 <= j < i ==> !(available[j].name == r.name && r.version in available[j].versions)
  }

  ghost predicate Listed(r: Request, available: seq<Available>) {
    exists i :: 0 <= i < |available| && available[i].name == r.name && r.version in available[i].versions
  }

  /** The first entry that lists the name and the version decides; "" when there is none. */
  function ImageOf(r: Request, available: seq<Available>): string {
    if available == [] then ""
    else if available[0].name == r.name && r.version in available[0].versions then
      Tagged(available[0].image, r.version)
    else ImageOf(r, available[1..])
  }

  lemma {:induction false} ImageOfFirstListing(r: Request, available: seq<Available>, i: nat)
    requires FirstListing(r, available, i)
    ensures ImageOf(r, available) == available[i].image + ":" + r.version
  {
    if i > 0 {
      ImageOfFirstListing(r, available[1..], i - 1);
    }
  }

  lemma {:induction false} SomeListingIsFirst(r: Request, available: seq<Available>, n: nat) returns (k: nat)
    requires n < |available| && available[n].name == r.name && r.version in available[n].versions
    ensures FirstListing(r, available, k)
  {
    k := n;
    if j :| 0 <= j < n && available[j].name == r.name && r.version in available[j].versions {
      k := SomeListingIsFirst(r, available, j);
    }
  }

  /** Searches the entries in order; the first one that lists name and version decides, "" means none does. */
  method ResolveImage(r: Request, available: seq<Available>) returns (image: string)
    ensures image == ImageOf(r, available)
    ensures image == "" <==> !Listed(r, available)
    ensures image != "" ==> exists i :: FirstListing(r, available, i)
                                        && image == available[i].image + ":" + r.version
  {
    for i := 0 to |available|
      invariant ImageOf(r, available) == ImageOf(r, available[i..])
      invariant forall j :: 0 <= j < i ==> !(available[j].name == r.name && r.version in available[j].versions)
    {
      var a := available[i];
      assert available[i..][1..] == available[i + 1..];
      if a.name != r.name {
        continue;
      }
      for j := 0 to |a.versions|
        invariant r.version !in a.versions[..j]
      {
        if a.versions[j] == r.version {
          assert FirstListing(r, available, i);
          ImageOfFirstListing(r, available, i);
          assert ImageOf(r, available)[|a.image|] == ':';
          return Tagged(a.image, a.versions[j]);
        }
      }
      assert a.versions[..|a.versions|] == a.versions;
    }
    return "";
  }

  /** An empty result means exactly "not listed"; otherwise the result is that of a listed entry. */
  lemma {:induction false} ImageOfIsListed(r: Request, available: seq<Available>)
    ensures ImageOf(r, available) == "" <==> !Listed(r, available)
    ensures ImageOf(r, available) != "" ==>
              exists a :: a in available && ListedAs(r, a, ImageOf(r, available))
  {
    if available != [] {
      ImageOfIsListed(r, available[1..]);
      if available[0].name == r.name && r.version in available[0].versions {
        var image := Tagged(available[0].image, r.version);
        assert image[|available[0].image|] == ':' && image[|available[0].image| + 1..] == r.version;
        assert ListedAs(r, available[0], ImageOf(r, available));
      } else if Listed(r, available) {
        var i :| 0 <= i < |available| && available[i].name == r.name && r.version in available[i].versions;
        assert available[1..][i - 1] == available[i];
      }
    }
  }

  /** The server first, then the plugins. */
  function Requests(spec: VeleroSpec): seq<Request> {
    [Request(SERVER, spec.version)] + spec.plugins
  }

  /** The image map built from the first `n` requests, or None as soon as one is not available. */
  function ImagesUpTo(reqs: seq<Request>, available: seq<Available>, n: nat): Option<map<string, string>>
    requires n <= |reqs|
  {
    if n == 0 then Some(map[])
    else
      var before := ImagesUpTo(reqs, available, n - 1);
      var image := ImageOf(reqs[n - 1], available);
      if before.None? || image == "" then None else Some(before.value[reqs[n - 1].name := image])
  }

  function ImageMap(spec: VeleroSpec, available: seq<Available>): Option<map<string, string>> {
    ImagesUpTo(Requests(spec), available, |Requests(spec)|)
  }

  lemma {:induction false} UnavailableStays(reqs: seq<Request>, available: seq<Available>, m: nat, n: nat)
    requires m <= n <= |reqs|
    requires ImagesUpTo(reqs, available, m).None?
    ensures ImagesUpTo(reqs, available, n).None?
  {
    if m < n {
      UnavailableStays(reqs, available, m, n - 1);
    }
  }

  method ResolveImages(spec: VeleroSpec, available: seq<Available>) returns (images: Option<map<string, string>>)
    ensures images == ImageMap(spec, available)
  {
    hide FirstListing, Listed, ImageOf;
    ghost var reqs := Requests(spec);
    var server := ResolveImage(Request(SERVER, spec.version), available);
    assert ImagesUpTo(reqs, available, 0) == Some(map[]);
    if server == "" {
      assert ImagesUpTo(reqs, available, 1).None?;
      UnavailableStays(reqs, available, 1, |reqs|);
      return None;
    }
    var res: map<string, string> := map[SERVER := server];
    for i := 0 to |spec.plugins|
      invariant ImagesUpTo(reqs, available, i + 1) == Some(res)
    {
      assert reqs[i + 1] == spec.plugins[i];
      var image := ResolveImage(spec.plugins[i], available);
      if image == "" {
        UnavailableStays(reqs, available, i + 2, |reqs|);
        return None;
      }
      res := res[spec.plugins[i].name := image];
    }
    return Some(res);
  }

  lemma {:induction false} UnavailableExactly(reqs: seq<Request>, available: seq<Available>, n: nat)
    requires n <= |reqs|
    ensures ImagesUpTo(reqs, available, n).None? <==> exists i :: 0 <= i < n && !Listed(reqs[i], available)
  {
    if n > 0 {
      UnavailableExactly(reqs, available, n - 1);
      ImageOfIsListed(reqs[n - 1], available);
    }
  }

  /** Position `i` is the last of the first `n` requests that names the component of request `i`. */
  ghost predicate LastAt(reqs: seq<Request>, n: int, i: int) {
    0 <= i < n <= |reqs| && forall j :: i < j < n ==> reqs[j].name != reqs[i].name
  }

  lemma {:induction false} LastRequestDecides(reqs: seq<Request>, available: seq<Available>, n: nat, i: nat)
    requires LastAt(reqs, n, i)
    requires ImagesUpTo(reqs, available, n).Some?
    ensures reqs[i].name in ImagesUpTo(reqs, available, n).value
    ensures ImagesUpTo(reqs, available, n).value[reqs[i].name] == ImageOf(reqs[i], available) != ""
  {
    if i < n - 1 {
      LastRequestDecides(reqs, available, n - 1, i);
    }
  }

  lemma {:induction false} FindLast(reqs: seq<Request>, i: nat) returns (j: nat)
    requires i < |reqs|
    ensures i <= j && LastAt(reqs, |reqs|, j) && reqs[j].name == reqs[i].name
    decreases |reqs| - i
  {
    j := i;
    if k :| i < k < |reqs| && reqs[k].name == reqs[i].name {
      j := FindLast(reqs, k);
    }
  }

  /** Resolution fails exactly when some requested name and version is not listed. */
  lemma ResolutionFailsExactly(spec: VeleroSpec, available: seq<Available>)
    ensures ImageMap(spec, available).None? <==>
            exists r :: r in Requests(spec) && !Listed(r, available)
  {
    var reqs := Requests(spec);
    UnavailableExactly(reqs, available, |reqs|);
    if r :| r in reqs && !Listed(r, available) {
      var i :| 0 <= i < |reqs| && reqs[i] == r;
    }
  }

  /** Each component gets the image of the last request made under its name, and that image is listed. */
  lemma LastRequestWins(spec: VeleroSpec, available: seq<Available>, i: nat) returns (j: nat, a: Available)
    requires ImageMap(spec, available).Some?
    requires i < |Requests(spec)|
    ensures LastAt(Requests(spec), |Requests(spec)|, j) && Requests(spec)[j].name == Requests(spec)[i].name
    ensures Requests(spec)[i].name in ImageMap(spec, available).value
    ensures a in available && ListedAs(Requests(spec)[j], a, ImageMap(spec, available).value[Requests(spec)[i].name])
  {
    var reqs := Requests(spec);
    j := FindLast(reqs, i);
    LastRequestDecides(reqs, available, |reqs|, j);
    ImageOfIsListed(reqs[j], available);
    a :| a in available && ListedAs(reqs[j], a, ImageOf(reqs[j], available));
  }

  /** A tag holds no colon, so an image reference can be taken apart again. */
  predicate IsTag(version: string) {
    ':' !in version
  }

  lemma ReferenceKeepsVersion(t: string, image: string, image': string, v: string, v': string)
    requires IsTag(v) && IsTag(v') && IsReference(t, image, v) && IsReference(t, image', v')
    ensures v == v'
  {
    assert t[|image|] == ':' && t[|image'|] == ':';
    assert |image| == |image'|;
  }

  /**
   When a component gets the image it was requested with, exactly: the last request under its name,
   at `j`, asks for the same version.
  */
  lemma OwnImageExactly(spec: VeleroSpec, available: seq<Available>, i: nat, j: nat)
    requires ImageMap(spec, available).Some?
    requires var reqs := Requests(spec); i < |reqs| && LastAt(reqs, |reqs|, j) && reqs[j].name == reqs[i].name
    ensures Requests(spec)[i].name in ImageMap(spec, available).value
    ensures var reqs, image := Requests(spec), ImageMap(spec, available).value[Requests(spec)[i].name];
            && image == ImageOf(reqs[j], available)
            && (reqs[j].version == reqs[i].version ==> image == ImageOf(reqs[i], available))
            && (IsTag(reqs[i].version) && IsTag(reqs[j].version) && image == ImageOf(reqs[i], available) ==>
                  reqs[j].version == reqs[i].version)
  {
    var reqs := Requests(spec);
    LastRequestDecides(reqs, available, |reqs|, j);
    assert reqs[j].version == reqs[i].version ==> reqs[j] == reqs[i];
    UnavailableExactly(reqs, available, |reqs|);
    ImageOfIsListed(reqs[i], available);
    ImageOfIsListed(reqs[j], available);
    var a :| a in available && ListedAs(reqs[i], a, ImageOf(reqs[i], available));
    var b :| b in available && ListedAs(reqs[j], b, ImageOf(reqs[j], available));
    if IsTag(reqs[i].version) && IsTag(reqs[j].version) && ImageOf(reqs[i], available) == ImageOf(reqs[j], available) {
      ReferenceKeepsVersion(ImageOf(reqs[i], available), a.image, b.image, reqs[i].version, reqs[j].version);
    }
  }
}
