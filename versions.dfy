/** The `Version` and `Image` value types and the tag strings they render. */
module Versions {
  import opened Wrappers
  import opened Text
  import opened Inputs

  /** A version field as JavaScript holds it: a number when the code builds a
      version from literals, a string when the field comes out of `split`,
      `undefined` when `split` produced too few pieces. */
  datatype Component = Num(n: nat) | Str(s: string) | Undefined

  /** `${c}` inside a template literal: a number in decimal, a string as
      it is, `undefined` spelled out. */
  function Render(c: Component): (r: string)
    ensures c.Num? ==> r != "" && AllDigits(r) && DigitsValue(r) == c.n
    ensures c.Num? ==> r[0] != '0' || c.n == 0
    ensures c.Str? ==> r == c.s
    ensures c.Undefined? ==> r == "undefined"
  {
    match c
    case Num(n) => NatToStringRoundTrip(n); NatToString(n)
    case Str(s) => s
    case Undefined => "undefined"
  }

  /** `c > 0`: a string is first converted to a number, `undefined` to NaN,
      and NaN is greater than nothing. */
  predicate IsPositive(c: Component) {
    match c
    case Num(n) => n > 0
    case Str(s) => ToNumber(s).Integer? && ToNumber(s).value > 0
    case Undefined => false
  }

  /** A number and its decimal rendering compare alike against zero. */
  lemma IsPositiveOfRendering(n: nat)
    ensures IsPositive(Str(NatToString(n))) <==> IsPositive(Num(n))
  {
    ToNumberOfRendering(n);
  }

  /** A build held as a string of digits is positive exactly when one of
      its digits is not `0`: `"007" > 0` holds, `"000" > 0` does not. */
  lemma StringBuildPositive(s: string)
    requires s != "" && AllDigits(s)
    ensures IsPositive(Str(s)) <==> exists i :: 0 <= i < |s| && s[i] != '0'
  {
    ToNumberOfDigits(s);
    DigitsValuePositive(s);
  }

  datatype Version = Version(major: Component, minor: Component, build: Component) {

    /** `asMinorTag()`: `major.minor`. */
    function MinorTag(): string {
      Render(major) + "." + Render(minor)
    }

    /** `asFullTag()`: `major.minor.build`. */
    function FullTag(): string {
      Render(major) + "." + Render(minor) + "." + Render(build)
    }
  }

  /** `new Version(major, minor, build)`, where an `undefined` build takes
      the parameter's default 0. */
  function NewVersion(major: Component, minor: Component, build: Component): (v: Version)
    ensures v.major == major && v.minor == minor
    ensures build.Undefined? ==> v.build == Num(0)
    ensures !build.Undefined? ==> v.build == build
  {
    Version(major, minor, if build.Undefined? then Num(0) else build)
  }

  /** The full tag is the minor tag extended by the build, so the two always
      differ. */
  lemma FullTagExtendsMinorTag(v: Version)
    ensures v.FullTag() == v.MinorTag() + "." + Render(v.build)
    ensures v.FullTag() != v.MinorTag()
  {
    assert |v.FullTag()| > |v.MinorTag()|;
  }

  /** For numeric fields the renderings are the decimal forms. */
  lemma NumericTags(major: nat, minor: nat, build: nat)
    ensures Version(Num(major), Num(minor), Num(build)).MinorTag()
         == NatToString(major) + "." + NatToString(minor)
    ensures Version(Num(major), Num(minor), Num(build)).FullTag()
         == NatToString(major) + "." + NatToString(minor) + "." + NatToString(build)
  {
  }

  /** A full tag of numeric fields splits back into the three decimal
      renderings, whose values are the fields. */
  lemma {:induction false} FullTagSplitsBack(major: nat, minor: nat, build: nat)
    ensures var parts := Split(Version(Num(major), Num(minor), Num(build)).FullTag(), '.');
      && parts == [NatToString(major), NatToString(minor), NatToString(build)]
      && DigitsValue(parts[0]) == major && DigitsValue(parts[1]) == minor
      && DigitsValue(parts[2]) == build
  {
    var a, b, c := NatToString(major), NatToString(minor), NatToString(build);
    NoDotInDigits(a);
    NoDotInDigits(b);
    NoDotInDigits(c);
    assert a + "." + b + "." + c == a + ['.'] + (b + ['.'] + c);
    SplitAfter(a, '.', b + ['.'] + c);
    SplitAfter(b, '.', c);
    SplitWithout(c, '.');
    NatToStringRoundTrip(major);
    NatToStringRoundTrip(minor);
    NatToStringRoundTrip(build);
  }

  lemma NoDotInDigits(s: string)
    requires AllDigits(s)
    ensures '.' !in s
  {
    forall i | 0 <= i < |s| ensures s[i] != '.' {
      assert IsDigit(s[i]);
    }
  }

  /** A container image identity. */
  datatype Image = Image(registry: string, name: string) {

    /** `registry/name:tag`. */
    function Reference(tag: string): string {
      registry + "/" + name + ":" + tag
    }

    /** `asTags(version)`: the minor-tag reference always, followed by the
        full-tag reference exactly when the build compares greater than 0. */
    function AsTags(version: Version): (tags: seq<string>)
      ensures 1 <= |tags| <= 2
      ensures tags[0] == registry + "/" + name + ":" + version.MinorTag()
      ensures |tags| == 2 <==> IsPositive(version.build)
      ensures |tags| == 2 ==> tags[1] == registry + "/" + name + ":" + version.FullTag()
    {
      var tags := [Reference(version.MinorTag())];
      if IsPositive(version.build) then tags + [Reference(version.FullTag())] else tags
    }
  }

  /** The tags of an image are pairwise different. */
  lemma AsTagsDistinct(image: Image, version: Version)
    ensures var tags := image.AsTags(version);
      forall i, j :: 0 <= i < j < |tags| ==> tags[i] != tags[j]
  {
    FullTagExtendsMinorTag(version);
    var tags := image.AsTags(version);
    if |tags| == 2 {
      assert |tags[1]| > |tags[0]|;
    }
  }

  /** The input naming the default registry. */
  const DockerRepository := "docker-repository"

  /** `new Image(name, registry)`: a missing or empty registry falls back to
      the required `docker-repository` input, whose absence is an error. */
  function NewImage(env: map<string, string>, name: string, registry: Option<string>): (r: Result<Image, string>)
    ensures r.Failure? <==>
      (registry.None? || registry.value == "") && GetInput(env, DockerRepository).Failure?
    ensures r.Failure? ==> r.error == GetInput(env, DockerRepository).error
    ensures r.Success? ==> r.value.name == name
    ensures r.Success? && registry.Some? && registry.value != "" ==> r.value.registry == registry.value
    ensures r.Success? && (registry.None? || registry.value == "") ==>
              r.value.registry == GetInput(env, DockerRepository).value
  {
    if registry.Some? && registry.value != "" then Success(Image(registry.value, name))
    else
      var input := GetInput(env, DockerRepository);
      if input.Success? then Success(Image(input.value, name)) else Failure(input.error)
  }
}
