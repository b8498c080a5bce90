/** Deciding the version: from the repository's tag history (`git describe`)
    or from a project manifest, with the fallbacks of each. */
module Resolution {
  import opened Wrappers
  import opened Text
  import opened Versions
  import opened Effects

  /** The describe query: the nearest tag of the shape `<major>.<minor>`. */
  const DescribeCommand := "git describe --match='[0-9]*.[0-9]*' --exclude='[0-9]*.[0-9]*[0-9]' --exclude='*[^0-9.]*' --tags"

  /** What `getGitVersion` returns when the describe query fails. */
  const FallbackVersion := Version(Num(0), Num(0), Num(1))

  /** The message thrown when no manifest strategy yields a version. */
  const Undeterminable := "Could not determine package version"

  /** Element `i` of the array `split` returned: `undefined` past its end. */
  function FieldAt(fields: seq<string>, i: nat): Component {
    if i < |fields| then Str(fields[i]) else Undefined
  }

  /** `stdout.trim().replaceAll("-", ".").split(".")`. */
  function DescribeFields(stdout: string): (fields: seq<string>)
    ensures |fields| >= 1
    ensures forall f :: f in fields ==> '.' !in f && '-' !in f
  {
    var line := ReplaceAll(Trim(stdout), '-', '.');
    SplitPiecesFree(line, '.');
    JoinSplit(line, '.');
    var fields := Split(line, '.');
    forall f | f in fields ensures '-' !in f {
      PieceOfJoinHasNo(fields, f, '-');
    }
    fields
  }

  /** A character absent from a joined string is absent from each piece. */
  lemma {:induction false} PieceOfJoinHasNo(parts: seq<string>, p: string, c: char)
    requires p in parts && c != '.' && c !in Join(parts, ".")
    ensures c !in p
  {
    if |parts| > 1 {
      assert Join(parts, ".") == parts[0] + "." + Join(parts[1..], ".");
      if p != parts[0] {
        PieceOfJoinHasNo(parts[1..], p, c);
      }
    }
  }

  /** A string field holds neither separator of the describe line. */
  predicate Separated(c: Component) {
    c.Str? ==> '.' !in c.s && '-' !in c.s
  }

  /** The parse inside `getGitVersion`: the fields at positions 0, 1 and 2
      are major, minor and build, a missing build defaulting to 0. */
  function ParseDescribe(stdout: string): (v: Version)
    ensures v.major.Str? && !v.build.Undefined?
    ensures v.minor.Undefined? ==> v.build == Num(0)
    ensures |DescribeFields(stdout)| < 3 ==> v.build == Num(0)
    ensures |DescribeFields(stdout)| >= 3 ==> v.build == Str(DescribeFields(stdout)[2])
    ensures Separated(v.major) && Separated(v.minor) && Separated(v.build)
  {
    var fields := DescribeFields(stdout);
    NewVersion(FieldAt(fields, 0), FieldAt(fields, 1), FieldAt(fields, 2))
  }

  /** `getGitVersion` given the outcome of the describe query: it never
      fails, answering FallbackVersion when the query does. */
  function GitVersion(outcome: Response): (v: Version)
    ensures outcome.Failed? ==> v == FallbackVersion
    ensures outcome.Completed? ==> v.major.Str? && v.build != Undefined
  {
    match outcome
    case Completed(stdout) => ParseDescribe(stdout)
    case Failed(_) => FallbackVersion
  }

  /** Output of the form `<major>.<minor>-<distance>-g<hash>` followed by a
      line feed parses to major, minor and the commit distance as build. */
  lemma DescribeWithDistance(major: string, minor: string, distance: string, hash: string)
    requires AllDigits(major) && AllDigits(minor) && AllDigits(distance)
    requires '-' !in hash && '.' !in hash
    requires hash == [] || !IsWhitespace(hash[|hash| - 1])
    ensures ParseDescribe(major + "." + minor + "-" + distance + "-g" + hash + "\n")
         == Version(Str(major), Str(minor), Str(distance))
  {
    var tail := "g" + hash;
    var line := major + "." + minor + "-" + distance + "-" + tail;
    assert major + "." + minor + "-" + distance + "-g" + hash + "\n" == line + "\n";
    assert tail[|tail| - 1] == if hash == [] then 'g' else hash[|hash| - 1];
    DescribeLineFieldsTrimmed(major, minor, distance, tail);
  }

  /** The describe line with its line feed splits into its four fields. */
  lemma DescribeLineFieldsTrimmed(major: string, minor: string, distance: string, tail: string)
    requires AllDigits(major) && AllDigits(minor) && AllDigits(distance)
    requires '-' !in tail && '.' !in tail && tail != [] && !IsWhitespace(tail[|tail| - 1])
    ensures DescribeFields(major + "." + minor + "-" + distance + "-" + tail + "\n")
         == [major, minor, distance, tail]
  {
    var line := major + "." + minor + "-" + distance + "-" + tail;
    NoDotInDigits(major);
    NoDotInDigits(minor);
    NoDotInDigits(distance);
    NoHyphenInDigits(major);
    NoHyphenInDigits(minor);
    NoHyphenInDigits(distance);
    assert line[..|major|] == major;
    assert line[|line| - |tail|..] == tail;
    LineTrimmed(line, major, tail);
    DescribeLineFields(major, minor, distance, tail);
  }

  /** A line that starts with digits or a dot and ends in a non-blank tail
      loses exactly its final line feed to trimming. */
  lemma LineTrimmed(line: string, major: string, tail: string)
    requires AllDigits(major) && tail != [] && !IsWhitespace(tail[|tail| - 1])
    requires |line| > |major| + |tail| && line[..|major|] == major && line[|major|] == '.'
    requires line[|line| - |tail|..] == tail
    ensures Trim(line + "\n") == line
  {
    assert !IsWhitespace(line[0]) by {
      if major != [] { assert line[0] == major[0] && IsDigit(major[0]); }
    }
    assert line[|line| - 1] == tail[|tail| - 1];
    TrimTrailingNewline(line);
  }

  /** The fields of `<major>.<minor>-<distance>-<tail>` once hyphens become
      dots. */
  lemma DescribeLineFields(major: string, minor: string, distance: string, tail: string)
    requires '.' !in major && '.' !in minor && '.' !in distance && '.' !in tail
    requires '-' !in major && '-' !in minor && '-' !in distance && '-' !in tail
    ensures Split(ReplaceAll(major + "." + minor + "-" + distance + "-" + tail, '-', '.'), '.')
         == [major, minor, distance, tail]
  {
    var r3 := distance + ['-'] + tail;
    var r2 := minor + ['-'] + r3;
    assert major + "." + minor + "-" + distance + "-" + tail == major + ['.'] + r2;
    ReplaceSeparatorAfter(major, '.', r2);
    ReplaceSeparatorAfter(minor, '-', r3);
    ReplaceSeparatorAfter(distance, '-', tail);
    ReplaceAllAbsent(tail, '-', '.');
    SplitAfter(major, '.', ReplaceAll(r2, '-', '.'));
    SplitAfter(minor, '.', ReplaceAll(r3, '-', '.'));
    SplitAfter(distance, '.', tail);
    SplitWithout(tail, '.');
  }

  /** Replacing hyphens in a hyphen-free prefix followed by a separator. */
  lemma ReplaceSeparatorAfter(a: string, c: char, b: string)
    requires '-' !in a && (c == '-' || c == '.')
    ensures ReplaceAll(a + [c] + b, '-', '.') == a + ['.'] + ReplaceAll(b, '-', '.')
  {
    var l, r := ReplaceAll(a + [c] + b, '-', '.'), a + ['.'] + ReplaceAll(b, '-', '.');
    forall i | 0 <= i < |l| ensures l[i] == r[i] {
      if i < |a| {
        assert (a + [c] + b)[i] == a[i] != '-';
      } else if i > |a| {
        assert (a + [c] + b)[i] == b[i - |a| - 1];
      }
    }
  }

  /** Output naming the tag itself, with no commit distance, parses to
      major and minor with the build defaulting to 0. */
  lemma DescribeExactTag(major: string, minor: string)
    requires AllDigits(major) && AllDigits(minor) && |minor| > 0
    ensures ParseDescribe(major + "." + minor + "\n") == Version(Str(major), Str(minor), Num(0))
  {
    var line := major + "." + minor;
    NoDotInDigits(major);
    NoDotInDigits(minor);
    NoHyphenInDigits(major);
    NoHyphenInDigits(minor);
    assert line[|line| - |minor|..] == minor;
    LineTrimmed(line, major, minor);
    ReplaceSeparatorAfter(major, '.', minor);
    ReplaceAllAbsent(minor, '-', '.');
    assert line == major + ['.'] + minor;
    SplitAfter(major, '.', minor);
    SplitWithout(minor, '.');
  }

  lemma NoHyphenInDigits(s: string)
    requires AllDigits(s)
    ensures '-' !in s
  {
    forall i | 0 <= i < |s| ensures s[i] != '-' {
      assert IsDigit(s[i]);
    }
  }

  /** The version a manifest's dotted version string gives: the first two
      components with the build forced to 0. */
  function ManifestVersion(version: string): (v: Version)
    ensures v.major.Str? && '.' !in v.major.s && v.build == Num(0)
    ensures v.minor.Undefined? <==> '.' !in version
    ensures v.minor.Str? ==> '.' !in v.minor.s
  {
    var parts := Split(version, '.');
    SplitPiecesFree(version, '.');
    JoinSplit(version, '.');
    Version(Str(parts[0]), FieldAt(parts, 1), Num(0))
  }

  /** A version string `<major>.<minor>` with or without further dotted
      components keeps major and minor and drops the rest. */
  lemma {:induction false} ManifestKeepsMajorMinor(major: string, minor: string, rest: string)
    requires '.' !in major && '.' !in minor
    requires rest == [] || rest[0] == '.'
    ensures ManifestVersion(major + "." + minor + rest) == Version(Str(major), Str(minor), Num(0))
  {
    assert major + "." + minor + rest == major + ['.'] + (minor + rest);
    SplitAfter(major, '.', minor + rest);
    if rest == [] {
      assert minor + rest == minor;
      SplitWithout(minor, '.');
    } else {
      assert minor + rest == minor + ['.'] + rest[1..];
      SplitAfter(minor, '.', rest[1..]);
    }
  }

  /** A version string with a single component leaves minor `undefined`,
      which the minor tag then spells out. */
  lemma OneComponentManifest(major: string)
    requires '.' !in major
    ensures ManifestVersion(major) == Version(Str(major), Undefined, Num(0))
    ensures ManifestVersion(major).MinorTag() == major + ".undefined"
  {
    SplitWithout(major, '.');
  }

  /** A manifest strategy (`_getNodePackageVersion`,
      `_getPythonPoetryPackageVersion`): `null` when the file or the version
      field could not be read, a version otherwise. */
  function ManifestStrategy(field: Option<string>): (v: Option<Version>)
    ensures v.Some? <==> field.Some?
    ensures v.Some? ==> v.value.build == Num(0) && v.value.major.Str?
  {
    match field
    case None => None
    case Some(version) => Some(ManifestVersion(version))
  }

  /** What one strategy of the cascade did: returned a version or `null`, or
      threw. */
  datatype Attempt = Returned(result: Option<Version>) | Threw {
    predicate Found() {
      Returned? && result.Some?
    }
  }

  /** `getPackageVersion`'s loop: the first attempt that returned a version
      wins; attempts that threw or returned `null` are passed over; when
      none is left it throws. */
  method GetPackageVersion(attempts: seq<Attempt>) returns (r: Result<Version, string>)
    ensures r.Success? <==> exists j :: 0 <= j < |attempts| && attempts[j].Found()
    ensures r.Success? ==> exists j :: 0 <= j < |attempts| && attempts[j] == Returned(Some(r.value))
                                     && forall k :: 0 <= k < j ==> !attempts[k].Found()
    ensures r.Failure? ==> r.error == Undeterminable
  {
    var i := 0;
    while i < |attempts|
      invariant 0 <= i <= |attempts|
      invariant forall k :: 0 <= k < i ==> !attempts[k].Found()
    {
      if attempts[i].Found() {
        return Success(attempts[i].result.value);
      }
      i := i + 1;
    }
    return Failure(Undeterminable);
  }

  /** The package version from the two manifests, the Node package first
      and the Poetry project second. */
  method ResolvePackageVersion(packageJson: Option<string>, pyproject: Option<string>)
    returns (r: Result<Version, string>)
    ensures packageJson.Some? ==> r == Success(ManifestVersion(packageJson.value))
    ensures packageJson.None? && pyproject.Some? ==> r == Success(ManifestVersion(pyproject.value))
    ensures packageJson.None? && pyproject.None? ==> r == Failure(Undeterminable)
  {
    var attempts := [Returned(ManifestStrategy(packageJson)), Returned(ManifestStrategy(pyproject))];
    r := GetPackageVersion(attempts);
    if packageJson.Some? {
      assert attempts[0].Found();
      var j :| 0 <= j < |attempts| && attempts[j] == Returned(Some(r.value))
               && forall k :: 0 <= k < j ==> !attempts[k].Found();
      assert j == 0;
    } else if pyproject.Some? {
      assert !attempts[0].Found() && attempts[1].Found();
    }
  }
}
