/**
 * The version string of a piece of software (Libraries/SoftwareVersion.cs):
 * a `System.Version` number rendered with `Digit` significant components,
 * followed by a free-form suffix.
 */
module SoftwareVersions {
  import opened Wrappers

  /** System.Version: Build and Revision are -1 when the version was made without them. */
  datatype Version = Version(major: int, minor: int, build: int, revision: int)

  /** The three settable properties; `null` is `None`. */
  datatype SoftwareVersion = SoftwareVersion(number: Option<Version>, digit: int, suffix: Option<string>)

  /** A version made by the parameterless constructor: 1.0.0.0, three digits, empty suffix. */
  const Default: SoftwareVersion := SoftwareVersion(Some(Version(1, 0, 0, 0)), 3, Some(""))

  /** The decimal digits of a natural number, most significant first, with no leading zero. */
  function NatToString(n: nat): (s: string)
    ensures |s| > 0
    ensures forall i :: 0 <= i < |s| ==> '0' <= s[i] <= '9'
    ensures n == 0 ==> s == "0"
    ensures n > 0 ==> s[0] != '0'
    decreases n
  {
    if n < 10 then [DigitChar(n)] else NatToString(n / 10) + [DigitChar(n % 10)]
  }

  /** The decimal digit character for 0..9. */
  function DigitChar(d: nat): (c: char)
    requires d < 10
    ensures '0' <= c <= '9' && c as int - '0' as int == d
  {
    ('0' as int + d) as char
  }

  /** The value a decimal digit character stands for. */
  function DigitValue(c: char): nat
  {
    if '0' <= c <= '9' then c as int - '0' as int else 0
  }

  /** The number a string of decimal digits denotes, most significant first. */
  function DecimalValue(s: string): nat
  {
    if |s| == 0 then 0 else DecimalValue(s[..|s| - 1]) * 10 + DigitValue(s[|s| - 1])
  }

  /** Reading back the digits of n gives n. */
  lemma {:induction false} NatToStringRoundTrip(n: nat)
    ensures DecimalValue(NatToString(n)) == n
    decreases n
  {
    var s := NatToString(n);
    if n >= 10 {
      NatToStringRoundTrip(n / 10);
      assert s[..|s| - 1] == NatToString(n / 10);
    }
  }

  /**
   * The text of an integer is its digits without a leading zero (the single
   * digit "0" for zero), after a minus sign exactly when it is negative.
   */
  lemma IntToStringRoundTrip(n: int)
    ensures n >= 0 ==> DecimalValue(IntToString(n)) == n
    ensures n == 0 ==> IntToString(n) == "0"
    ensures n > 0 ==> IntToString(n)[0] != '0'
    ensures n < 0 ==> && IntToString(n)[0] == '-' && |IntToString(n)| > 1
                      && IntToString(n)[1] != '0'
                      && DecimalValue(IntToString(n)[1..]) == -n
  {
    if n >= 0 {
      NatToStringRoundTrip(n);
    } else {
      NatToStringRoundTrip(-n);
      assert IntToString(n)[1..] == NatToString(-n);
    }
  }

  /** How `StringBuilder.Append(int)` renders an integer: a minus sign, then the digits. */
  function IntToString(n: int): (s: string)
    ensures |s| > 0
    ensures forall i :: 0 <= i < |s| ==> s[i] != '.'
    ensures n >= 0 <==> s[0] != '-'
  {
    if n < 0 then "-" + NatToString(-n) else NatToString(n)
  }

  /** The number of components rendered: `Digit` clamped to 1..4. */
  function Shown(digit: int): (k: nat)
    ensures 1 <= k <= 4
  {
    if digit <= 1 then 1 else if digit >= 4 then 4 else digit
  }

  /** CreateVersion: Major, then Minor, Build and Revision as far as `Digit` asks, separated by dots. */
  function CreateVersion(v: SoftwareVersion): (r: string)
    ensures v.number.None? <==> r == ""
    ensures v.number.Some? ==>
      var major := IntToString(v.number.value.major);
      |major| <= |r| && r[..|major|] == major
  {
    match v.number
    case None => ""
    case Some(n) =>
      var major := IntToString(n.major);
      if v.digit <= 1 then major
      else
        var minor := major + "." + IntToString(n.minor);
        if v.digit <= 2 then minor
        else
          var build := minor + "." + IntToString(n.build);
          if v.digit <= 3 then build
          else build + "." + IntToString(n.revision)
  }

  /** ToString: the version part, then the suffix when it is neither null nor empty. */
  function ToString(v: SoftwareVersion): (r: string)
    ensures var version := CreateVersion(v);
      && |version| <= |r| && r[..|version|] == version
      && r[|version|..] == if v.suffix.Some? then v.suffix.value else ""
  {
    var dest := CreateVersion(v);
    if v.suffix.Some? && v.suffix.value != "" then dest + v.suffix.value else dest
  }

  // ---------------------------------------------------------------------------
  // An independent description of the rendering: the first Shown(digit)
  // components, each in decimal, joined with ".".

  function Components(n: Version): seq<int>
  {
    [n.major, n.minor, n.build, n.revision]
  }

  function JoinWithDots(parts: seq<int>): string
  {
    if |parts| == 0 then ""
    else if |parts| == 1 then IntToString(parts[0])
    else JoinWithDots(parts[..|parts| - 1]) + "." + IntToString(parts[|parts| - 1])
  }

  function CountDots(s: string): nat
  {
    if |s| == 0 then 0 else CountDots(s[..|s| - 1]) + (if s[|s| - 1] == '.' then 1 else 0)
  }

  lemma {:induction false} CountDotsAppend(a: string, b: string)
    ensures CountDots(a + b) == CountDots(a) + CountDots(b)
    decreases |b|
  {
    if |b| == 0 {
      assert a + b == a;
    } else {
      assert (a + b)[..|a + b| - 1] == a + b[..|b| - 1];
      CountDotsAppend(a, b[..|b| - 1]);
    }
  }

  lemma {:induction false} NoDotsInNumber(n: int)
    ensures CountDots(IntToString(n)) == 0
  {
    var s := IntToString(n);
    NoDotsIn(s);
  }

  lemma {:induction false} NoDotsIn(s: string)
    requires forall i :: 0 <= i < |s| ==> s[i] != '.'
    ensures CountDots(s) == 0
    decreases |s|
  {
    if |s| > 0 {
      NoDotsIn(s[..|s| - 1]);
    }
  }

  /** Joining k >= 1 numbers puts exactly k - 1 dots between them. */
  lemma {:induction false} JoinDots(parts: seq<int>)
    requires |parts| >= 1
    ensures CountDots(JoinWithDots(parts)) == |parts| - 1
    decreases |parts|
  {
    if |parts| == 1 {
      NoDotsInNumber(parts[0]);
    } else {
      var init := parts[..|parts| - 1];
      var last := IntToString(parts[|parts| - 1]);
      JoinDots(init);
      NoDotsInNumber(parts[|parts| - 1]);
      CountDotsAppend(JoinWithDots(init), ".");
      CountDotsAppend(JoinWithDots(init) + ".", last);
    }
  }

  /** CreateVersion renders exactly the first Shown(Digit) components, joined with dots. */
  lemma CreateVersionIsJoin(v: SoftwareVersion)
    requires v.number.Some?
    ensures CreateVersion(v) == JoinWithDots(Components(v.number.value)[..Shown(v.digit)])
  {
    var c := Components(v.number.value);
    assert c[..2][..1] == c[..1];
    assert c[..3][..2] == c[..2];
    assert c[..4][..3] == c[..3];
    assert JoinWithDots(c[..1]) == IntToString(c[0]);
    assert JoinWithDots(c[..2]) == IntToString(c[0]) + "." + IntToString(c[1]);
    assert JoinWithDots(c[..3]) == JoinWithDots(c[..2]) + "." + IntToString(c[2]);
    assert JoinWithDots(c[..4]) == JoinWithDots(c[..3]) + "." + IntToString(c[3]);
  }

  /** A non-null number renders with min(max(Digit, 1), 4) - 1 separating dots. */
  lemma VersionDotCount(v: SoftwareVersion)
    requires v.number.Some?
    ensures CountDots(CreateVersion(v)) == Shown(v.digit) - 1
  {
    CreateVersionIsJoin(v);
    JoinDots(Components(v.number.value)[..Shown(v.digit)]);
  }

  /** The per-Digit cases of CreateVersion. */
  lemma VersionByDigit(v: SoftwareVersion)
    requires v.number.Some?
    ensures var n := v.number.value;
      && (v.digit <= 1 ==> CreateVersion(v) == IntToString(n.major))
      && (v.digit == 2 ==> CreateVersion(v) == IntToString(n.major) + "." + IntToString(n.minor))
      && (v.digit == 3 ==> CreateVersion(v) == IntToString(n.major) + "." + IntToString(n.minor) + "." + IntToString(n.build))
      && (v.digit >= 4 ==> CreateVersion(v) == IntToString(n.major) + "." + IntToString(n.minor) + "."
                                             + IntToString(n.build) + "." + IntToString(n.revision))
  {
  }

  /** A null Number renders as the suffix alone. */
  lemma NullNumberIsSuffixOnly(v: SoftwareVersion)
    requires v.number.None?
    ensures ToString(v) == if v.suffix.Some? then v.suffix.value else ""
  {
  }

  /** The suffix is appended verbatim after the version part, and only when it is non-empty. */
  lemma SuffixAppended(v: SoftwareVersion)
    ensures v.suffix.Some? && v.suffix.value != "" ==> ToString(v) == CreateVersion(v) + v.suffix.value
    ensures v.suffix.None? || v.suffix.value == "" ==> ToString(v) == CreateVersion(v)
  {
  }

  /** The default version renders as "1.0.0". */
  lemma DefaultToString()
    ensures ToString(Default) == "1.0.0"
  {
    assert IntToString(1) == "1";
    assert IntToString(0) == "0";
  }
}
