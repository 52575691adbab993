/** superMigrations of db/migrate.go: which versions of a directory are flagged for the superuser, and when the
    last one in directory order is the largest. */
module MigrateVersions {
  import opened Options
  import opened Strings

  /** A directory entry.  `flagged` says whether its first line is the flag; None if it cannot be opened. */
  datatype File = File(name: string, flagged: Option<bool>)

  datatype Scan = Unusable | Scanned(versions: set<nat>, last: nat)

  const UP_SUFFIX := "up.sql"

  predicate IsUp(f: File) {
    |f.name| >= |UP_SUFFIX| && f.name[|f.name| - |UP_SUFFIX|..] == UP_SUFFIX
  }

  // ----- Numbers

  predicate IsDigits(s: string) {
    |s| > 0 && forall i :: 0 <= i < |s| ==> '0' <= s[i] <= '9'
  }

  function Power10(n: nat): nat {
    if n == 0 then 1 else 10 * Power10(n - 1)
  }

  function Value(s: string): int {
    if s == [] then 0 else (s[0] as int - '0' as int) * Power10(|s| - 1) + Value(s[1..])
  }

  const MAX_INT: int := 0x7FFF_FFFF_FFFF_FFFF

  /** strconv.Atoi on a 64-bit machine. */
  function Atoi(s: string): Option<int> {
    var signed := s != [] && s[0] in "+-";
    var digits := if signed then s[1..] else s;
    if !IsDigits(digits) then None
    else
      var v := if signed && s[0] == '-' then -Value(digits) else Value(digits);
      if -MAX_INT - 1 <= v <= MAX_INT then Some(v) else None
  }

  /** A negative number wraps round when it is converted. */
  function StrToVersion(s: string): Option<nat> {
    match Atoi(s)
    case None => None
    case Some(v) => Some(if v < 0 then v + 0x1_0000_0000_0000_0000 else v)
  }

  function Version(f: File): Option<nat> {
    StrToVersion(Split(f.name, '_')[0])
  }

  // ----- The scan

  predicate Flagged(f: File) {
    IsUp(f) && f.flagged == Some(true)
  }

  predicate Unreadable(f: File) {
    (IsUp(f) && f.flagged.None?) || (Flagged(f) && Version(f).None?)
  }

  function VersionOr0(f: File): nat {
    match Version(f) case None => 0 case Some(v) => v
  }

  function FlaggedVersions(files: seq<File>): set<nat> {
    set f | f in files && Flagged(f) :: VersionOr0(f)
  }

  function LastVersion(files: seq<File>): nat {
    if files == [] then 0
    else if Flagged(files[|files| - 1]) then VersionOr0(files[|files| - 1])
    else LastVersion(files[..|files| - 1])
  }

  /** The index of the last flagged file. */
  ghost predicate IsLast(files: seq<File>, last: int) {
    0 <= last < |files| && Flagged(files[last]) && forall j :: last < j < |files| ==> !Flagged(files[j])
  }

  lemma {:induction false} LastVersionIs(files: seq<File>)
    ensures
      || (LastVersion(files) == 0 && forall f :: f in files ==> !Flagged(f))
      || exists last :: IsLast(files, last) && LastVersion(files) == VersionOr0(files[last])
  {
    if files != [] {
      var n := |files| - 1;
      assert files == files[..n] + [files[n]];
      if Flagged(files[n]) {
        assert IsLast(files, n);
      } else {
        LastVersionIs(files[..n]);
        if last :| IsLast(files[..n], last) && LastVersion(files[..n]) == VersionOr0(files[..n][last]) {
          assert IsLast(files, last);
        }
      }
    }
  }

  lemma FlaggedSnoc(files: seq<File>, f: File)
    ensures FlaggedVersions(files + [f]) == FlaggedVersions(files) + (if Flagged(f) then {VersionOr0(f)} else {})
  {
    forall g | g in files + [f] ensures g in files || g == f {
    }
    assert f in files + [f] && forall g :: g in files ==> g in files + [f];
  }

  method SuperMigrations(files: seq<File>) returns (r: Scan)
    ensures r.Unusable? <==> exists f :: f in files && Unreadable(f)
    ensures r.Scanned? ==> r.versions == FlaggedVersions(files)
    ensures r.Scanned? ==> r.last == LastVersion(files)
  {
    var versions: set<nat>, last: nat := {}, 0;
    for k := 0 to |files|
      invariant forall f :: f in files[..k] ==> !Unreadable(f)
      invariant versions == FlaggedVersions(files[..k])
      invariant last == LastVersion(files[..k])
    {
      var f := files[k];
      assert files[..k + 1] == files[..k] + [f];
      FlaggedSnoc(files[..k], f);
      if IsUp(f) {
        if f.flagged.None? {
          assert f in files && Unreadable(f);
          return Unusable;
        }
        if f.flagged.value {
          var v := Version(f);
          if v.None? {
            assert f in files && Unreadable(f);
            return Unusable;
          }
          versions := versions + {v.value};
          last := v.value;
        }
      }
    }
    assert files[..|files|] == files;
    return Scanned(versions, last);
  }

  // ----- Directory order is version order

  predicate Sorted(files: seq<File>) {
    forall i, j :: 0 <= i < j < |files| ==> Before(files[i].name, files[j].name)
  }

  /** Every flagged file is numbered with the same number of digits; 18 digits fit an int. */
  predicate FixedWidth(files: seq<File>, width: nat) {
    && width <= 18
    && forall f :: f in files && Flagged(f) ==> |Split(f.name, '_')[0]| == width && IsDigits(Split(f.name, '_')[0])
  }

  lemma {:induction false} NonNegative(k: nat, p: nat)
    ensures k * p >= 0
  {
    if k > 0 {
      NonNegative(k - 1, p);
      assert k * p == (k - 1) * p + p;
    }
  }

  lemma DigitTimes(d: int, p: nat)
    requires 0 <= d <= 9
    ensures 0 <= d * p <= 9 * p
  {
    NonNegative(d, p);
    NonNegative(9 - d, p);
    assert 9 * p == d * p + (9 - d) * p;
  }

  lemma {:induction false} ValueBounds(s: string)
    requires s == [] || IsDigits(s)
    ensures 0 <= Value(s) < Power10(|s|)
  {
    if s != [] {
      ValueBounds(s[1..]);
      DigitTimes(s[0] as int - '0' as int, Power10(|s| - 1));
    }
  }

  lemma {:induction false} PowerMonotone(a: nat, b: nat)
    requires a <= b
    ensures Power10(a) <= Power10(b)
  {
    if a < b {
      PowerMonotone(a, b - 1);
    }
  }

  lemma {:induction false} AtLeastOnce(k: nat, p: nat)
    requires k >= 1
    ensures k * p >= p
  {
    if k > 1 {
      AtLeastOnce(k - 1, p);
      assert k * p == (k - 1) * p + p;
    }
  }

  lemma LeadingDigit(c: int, d: int, p: nat, x: int, y: int)
    requires c < d && 0 <= x < p && 0 <= y
    ensures c * p + x < d * p + y
  {
    AtLeastOnce(d - c, p);
    assert d * p == c * p + (d - c) * p;
  }

  lemma {:induction false} BeforeIsAtMost(a: string, b: string, width: nat)
    requires width <= |a| && width <= |b| && Before(a, b)
    requires forall i :: 0 <= i < width ==> '0' <= a[i] <= '9' && '0' <= b[i] <= '9'
    ensures Value(a[..width]) <= Value(b[..width])
    decreases width
  {
    if width > 0 {
      var s, t := a[..width][1..], b[..width][1..];
      assert s == a[1..][..width - 1] && t == b[1..][..width - 1];
      if a[0] < b[0] {
        ValueBounds(s);
        ValueBounds(t);
        LeadingDigit(a[0] as int - '0' as int, b[0] as int - '0' as int, Power10(width - 1), Value(s), Value(t));
      } else {
        BeforeIsAtMost(a[1..], b[1..], width - 1);
      }
    }
  }

  lemma {:induction false} SplitIsPrefix(s: string, sep: char)
    ensures |Split(s, sep)[0]| <= |s| && Split(s, sep)[0] == s[..|Split(s, sep)[0]|]
  {
    if s != [] && s[0] != sep {
      SplitIsPrefix(s[1..], sep);
    }
  }

  lemma NumberedVersion(f: File, width: nat)
    requires FixedWidth([f], width) && Flagged(f)
    ensures Version(f).Some? && Version(f).value == Value(Split(f.name, '_')[0])
  {
    var s := Split(f.name, '_')[0];
    assert f in [f];
    FitsInt(s);
    assert s[0] !in "+-";
  }

  lemma FitsInt(s: string)
    requires IsDigits(s) && |s| <= 18
    ensures 0 <= Value(s) <= MAX_INT
  {
    ValueBounds(s);
    PowerMonotone(|s|, 18);
    assert Power10(18) == 1000000000000000000 by {
      assert Power10(6) == 1000000;
      assert Power10(12) == 1000000000000;
    }
  }

  // ----- When the last is the largest

  function NumberOf(f: File): string {
    Split(f.name, '_')[0]
  }

  /** The flagged files are numbered in digits (18 of them fit an int), either all with the same number of digits or all
      without leading zeros. */
  ghost predicate Numbers(files: seq<File>) {
    && (forall f :: f in files && Flagged(f) ==> IsDigits(NumberOf(f)) && |NumberOf(f)| <= 18)
    && ((exists width: nat :: FixedWidth(files, width))
        || forall f :: f in files && Flagged(f) ==> |NumberOf(f)| == 1 || NumberOf(f)[0] != '0')
  }

  /** A number without leading zeros is larger than every shorter one. */
  lemma LongerIsLarger(a: string, b: string)
    requires IsDigits(a) && IsDigits(b) && |a| < |b| && b[0] != '0'
    ensures Value(a) < Value(b)
  {
    ValueBounds(a);
    ValueBounds(b[1..]);
    PowerMonotone(|a|, |b| - 1);
    AtLeastOnce(b[0] as int - '0' as int, Power10(|b| - 1));
  }

  /** Of two numbered files, the earlier in the directory has the larger version if and only if its number has more
      digits. */
  lemma EarlierIsLargerIff(files: seq<File>, i: nat, j: nat)
    requires Sorted(files) && Numbers(files) && i < j < |files| && Flagged(files[i]) && Flagged(files[j])
    ensures Version(files[i]).Some? && Version(files[j]).Some?
    ensures VersionOr0(files[i]) > VersionOr0(files[j]) <==> |NumberOf(files[i])| > |NumberOf(files[j])|
  {
    var f, g := files[i], files[j];
    var a, b := NumberOf(f), NumberOf(g);
    assert f in files && g in files;
    NumberedVersion(f, |a|);
    NumberedVersion(g, |b|);
    if |a| == |b| {
      SameWidthIsSorted(files, i, j);
    } else if |a| < |b| {
      LongerIsLarger(a, b);
    } else {
      LongerIsLarger(b, a);
    }
  }

  lemma SameWidthIsSorted(files: seq<File>, i: nat, j: nat)
    requires Sorted(files) && i < j < |files| && IsDigits(NumberOf(files[i])) && IsDigits(NumberOf(files[j]))
    requires |NumberOf(files[i])| == |NumberOf(files[j])|
    ensures Value(NumberOf(files[i])) <= Value(NumberOf(files[j]))
  {
    var a, b := files[i].name, files[j].name;
    var width := |NumberOf(files[i])|;
    SplitIsPrefix(a, '_');
    SplitIsPrefix(b, '_');
    forall k | 0 <= k < width ensures '0' <= a[k] <= '9' && '0' <= b[k] <= '9' {
      assert a[k] == a[..width][k] && b[k] == b[..width][k];
    }
    BeforeIsAtMost(a, b, width);
  }

  /** The last flagged version in directory order is the largest, which is what the role split needs, if and only if no
      flagged file's number has more digits than the last one's. */
  lemma LastIsLargestIff(files: seq<File>, last: nat)
    requires Sorted(files) && Numbers(files) && IsLast(files, last)
    ensures (forall v :: v in FlaggedVersions(files) ==> v <= LastVersion(files))
            <==> forall f :: f in files && Flagged(f) ==> |NumberOf(f)| <= |NumberOf(files[last])|
  {
    LastVersionIs(files);
    forall f | f in files && Flagged(f)
      ensures VersionOr0(f) > LastVersion(files) <==> |NumberOf(f)| > |NumberOf(files[last])|
      ensures VersionOr0(f) in FlaggedVersions(files)
    {
      AgainstLast(files, last, f);
    }
  }

  lemma AgainstLast(files: seq<File>, last: nat, f: File)
    requires Sorted(files) && Numbers(files) && IsLast(files, last) && f in files && Flagged(f)
    ensures VersionOr0(f) > VersionOr0(files[last]) <==> |NumberOf(f)| > |NumberOf(files[last])|
  {
    var k :| 0 <= k < |files| && files[k] == f;
    if k < last {
      EarlierIsLargerIff(files, k, last);
    }
  }

  /** With numbers of one width it is, whatever they are. */
  lemma LastIsLargest(files: seq<File>, width: nat)
    requires Sorted(files) && FixedWidth(files, width)
    ensures forall v :: v in FlaggedVersions(files) ==> v <= LastVersion(files)
  {
    LastVersionIs(files);
    if last: nat :| IsLast(files, last) {
      assert Numbers(files);
      LastIsLargestIff(files, last);
    } else {
      assert FlaggedVersions(files) == {};
    }
  }

  // ----- Any numbers of digits

  function Stripped(s: string): string {
    if s != [] && s[0] == '0' then Stripped(s[1..]) else s
  }

  /** Without leading zeros, `a` is longer than `b`, or as long and later in the dictionary. */
  predicate Beyond(a: string, b: string) {
    |Stripped(a)| > |Stripped(b)| || (|Stripped(a)| == |Stripped(b)| && Before(Stripped(b), Stripped(a)))
  }

  predicate AllDigits(s: string) {
    forall i :: 0 <= i < |s| ==> '0' <= s[i] <= '9'
  }

  lemma {:induction false} StrippedValue(s: string)
    requires AllDigits(s)
    ensures Value(Stripped(s)) == Value(s) && AllDigits(Stripped(s))
    ensures Stripped(s) == [] || Stripped(s)[0] != '0'
  {
    if s != [] && s[0] == '0' {
      StrippedValue(s[1..]);
    }
  }

  lemma DigitBounds(s: string)
    requires AllDigits(s)
    ensures 0 <= Value(s) < Power10(|s|)
  {
    ValueBounds(s);
  }

  lemma {:induction false} BeforeIsLess(a: string, b: string)
    requires AllDigits(a) && AllDigits(b) && |a| == |b| && Before(a, b)
    ensures Value(a) < Value(b)
  {
    if a[0] < b[0] {
      DigitBounds(a[1..]);
      DigitBounds(b[1..]);
      LeadingDigit(a[0] as int - '0' as int, b[0] as int - '0' as int, Power10(|a| - 1), Value(a[1..]), Value(b[1..]));
    } else {
      BeforeIsLess(a[1..], b[1..]);
    }
  }

  lemma LongerIsMore(a: string, b: string)
    requires AllDigits(a) && AllDigits(b) && |a| < |b| && b[0] != '0'
    ensures Value(a) < Value(b)
  {
    if a == [] {
      DigitBounds(b[1..]);
      AtLeastOnce(b[0] as int - '0' as int, Power10(|b| - 1));
      DigitBounds([]);
    } else {
      LongerIsLarger(a, b);
    }
  }

  /** The number order is that of length and dictionary, leading zeros aside. */
  lemma BeyondIff(a: string, b: string)
    requires AllDigits(a) && AllDigits(b)
    ensures Value(a) > Value(b) <==> Beyond(a, b)
  {
    StrippedValue(a);
    StrippedValue(b);
    var x, y := Stripped(a), Stripped(b);
    if |x| < |y| {
      LongerIsMore(x, y);
    } else if |y| < |x| {
      LongerIsMore(y, x);
    } else {
      BeforeIsTotal(x, y);
      if Before(x, y) {
        BeforeIsLess(x, y);
      } else if Before(y, x) {
        BeforeIsLess(y, x);
      }
    }
  }

  /** Whatever the widths and leading zeros: the last flagged version is the largest if and only if no flagged number is
      beyond the last one's. */
  lemma LastIsLargestForAnyIff(files: seq<File>, last: nat)
    requires IsLast(files, last)
    requires forall f :: f in files && Flagged(f) ==> IsDigits(NumberOf(f)) && |NumberOf(f)| <= 18
    ensures (forall v :: v in FlaggedVersions(files) ==> v <= LastVersion(files))
            <==> forall f :: f in files && Flagged(f) ==> !Beyond(NumberOf(f), NumberOf(files[last]))
  {
    LastVersionIs(files);
    forall f | f in files && Flagged(f)
      ensures VersionOr0(f) > LastVersion(files) <==> Beyond(NumberOf(f), NumberOf(files[last]))
      ensures VersionOr0(f) in FlaggedVersions(files)
    {
      assert files[last] in files;
      LargerIffBeyond(f, files[last]);
    }
  }

  lemma LargerIffBeyond(f: File, g: File)
    requires Flagged(f) && IsDigits(NumberOf(f)) && |NumberOf(f)| <= 18
    requires Flagged(g) && IsDigits(NumberOf(g)) && |NumberOf(g)| <= 18
    ensures VersionOr0(f) > VersionOr0(g) <==> Beyond(NumberOf(f), NumberOf(g))
  {
    NumberedVersion(f, |NumberOf(f)|);
    NumberedVersion(g, |NumberOf(g)|);
    BeyondIff(NumberOf(f), NumberOf(g));
  }

  lemma TenAndNine()
    ensures Atoi("10") == Some(10) && Atoi("9") == Some(9)
  {
    assert "10"[1..] == "0" && "0"[1..] == "" && "9"[1..] == "";
    assert Power10(1) == 10;
    assert Value("0") == 0;
  }

  /** A file is flagged when its name ends in "up.sql" and its first line is the flag. */
  lemma FlaggedIff(f: File)
    ensures Flagged(f) <==> f.flagged == Some(true) && exists stem :: f.name == stem + "up.sql"
  {
    if |f.name| >= 6 {
      assert f.name == f.name[..|f.name| - 6] + f.name[|f.name| - 6..];
    }
    forall stem | f.name == stem + "up.sql" ensures f.name[|f.name| - 6..] == "up.sql" {
    }
  }

  lemma {:induction false} ValueSnoc(s: string, c: char)
    ensures Value(s + [c]) == 10 * Value(s) + (c as int - '0' as int)
  {
    if s == [] {
      assert (s + [c])[1..] == [] && Power10(0) == 1;
    } else {
      assert (s + [c])[1..] == s[1..] + [c];
      ValueSnoc(s[1..], c);
    }
  }

  /** A number may have a sign. */
  lemma SignedNumbers(digits: string)
    requires IsDigits(digits) && |digits| <= 18
    ensures Atoi(digits) == Some(Value(digits)) && Atoi("+" + digits) == Some(Value(digits))
    ensures Atoi("-" + digits) == Some(-Value(digits))
  {
    FitsInt(digits);
    SignedDigits(digits, Value(digits));
  }

  lemma SignedDigits(digits: string, v: int)
    requires IsDigits(digits) && v == Value(digits) && 0 <= v <= MAX_INT
    ensures Atoi(digits) == Some(v) && Atoi("+" + digits) == Some(v) && Atoi("-" + digits) == Some(-v)
  {
    assert ("+" + digits)[1..] == digits && ("-" + digits)[1..] == digits;
    assert digits[0] !in "+-";
  }

  /** As a version a negative number wraps round. */
  lemma VersionWraps(s: string)
    ensures StrToVersion(s).Some? <==> Atoi(s).Some?
    ensures
      Atoi(s).Some? ==>
        && 0 <= StrToVersion(s).value < 0x1_0000_0000_0000_0000
        && (StrToVersion(s).value - Atoi(s).value) in {0, 0x1_0000_0000_0000_0000}
  {
  }

  /** What is no number stops the scan. */
  lemma NoNumber(s: string, i: nat)
    requires i < |s| && !('0' <= s[i] <= '9') && (i > 0 || s == "-" || s == "+" || s[0] !in "+-")
    ensures Atoi(s) == None && Atoi("") == None
  {
    var signed := s[0] in "+-";
    var digits := if signed then s[1..] else s;
    if signed && i > 0 {
      assert digits[i - 1] == s[i];
    }
  }

  function Numbered(number: string): File {
    File(number + "_" + UP_SUFFIX, Some(true))
  }

  lemma NumberedIsUp(number: string)
    ensures Flagged(Numbered(number))
  {
    var name := Numbered(number).name;
    assert name[|name| - |UP_SUFFIX|..] == UP_SUFFIX;
  }

  lemma NumberedNumber(number: string)
    requires '_' !in number
    ensures NumberOf(Numbered(number)) == number
  {
    SplitPrefix(number, UP_SUFFIX, '_');
  }

  lemma NumberedFile(number: string)
    requires '_' !in number && Atoi(number).Some? && 0 <= Atoi(number).value <= MAX_INT
    ensures Flagged(Numbered(number)) && Version(Numbered(number)) == Some(Atoi(number).value)
  {
    NumberedIsUp(number);
    NumberedNumber(number);
  }

  lemma TwoFiles(a: File, b: File)
    requires Flagged(a) && Flagged(b) && Before(a.name, b.name)
    ensures Sorted([a, b]) && LastVersion([a, b]) == VersionOr0(b) && VersionOr0(a) in FlaggedVersions([a, b])
  {
    assert a in [a, b];
  }

  /** Without the leading zeros it is not: version 10 is read before version 9. */
  lemma WidthMatters()
    ensures
      var files := [Numbered("10"), Numbered("9")];
      Sorted(files) && LastVersion(files) == 9 && 10 in FlaggedVersions(files)
  {
    TenAndNine();
    NumberedFile("10");
    NumberedFile("9");
    FirstCharDecides(Numbered("10").name, Numbered("9").name);
    TwoFiles(Numbered("10"), Numbered("9"));
  }

  lemma FirstCharDecides(a: string, b: string)
    requires a != [] && b != [] && a[0] < b[0]
    ensures Before(a, b)
  {
  }
}
