/** Comparing two versions for one question: is the candidate clearly ahead of the current one? */
module Versions {
  import opened Basics

  datatype VersionOrder = Unknown | Lower | Equal | Higher

  /** A version's epoch, dotted numeric spine and trailing text. An empty spine is Go's nil. */
  datatype Parsed = Parsed(epoch: int, parts: seq<int>, suffix: string)

  // ---- text helpers ----

  /** strings.Split with a one-character separator. */
  function Split(s: string, sep: char): (r: seq<string>)
    ensures r != []
  {
    if s == "" then [""]
    else
      var rest := Split(s[1..], sep);
      if s[0] == sep then [""] + rest else [[s[0]] + rest[0]] + rest[1..]
  }

  /** strings.Join. */
  function Join(parts: seq<string>, sep: char): string {
    if parts == [] then "" else if |parts| == 1 then parts[0]
    else parts[0] + [sep] + Join(parts[1..], sep)
  }

  /** The index of the first `c` in `s`, or |s|. */
  function IndexOf(s: string, c: char): (k: nat)
    ensures k <= |s|
    ensures k < |s| ==> s[k] == c
  {
    if s == "" || s[0] == c then 0 else IndexOf(s[1..], c) + 1
  }

  /** The longest prefix of `s` that is digits. */
  function LeadingDigits(s: string): (d: string)
    ensures d <= s && forall c :: c in d ==> IsDigit(c)
    ensures |d| < |s| ==> !IsDigit(s[|d|])
  {
    if s != "" && IsDigit(s[0]) then [s[0]] + LeadingDigits(s[1..]) else ""
  }

  function DigitsValue(s: string): (n: nat)
    requires forall c :: c in s ==> IsDigit(c)
  {
    if s == "" then 0 else
      assert s[|s| - 1] in s && IsDigit(s[|s| - 1]);
      DigitsValue(s[..|s| - 1]) * 10 + (s[|s| - 1] as int - '0' as int)
  }

  /** strconv.Atoi: an optional sign, at least one digit, and a value that fits in 64 bits. */
  function Atoi(s: string): (r: Option<int>)
    ensures r.Some? ==> IsInt64(r.value)
  {
    var signed := s != "" && (s[0] == '-' || s[0] == '+');
    var digits := if signed then s[1..] else s;
    if digits == "" || exists c :: c in digits && !IsDigit(c) then None
    else
      var n: int := if signed && s[0] == '-' then 0 - DigitsValue(digits) else DigitsValue(digits);
      if IsInt64(n) then Some(n) else None
  }

  // ---- splitVersion ----

  /** What the loop over the dotted segments collects: None when a number overflows. */
  function Spine(segments: seq<string>): (r: Option<(seq<int>, string)>)
    ensures r.Some? ==> forall i :: 0 <= i < |r.value.0| ==> 0 <= r.value.0[i] <= INT64_MAX
  {
    if segments == [] then Some(([], ""))
    else
      var digits := LeadingDigits(segments[0]);
      var rest := segments[0][|digits|..];
      if digits == "" then Some(([], Join(segments, '.')))
      else match Atoi(digits)
        case None => None
        case Some(n) =>
          AtoiOfDigits(digits);
          if rest != "" then Some(([n], Join([rest] + segments[1..], '.')))
          else match Spine(segments[1..])
            case None => None
            case Some(tail) => Some(([n] + tail.0, tail.1))
  }

  lemma AtoiOfDigits(s: string)
    requires s != "" && forall c :: c in s ==> IsDigit(c)
    ensures Atoi(s) == if DigitsValue(s) <= INT64_MAX then Some(DigitsValue(s)) else None
  {
    assert s[0] in s;
  }

  /** Trimmed and without the decorating `v`. */
  function Undecorated(v: string): string {
    var t := TrimSpace(v);
    if t != "" && t[0] == 'v' then t[1..] else t
  }

  function ParseRest(epoch: int, v: string): (p: Parsed)
    requires IsInt64(epoch)
    ensures WellFormed(p) && p.epoch == epoch
  {
    match Spine(Split(v, '.'))
    case None => Parsed(epoch, [], v)
    case Some(r) => Parsed(epoch, r.0, r.1)
  }

  /** What follows trimming: the epoch is cut off and the rest is split. */
  function ParseCut(v: string): (p: Parsed)
    ensures WellFormed(p)
  {
    var k := IndexOf(v, '!');
    if k < |v| then
      match Atoi(v[..k])
      case None => Parsed(0, [], v)
      case Some(n) => ParseRest(n, v[k + 1..])
    else ParseRest(0, v)
  }

  function ParseVersion(version: string): (p: Parsed)
    ensures WellFormed(p)
  {
    ParseCut(Undecorated(version))
  }

  /** Every number is one the platform's int holds, and a spine part is never negative. */
  predicate WellFormed(p: Parsed) {
    IsInt64(p.epoch) && forall i :: 0 <= i < |p.parts| ==> 0 <= p.parts[i] <= INT64_MAX
  }

  method SplitVersion(version: string) returns (epoch: int, parts: seq<int>, suffix: string)
    ensures Parsed(epoch, parts, suffix) == ParseVersion(version)
  {
    var v := TrimSpace(version);
    if v != "" && v[0] == 'v' {
      v := v[1..];
    }
    epoch := 0;
    var k := IndexOf(v, '!');
    if k < |v| {
      var n := Atoi(v[..k]);
      if n.None? {
        return 0, [], v;
      }
      epoch, v := n.value, v[k + 1..];
    }
    var p := SplitRest(epoch, v);
    return p.epoch, p.parts, p.suffix;
  }

  /** The loop over the dotted segments, which ends the spine at the first one that is not a number. */
  method SplitRest(epoch: int, v: string) returns (p: Parsed)
    requires IsInt64(epoch)
    ensures p == ParseRest(epoch, v)
  {
    var parts := [];
    var segments := Split(v, '.');
    assert segments[0..] == segments;
    PrependNothing(Spine(segments));
    for i := 0 to |segments|
      invariant Spine(segments) == Prepend(parts, Spine(segments[i..]))
    {
      var digits := LeadingDigits(segments[i]);
      assert segments[i..][1..] == segments[i + 1..];
      if digits == "" {
        return Parsed(epoch, parts, Join(segments[i..], '.'));
      }
      var n := Atoi(digits);
      if n.None? {
        return Parsed(epoch, [], v);
      }
      ghost var before := parts;
      parts := parts + [n.value];
      var rest := segments[i][|digits|..];
      if rest != "" {
        var tail := segments[i..];
        tail := tail[0 := rest];
        assert tail == [rest] + segments[i..][1..];
        return Parsed(epoch, parts, Join(tail, '.'));
      }
      PrependMore(before, n.value, Spine(segments[i + 1..]));
    }
    return Parsed(epoch, parts, "");
  }

  /** The parts already collected, in front of what the remaining segments yield. */
  function Prepend(parts: seq<int>, r: Option<(seq<int>, string)>): Option<(seq<int>, string)> {
    match r
    case None => None
    case Some(x) => Some((parts + x.0, x.1))
  }

  lemma PrependNothing(r: Option<(seq<int>, string)>)
    ensures Prepend([], r) == r
  {
    if r.Some? {
      assert [] + r.value.0 == r.value.0;
    }
  }

  lemma PrependMore(parts: seq<int>, n: int, r: Option<(seq<int>, string)>)
    ensures Prepend(parts, Prepend([n], r)) == Prepend(parts + [n], r)
  {
    if r.Some? {
      assert parts + ([n] + r.value.0) == parts + [n] + r.value.0;
    }
  }

  // ---- compareVersions ----

  /** A missing component is zero. */
  function PartAt(parts: seq<int>, i: nat): int {
    if i < |parts| then parts[i] else 0
  }

  function OrderOf(diff: int): VersionOrder {
    if diff > 0 then Higher else if diff < 0 then Lower else Equal
  }

  /** The two spines agree in their first `n` components, padded with zeros. */
  ghost predicate SpinesAgree(a: seq<int>, b: seq<int>, n: nat) {
    forall i: nat :: i < n ==> PartAt(a, i) == PartAt(b, i)
  }

  /** `a` is behind `b` in the zero-padded lexicographic order. */
  ghost predicate SpineBehind(a: seq<int>, b: seq<int>) {
    exists n: nat :: SpinesAgree(a, b, n) && PartAt(a, n) < PartAt(b, n)
  }

  ghost predicate SpineSame(a: seq<int>, b: seq<int>) {
    forall i: nat :: PartAt(a, i) == PartAt(b, i)
  }

  /** The order the comparison is for: the epoch first, then the spine, where both have one. */
  ghost predicate Behind(a: Parsed, b: Parsed) {
    || a.epoch < b.epoch
    || (a.epoch == b.epoch && a.parts != [] && b.parts != [] && SpineBehind(a.parts, b.parts))
  }

  ghost predicate SameVersion(a: Parsed, b: Parsed) {
    && a.epoch == b.epoch && a.parts != [] && b.parts != []
    && SpineSame(a.parts, b.parts) && a.suffix == b.suffix
  }

  /** The epoch subtraction does not leave the 64-bit range. */
  predicate EpochsFit(a: Parsed, b: Parsed) {
    IsInt64(b.epoch - a.epoch)
  }

  /** What compareVersions answers for two split versions, 64-bit subtraction included. */
  ghost function CompareParsed(a: Parsed, b: Parsed): VersionOrder {
    if a.epoch != b.epoch then OrderOf(Wrap64(b.epoch - a.epoch))
    else if a.parts == [] || b.parts == [] then Unknown
    else
      var order := SpineOrder(a.parts, b.parts);
      if order == Equal && a.suffix != b.suffix then Unknown else order
  }

  ghost function SpineOrder(a: seq<int>, b: seq<int>): VersionOrder {
    if SpineBehind(a, b) then Higher else if SpineBehind(b, a) then Lower else Equal
  }

  ghost function Compare(current: string, candidate: string): VersionOrder {
    CompareParsed(ParseVersion(current), ParseVersion(candidate))
  }

  method CompareVersions(current: string, candidate: string) returns (order: VersionOrder)
    ensures order == Compare(current, candidate)
  {
    var curEpoch, curParts, curSuffix := SplitVersion(current);
    var newEpoch, newParts, newSuffix := SplitVersion(candidate);
    order := CompareSplit(Parsed(curEpoch, curParts, curSuffix), Parsed(newEpoch, newParts, newSuffix));
  }

  method CompareSplit(cur: Parsed, cand: Parsed) returns (order: VersionOrder)
    requires WellFormed(cur) && WellFormed(cand)
    ensures order == CompareParsed(cur, cand)
  {
    if cur.epoch != cand.epoch {
      return OrderOf(Wrap64(cand.epoch - cur.epoch));
    }
    if cur.parts == [] || cand.parts == [] {
      return Unknown;
    }
    order := CompareSpines(cur, cand);
    if order != Equal {
      return;
    }
    if cur.suffix == "" && cand.suffix == "" {
      return Equal;
    } else if cur.suffix == cand.suffix {
      return Equal;
    }
    return Unknown;
  }

  /** The loop over the numeric components: Equal when none of them differ. */
  method CompareSpines(cur: Parsed, cand: Parsed) returns (order: VersionOrder)
    requires WellFormed(cur) && WellFormed(cand)
    ensures order == SpineOrder(cur.parts, cand.parts)
  {
    var i := 0;
    while i < |cur.parts| || i < |cand.parts|
      invariant SpinesAgree(cur.parts, cand.parts, i)
      decreases |cur.parts| + |cand.parts| - i
    {
      var a, b := PartAt(cur.parts, i), PartAt(cand.parts, i);
      if a != b {
        SpineDecided(cur.parts, cand.parts, i);
        return OrderOf(Wrap64(b - a));
      }
      i := i + 1;
    }
    SpineSameDecided(cur.parts, cand.parts);
    return Equal;
  }

  lemma SpineDecided(a: seq<int>, b: seq<int>, n: nat)
    requires SpinesAgree(a, b, n) && PartAt(a, n) != PartAt(b, n)
    ensures SpineBehind(a, b) <==> PartAt(a, n) < PartAt(b, n)
    ensures SpineBehind(b, a) <==> PartAt(b, n) < PartAt(a, n)
  {
    assert SpinesAgree(b, a, n);
    if SpineBehind(a, b) {
      var m: nat :| SpinesAgree(a, b, m) && PartAt(a, m) < PartAt(b, m);
      assert m == n;
    }
    if SpineBehind(b, a) {
      var m: nat :| SpinesAgree(b, a, m) && PartAt(b, m) < PartAt(a, m);
      assert m == n;
    }
  }

  lemma SpineSameDecided(a: seq<int>, b: seq<int>)
    requires SpinesAgree(a, b, if |a| < |b| then |b| else |a|)
    ensures SpineSame(a, b) && !SpineBehind(a, b) && !SpineBehind(b, a)
  {
  }

  lemma SpinesTrichotomy(a: seq<int>, b: seq<int>)
    ensures SpineBehind(a, b) || SpineBehind(b, a) || SpineSame(a, b)
    ensures !(SpineBehind(a, b) && SpineBehind(b, a))
    ensures SpineSame(a, b) ==> !SpineBehind(a, b) && !SpineBehind(b, a)
  {
    FirstDifference(a, b, if |a| < |b| then |b| else |a|);
  }

  lemma {:induction false} FirstDifference(a: seq<int>, b: seq<int>, n: nat)
    requires |a| <= n && |b| <= n
    ensures SpineSame(a, b) || exists k: nat :: SpinesAgree(a, b, k) && PartAt(a, k) != PartAt(b, k)
    ensures SpineSame(a, b) ==> !SpineBehind(a, b) && !SpineBehind(b, a)
    ensures !SpineSame(a, b) ==> (SpineBehind(a, b) <==> !SpineBehind(b, a))
  {
    var k: nat := 0;
    while k < n && PartAt(a, k) == PartAt(b, k)
      invariant k <= n && SpinesAgree(a, b, k)
    {
      k := k + 1;
    }
    if k < n {
      SpineDecided(a, b, k);
    }
  }

  lemma SpineBehindTransitive(a: seq<int>, b: seq<int>, c: seq<int>)
    requires SpineBehind(a, b) && SpineBehind(b, c)
    ensures SpineBehind(a, c)
  {
    var m: nat :| SpinesAgree(a, b, m) && PartAt(a, m) < PartAt(b, m);
    var n: nat :| SpinesAgree(b, c, n) && PartAt(b, n) < PartAt(c, n);
    var k := if m < n then m else n;
    assert SpinesAgree(a, c, k) && PartAt(a, k) < PartAt(c, k);
  }

  lemma SpineSameCongruent(a: seq<int>, b: seq<int>, c: seq<int>)
    requires SpineSame(a, b)
    ensures SpineBehind(a, c) <==> SpineBehind(b, c)
    ensures SpineBehind(c, a) <==> SpineBehind(c, b)
    ensures SpineSame(a, c) <==> SpineSame(b, c)
  {
    if x: nat :| SpinesAgree(a, c, x) && PartAt(a, x) < PartAt(c, x) {
      assert SpinesAgree(b, c, x) && PartAt(b, x) < PartAt(c, x);
    }
    if x: nat :| SpinesAgree(b, c, x) && PartAt(b, x) < PartAt(c, x) {
      assert SpinesAgree(a, c, x) && PartAt(a, x) < PartAt(c, x);
    }
    if x: nat :| SpinesAgree(c, a, x) && PartAt(c, x) < PartAt(a, x) {
      assert SpinesAgree(c, b, x) && PartAt(c, x) < PartAt(b, x);
    }
    if x: nat :| SpinesAgree(c, b, x) && PartAt(c, x) < PartAt(b, x) {
      assert SpinesAgree(c, a, x) && PartAt(c, x) < PartAt(a, x);
    }
  }

  // ---- the order laws ----

  /** `Behind` is a strict partial order. */
  lemma BehindIsStrictOrder(a: Parsed, b: Parsed, c: Parsed)
    ensures !Behind(a, a)
    ensures Behind(a, b) ==> !Behind(b, a)
    ensures Behind(a, b) && Behind(b, c) ==> Behind(a, c)
  {
    SpinesTrichotomy(a.parts, b.parts);
    if Behind(a, b) && Behind(b, c) && a.epoch == b.epoch == c.epoch {
      SpineBehindTransitive(a.parts, b.parts, c.parts);
    }
  }

  /** The comparison answers "higher" exactly when the candidate is ahead, and "lower" exactly when
      it is behind, if and only if the epoch subtraction does not overflow. When it does overflow
      both answers are the wrong way round. */
  lemma CompareIsTheOrder(a: Parsed, b: Parsed)
    requires WellFormed(a) && WellFormed(b)
    ensures ((CompareParsed(a, b) == Higher) <==> Behind(a, b)) <==> EpochsFit(a, b)
    ensures ((CompareParsed(a, b) == Lower) <==> Behind(b, a)) <==> EpochsFit(a, b)
    ensures !EpochsFit(a, b) ==> (CompareParsed(a, b) == Higher <==> Behind(b, a))
    ensures CompareParsed(a, b) == Equal <==> SameVersion(a, b)
  {
    SpinesTrichotomy(a.parts, b.parts);
    if !EpochsFit(a, b) {
      WrapFlipsSign(b.epoch - a.epoch);
    }
  }

  lemma WrapFlipsSign(d: int)
    requires INT64_MIN - INT64_MAX <= d <= INT64_MAX - INT64_MIN && !IsInt64(d)
    ensures d > 0 ==> Wrap64(d) < 0
    ensures d < 0 ==> Wrap64(d) > 0
  {
    if d > 0 {
      assert (d - INT64_MIN) % TWO_TO_THE_64 == d - INT64_MIN - TWO_TO_THE_64;
    } else {
      assert (d - INT64_MIN) % TWO_TO_THE_64 == d - INT64_MIN + TWO_TO_THE_64;
    }
  }

  /** Versions whose epochs are both non-negative, or both negative, never overflow. */
  lemma SameSignEpochsFit(a: Parsed, b: Parsed)
    requires WellFormed(a) && WellFormed(b)
    requires a.epoch < 0 <==> b.epoch < 0
    ensures EpochsFit(a, b)
  {
  }

  /** "Higher" and "lower" are dual, "equal" and "unknown" are symmetric: on all inputs but the one
      whose epoch difference is exactly -2^63 or 2^63, the only one that fits one way round. */
  lemma CompareIsDual(a: Parsed, b: Parsed)
    requires WellFormed(a) && WellFormed(b)
    ensures CompareParsed(a, b) == Equal <==> CompareParsed(b, a) == Equal
    ensures CompareParsed(a, b) == Unknown <==> CompareParsed(b, a) == Unknown
    ensures (CompareParsed(a, b) == Higher <==> CompareParsed(b, a) == Lower)
       <==> (EpochsFit(a, b) <==> EpochsFit(b, a))
  {
    CompareIsTheOrder(a, b);
    CompareIsTheOrder(b, a);
    SpinesTrichotomy(a.parts, b.parts);
  }

  /** "Equal" is transitive, and replacing a version by an equal one changes no answer. */
  lemma EqualIsCongruence(a: Parsed, b: Parsed, c: Parsed)
    requires WellFormed(a) && WellFormed(b) && WellFormed(c)
    requires CompareParsed(a, b) == Equal
    ensures CompareParsed(a, c) == CompareParsed(b, c)
    ensures CompareParsed(c, a) == CompareParsed(c, b)
  {
    CompareIsTheOrder(a, b);
    SameVersionCongruent(a, b, c);
  }

  lemma SameVersionCongruent(a: Parsed, b: Parsed, c: Parsed)
    requires SameVersion(a, b)
    ensures CompareParsed(a, c) == CompareParsed(b, c)
    ensures CompareParsed(c, a) == CompareParsed(c, b)
  {
    hide SpineBehind, SpineSame, PartAt, Wrap64, OrderOf;
    SpineSameCongruent(a.parts, b.parts, c.parts);
  }

  /** "Higher" is transitive exactly as far as the epochs fit. */
  lemma HigherIsTransitive(a: Parsed, b: Parsed, c: Parsed)
    requires WellFormed(a) && WellFormed(b) && WellFormed(c)
    requires EpochsFit(a, b) && EpochsFit(b, c)
    requires CompareParsed(a, b) == Higher && CompareParsed(b, c) == Higher
    ensures CompareParsed(a, c) == Higher <==> EpochsFit(a, c)
  {
    CompareIsTheOrder(a, b);
    CompareIsTheOrder(b, c);
    CompareIsTheOrder(a, c);
    BehindIsStrictOrder(a, b, c);
    BehindIsStrictOrder(a, c, a);
  }

  /** No spine subtraction leaves the 64-bit range. */
  lemma SpineSubtractionFits(a: Parsed, b: Parsed, i: nat)
    requires WellFormed(a) && WellFormed(b)
    ensures IsInt64(PartAt(b.parts, i) - PartAt(a.parts, i))
  {
  }

  // ---- trailing zeros ----

  /** All spine, and therefore something to compare: no suffix and at least one number. */
  predicate AllSpine(p: Parsed) {
    p.parts != [] && p.suffix == ""
  }

  /** Appending `.0` appends one zero component, unless the version ends in a dot: then the empty
      segment before the zero ends the spine and `.0` becomes a suffix. */
  function WithZero(p: Parsed, dotted: bool): Parsed {
    if dotted then p.(suffix := ".0") else p.(parts := p.parts + [0])
  }

  predicate EndsInDot(v: string) {
    v != "" && v[|v| - 1] == '.'
  }

  lemma TrailingZeroParses(v: string)
    requires Trimmed(v, IsSpace) && AllSpine(ParseVersion(v))
    ensures ParseVersion(v + ".0") == WithZero(ParseVersion(v), EndsInDot(v))
  {
    EmptyHasNoSpine(0);
    UndecoratedAppend(v);
    CutWithZero(Undecorated(v));
  }

  lemma EmptyHasNoSpine(epoch: int)
    requires IsInt64(epoch)
    ensures ParseRest(epoch, "").parts == []
  {
  }

  lemma UndecoratedAppend(v: string)
    requires v != "" && Trimmed(v, IsSpace)
    ensures Undecorated(v + ".0") == Undecorated(v) + ".0"
    ensures Undecorated(v) != "" ==> EndsInDot(Undecorated(v)) == EndsInDot(v)
    ensures Undecorated(v) == "" ==> !EndsInDot(v)
  {
    TrimOfTrimmed(v, IsSpace);
    TrimOfTrimmed(v + ".0", IsSpace);
    assert (v + ".0")[1..] == v[1..] + ".0";
  }

  lemma CutWithZero(u: string)
    requires AllSpine(ParseCut(u))
    ensures ParseCut(u + ".0") == WithZero(ParseCut(u), EndsInDot(u))
  {
    IndexOfAppend(u, ".0", '!');
    var k := IndexOf(u, '!');
    if k < |u| {
      CutAt(u, k);
      RestWithZero(Atoi(u[..k]).value, u[k + 1..]);
    } else {
      RestWithZero(0, u);
    }
  }

  lemma CutAt(u: string, k: nat)
    requires k < |u|
    ensures (u + ".0")[..k] == u[..k] && (u + ".0")[k + 1..] == u[k + 1..] + ".0"
    ensures u[k + 1..] != "" ==> EndsInDot(u[k + 1..]) == EndsInDot(u)
  {
  }

  lemma {:induction false} IndexOfNone(s: string, c: char)
    requires c !in s
    ensures IndexOf(s, c) == |s|
  {
    if s != "" {
      IndexOfNone(s[1..], c);
    }
  }

  lemma {:induction false} IndexOfAppend(s: string, t: string, c: char)
    requires c !in t
    ensures IndexOf(s + t, c) == if IndexOf(s, c) < |s| then IndexOf(s, c) else |s + t|
  {
    if s == "" {
      assert s + t == t;
      IndexOfNone(t, c);
    } else if s[0] != c {
      assert (s + t)[1..] == s[1..] + t;
      IndexOfAppend(s[1..], t, c);
    }
  }

  lemma RestWithZero(epoch: int, v: string)
    requires IsInt64(epoch) && AllSpine(ParseRest(epoch, v))
    ensures v != ""
    ensures ParseRest(epoch, v + ".0") == WithZero(ParseRest(epoch, v), EndsInDot(v))
  {
    EmptyHasNoSpine(epoch);
    SplitAppend(v);
    SpineWithZero(Split(v, '.'));
  }

  lemma {:induction false} SplitAppend(v: string)
    ensures Split(v + ".0", '.') == Split(v, '.') + ["0"]
    ensures v == "" || EndsInDot(v) <==> LastOf(Split(v, '.')) == ""
  {
    hide Split, EndsInDot;
    SplitDotZero();
    if v == "" {
      assert v + ".0" == ".0";
    } else {
      SplitAppend(v[1..]);
      SplitStep(v);
      SplitStep(v + ".0");
      assert (v + ".0")[1..] == v[1..] + ".0";
      OneCharMore(v[0], Split(v[1..], '.'));
      OneSegment(v[1..]);
      EndsLikeRest(v);
    }
  }

  function LastOf(parts: seq<string>): string
    requires parts != []
  {
    parts[|parts| - 1]
  }

  /** Putting a character in front commutes with putting a segment behind. */
  lemma OneCharMore(c: char, rest: seq<string>)
    requires rest != []
    ensures [""] + (rest + ["0"]) == [""] + rest + ["0"] && LastOf([""] + rest) == LastOf(rest)
    ensures [[c] + (rest + ["0"])[0]] + (rest + ["0"])[1..] == [[c] + rest[0]] + rest[1..] + ["0"]
    ensures LastOf([[c] + rest[0]] + rest[1..]) == (if |rest| == 1 then [c] + rest[0] else LastOf(rest))
  {
    assert (rest + ["0"])[1..] == rest[1..] + ["0"];
  }

  lemma {:induction false} OneSegment(s: string)
    ensures |Split(s, '.')| == 1 ==> Split(s, '.') == [s]
  {
    if s != "" {
      OneSegment(s[1..]);
      assert s == [s[0]] + s[1..];
    }
  }

  lemma EndsLikeRest(v: string)
    requires v != ""
    ensures EndsInDot(v) <==> if v[1..] == "" then v[0] == '.' else EndsInDot(v[1..])
  {
  }

  lemma SplitStep(v: string)
    requires v != ""
    ensures Split(v, '.') == (var rest := Split(v[1..], '.');
                              if v[0] == '.' then [""] + rest else [[v[0]] + rest[0]] + rest[1..])
  {
  }

  lemma SplitDotZero()
    ensures Split(".0", '.') == ["", "0"] && Split("", '.') == [""]
  {
    assert ".0"[1..] == "0" && "0"[1..] == "" && "0" == ['0'] + "";
    assert Split("0", '.') == ["0"];
    assert Split(".0", '.') == [""] + Split("0", '.');
  }

  lemma {:induction false} SpineWithZero(segments: seq<string>)
    requires segments != []
    requires Spine(segments).Some? && Spine(segments).value.0 != [] && Spine(segments).value.1 == ""
    ensures Spine(segments + ["0"])
         == Some(if segments[|segments| - 1] == "" then (Spine(segments).value.0, ".0")
                 else (Spine(segments).value.0 + [0], ""))
  {
    var more := segments + ["0"];
    assert more[0] == segments[0] && more[1..] == segments[1..] + ["0"];
    var digits := LeadingDigits(segments[0]);
    if digits == segments[0] {
      NumberSegment(segments);
      NumberSegment(more);
      var n := DigitsValue(digits);
      if |segments| == 1 {
        assert more[1..] == ["0"];
        ZeroSpine();
        assert [n] + [0] == [n] + [] + [0];
      } else if Spine(segments[1..]).value.0 != [] {
        SpineWithZero(segments[1..]);
        var t := Spine(segments[1..]).value.0;
        assert [n] + (t + [0]) == [n] + t + [0];
      } else {
        OnlyEmptySegment(segments[1..]);
        assert more[1..] == ["", "0"];
        assert Join(["", "0"], '.') == ".0" by {
          assert ["", "0"][1..] == ["0"];
        }
        assert [n] + [] == [n];
      }
    } else {
      JoinNonEmpty([segments[0][|digits|..]] + segments[1..]);
    }
  }

  /** A spine that collects nothing and leaves no suffix saw one empty segment. */
  lemma OnlyEmptySegment(segments: seq<string>)
    requires segments != []
    requires Spine(segments) == Some(([], ""))
    ensures segments == [""]
  {
    if segments[0] == "" && |segments| > 1 {
      JoinNonEmpty(segments);
    }
  }

  lemma NumberSegment(segments: seq<string>)
    requires segments != [] && segments[0] != "" && LeadingDigits(segments[0]) == segments[0]
    ensures Spine(segments)
         == if DigitsValue(segments[0]) > INT64_MAX then None
            else Prepend([DigitsValue(segments[0])], Spine(segments[1..]))
  {
    AtoiOfDigits(segments[0]);
  }

  lemma ZeroSpine()
    ensures Spine(["0"]) == Some(([0], ""))
  {
    var zero := "0";
    assert zero[1..] == "" && zero[..0] == "" && zero == [zero[0]] + "";
    assert LeadingDigits(zero) == zero;
    assert DigitsValue(zero) == 0;
    NumberSegment([zero]);
    assert [zero][1..] == [];
    assert [0] + [] == [0];
  }

  lemma JoinNonEmpty(parts: seq<string>)
    requires parts != [] && (parts[0] != "" || |parts| > 1)
    ensures Join(parts, '.') != ""
  {
  }

  /** A trailing `.0` on an all-numeric version changes no answer, on either side, exactly when the
      version does not end in a dot. `1.` and `1..0` are two versions the comparison cannot order. */
  lemma TrailingZeroIsIgnored(v: string)
    requires Trimmed(v, IsSpace) && AllSpine(ParseVersion(v))
    ensures (forall other :: Compare(v + ".0", other) == Compare(v, other)) <==> !EndsInDot(v)
    ensures (forall other :: Compare(other, v + ".0") == Compare(other, v)) <==> !EndsInDot(v)
  {
    TrailingZeroParses(v);
    var a := ParseVersion(v);
    if EndsInDot(v) {
      var z := a.(suffix := ".0");
      SpineSameDecided(a.parts, a.parts);
      assert Compare(v, v) == Equal && Compare(v + ".0", v) == Unknown && Compare(v, v + ".0") == Unknown;
    } else {
      forall other
        ensures Compare(v + ".0", other) == Compare(v, other)
        ensures Compare(other, v + ".0") == Compare(other, v)
      {
        ZeroAppended(a, ParseVersion(other));
      }
    }
  }

  lemma ZeroAppended(a: Parsed, c: Parsed)
    requires a.parts != []
    ensures CompareParsed(a.(parts := a.parts + [0]), c) == CompareParsed(a, c)
    ensures CompareParsed(c, a.(parts := a.parts + [0])) == CompareParsed(c, a)
  {
    var z := a.(parts := a.parts + [0]);
    assert SpineSame(z.parts, a.parts);
    SameVersionCongruent(z, a, c);
  }

  // ---- the epoch subtraction does overflow ----

  /** `digits!1`, or `v-digits!1` for a negative epoch. */
  function EpochVersion(negative: bool, digits: string): string {
    (if negative then "v-" else "") + digits + "!1"
  }

  lemma EpochVersionParses(negative: bool, digits: string)
    requires digits != "" && (forall c :: c in digits ==> IsDigit(c))
    requires DigitsValue(digits) <= INT64_MAX
    ensures ParseVersion(EpochVersion(negative, digits))
         == Parsed(if negative then -(DigitsValue(digits) as int) else DigitsValue(digits), [1], "")
  {
    UndecoratedEpoch(negative, digits);
    var head := if negative then "-" + digits else digits;
    SignedAtoi(negative, digits);
    CutEpoch(head, if negative then -(DigitsValue(digits) as int) else DigitsValue(digits));
  }

  lemma UndecoratedEpoch(negative: bool, digits: string)
    requires digits != "" && (forall c :: c in digits ==> IsDigit(c))
    ensures Undecorated(EpochVersion(negative, digits)) == (if negative then "-" + digits else digits) + "!1"
    ensures '!' !in digits
  {
    var v := EpochVersion(negative, digits);
    assert digits[0] in digits;
    TrimOfTrimmed(v, IsSpace);
  }

  lemma CutEpoch(head: string, n: int)
    requires '!' !in head && Atoi(head) == Some(n)
    ensures ParseCut(head + "!1") == Parsed(n, [1], "")
  {
    IndexAfter(head, "!1", '!');
    assert (head + "!1")[..|head|] == head && (head + "!1")[|head| + 1..] == "1";
    OneSpine();
  }

  lemma SignedAtoi(negative: bool, digits: string)
    requires digits != "" && (forall c :: c in digits ==> IsDigit(c))
    requires DigitsValue(digits) <= INT64_MAX
    ensures Atoi(if negative then "-" + digits else digits)
         == Some(if negative then -(DigitsValue(digits) as int) else DigitsValue(digits))
  {
    assert digits[0] in digits;
    assert ("-" + digits)[1..] == digits;
  }

  lemma {:induction false} IndexAfter(s: string, t: string, c: char)
    requires c !in s
    ensures IndexOf(s + t, c) == |s| + IndexOf(t, c)
  {
    if s == "" {
      assert s + t == t;
    } else {
      assert (s + t)[1..] == s[1..] + t;
      IndexAfter(s[1..], t, c);
    }
  }

  lemma OneSpine()
    ensures Spine(Split("1", '.')) == Some(([1], ""))
  {
    var one := "1";
    assert one[1..] == "" && one[..0] == "" && one == [one[0]] + "";
    assert LeadingDigits(one) == one;
    assert DigitsValue(one) == 1;
    NumberSegment([one]);
    assert [one][1..] == [];
    assert [1] + [] == [1];
  }

  const FIVE_QUINTILLION := "5000000000000000000"

  lemma FiveQuintillion()
    ensures forall c :: c in FIVE_QUINTILLION ==> IsDigit(c)
    ensures DigitsValue(FIVE_QUINTILLION) == 5_000_000_000_000_000_000
  {
    FiveAndZeroes();
    FivePrefix(19);
    assert FIVE_QUINTILLION[..19] == FIVE_QUINTILLION;
    assert Tens(9) == 1_000_000_000;
    assert Tens(18) == 1_000_000_000_000_000_000;
  }

  lemma FiveAndZeroes()
    ensures |FIVE_QUINTILLION| == 19 && FIVE_QUINTILLION[0] == '5'
    ensures forall i :: 1 <= i < 19 ==> FIVE_QUINTILLION[i] == '0'
  {
  }

  lemma {:induction false} FivePrefix(k: nat)
    requires 1 <= k <= 19
    ensures forall c :: c in FIVE_QUINTILLION[..k] ==> IsDigit(c)
    ensures DigitsValue(FIVE_QUINTILLION[..k]) == 5 * Tens(k - 1)
  {
    FiveAndZeroes();
    var s := FIVE_QUINTILLION[..k];
    if k == 1 {
      assert s[..0] == "";
    } else {
      FivePrefix(k - 1);
      assert s[..k - 1] == FIVE_QUINTILLION[..k - 1] && s[k - 1] == '0';
    }
  }

  function Tens(k: nat): nat {
    if k == 0 then 1 else Tens(k - 1) * 10
  }

  lemma ZeroDigits()
    ensures DigitsValue("0") == 0
  {
    assert "0"[..0] == "";
  }

  lemma EpochDecides(v: string, w: string, p: Parsed, q: Parsed)
    requires ParseVersion(v) == p && ParseVersion(w) == q && p.epoch != q.epoch
    requires Wrap64(q.epoch - p.epoch) > 0
    ensures Compare(v, w) == Higher
  {
    EpochsDecide(p, q);
  }

  lemma EpochsDecide(p: Parsed, q: Parsed)
    requires p.epoch != q.epoch
    ensures CompareParsed(p, q) == OrderOf(Wrap64(q.epoch - p.epoch))
  {
  }

  lemma CycleOf(zero: string, five: string)
    requires zero != "" && (forall c :: c in zero ==> IsDigit(c)) && DigitsValue(zero) == 0
    requires five != "" && (forall c :: c in five ==> IsDigit(c))
    requires DigitsValue(five) == 5_000_000_000_000_000_000
    ensures Compare(EpochVersion(false, zero), EpochVersion(false, five)) == Higher
    ensures Compare(EpochVersion(false, five), EpochVersion(true, five)) == Higher
    ensures Compare(EpochVersion(true, five), EpochVersion(false, zero)) == Higher
  {
    var u, v, w := EpochVersion(false, zero), EpochVersion(false, five), EpochVersion(true, five);
    EpochVersionParses(false, zero);
    EpochVersionParses(false, five);
    EpochVersionParses(true, five);
    WrapFlipsSign(-5_000_000_000_000_000_000 - 5_000_000_000_000_000_000);
    EpochDecides(u, v, Parsed(0, [1], ""), Parsed(5_000_000_000_000_000_000, [1], ""));
    EpochDecides(v, w, Parsed(5_000_000_000_000_000_000, [1], ""), Parsed(-5_000_000_000_000_000_000, [1], ""));
    EpochDecides(w, u, Parsed(-5_000_000_000_000_000_000, [1], ""), Parsed(0, [1], ""));
  }

  /** Three versions, each "higher" than the one before, that lead back to the first: the answer
      is not transitive on versions whose epochs have different signs. */
  lemma HigherHasACycle()
    ensures Compare("0!1", EpochVersion(false, FIVE_QUINTILLION)) == Higher
    ensures Compare(EpochVersion(false, FIVE_QUINTILLION), EpochVersion(true, FIVE_QUINTILLION)) == Higher
    ensures Compare(EpochVersion(true, FIVE_QUINTILLION), "0!1") == Higher
  {
    hide Compare, DigitsValue;
    FiveQuintillion();
    ZeroDigits();
    CycleOf("0", FIVE_QUINTILLION);
    assert "0!1" == EpochVersion(false, "0");
  }
}
