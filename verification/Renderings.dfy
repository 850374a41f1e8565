/** What the text of a version is split into, said of the text: a rendering of numbers, with whatever
    may stand in front of them and behind them. */
module Renderings {
  import opened Basics
  import opened Versions

  // ---- renderings ----

  predicate IsNumber(d: string) {
    d != "" && forall i :: 0 <= i < |d| ==> '0' <= d[i] <= '9'
  }

  /** The value of a digit string, most significant digit first. */
  function NumberValue(d: string): (n: nat)
    requires forall i :: 0 <= i < |d| ==> '0' <= d[i] <= '9'
  {
    if d == "" then 0 else NumberValue(d[..|d| - 1]) * 10 + (d[|d| - 1] as int - '0' as int)
  }

  predicate AllNumbers(ds: seq<string>) {
    forall i :: 0 <= i < |ds| ==> IsNumber(ds[i])
  }

  /** Every number is at most 2^63 - 1. */
  predicate AllFitting(ds: seq<string>)
    requires AllNumbers(ds)
  {
    forall i :: 0 <= i < |ds| ==> NumberValue(ds[i]) <= 0x7fff_ffff_ffff_ffff
  }

  function Values(ds: seq<string>): (ns: seq<int>)
    requires AllNumbers(ds)
    ensures |ns| == |ds| && forall i :: 0 <= i < |ds| ==> ns[i] == NumberValue(ds[i])
  {
    seq(|ds|, i requires 0 <= i < |ds| => NumberValue(ds[i]))
  }

  /** The numbers with dots between them. */
  function Dotted(ds: seq<string>): string {
    if ds == [] then "" else if |ds| == 1 then ds[0] else ds[0] + "." + Dotted(ds[1..])
  }

  // ---- splitting a rendering at its dots ----

  lemma {:induction false} ValueIsDigitsValue(d: string)
    requires IsNumber(d)
    ensures (forall c :: c in d ==> IsDigit(c)) && DigitsValue(d) == NumberValue(d) && '.' !in d && '!' !in d
  {
    if |d| > 1 {
      ValueIsDigitsValue(d[..|d| - 1]);
    } else {
      assert d[..0] == "";
    }
  }

  lemma {:induction false} SplitSegment(d: string, rest: string)
    requires '.' !in d
    ensures Split(d + "." + rest, '.') == [d] + Split(rest, '.')
  {
    if d == "" {
      assert (d + "." + rest)[1..] == rest;
    } else {
      SplitSegment(d[1..], rest);
      assert (d + "." + rest)[1..] == d[1..] + "." + rest;
      assert d == [d[0]] + d[1..];
    }
  }

  lemma {:induction false} SplitWithin(d: string, t: string)
    requires '.' !in d
    ensures Split(d + t, '.') == [d + Split(t, '.')[0]] + Split(t, '.')[1..]
  {
    if d == "" {
      var segments := Split(t, '.');
      assert d + t == t && d + segments[0] == segments[0];
      assert [segments[0]] + segments[1..] == segments;
    } else {
      SplitWithin(d[1..], t);
      assert (d + t)[1..] == d[1..] + t;
      assert d + Split(t, '.')[0] == [d[0]] + (d[1..] + Split(t, '.')[0]);
    }
  }

  lemma {:induction false} JoinOfSplit(s: string)
    ensures Join(Split(s, '.'), '.') == s
  {
    if s != "" {
      var rest := Split(s[1..], '.');
      JoinOfSplit(s[1..]);
      assert s == [s[0]] + s[1..];
      JoinFront(s[0], rest);
    }
  }

  lemma JoinFront(c: char, rest: seq<string>)
    requires rest != []
    ensures Join([""] + rest, '.') == "." + Join(rest, '.')
    ensures Join([[c] + rest[0]] + rest[1..], '.') == [c] + Join(rest, '.')
  {
    assert ([""] + rest)[1..] == rest;
    assert "" + ['.'] + Join(rest, '.') == "." + Join(rest, '.');
    JoinLonger(c, rest[0], rest[1..]);
    assert [rest[0]] + rest[1..] == rest;
  }

  lemma JoinLonger(c: char, first: string, more: seq<string>)
    ensures Join([[c] + first] + more, '.') == [c] + Join([first] + more, '.')
  {
    assert ([[c] + first] + more)[1..] == more && ([first] + more)[1..] == more;
    assert ([[c] + first] + more)[0] == [c] + first && ([first] + more)[0] == first;
    var tail := Join(more, '.');
    assert ([c] + first) + ['.'] + tail == [c] + (first + ['.'] + tail);
  }

  lemma FirstSegmentStarts(t: string)
    ensures t == "" ==> Split(t, '.') == [""]
    ensures t != "" && t[0] == '.' ==> Split(t, '.')[0] == ""
    ensures t != "" && t[0] != '.' ==> Split(t, '.')[0] != "" && Split(t, '.')[0][0] == t[0]
  {
  }

  // ---- the spine of a rendering ----

  lemma {:induction false} DigitsThen(d: string, s: string)
    requires IsNumber(d) && (s == "" || !IsDigit(s[0]))
    ensures LeadingDigits(d + s) == d && (d + s)[|d|..] == s
  {
    if |d| > 1 {
      DigitsThen(d[1..], s);
      assert (d + s)[1..] == d[1..] + s;
      assert d == [d[0]] + d[1..];
    } else {
      assert (d + s)[1..] == s && d == [d[0]];
      assert LeadingDigits(s) == "";
    }
  }

  /** One whole number in front. */
  lemma SpineOfNumber(d: string, segments: seq<string>)
    requires IsNumber(d)
    ensures Spine([d] + segments)
         == if NumberValue(d) > INT64_MAX then None
            else match Spine(segments) case None => None case Some(r) => Some(([NumberValue(d) as int] + r.0, r.1))
  {
    ValueIsDigitsValue(d);
    DigitsThen(d, "");
    assert d + "" == d;
    AtoiOfDigits(d);
    assert ([d] + segments)[1..] == segments;
  }

  lemma {:induction false} SpineOfNumbers(ds: seq<string>, segments: seq<string>)
    requires AllNumbers(ds)
    ensures AllFitting(ds) ==>
              Spine(ds + segments) == match Spine(segments) case None => None case Some(r) => Some((Values(ds) + r.0, r.1))
    ensures !AllFitting(ds) ==> Spine(ds + segments) == None
  {
    hide AllFitting, Spine, NumberValue;
    AllFittingNone(ds);
    if ds == [] {
      assert ds + segments == segments;
      assert Spine(segments).Some? ==> Values(ds) + Spine(segments).value.0 == Spine(segments).value.0;
    } else {
      SpineOfNumbers(ds[1..], segments);
      SpineOfNumber(ds[0], ds[1..] + segments);
      assert ds + segments == [ds[0]] + (ds[1..] + segments);
      FirstAndRest(ds);
      if Spine(segments).Some? {
        var r := Spine(segments).value.0;
        assert Values(ds) + r == [NumberValue(ds[0]) as int] + (Values(ds[1..]) + r);
      }
    }
  }

  lemma AllFittingNone(ds: seq<string>)
    requires AllNumbers(ds)
    ensures ds == [] ==> AllFitting(ds)
  {
  }

  lemma FirstAndRest(ds: seq<string>)
    requires ds != [] && AllNumbers(ds)
    ensures AllFitting(ds) <==> NumberValue(ds[0]) <= INT64_MAX && AllFitting(ds[1..])
    ensures Values(ds) == [NumberValue(ds[0]) as int] + Values(ds[1..])
  {
    assert forall i :: 1 <= i < |ds| ==> ds[i] == ds[1..][i - 1];
  }

  /** A number with something behind it ends the spine, and counts. */
  lemma SpineOfMixed(d: string, s: string, more: seq<string>)
    requires IsNumber(d) && s != "" && !IsDigit(s[0])
    ensures Spine([d + s] + more)
         == if NumberValue(d) > INT64_MAX then None else Some(([NumberValue(d) as int], Join([s] + more, '.')))
  {
    ValueIsDigitsValue(d);
    DigitsThen(d, s);
    AtoiOfDigits(d);
    assert ([d + s] + more)[1..] == more;
  }

  /** A segment without a number ends the spine before it. */
  lemma SpineOfWords(segments: seq<string>)
    requires segments != [] && (segments[0] == "" || !IsDigit(segments[0][0]))
    ensures Spine(segments) == Some(([], Join(segments, '.')))
  {
  }

  /** The dots of a rendering are where it splits; what is behind it stays with its last number. */
  lemma {:induction false} SplitRendering(ds: seq<string>, t: string)
    requires ds != [] && AllNumbers(ds)
    ensures Split(Dotted(ds) + t, '.') == ds[..|ds| - 1] + [ds[|ds| - 1] + Split(t, '.')[0]] + Split(t, '.')[1..]
    ensures Split(Dotted(ds) + "." + t, '.') == ds + Split(t, '.')
  {
    hide Split, Dotted, IsNumber;
    var d, segments := ds[0], Split(t, '.');
    ValueIsDigitsValue(d);
    if |ds| == 1 {
      SplitWithin(d, t);
      SplitSegment(d, t);
      DottedOne(ds);
      assert ds == [d] && ds[..0] == [];
      assert [] + [d + segments[0]] == [d + segments[0]];
    } else {
      SplitRendering(ds[1..], t);
      SplitSegment(d, Dotted(ds[1..]) + t);
      SplitSegment(d, Dotted(ds[1..]) + "." + t);
      DottedFront(ds, t);
      FrontAgain(ds, [ds[|ds| - 1] + segments[0]], segments);
    }
  }

  lemma DottedOne(ds: seq<string>)
    requires |ds| == 1
    ensures Dotted(ds) == ds[0]
  {
  }

  lemma FrontAgain(ds: seq<string>, last: seq<string>, segments: seq<string>)
    requires |ds| > 1 && segments != []
    ensures [ds[0]] + (ds[1..][..|ds| - 2] + last + segments[1..]) == ds[..|ds| - 1] + last + segments[1..]
    ensures [ds[0]] + (ds[1..] + segments) == ds + segments
    ensures ds[1..][|ds| - 2] == ds[|ds| - 1]
  {
    assert ds[..|ds| - 1] == [ds[0]] + ds[1..][..|ds| - 2];
    assert ds == [ds[0]] + ds[1..];
  }

  lemma DottedFront(ds: seq<string>, t: string)
    requires |ds| > 1
    ensures Dotted(ds) + t == ds[0] + "." + (Dotted(ds[1..]) + t)
    ensures Dotted(ds) + "." + t == ds[0] + "." + (Dotted(ds[1..]) + "." + t)
  {
    var tail := Dotted(ds[1..]);
    assert Dotted(ds) == ds[0] + "." + tail;
    hide Dotted;
    Regroup(ds[0], tail, t);
  }

  lemma Regroup(d: string, tail: string, t: string)
    ensures (d + "." + tail) + t == d + "." + (tail + t)
    ensures (d + "." + tail) + "." + t == d + "." + (tail + "." + t)
  {
  }

  /** What may follow the numbers directly: nothing, or something that continues neither the last
      number nor the list. */
  predicate IsSuffix(t: string) {
    t == "" || (!('0' <= t[0] <= '9') && t[0] != '.')
  }

  predicate IsWord(t: string) {
    t == "" || !('0' <= t[0] <= '9')
  }

  /** The numbers are the spine and what follows is the suffix; a dot between them is dropped; and a
      number too large for 64 bits leaves no spine at all. */
  lemma RestOfRendering(epoch: int, ds: seq<string>, t: string)
    requires IsInt64(epoch) && ds != [] && AllNumbers(ds)
    ensures IsSuffix(t) ==>
              ParseRest(epoch, Dotted(ds) + t) == if AllFitting(ds) then Parsed(epoch, Values(ds), t) else Parsed(epoch, [], Dotted(ds) + t)
    ensures IsWord(t) ==>
              ParseRest(epoch, Dotted(ds) + "." + t) ==
                if AllFitting(ds) then Parsed(epoch, Values(ds), t) else Parsed(epoch, [], Dotted(ds) + "." + t)
  {
    SplitRendering(ds, t);
    FirstSegmentStarts(t);
    if IsSuffix(t) {
      SuffixSpine(ds, t);
    }
    if IsWord(t) {
      SpineOfNumbers(ds, Split(t, '.'));
      SpineOfWords(Split(t, '.'));
      JoinOfSplit(t);
      assert Values(ds) + [] == Values(ds);
    }
  }

  lemma SuffixSpine(ds: seq<string>, t: string)
    requires ds != [] && AllNumbers(ds) && IsSuffix(t)
    ensures Spine(ds[..|ds| - 1] + [ds[|ds| - 1] + Split(t, '.')[0]] + Split(t, '.')[1..])
         == if AllFitting(ds) then Some((Values(ds), t)) else None
  {
    var init, last, segments := ds[..|ds| - 1], ds[|ds| - 1], Split(t, '.');
    var tail := [last + segments[0]] + segments[1..];
    FirstSegmentStarts(t);
    InitAndLast(ds);
    assert init + [last + segments[0]] + segments[1..] == init + tail;
    SpineOfNumbers(init, tail);
    if t == "" {
      assert last + "" == last && segments[1..] == [];
      assert tail == [last] + [];
      SpineOfNumber(last, []);
      assert [NumberValue(last) as int] + [] == [NumberValue(last) as int];
    } else {
      SpineOfMixed(last, segments[0], segments[1..]);
      JoinOfSplit(t);
      assert [segments[0]] + segments[1..] == segments;
    }
  }

  lemma InitAndLast(ds: seq<string>)
    requires ds != [] && AllNumbers(ds)
    ensures AllNumbers(ds[..|ds| - 1]) && IsNumber(ds[|ds| - 1])
    ensures AllFitting(ds) <==> AllFitting(ds[..|ds| - 1]) && NumberValue(ds[|ds| - 1]) <= INT64_MAX
    ensures Values(ds) == Values(ds[..|ds| - 1]) + [NumberValue(ds[|ds| - 1]) as int]
  {
    assert ds == ds[..|ds| - 1] + [ds[|ds| - 1]];
  }

  // ---- whole versions ----

  /** Nothing at either end that trimming would remove. */
  predicate Tight(t: string) {
    t != "" ==> !IsSpace(t[|t| - 1])
  }

  lemma {:induction false} DottedStarts(ds: seq<string>)
    requires ds != [] && AllNumbers(ds)
    ensures Dotted(ds) != "" && IsDigit(Dotted(ds)[0]) && IsDigit(Dotted(ds)[|Dotted(ds)| - 1]) && '!' !in Dotted(ds)
  {
    ValueIsDigitsValue(ds[0]);
    if |ds| > 1 {
      DottedStarts(ds[1..]);
    }
  }

  lemma PlainCut(u: string)
    requires u != "" && !IsSpace(u[0]) && u[0] != 'v' && Tight(u) && '!' !in u
    ensures ParseVersion(u) == ParseRest(0, u) && ParseVersion("v" + u) == ParseRest(0, u)
  {
    hide ParseRest;
    TrimOfTrimmed(u, IsSpace);
    TrimOfTrimmed("v" + u, IsSpace);
    assert ("v" + u)[1..] == u;
    IndexOfNone(u, '!');
  }

  /** The parse of a version without an epoch: numbers joined by dots are its spine, the last one however
      followed, and the rest its suffix. A leading `v` is decoration. */
  lemma RenderingParses(ds: seq<string>, t: string)
    requires ds != [] && AllNumbers(ds) && IsSuffix(t) && Tight(t) && '!' !in t
    ensures var p := if AllFitting(ds) then Parsed(0, Values(ds), t) else Parsed(0, [], Dotted(ds) + t);
            ParseVersion(Dotted(ds) + t) == p && ParseVersion("v" + (Dotted(ds) + t)) == p
  {
    hide ParseVersion, ParseRest, Dotted, NumberValue, IsNumber, AllFitting;
    DottedStarts(ds);
    RestOfRendering(0, ds, t);
    PlainCut(Dotted(ds) + t);
  }

  /** The same where a dot separates the numbers from a word: the dot is lost. */
  lemma RenderingThenWordParses(ds: seq<string>, t: string)
    requires ds != [] && AllNumbers(ds) && IsWord(t) && Tight(t) && '!' !in t
    ensures ParseVersion(Dotted(ds) + "." + t)
         == if AllFitting(ds) then Parsed(0, Values(ds), t) else Parsed(0, [], Dotted(ds) + "." + t)
  {
    hide ParseVersion, ParseRest, Dotted, NumberValue, IsNumber, AllFitting;
    DottedStarts(ds);
    RestOfRendering(0, ds, t);
    PlainCut(Dotted(ds) + "." + t);
  }

  /** A text that starts with no number has no spine, and is all suffix. */
  lemma WordParses(u: string)
    requires u != "" && !IsSpace(u[0]) && !('0' <= u[0] <= '9') && u[0] != 'v' && Tight(u) && '!' !in u
    ensures ParseVersion(u) == Parsed(0, [], u)
  {
    PlainCut(u);
    FirstSegmentStarts(u);
    SpineOfWords(Split(u, '.'));
    JoinOfSplit(u);
  }

  /** What stands before the first `!` is the epoch when it is a number that fits, signed or not. */
  lemma EpochParses(negative: bool, e: string, ds: seq<string>, t: string)
    requires IsNumber(e) && NumberValue(e) <= 0x7fff_ffff_ffff_ffff
    requires ds != [] && AllNumbers(ds) && AllFitting(ds) && IsSuffix(t) && Tight(t)
    ensures ParseVersion((if negative then "v-" else "") + e + "!" + Dotted(ds) + t)
         == Parsed(if negative then -(NumberValue(e) as int) else NumberValue(e), Values(ds), t)
  {
    hide ParseRest, ParseCut, Atoi, Dotted, NumberValue, Undecorated;
    var head := if negative then "-" + e else e;
    var n := if negative then -(NumberValue(e) as int) else NumberValue(e);
    DottedStarts(ds);
    ValueIsDigitsValue(e);
    SignedAtoi(negative, e);
    EpochCut(head, n, Dotted(ds) + t);
    RestOfRendering(n, ds, t);
    EpochUndecorated(negative, e, Dotted(ds) + t);
    assert (if negative then "v-" else "") + e + "!" + Dotted(ds) + t == (if negative then "v-" else "") + e + "!" + (Dotted(ds) + t);
  }

  lemma EpochUndecorated(negative: bool, e: string, rest: string)
    requires IsNumber(e) && rest != "" && Tight(rest)
    ensures Undecorated((if negative then "v-" else "") + e + "!" + rest) == (if negative then "-" + e else e) + "!" + rest
  {
    assert '0' <= e[0] <= '9';
    hide IsNumber, IsSpace;
    var u := (if negative then "-" + e else e) + "!" + rest;
    var v := (if negative then "v-" else "") + e + "!" + rest;
    assert v == if negative then "v" + u else u;
    NoSpaces();
    assert u[|u| - 1] == rest[|rest| - 1] && v[|v| - 1] == rest[|rest| - 1];
    TrimOfTrimmed(v, IsSpace);
    assert negative ==> ("v" + u)[1..] == u;
  }

  lemma NoSpaces()
    ensures !IsSpace('v') && forall c :: '0' <= c <= '9' ==> !IsSpace(c)
  {
  }

  lemma EpochCut(head: string, n: int, rest: string)
    requires '!' !in head && Atoi(head) == Some(n)
    ensures ParseCut(head + "!" + rest) == ParseRest(n, rest)
  {
    hide ParseRest, Atoi;
    IndexBefore(head, rest);
    var u := head + "!" + rest;
    assert u[..|head|] == head && u[|head| + 1..] == rest;
  }

  lemma {:induction false} IndexBefore(head: string, rest: string)
    requires '!' !in head
    ensures IndexOf(head + "!" + rest, '!') == |head|
  {
    if head != "" {
      IndexBefore(head[1..], rest);
      assert (head + "!" + rest)[1..] == head[1..] + "!" + rest;
    }
  }

  /** A number of 64 bits, with a sign or without. */
  predicate IsEpoch(head: string) {
    var signed := head != "" && (head[0] == '-' || head[0] == '+');
    var d := if signed then head[1..] else head;
    IsNumber(d) && NumberValue(d) <= if signed && head[0] == '-' then 0x8000_0000_0000_0000 else 0x7fff_ffff_ffff_ffff
  }

  /** Anything else before the first `!` leaves the text without a spine, the `!` and what follows it
      included. */
  lemma NoEpochParses(head: string, rest: string)
    requires '!' !in head && !IsEpoch(head) && Tight(rest)
    requires head != "" ==> !IsSpace(head[0]) && head[0] != 'v'
    ensures ParseVersion(head + "!" + rest) == Parsed(0, [], head + "!" + rest)
  {
    var u := head + "!" + rest;
    NoEpochAtoi(head);
    IndexBefore(head, rest);
    assert u[..|head|] == head;
    hide IsEpoch, Atoi;
    assert u[0] == if head == "" then '!' else head[0];
    assert u[|u| - 1] == if rest == "" then '!' else rest[|rest| - 1];
    TrimOfTrimmed(u, IsSpace);
  }

  lemma NoEpochAtoi(head: string)
    requires !IsEpoch(head)
    ensures Atoi(head) == None
  {
    var d := if head != "" && (head[0] == '-' || head[0] == '+') then head[1..] else head;
    if IsNumber(d) {
      ValueIsDigitsValue(d);
    } else if d != "" {
      var i :| 0 <= i < |d| && !('0' <= d[i] <= '9');
      assert d[i] in d && !IsDigit(d[i]);
    }
  }

  /** Space around a version makes no difference. */
  lemma SpaceIsIgnored(a: string, v: string, b: string)
    requires Trimmed(v, IsSpace) && (forall i :: 0 <= i < |a| ==> IsSpace(a[i])) && (forall i :: 0 <= i < |b| ==> IsSpace(b[i]))
    ensures ParseVersion(a + v + b) == ParseVersion(v)
  {
    TrimStripsMargins(a, v, b, IsSpace);
    TrimOfTrimmed(v, IsSpace);
  }

  // ---- comparing renderings ----

  /** Component `i`, or zero where there is none. */
  function Component(ds: seq<string>, i: nat): nat
    requires AllNumbers(ds)
  {
    if i < |ds| then NumberValue(ds[i]) else 0
  }

  predicate SameUpTo(ds: seq<string>, es: seq<string>, n: nat)
    requires AllNumbers(ds) && AllNumbers(es)
  {
    forall i :: 0 <= i < n ==> Component(ds, i) == Component(es, i)
  }

  /** The first component that differs decides, whatever the suffixes are. */
  lemma NumbersDecide(ds: seq<string>, t: string, es: seq<string>, s: string, n: nat)
    requires ds != [] && AllNumbers(ds) && AllFitting(ds) && IsSuffix(t) && Tight(t) && '!' !in t
    requires es != [] && AllNumbers(es) && AllFitting(es) && IsSuffix(s) && Tight(s) && '!' !in s
    requires SameUpTo(ds, es, n) && Component(ds, n) < Component(es, n)
    ensures Compare(Dotted(ds) + t, Dotted(es) + s) == Higher
    ensures Compare(Dotted(es) + s, Dotted(ds) + t) == Lower
  {
    hide ParseVersion, CompareParsed, Dotted, NumberValue;
    RenderingParses(ds, t);
    RenderingParses(es, s);
    ComponentsAre(ds, es, n);
    SpinesDecide(Parsed(0, Values(ds), t), Parsed(0, Values(es), s), n);
  }

  lemma ComponentsAre(ds: seq<string>, es: seq<string>, n: nat)
    requires AllNumbers(ds) && AllNumbers(es)
    ensures SpinesAgree(Values(ds), Values(es), n) <==> SameUpTo(ds, es, n)
    ensures PartAt(Values(ds), n) == Component(ds, n) && PartAt(Values(es), n) == Component(es, n)
  {
    hide NumberValue;
    forall i: nat
      ensures PartAt(Values(ds), i) == Component(ds, i) && PartAt(Values(es), i) == Component(es, i)
    {
    }
  }

  lemma SpinesDecide(p: Parsed, q: Parsed, n: nat)
    requires p.epoch == q.epoch && p.parts != [] && q.parts != []
    requires SpinesAgree(p.parts, q.parts, n) && PartAt(p.parts, n) < PartAt(q.parts, n)
    ensures CompareParsed(p, q) == Higher && CompareParsed(q, p) == Lower
  {
    hide SpineBehind;
    SpineDecided(p.parts, q.parts, n);
  }

  /** Where no component differs, equal suffixes are equal and different ones are not compared. */
  lemma SuffixesDecide(ds: seq<string>, t: string, es: seq<string>, s: string)
    requires ds != [] && AllNumbers(ds) && AllFitting(ds) && IsSuffix(t) && Tight(t) && '!' !in t
    requires es != [] && AllNumbers(es) && AllFitting(es) && IsSuffix(s) && Tight(s) && '!' !in s
    requires SameUpTo(ds, es, |ds| + |es|)
    ensures Compare(Dotted(ds) + t, Dotted(es) + s) == if t == s then Equal else Unknown
  {
    hide ParseVersion, CompareParsed, Dotted, NumberValue;
    RenderingParses(ds, t);
    RenderingParses(es, s);
    ComponentsAre(ds, es, |ds| + |es|);
    SpinesTie(Parsed(0, Values(ds), t), Parsed(0, Values(es), s));
  }

  lemma SpinesTie(p: Parsed, q: Parsed)
    requires p.epoch == q.epoch && p.parts != [] && q.parts != []
    requires SpinesAgree(p.parts, q.parts, |p.parts| + |q.parts|)
    ensures CompareParsed(p, q) == if p.suffix == q.suffix then Equal else Unknown
  {
    SpineSameDecided(p.parts, q.parts);
  }
}
