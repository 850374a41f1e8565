/** The index document: its listings, their order, and the rules a client applies to them. */
module Registry {
  import opened Basics
  import opened Submissions

  datatype Listing = Listing(
    id: string, name: string, description: string, author: string, homepage: string,
    version: string, url: string, sha256: string, sdk: string, minApp: Option<string>, notes: string)

  datatype IndexError = BadId | DuplicatePlugin | NoName | NoReleaseVersion | NotHttps | BadSha256

  function ListingId(l: Listing): string {
    l.id
  }

  // ---- order by id ----

  /** Strictly increasing ids: ordered, and no id twice. */
  ghost predicate Increasing<T>(xs: seq<T>, key: T -> string) {
    forall i, j :: 0 <= i < j < |xs| ==> TextLess(key(xs[i]), key(xs[j]))
  }

  ghost predicate Ordered<T>(xs: seq<T>, key: T -> string) {
    forall i, j :: 0 <= i < j < |xs| ==> !TextLess(key(xs[j]), key(xs[i]))
  }

  /** `a < b` as Go compares strings. */
  predicate Before(a: string, b: string)
    ensures Before(a, b) <==> TextLess(a, b)
  {
    b != "" && (a == "" || a[0] < b[0] || (a[0] == b[0] && Before(a[1..], b[1..])))
  }

  /** `x` put behind the last element that is not above it. */
  function InsertBy<T>(x: T, xs: seq<T>, key: T -> string): (r: seq<T>)
  {
    if xs != [] && Before(key(x), key(xs[|xs| - 1])) then
      InsertBy(x, xs[..|xs| - 1], key) + [xs[|xs| - 1]]
    else xs + [x]
  }

  lemma {:induction false} InsertPermutes<T>(x: T, xs: seq<T>, key: T -> string)
    ensures multiset(InsertBy(x, xs, key)) == multiset(xs) + multiset{x}
  {
    if xs != [] && Before(key(x), key(xs[|xs| - 1])) {
      InsertPermutes(x, xs[..|xs| - 1], key);
      assert xs == xs[..|xs| - 1] + [xs[|xs| - 1]];
    }
  }

  lemma {:induction false} InsertKeepsOrder<T>(x: T, xs: seq<T>, key: T -> string)
    requires Ordered(xs, key)
    ensures Ordered(InsertBy(x, xs, key), key)
  {
    if xs != [] {
      var last := xs[|xs| - 1];
      if Before(key(x), key(last)) {
        var init := InsertBy(x, xs[..|xs| - 1], key);
        InsertKeepsOrder(x, xs[..|xs| - 1], key);
        InsertPermutes(x, xs[..|xs| - 1], key);
        forall i | 0 <= i < |init|
          ensures !TextLess(key(last), key(init[i]))
        {
          assert init[i] in multiset(init);
          if init[i] == x {
            NotBoth(key(x), key(last));
          } else {
            assert init[i] in multiset(xs[..|xs| - 1]);
          }
        }
      } else {
        forall i | 0 <= i < |xs|
          ensures !TextLess(key(x), key(xs[i]))
        {
          if i < |xs| - 1 {
            NotBelow(key(x), key(last), key(xs[i]));
          }
        }
      }
    }
  }

  lemma NotBoth(a: string, b: string)
    ensures !(TextLess(a, b) && TextLess(b, a))
  {
    if TextLess(a, b) && TextLess(b, a) {
      TextLessTransitive(a, b, a);
      TextLessIrreflexive(a);
    }
  }

  /** What is not below `b` is not below anything `b` is not below. */
  lemma NotBelow(a: string, b: string, c: string)
    requires !TextLess(a, b) && !TextLess(b, c)
    ensures !TextLess(a, c)
  {
    TextLessTotal(b, c);
    TextLessTotal(a, b);
    if TextLess(a, c) {
      if TextLess(c, b) {
        TextLessTransitive(a, c, b);
      }
    }
  }

  /** sort.Slice by id. Insertion sort, last element last: what any sort does once ids are unique. */
  function SortBy<T>(xs: seq<T>, key: T -> string): seq<T> {
    if xs == [] then [] else InsertBy(xs[|xs| - 1], SortBy(xs[..|xs| - 1], key), key)
  }

  lemma {:induction false} SortPermutes<T>(xs: seq<T>, key: T -> string)
    ensures multiset(SortBy(xs, key)) == multiset(xs)
  {
    if xs != [] {
      var init, last := xs[..|xs| - 1], xs[|xs| - 1];
      SortPermutes(init, key);
      InsertPermutes(last, SortBy(init, key), key);
      LastCounted(init, last);
      assert xs == init + [last];
    }
  }

  lemma LastCounted<T>(init: seq<T>, last: T)
    ensures multiset(init + [last]) == multiset(init) + multiset{last}
  {
  }

  lemma {:induction false} SortOrders<T>(xs: seq<T>, key: T -> string)
    ensures Ordered(SortBy(xs, key), key)
  {
    if xs != [] {
      SortOrders(xs[..|xs| - 1], key);
      InsertKeepsOrder(xs[|xs| - 1], SortBy(xs[..|xs| - 1], key), key);
    }
  }

  /** Sorting what is already strictly increasing changes nothing. */
  lemma {:induction false} SortOfIncreasing<T>(xs: seq<T>, key: T -> string)
    requires Increasing(xs, key)
    ensures SortBy(xs, key) == xs
  {
    if xs != [] {
      hide TextLess;
      var init := xs[..|xs| - 1];
      SortOfIncreasing(init, key);
      if init != [] {
        assert TextLess(key(xs[|xs| - 2]), key(xs[|xs| - 1]));
        NotBoth(key(init[|init| - 1]), key(xs[|xs| - 1]));
      }
      assert init + [xs[|xs| - 1]] == xs;
    }
  }

  // ---- Validate ----

  function ReleaseProblem(l: Listing): Option<IndexError> {
    if TrimSpace(l.version) == "" then Some(NoReleaseVersion)
    else if !HasHttpsPrefix(l.url) then Some(NotHttps)
    else if !IsDigestHex(l.sha256) then Some(BadSha256)
    else None
  }

  /** Every rule the client applies to one listing. */
  predicate Renders(l: Listing) {
    IsPluginId(l.id) && TrimSpace(l.name) != "" && ReleaseProblem(l) == None
  }

  ghost predicate AllRender(ls: seq<Listing>) {
    forall i :: 0 <= i < |ls| ==> Renders(ls[i])
  }

  ghost predicate DistinctIds(ls: seq<Listing>) {
    forall i, j :: 0 <= i < j < |ls| ==> ls[i].id != ls[j].id
  }

  /** What is wrong with a listing whose id was `taken` by an earlier one, or was not. */
  function ListingProblem(l: Listing, taken: bool): Option<IndexError> {
    if !IsPluginId(l.id) then Some(BadId)
    else if taken then Some(DuplicatePlugin)
    else if TrimSpace(l.name) == "" then Some(NoName)
    else ReleaseProblem(l)
  }

  ghost predicate Taken(ls: seq<Listing>, id: string) {
    exists k :: 0 <= k < |ls| && ls[k].id == id
  }

  /** The problem of the first listing that has one. */
  ghost function FirstProblem(ls: seq<Listing>): Option<IndexError> {
    if ls == [] then None
    else match FirstProblem(ls[..|ls| - 1])
      case Some(e) => Some(e)
      case None => ListingProblem(ls[|ls| - 1], Taken(ls[..|ls| - 1], ls[|ls| - 1].id))
  }

  /** Reports the first failure in document order. */
  method Validate(ls: seq<Listing>) returns (problem: Option<IndexError>)
    ensures problem == FirstProblem(ls)
  {
    hide IsPluginId, TrimSpace, ReleaseProblem;
    var seen: set<string> := {};
    for i := 0 to |ls|
      invariant FirstProblem(ls[..i]) == None
      invariant forall s :: s in seen <==> Taken(ls[..i], s)
    {
      var l := ls[i];
      NextProblem(ls, i);
      if !IsPluginId(l.id) {
        return Some(BadId);
      }
      if l.id in seen {
        return Some(DuplicatePlugin);
      }
      seen := seen + {l.id};
      TakenNext(ls, i);
      if TrimSpace(l.name) == "" {
        return Some(NoName);
      }
      if ReleaseProblem(l) != None {
        return ReleaseProblem(l);
      }
    }
    assert ls[..|ls|] == ls;
    return None;
  }

  lemma TakenNext(ls: seq<Listing>, i: nat)
    requires i < |ls|
    ensures forall s :: Taken(ls[..i + 1], s) <==> Taken(ls[..i], s) || s == ls[i].id
  {
    var before, after := ls[..i], ls[..i + 1];
    assert after == before + [ls[i]];
    forall s
      ensures Taken(after, s) <==> Taken(before, s) || s == ls[i].id
    {
      if k :| 0 <= k < i && before[k].id == s {
        assert after[k].id == s;
      }
      assert after[i] == ls[i];
    }
  }

  lemma NextProblem(ls: seq<Listing>, i: nat)
    requires i < |ls| && FirstProblem(ls[..i]) == None
    ensures FirstProblem(ls[..i + 1]) == ListingProblem(ls[i], Taken(ls[..i], ls[i].id))
    ensures ListingProblem(ls[i], Taken(ls[..i], ls[i].id)) != None ==> FirstProblem(ls) == FirstProblem(ls[..i + 1])
  {
    hide ListingProblem, Taken;
    assert ls[..i + 1][..i] == ls[..i];
    if FirstProblem(ls[..i + 1]) != None {
      ProblemStays(ls, i + 1);
    }
  }

  lemma {:induction false} ProblemStays(ls: seq<Listing>, i: nat)
    requires i <= |ls| && FirstProblem(ls[..i]) != None
    ensures FirstProblem(ls) == FirstProblem(ls[..i])
  {
    if i == |ls| {
      assert ls[..i] == ls;
    } else {
      assert ls[..|ls| - 1][..i] == ls[..i];
      ProblemStays(ls[..|ls| - 1], i);
    }
  }

  /** No failure is reported exactly when every listing renders and no id repeats. */
  lemma {:induction false} NoProblemMeans(ls: seq<Listing>)
    ensures FirstProblem(ls) == None <==> AllRender(ls) && DistinctIds(ls)
  {
    hide IsPluginId, TrimSpace, ReleaseProblem;
    if ls != [] {
      var init, last := ls[..|ls| - 1], ls[|ls| - 1];
      NoProblemMeans(init);
      assert init + [last] == ls;
      if AllRender(ls) && DistinctIds(ls) {
        assert Renders(ls[|ls| - 1]);
        assert forall k :: 0 <= k < |init| ==> init[k].id == ls[k].id;
      }
      if FirstProblem(ls) == None {
        assert !Taken(init, last.id);
        forall i, j | 0 <= i < j < |ls|
          ensures ls[i].id != ls[j].id
        {
          if j == |ls| - 1 {
            assert init[i] == ls[i];
          } else {
            assert init[i].id != init[j].id;
          }
        }
      }
    }
  }

  /** Sorted by id and valid, or refused. */
  ghost function NewIndexOf(ls: seq<Listing>): Option<seq<Listing>> {
    if AllRender(ls) && DistinctIds(ls) then Some(SortBy(ls, ListingId)) else None
  }

  /** Builds the document from a copy of the listings: the input is not reordered. */
  method NewIndex(plugins: seq<Listing>) returns (r: Result<seq<Listing>, IndexError>)
    ensures r.Ok? <==> NewIndexOf(plugins).Some?
    ensures r.Ok? ==> NewIndexOf(plugins) == Some(r.value)
    ensures r.Err? ==> FirstProblem(SortBy(plugins, ListingId)) == Some(r.error)
  {
    var out := new Listing[|plugins|](i requires 0 <= i < |plugins| => plugins[i]);
    assert out[..] == plugins;
    SortInPlace(out);
    SortPermutes(plugins, ListingId);
    var problem := Validate(out[..]);
    NoProblemMeans(out[..]);
    SamePermutation(plugins, out[..]);
    match problem
    case Some(e) => r := Err(e);
    case None => r := Ok(out[..]);
  }

  lemma SortNone<T>(key: T -> string)
    ensures SortBy([], key) == []
  {
  }

  lemma SortStep<T>(xs: seq<T>, n: nat, key: T -> string)
    requires n < |xs|
    ensures SortBy(xs[..n + 1], key) == InsertBy(xs[n], SortBy(xs[..n], key), key)
  {
    assert xs[..n + 1][..n] == xs[..n];
  }

  /** The sort the document's constructor runs on its copy. */
  method SortInPlace(a: array<Listing>)
    modifies a
    ensures a[..] == SortBy(old(a[..]), ListingId)
  {
    hide InsertBy, SortBy;
    ghost var was := a[..];
    SortNone(ListingId);
    assert was[..0] == [];
    for n := 0 to a.Length
      invariant a[..n] == SortBy(was[..n], ListingId)
      invariant a[n..] == was[n..]
    {
      SortStep(was, n, ListingId);
      InsertLast(a, n);
    }
    assert a[..a.Length] == a[..] && was[..a.Length] == was;
  }

  /** Moves the element at `n` down to its place among the first `n`. */
  method InsertLast(a: array<Listing>, n: nat)
    requires n < a.Length
    modifies a
    ensures a[..n + 1] == InsertBy(old(a[n]), old(a[..n]), ListingId)
    ensures a[n + 1..] == old(a[n + 1..])
  {
    var x := a[n];
    var i := n;
    ghost var was := a[..];
    HoleMoves(was, n, n, x);
    while i > 0 && Before(x.id, a[i - 1].id)
      invariant 0 <= i <= n
      invariant a[..] == Hole(was, i, n, a[i])
      invariant InsertBy(x, was[..n], ListingId) == InsertBy(x, was[..i], ListingId) + was[i..n]
    {
      HoleMoves(was, i, n, a[i]);
      ShiftStep(x, was, i, n);
      a[i] := a[i - 1];
      i := i - 1;
    }
    HoleMoves(was, i, n, a[i]);
    a[i] := x;
    HoleFilled(was, i, n, x);
  }

  /** The first `n + 1` elements while one of them is being moved down: `y` sits in the gap at `i`. */
  function Hole(was: seq<Listing>, i: nat, n: nat, y: Listing): seq<Listing>
    requires i <= n < |was|
  {
    was[..i] + [y] + was[i..n] + was[n + 1..]
  }

  lemma HoleMoves(was: seq<Listing>, i: nat, n: nat, y: Listing)
    requires i <= n < |was|
    ensures forall x :: Hole(was, i, n, y)[i := x] == Hole(was, i, n, x)
    ensures Hole(was, n, n, was[n]) == was
    ensures 0 < i ==> Hole(was, i, n, y)[i - 1] == was[i - 1]
    ensures 0 < i ==> Hole(was, i, n, was[i - 1]) == Hole(was, i - 1, n, was[i - 1])
  {
    if 0 < i {
      assert was[i - 1..n] == [was[i - 1]] + was[i..n];
      assert was[..i] == was[..i - 1] + [was[i - 1]];
    }
  }

  lemma HoleFilled(was: seq<Listing>, i: nat, n: nat, x: Listing)
    requires i <= n < |was|
    requires InsertBy(x, was[..n], ListingId) == InsertBy(x, was[..i], ListingId) + was[i..n]
    requires i == 0 || !Before(x.id, was[i - 1].id)
    ensures Hole(was, i, n, x)[..n + 1] == InsertBy(x, was[..n], ListingId)
    ensures Hole(was, i, n, x)[n + 1..] == was[n + 1..]
  {
    assert InsertBy(x, was[..i], ListingId) == was[..i] + [x];
  }

  lemma ShiftStep(x: Listing, was: seq<Listing>, i: nat, n: nat)
    requires 0 < i <= n <= |was| && Before(x.id, was[i - 1].id)
    ensures InsertBy(x, was[..i], ListingId) + was[i..n]
         == InsertBy(x, was[..i - 1], ListingId) + was[i - 1..n]
    ensures was[i - 1..n] == [was[i - 1]] + was[i..n] && was[..i] == was[..i - 1] + [was[i - 1]]
  {
    assert was[..i][..i - 1] == was[..i - 1];
    assert [was[i - 1]] + was[i..n] == was[i - 1..n];
    var r := InsertBy(x, was[..i - 1], ListingId);
    assert r + [was[i - 1]] + was[i..n] == r + ([was[i - 1]] + was[i..n]);
  }

  lemma SamePermutation(a: seq<Listing>, b: seq<Listing>)
    requires multiset(a) == multiset(b)
    ensures AllRender(a) && DistinctIds(a) <==> AllRender(b) && DistinctIds(b)
  {
    if AllRender(a) && DistinctIds(a) {
      RenderTransfers(a, b);
    }
    if AllRender(b) && DistinctIds(b) {
      RenderTransfers(b, a);
    }
  }

  lemma RenderTransfers(a: seq<Listing>, b: seq<Listing>)
    requires multiset(a) == multiset(b) && AllRender(a) && DistinctIds(a)
    ensures AllRender(b) && DistinctIds(b)
  {
    forall i | 0 <= i < |b|
      ensures Renders(b[i])
    {
      assert b[i] in multiset(b);
    }
    forall i, j | 0 <= i < j < |b|
      ensures b[i].id != b[j].id
    {
      if b[i].id == b[j].id {
        TwoOccurrences(b, i, j);
        UniqueById(a, b[i], b[j]);
      }
    }
  }

  lemma UniqueById(a: seq<Listing>, x: Listing, y: Listing)
    requires DistinctIds(a) && x in multiset(a) && y in multiset(a) && x.id == y.id
    ensures x == y && multiset(a)[x] == 1
  {
    assert x in a && y in a;
    var i :| 0 <= i < |a| && a[i] == x;
    assert a == a[..i] + [x] + a[i + 1..];
    assert x !in a[..i] && x !in a[i + 1..];
  }

  lemma TwoOccurrences(b: seq<Listing>, i: nat, j: nat)
    requires i < j < |b|
    ensures b[i] in multiset(b) && b[j] in multiset(b)
    ensures b[i] == b[j] ==> multiset(b)[b[i]] >= 2
  {
    assert b == b[..i] + [b[i]] + b[i + 1..j] + [b[j]] + b[j + 1..];
  }

  /** A document that is built is strictly increasing by id and holds exactly the listings given. */
  lemma NewIndexIsIncreasing(ls: seq<Listing>)
    requires NewIndexOf(ls).Some?
    ensures Increasing(NewIndexOf(ls).value, ListingId)
    ensures multiset(NewIndexOf(ls).value) == multiset(ls)
  {
    var sorted := SortBy(ls, ListingId);
    SortOrders(ls, ListingId);
    SortPermutes(ls, ListingId);
    SamePermutation(ls, sorted);
    forall i, j | 0 <= i < j < |sorted|
      ensures TextLess(sorted[i].id, sorted[j].id)
    {
      assert !TextLess(ListingId(sorted[j]), ListingId(sorted[i]));
      TextLessTotal(sorted[i].id, sorted[j].id);
    }
  }
}
