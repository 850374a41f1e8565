/** Runs and inputs that exist: an automatic publish that commits, an owner who leaves a plugin nobody
    can manage any more, and the versions on which the comparison fails. */
module Witness {
  import opened Basics
  import opened Notes
  import opened Submissions
  import opened Registry
  import opened Versions
  import opened Tables
  import opened Publishing
  import opened Reviewing
  import opened Ownership
  import opened Seeding
  import opened AuditTrail
  import opened Protocol
  import opened Safety
  import opened Progress
  import opened Schedules

  lemma {:induction false} ByteLenBound(s: string)
    ensures ByteLen(s) <= 4 * |s|
  {
    if s != "" {
      ByteLenBound(s[1..]);
    }
  }

  lemma {:induction false} AsciiByteLen(s: string)
    requires forall i :: 0 <= i < |s| ==> s[i] < '\U{80}'
    ensures ByteLen(s) == |s|
  {
    if s != "" {
      AsciiByteLen(s[1..]);
    }
  }

  // ---- versions a publisher can submit ----

  lemma PassesCheck(v: string)
    requires v != "" && |v| <= MAX_VERSION_BYTES && IsVersionText(v)
    ensures CheckVersion(v)
  {
    forall i | 0 <= i < |v|
      ensures v[i] < '\U{80}'
    {
      assert v[i] in "._+!-" ==> v[i] == '.' || v[i] == '_' || v[i] == '+' || v[i] == '!' || v[i] == '-';
    }
    AsciiByteLen(v);
  }

  /** The three versions of the cycle are ones the service accepts. */
  lemma CyclingVersionsPass()
    ensures CheckVersion("0!1")
    ensures CheckVersion(EpochVersion(false, FIVE_QUINTILLION)) && CheckVersion(EpochVersion(true, FIVE_QUINTILLION))
    ensures EpochVersion(true, FIVE_QUINTILLION) == "v-5000000000000000000!1"
  {
    PassesCheck("0!1");
    PassesCheck(EpochVersion(false, FIVE_QUINTILLION));
    PassesCheck(EpochVersion(true, FIVE_QUINTILLION));
  }

  /** `1.` and `1..0` are accepted, and differ by a trailing `.0` that is not ignored. */
  lemma DottedVersionsAreUnordered()
    ensures CheckVersion("1.") && CheckVersion("1..0")
    ensures AllSpine(ParseVersion("1.")) && EndsInDot("1.") && "1." + ".0" == "1..0"
    ensures Compare("1.", "1..0") == Unknown
  {
    PassesCheck("1.");
    PassesCheck("1..0");
    OneDotParses();
    TrimmedOneDot();
    TrailingZeroParses("1.");
    assert "1." + ".0" == "1..0";
    SpineSameDecided([1], [1]);
  }

  lemma TrimmedOneDot()
    ensures Trimmed("1.", IsSpace)
  {
  }

  lemma OneDotParses()
    ensures ParseVersion("1.") == Parsed(0, [1], "")
  {
    TrimmedOneDot();
    TrimOfTrimmed("1.", IsSpace);
    IndexOfNone("1.", '!');
    var v := "1.";
    assert v[1..] == "." && "."[1..] == "";
    assert Split(".", '.') == ["", ""];
    assert Split(v, '.') == [['1'] + ""] + [""];
    assert ['1'] + "" == "1";
    DigitThenEmpty();
  }

  lemma DigitThenEmpty()
    ensures Spine(["1", ""]) == Some(([1], ""))
  {
    var one := "1";
    assert one[1..] == "" && one == [one[0]] + "" && one[..0] == "";
    assert LeadingDigits(one) == one && DigitsValue(one) == 1 && one[1..] == "";
    AtoiOfDigits(one);
    var segments := ["1", ""];
    assert segments[1..] == [""];
    assert LeadingDigits("") == "" && Join([""], '.') == "";
    assert Spine([""]) == Some(([], ""));
    assert [1] + [] == [1];
  }

  /** A version that is one digit. */
  lemma OneDigitParses(c: char)
    requires IsDigit(c)
    ensures ParseVersion([c]) == Parsed(0, [c as int - '0' as int], "")
  {
    var v := [c];
    TrimOfTrimmed(v, IsSpace);
    IndexOfNone(v, '!');
    assert v[1..] == "" && v[..0] == "" && v == [v[0]] + "";
    assert Split(v, '.') == [v];
    assert LeadingDigits(v) == v && DigitsValue(v) == c as int - '0' as int;
    AtoiOfDigits(v);
    assert [v][1..] == [] && v[|v|..] == "";
    assert Spine([]) == Some(([], ""));
    assert [c as int - '0' as int] + [] == [c as int - '0' as int];
  }

  lemma TwoIsHigherThanOne()
    ensures Compare("1", "2") == Higher
  {
    OneDigitParses('1');
    OneDigitParses('2');
    assert ['1'] == "1" && ['2'] == "2";
    SpineDecided([1], [2], 0);
  }

  // ---- reaching a state ----

  lemma ReachableNext(lib: Lib, w: World, l: Label)
    requires Reachable(lib, w)
    ensures Reachable(lib, Next(lib, w, l))
  {
    hide Next;
    var ls :| Run(lib, START, ls) == w;
    assert (ls + [l])[..|ls|] == ls;
    assert Run(lib, START, ls + [l]) == Next(lib, w, l);
  }

  lemma StartIsReachable(lib: Lib)
    ensures Reachable(lib, START)
  {
    assert Run(lib, START, []) == START;
  }

  /** A publish that nothing refuses gets as far as its commit. */
  lemma GetsToItsCommit(lib: Lib, w: World, c: nat, req: Request, fetch: Fetch)
    requires c !in w.calls && Reachable(lib, At(w, c, req, KeyRead)) && FetchInRange(fetch)
    requires SeenKey(w.db, req).None? && HoldsGrant(w.db, req.sub.plugin, req.account) && CanPublish(w.db, req.account)
    requires RowWithVersion(w.db.releases, req.sub.plugin, req.sub.version).None?
    requires TrustOf(w.db.trust, req.account) != Blocked
    ensures Reachable(lib, At(w, c, req, Recording(TrustOf(w.db.trust, req.account), PreviousOf(w.db.releases, req.sub.plugin), fetch)))
  {
    hide Reachable, FetchInRange, SeenKey, HoldsGrant, CanPublish, RowWithVersion, TrustOf, PreviousOf;
    var trust, prev := TrustOf(w.db.trust, req.account), PreviousOf(w.db.releases, req.sub.plugin);
    ReadOn(lib, w, c, req, KeyRead, GrantRead);
    ReadOn(lib, w, c, req, GrantRead, IdentityRead);
    ReadOn(lib, w, c, req, IdentityRead, VersionRead);
    ReadOn(lib, w, c, req, VersionRead, TrustRead);
    ReadOn(lib, w, c, req, TrustRead, LiveRead(trust));
    ReadOn(lib, w, c, req, LiveRead(trust), Fetching(trust, prev));
    FetchOn(lib, w, c, req, trust, prev, fetch);
  }

  lemma FetchOn(lib: Lib, w: World, c: nat, req: Request, trust: Trust, prev: Previous, fetch: Fetch)
    requires c !in w.calls && Reachable(lib, At(w, c, req, Fetching(trust, prev))) && FetchInRange(fetch)
    ensures Reachable(lib, At(w, c, req, Recording(trust, prev, fetch)))
  {
    hide Reachable, FetchInRange;
    ReachableNext(lib, At(w, c, req, Fetching(trust, prev)), FetchDone(c, fetch));
    ReadsFrom(w, c, req, Fetching(trust, prev), Recording(trust, prev, fetch));
  }

  lemma ReadOn(lib: Lib, w: World, c: nat, req: Request, pc: PublishPc, on: PublishPc)
    requires c !in w.calls && Reachable(lib, At(w, c, req, pc))
    requires ReadStep(At(w, c, req, pc), c, req, pc) == SetCall(At(w, c, req, pc), c, PublishCall(req, on))
    ensures Reachable(lib, At(w, c, req, on))
  {
    hide Reachable, ReadStep;
    ReachableNext(lib, At(w, c, req, pc), Read(c));
    ReadsFrom(w, c, req, pc, on);
  }

  // ---- an automatic publish commits ----

  const PUBLISHER := Account("h", false, true)

  const FIRST := Listing("ab", "x", "", "", "", "1", "https://h", ZERO_DIGEST, "1", None, "")

  const SECOND := RawSubmission("ab", "2", "https://h", ZERO_DIGEST, "1", None, "")

  const SUBMITTED := Submission("ab", "2", "https://h", ZERO_DIGEST, "1", None, "")

  const FETCHED := Fetched(Computed(ZERO_DIGEST, 0, 0))

  lemma SubmissionIsAccepted()
    ensures NewSubmission(SECOND) == Ok(SUBMITTED)
  {
    hide IsPublishableUrl, CheckVersion, ByteLen, ParseSubmittedDigest, TrimSpace, IsPluginId, IsPlainText, ValidateReleaseNotes;
    FieldsAreTrimmed();
    FieldsAreValid();
    PassesCheck("2");
    ByteLenBound("https://h");
    ByteLenBound("1");
    UrlIsPublishable();
    DigestIsAccepted();
  }

  lemma FieldsAreTrimmed()
    ensures TrimSpace("ab") == "ab" && TrimSpace("2") == "2" && TrimSpace("https://h") == "https://h" && TrimSpace("1") == "1"
  {
    TrimOfTrimmed("ab", IsSpace);
    TrimOfTrimmed("2", IsSpace);
    TrimOfTrimmed("https://h", IsSpace);
    TrimOfTrimmed("1", IsSpace);
  }

  lemma FieldsAreValid()
    ensures IsPluginId("ab") && IsVersionText("2") && IsPlainText("1") && ValidateReleaseNotes("") == Ok("")
  {
  }

  lemma UrlIsPublishable()
    ensures IsPublishableUrl("https://h") && HasHttpsPrefix("https://h")
  {
    var u := "https://h";
    var scheme := u[..|HTTPS_PREFIX|];
    assert scheme == HTTPS_PREFIX && FoldAscii(scheme) == HTTPS_PREFIX;
    assert u[|HTTPS_PREFIX|..] == "h" && "h"[1..] == "";
    assert UpToSlash("h") == "h";
  }

  lemma DigestIsAccepted()
    ensures ParseSubmittedDigest(ZERO_DIGEST) == Some(ZERO_DIGEST)
  {
    TrimOfTrimmed(ZERO_DIGEST, IsSpace);
    assert FoldAscii(ZERO_DIGEST) == ZERO_DIGEST;
  }

  const SIGNED_IN := Db(map["a" := PUBLISHER], map[], [], map[], map[], map[], [])

  const IMPORT_ENTRY := Entry(BySystem, CatalogueImportEvent(1))

  const GRANT_ENTRY := Entry(BySystem, OwnerImportEvent("ab", "a"))

  const TRUST_ENTRY := Entry(ByAccount("a"), TrustEvent("a", New, Trusted, "n"))

  /** The catalogue of one plugin imported. */
  function Served(grants: map<(string, string), Role>, trust: map<string, Trust>, audit: seq<Entry>): Db {
    Db(map["a" := PUBLISHER], map["ab" := ImportedPlugin(FIRST)], [ImportedRelease(FIRST, "", "r", 0)], map[], grants, trust, audit)
  }

  function Stocked(): Db {
    Served(map[], map[], [IMPORT_ENTRY])
  }

  /** The publisher made owner. */
  function Granted(): Db {
    Served(map[("ab", "a") := Owner], map[], [IMPORT_ENTRY, GRANT_ENTRY])
  }

  /** And trusted. */
  function Trusting(): Db {
    Served(map[("ab", "a") := Owner], map["a" := Trusted], [IMPORT_ENTRY, GRANT_ENTRY, TRUST_ENTRY])
  }

  lemma FirstIsImported()
    ensures ImportTx(SIGNED_IN, [FIRST], ["r"], 0).0 == Stocked()
  {
    hide Renders, Importable, ImportAll, SortBy, Holding, Normalised, ImportedPlugin, ImportedRelease, ListingProblem;
    var ls := [FIRST];
    FirstRenders();
    assert SortBy(ls, ListingId) == ls by {
      SortStep(ls, 0, ListingId);
      SortNone(ListingId);
      FirstAlone();
      assert ls[..1] == ls && ls[..0] == [];
    }
    FirstHeld();
    ImportSucceeds(SIGNED_IN, ls, ["r"], 0);
    assert [] + [IMPORT_ENTRY] == [IMPORT_ENTRY];
  }

  lemma FirstAlone()
    ensures InsertBy(FIRST, [], ListingId) == [FIRST]
  {
  }

  /** What the database holds when it holds the first listing. */
  lemma FirstHeld()
    ensures AllImportable([FIRST]) && Normalised([FIRST]) == [FIRST]
    ensures Holding(SIGNED_IN, [FIRST], ["r"], 0).audit == []
    ensures Holding(SIGNED_IN, [FIRST], ["r"], 0).(audit := [IMPORT_ENTRY]) == Stocked()
  {
    var ls := [FIRST];
    assert Normalised(ls) == ls;
    assert ReleasesOf(ls, ["r"], 0) == [ImportedRelease(FIRST, "", "r", 0)];
    assert ls[..0] == [] && PluginsOf(ls) == map["ab" := ImportedPlugin(FIRST)];
  }

  lemma FirstRenders()
    ensures Renders(FIRST)
  {
    TrimOfTrimmed("x", IsSpace);
    TrimOfTrimmed("1", IsSpace);
    UrlIsPublishable();
  }

  lemma TrustIsSet()
    ensures SetTrustTx(Granted(), "a", Trusted, "a", "n").0 == Trusting()
  {
    TrimOfTrimmed("n", IsSpace);
    ByteLenBound("n");
  }

  lemma GrantIsImported()
    ensures ImportGrantTx(Stocked(), "ab", "a").0 == Granted()
  {
    assert [IMPORT_ENTRY] + [GRANT_ENTRY] == Granted().audit;
  }

  lemma OneSignsIn(lib: Lib)
    ensures Reachable(lib, World(SIGNED_IN, map[], []))
  {
    hide Reachable;
    StartIsReachable(lib);
    ReachableNext(lib, START, SignIn("a", PUBLISHER));
    assert Next(lib, START, SignIn("a", PUBLISHER)) == World(SIGNED_IN, map[], []);
  }

  /** Four steps lead to a trusted owner of a live plugin. */
  lemma TrustingIsReachable(lib: Lib)
    ensures Reachable(lib, World(Trusting(), map[], []))
  {
    hide Reachable, ImportTx, ImportGrantTx, SetTrustTx;
    OneSignsIn(lib);
    FirstIsImported();
    ReachableNext(lib, World(SIGNED_IN, map[], []), DoImport([FIRST], ["r"], 0));
    GrantIsImported();
    ReachableNext(lib, World(Stocked(), map[], []), DoImportGrant("ab", "a"));
    TrustIsSet();
    ReachableNext(lib, World(Granted(), map[], []), DoSetTrust("a", Trusted, "a", "n"));
  }

  function TheRequest(lib: Lib): Request {
    Request(SUBMITTED, "a", "k", HashRequest(lib, SUBMITTED))
  }

  const THE_PREVIOUS := Previous(true, "1", "https://h", None)

  lemma WhatItReads(lib: Lib)
    ensures var db, req := Trusting(), TheRequest(lib);
            && SeenKey(db, req).None? && HoldsGrant(db, "ab", "a") && CanPublish(db, "a")
            && RowWithVersion(db.releases, "ab", "2").None? && TrustOf(db.trust, "a") == Trusted
            && PreviousOf(db.releases, "ab") == THE_PREVIOUS && NoRow(db.releases, "s") && SqlLength(req.key) > 0
  {
    hide HashRequest;
    assert Trusting().releases[0].version == "1";
  }

  lemma ItDecidesToPublish(lib: Lib)
    ensures Decide(lib, THE_PREVIOUS, Trusted, SUBMITTED, FETCHED).state == Approved
  {
    hide Compare;
    TwoIsHigherThanOne();
    ApprovedMeans(lib, THE_PREVIOUS, Trusted, SUBMITTED, FETCHED);
  }

  /** The world just before the commit, for every hash function and every notion of host. */
  function BeforeTheCommit(lib: Lib): World {
    At(World(Trusting(), map[], []), 0, TheRequest(lib), Recording(Trusted, THE_PREVIOUS, FETCHED))
  }

  lemma ItIsReachable(lib: Lib)
    ensures Reachable(lib, BeforeTheCommit(lib))
  {
    hide Reachable, SeenKey, HoldsGrant, CanPublish, RowWithVersion, TrustOf, PreviousOf, HashRequest, NewSubmission;
    var w := World(Trusting(), map[], []);
    TrustingIsReachable(lib);
    SubmissionIsAccepted();
    TrimOfTrimmed("k", IsSpace);
    ReachableNext(lib, w, StartPublish(0, SECOND, "a", "k"));
    assert Next(lib, w, StartPublish(0, SECOND, "a", "k")) == At(w, 0, TheRequest(lib), KeyRead);
    WhatItReads(lib);
    GetsToItsCommit(lib, w, 0, TheRequest(lib), FETCHED);
  }

  /** In a run of thirteen steps a release goes live by itself: the commit succeeds, answers that the
      release is approved, and makes it the live one. */
  lemma AutomaticPublishHappens(lib: Lib)
    ensures Reachable(lib, BeforeTheCommit(lib))
    ensures var r := RecordTx(BeforeTheCommit(lib).db, TheRequest(lib), Decide(lib, THE_PREVIOUS, Trusted, SUBMITTED, FETCHED), "s", 0).1;
            r.Ok? && r.value.state == Approved
    ensures var v := Next(lib, BeforeTheCommit(lib), Commit(0, "s", 0));
            Reachable(lib, v) && |v.replies| == 1 && v.replies[0].outcome.state == Approved
  {
    hide Reachable, RecordTx, Decide, SeenKey, HoldsGrant, CanPublish, RowWithVersion, TrustOf, PreviousOf, HashRequest, NoRow, SqlLength;
    ItIsReachable(lib);
    WhatItReads(lib);
    ItDecidesToPublish(lib);
    var w := BeforeTheCommit(lib);
    GoesLiveExactlyWhen(lib, w, 0, TheRequest(lib), Trusted, THE_PREVIOUS, FETCHED, "s", 0);
    ReachableNext(lib, w, Commit(0, "s", 0));
  }

  // ---- an owner leaves ----

  const CLAIM := Claim("ab", "x", "", "", "")

  const TWO_SIGNED_IN := Db(map["a" := PUBLISHER, "b" := PUBLISHER], map[], [], map[], map[], map[], [])

  const CLAIM_ENTRY := Entry(ByAccount("a"), ClaimEvent("ab", "x"))

  const ADD_ENTRY := Entry(ByAccount("a"), OwnerAddEvent("ab", "b", Maintainer))

  function Held(grants: map<(string, string), Role>, audit: seq<Entry>): Db {
    Db(map["a" := PUBLISHER, "b" := PUBLISHER], map["ab" := ClaimedPlugin(CLAIM)], [], map[], grants, map[], audit)
  }

  function Claimed(): Db {
    Held(map[("ab", "a") := Owner], [CLAIM_ENTRY])
  }

  function Shared(): Db {
    Held(map[("ab", "a") := Owner, ("ab", "b") := Maintainer], [CLAIM_ENTRY, ADD_ENTRY])
  }

  lemma ClaimIsMade()
    ensures ClaimTx(TWO_SIGNED_IN, CLAIM, "a").0 == Claimed()
  {
    TrimOfTrimmed("x", IsSpace);
    ByteLenBound("x");
    assert TrimClaim(CLAIM) == CLAIM;
    SqlLengthOfNulFree("ab");
  }

  lemma MaintainerIsAdded()
    ensures AddTx(Claimed(), "ab", "a", Some("b"), Maintainer).0 == Shared()
  {
    assert Claimed().grants[("ab", "b") := Maintainer] == Shared().grants;
  }

  /** A run of four steps reaches the state a sole owner can leave from. */
  lemma SoleOwnerIsReachable(lib: Lib)
    ensures var w := World(Shared(), map[], []);
            && Reachable(lib, w) && Holders(w.db.grants, "ab") == {"a", "b"}
            && OwnerAt(w.db, "ab", "a") && !OwnerAt(w.db, "ab", "b")
  {
    hide Reachable, ClaimTx, AddTx;
    SharedIsReachable(lib);
    SharedHolders();
  }

  lemma SharedHolders()
    ensures Holders(Shared().grants, "ab") == {"a", "b"} && OwnerAt(Shared(), "ab", "a") && !OwnerAt(Shared(), "ab", "b")
  {
    var grants := Shared().grants;
    assert ("ab", "a") in grants && ("ab", "b") in grants;
    assert Holders(grants, "ab") == {"a", "b"};
  }

  lemma BothSignIn(lib: Lib)
    ensures Reachable(lib, World(TWO_SIGNED_IN, map[], []))
  {
    hide Reachable;
    OneSignsIn(lib);
    var one := World(SIGNED_IN, map[], []);
    ReachableNext(lib, one, SignIn("b", PUBLISHER));
    assert Next(lib, one, SignIn("b", PUBLISHER)) == World(TWO_SIGNED_IN, map[], []);
  }

  lemma SharedIsReachable(lib: Lib)
    ensures Reachable(lib, World(Shared(), map[], []))
  {
    hide Reachable, ClaimTx, AddTx;
    BothSignIn(lib);
    ClaimIsMade();
    ReachableNext(lib, World(TWO_SIGNED_IN, map[], []), DoClaim(CLAIM, "a"));
    MaintainerIsAdded();
    ReachableNext(lib, World(Claimed(), map[], []), DoAdd("ab", "a", Some("b"), Maintainer));
  }

  /** In that state the owner removes themself, and no later change of owners has any effect. */
  lemma AnOwnerLeaves(lib: Lib, ls: seq<Label>)
    requires forall k :: 0 <= k < |ls| ==> (ls[k].DoAdd? || ls[k].DoRemove?) && ls[k].plugin == "ab"
    ensures var left := Next(lib, World(Shared(), map[], []), DoRemove("ab", "a", "a"));
            Reachable(lib, left) && !HasOwner(left.db, "ab") && Run(lib, left, ls) == left
  {
    hide Reachable, Next, Run, HasOwner, Holders, OwnerAt;
    var w := World(Shared(), map[], []);
    SoleOwnerIsReachable(lib);
    LastOwnerCanLeave(lib, w, "ab", "a", "b", ls);
    ReachableNext(lib, w, DoRemove("ab", "a", "a"));
  }
}
