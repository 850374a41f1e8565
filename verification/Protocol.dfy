/** The registry as a state machine. A publish and a re-verification take several steps: their reads
    and the fetch run outside any transaction, and every other caller's transactions run in between. */
module Protocol {
  import opened Basics
  import opened Submissions
  import opened Registry
  import opened Tables
  import opened Publishing
  import opened Reviewing
  import opened Ownership
  import opened Seeding
  import opened Invariants
  import opened AuditTrail
  import opened Commits

  /** Where a publish has got to, with what it has read. */
  datatype PublishPc =
    | KeyRead
    | ReplayRead(release: string)
    | GrantRead
    | IdentityRead
    | VersionRead
    | TrustRead
    | LiveRead(trust: Trust)
    | Fetching(trust: Trust, prev: Previous)
    | Recording(trust: Trust, prev: Previous, fetch: Fetch)

  datatype ReverifyPc =
    | RowRead(release: string)
    | Refetching(row: Release)
    | Rerecording(row: Release, fetch: Fetch)

  datatype Call =
    | PublishCall(req: Request, pc: PublishPc)
    | ReverifyCall(reviewer: string, rpc: ReverifyPc)

  /** A publish that answered with success. */
  datatype Reply = Reply(req: Request, outcome: Outcome)

  datatype World = World(db: Db, calls: map<nat, Call>, replies: seq<Reply>)

  datatype Label =
    | StartPublish(call: nat, raw: RawSubmission, account: string, rawKey: string)
    | StartReverify(call: nat, release: string, reviewer: string)
    | Read(call: nat)
    | FetchDone(call: nat, fetch: Fetch)
    | Commit(call: nat, id: string, now: int)
    | Abandon(call: nat)
    | DoApprove(release: string, reviewer: string, note: string, now: int)
    | DoReject(release: string, reviewer: string, note: string, now: int)
    | DoSetTrust(account: string, level: Trust, reviewer: string, note: string)
    | DoAdd(plugin: string, account: string, target: Option<string>, role: Role)
    | DoRemove(plugin: string, account: string, removed: string)
    | DoClaim(claim: Claim, account: string)
    | DoDelist(plugin: string, reviewer: string, note: string, now: int)
    | DoRelist(plugin: string, reviewer: string, note: string)
    | DoImport(seed: seq<Listing>, ids: seq<string>, now: int)
    | DoImportGrant(plugin: string, account: string)
    | SignIn(account: string, row: Account)

  const START := World(EMPTY_DB, map[], [])

  function SetCall(w: World, c: nat, call: Call): World {
    w.(calls := w.calls[c := call])
  }

  function EndCall(w: World, c: nat): World {
    w.(calls := w.calls - {c})
  }

  function Answer(w: World, c: nat, req: Request, out: Outcome): World {
    EndCall(w, c).(replies := w.replies + [Reply(req, out)])
  }

  /** One read of a publish, against the database as it is at that moment. */
  function ReadStep(w: World, c: nat, req: Request, pc: PublishPc): World {
    match pc
    case KeyRead =>
      (match SeenKey(w.db, req)
       case None => SetCall(w, c, PublishCall(req, GrantRead))
       case Some(Ok(r)) => SetCall(w, c, PublishCall(req, ReplayRead(r)))
       case Some(Err(_)) => EndCall(w, c))
    case ReplayRead(r) =>
      (match OutcomeOf(w.db.releases, r)
       case Ok(out) => Answer(w, c, req, out)
       case Err(_) => EndCall(w, c))
    case GrantRead =>
      if HoldsGrant(w.db, req.sub.plugin, req.account) then SetCall(w, c, PublishCall(req, IdentityRead)) else EndCall(w, c)
    case IdentityRead =>
      if CanPublish(w.db, req.account) then SetCall(w, c, PublishCall(req, VersionRead)) else EndCall(w, c)
    case VersionRead =>
      if RowWithVersion(w.db.releases, req.sub.plugin, req.sub.version).Some? then EndCall(w, c)
      else SetCall(w, c, PublishCall(req, TrustRead))
    case TrustRead =>
      var trust := TrustOf(w.db.trust, req.account);
      if trust == Blocked then EndCall(w, c) else SetCall(w, c, PublishCall(req, LiveRead(trust)))
    case LiveRead(trust) =>
      SetCall(w, c, PublishCall(req, Fetching(trust, PreviousOf(w.db.releases, req.sub.plugin))))
    case _ => w
  }

  /** The transaction of a publish. One that lost the race for its key goes on to replay the winner. */
  ghost function PublishStep(lib: Lib, w: World, c: nat, req: Request, trust: Trust, prev: Previous, fetch: Fetch,
                             id: string, now: int): World {
    var (d, r) := RecordTx(w.db, req, Decide(lib, prev, trust, req.sub, fetch), id, now);
    match r
    case Ok(out) => Answer(w.(db := d), c, req, out)
    case Err(Raced(winner)) => SetCall(w, c, PublishCall(req, ReplayRead(winner)))
    case Err(_) => EndCall(w, c)
  }

  ghost function CallStep(lib: Lib, w: World, l: Label): World
    requires l.Read? || l.FetchDone? || l.Commit?
    requires l.call in w.calls
  {
    var c := l.call;
    match (w.calls[c], l)
    case (PublishCall(req, pc), Read(_)) => ReadStep(w, c, req, pc)
    case (PublishCall(req, Fetching(trust, prev)), FetchDone(_, fetch)) =>
      if FetchInRange(fetch) then SetCall(w, c, PublishCall(req, Recording(trust, prev, fetch))) else w
    case (PublishCall(req, Recording(trust, prev, fetch)), Commit(_, id, now)) =>
      PublishStep(lib, w, c, req, trust, prev, fetch, id, now)
    case (ReverifyCall(reviewer, RowRead(release)), Read(_)) =>
      (match ReverifyRead(w.db.releases, release)
       case Ok(k) => SetCall(w, c, ReverifyCall(reviewer, Refetching(w.db.releases[k])))
       case Err(_) => EndCall(w, c))
    case (ReverifyCall(reviewer, Refetching(row)), FetchDone(_, fetch)) =>
      if FetchInRange(fetch) then SetCall(w, c, ReverifyCall(reviewer, Rerecording(row, fetch))) else w
    case (ReverifyCall(reviewer, Rerecording(row, fetch)), Commit(_, _, _)) =>
      EndCall(w, c).(db := ReverifyTx(w.db, row, reviewer, fetch).0)
    case _ => w
  }

  /** The transactions that take one step. */
  ghost function DirectStep(db: Db, l: Label): Db {
    match l
    case DoApprove(release, reviewer, note, now) => ApproveTx(db, release, reviewer, note, now).0
    case DoReject(release, reviewer, note, now) => RejectTx(db, release, reviewer, note, now).0
    case DoSetTrust(account, level, reviewer, note) => SetTrustTx(db, account, level, reviewer, note).0
    case DoAdd(plugin, account, target, role) => AddTx(db, plugin, account, target, role).0
    case DoRemove(plugin, account, removed) => RemoveTx(db, plugin, account, removed).0
    case DoClaim(claim, account) => if IsPluginId(claim.plugin) then ClaimTx(db, claim, account).0 else db
    case DoDelist(plugin, reviewer, note, now) => DelistTx(db, plugin, reviewer, note, now).0
    case DoRelist(plugin, reviewer, note) => RelistTx(db, plugin, reviewer, note).0
    case DoImport(seed, ids, now) => if |ids| == |seed| then ImportTx(db, seed, ids, now).0 else db
    case DoImportGrant(plugin, account) => ImportGrantTx(db, plugin, account).0
    case SignIn("", _) => db
    case SignIn(account, row) => db.(accounts := db.accounts[account := row.(canPublish := row.canPublish || CanPublish(db, account))])
    case _ => db
  }

  /** One step. A label that does not fit the state changes nothing. */
  ghost function Next(lib: Lib, w: World, l: Label): World {
    match l
    case StartPublish(c, raw, account, rawKey) =>
      var sub := NewSubmission(raw);
      var key := TrimSpace(rawKey);
      if c in w.calls || sub.Err? || key == "" then w
      else SetCall(w, c, PublishCall(Request(sub.value, account, key, HashRequest(lib, sub.value)), KeyRead))
    case StartReverify(c, release, reviewer) =>
      if c in w.calls then w else SetCall(w, c, ReverifyCall(reviewer, RowRead(release)))
    case Read(c) => if c in w.calls then CallStep(lib, w, l) else w
    case FetchDone(c, _) => if c in w.calls then CallStep(lib, w, l) else w
    case Commit(c, _, _) => if c in w.calls then CallStep(lib, w, l) else w
    case Abandon(c) => EndCall(w, c)
    case _ => w.(db := DirectStep(w.db, l))
  }

  /** The state after the steps `ls`, from `w`. */
  ghost function Run(lib: Lib, w: World, ls: seq<Label>): World {
    if ls == [] then w else Next(lib, Run(lib, w, ls[..|ls| - 1]), ls[|ls| - 1])
  }

  // ---- what in-flight calls can rely on ----

  /** What the comparison was made against was, and still is, a row that went live. */
  ghost predicate PrevHolds(rs: seq<Release>, plugin: string, prev: Previous) {
    prev.live ==> exists i :: 0 <= i < |rs| && PrevIs(rs[i], plugin, prev)
  }

  predicate PrevIs(r: Release, plugin: string, prev: Previous) {
    WentLive(r) && r.plugin == plugin && r.version == prev.version && r.url == prev.url && r.bytes == prev.bytes
  }

  ghost predicate KeyAnswers(db: Db, req: Request, release: string) {
    (req.account, req.key) in db.keys && db.keys[(req.account, req.key)] == KeyRow(req.hash, release)
  }

  ghost predicate RequestOk(lib: Lib, req: Request) {
    ValidSubmission(req.sub) && req.hash == HashRequest(lib, req.sub) && req.key != ""
  }

  ghost predicate PcOk(db: Db, req: Request, pc: PublishPc) {
    match pc
    case KeyRead | GrantRead | IdentityRead => true
    case ReplayRead(r) => KeyAnswers(db, req, r)
    case VersionRead | TrustRead => CanPublish(db, req.account)
    case LiveRead(trust) => CanPublish(db, req.account) && trust != Blocked
    case Fetching(trust, prev) =>
      CanPublish(db, req.account) && trust != Blocked && PrevHolds(db.releases, req.sub.plugin, prev)
    case Recording(trust, prev, fetch) =>
      && CanPublish(db, req.account) && trust != Blocked && PrevHolds(db.releases, req.sub.plugin, prev)
      && FetchInRange(fetch)
  }

  ghost predicate CallOk(lib: Lib, db: Db, call: Call) {
    match call
    case PublishCall(req, pc) => RequestOk(lib, req) && PcOk(db, req, pc)
    case ReverifyCall(_, Rerecording(_, fetch)) => FetchInRange(fetch)
    case ReverifyCall(_, _) => true
  }

  ghost predicate CallsOk(lib: Lib, db: Db, calls: map<nat, Call>) {
    forall c :: c in calls ==> CallOk(lib, db, calls[c])
  }

  /** Every successful answer named the release its key stands for. */
  ghost predicate ReplyOk(lib: Lib, db: Db, r: Reply) {
    RequestOk(lib, r.req) && KeyAnswers(db, r.req, r.outcome.release)
  }

  ghost predicate RepliesOk(lib: Lib, db: Db, replies: seq<Reply>) {
    forall i :: 0 <= i < |replies| ==> ReplyOk(lib, db, replies[i])
  }

  ghost predicate WorldOk(lib: Lib, w: World) {
    DbOk(w.db) && CallsOk(lib, w.db, w.calls) && RepliesOk(lib, w.db, w.replies)
  }

  // ---- they keep relying on it ----

  lemma PrevStays(rs: seq<Release>, ss: seq<Release>, plugin: string, prev: Previous)
    requires PrevHolds(rs, plugin, prev) && RowsEvolve(rs, ss) && StatesOk(rs)
    ensures PrevHolds(ss, plugin, prev)
  {
    if prev.live {
      var i :| 0 <= i < |rs| && PrevIs(rs[i], plugin, prev);
      WentLiveStays(rs[i], ss[i]);
      LiveRowKeepsBytes(rs[i], ss[i]);
      assert PrevIs(ss[i], plugin, prev);
    }
  }

  /** A row that went live has left pending, so its url and its size are frozen. */
  lemma LiveRowKeepsBytes(r: Release, s: Release)
    requires WentLive(r) && RowEvolves(r, s)
    ensures s.url == r.url && s.bytes == r.bytes && s.version == r.version && s.plugin == r.plugin
  {
  }

  lemma CallStays(lib: Lib, db: Db, d: Db, call: Call)
    requires CallOk(lib, db, call) && DbEvolves(db, d) && StatesOk(db.releases)
    ensures CallOk(lib, d, call)
  {
    hide RequestOk, RowsEvolve, LiveAdvances, StatesOk, PrevHolds, FetchInRange;
    match call
    case PublishCall(req, Fetching(trust, prev)) => PrevStays(db.releases, d.releases, req.sub.plugin, prev);
    case PublishCall(req, Recording(trust, prev, fetch)) => PrevStays(db.releases, d.releases, req.sub.plugin, prev);
    case _ =>
  }

  /** A step of anybody's that evolves the database disturbs no call in flight and no answer given. */
  lemma EvolvingKeepsWorld(lib: Lib, w: World, d: Db)
    requires WorldOk(lib, w) && DbOk(d) && DbEvolves(w.db, d)
    ensures WorldOk(lib, w.(db := d))
  {
    hide DbOk, CallOk, RequestOk, DbEvolves;
    StatesOfDb(w.db);
    forall c | c in w.calls
      ensures CallOk(lib, d, w.calls[c])
    {
      CallStays(lib, w.db, d, w.calls[c]);
    }
    forall i | 0 <= i < |w.replies|
      ensures ReplyOk(lib, d, w.replies[i])
    {
      AnswerStays(w.db, d, w.replies[i].req, w.replies[i].outcome.release);
    }
  }

  lemma AnswerStays(db: Db, d: Db, req: Request, release: string)
    requires KeyAnswers(db, req, release) && DbEvolves(db, d)
    ensures KeyAnswers(d, req, release)
  {
    hide RowsEvolve, LiveAdvances;
  }

  lemma StatesOfDb(db: Db)
    requires DbOk(db)
    ensures StatesOk(db.releases)
  {
  }

  lemma SetCallKeeps(lib: Lib, w: World, c: nat, call: Call)
    requires WorldOk(lib, w) && CallOk(lib, w.db, call)
    ensures WorldOk(lib, SetCall(w, c, call))
  {
    hide DbOk, CallOk, ReplyOk;
  }

  lemma EndCallKeeps(lib: Lib, w: World, c: nat)
    requires WorldOk(lib, w)
    ensures WorldOk(lib, EndCall(w, c))
  {
    hide DbOk, CallOk, ReplyOk;
  }

  lemma AnswerKeeps(lib: Lib, w: World, c: nat, req: Request, out: Outcome)
    requires WorldOk(lib, w) && RequestOk(lib, req) && KeyAnswers(w.db, req, out.release)
    ensures WorldOk(lib, Answer(w, c, req, out))
  {
    hide DbOk, CallOk, RequestOk, KeyAnswers;
    EndCallKeeps(lib, w, c);
  }

  // ---- every step ----

  lemma ReadStepKeeps(lib: Lib, w: World, c: nat, req: Request, pc: PublishPc)
    requires WorldOk(lib, w) && c in w.calls && w.calls[c] == PublishCall(req, pc)
    ensures WorldOk(lib, ReadStep(w, c, req, pc))
  {
    hide WorldOk, RequestOk, RowWithVersion, CanPublish;
    var v := ReadStep(w, c, req, pc);
    CallIn(lib, w, c);
    EndCallKeeps(lib, w, c);
    if pc.ReplayRead? {
      if OutcomeOf(w.db.releases, pc.release).Ok? {
        AnswerKeeps(lib, w, c, req, OutcomeOf(w.db.releases, pc.release).value);
      }
    } else if pc.LiveRead? {
      PreviousHolds(w.db.releases, req.sub.plugin);
      SetCallKeeps(lib, w, c, v.calls[c]);
    } else if c in v.calls {
      SetCallKeeps(lib, w, c, v.calls[c]);
    }
  }

  lemma CallIn(lib: Lib, w: World, c: nat)
    requires WorldOk(lib, w) && c in w.calls
    ensures CallOk(lib, w.db, w.calls[c])
  {
    hide DbOk, CallOk, RepliesOk;
  }

  lemma PreviousHolds(rs: seq<Release>, plugin: string)
    ensures PrevHolds(rs, plugin, PreviousOf(rs, plugin))
  {
    var live := LiveRow(rs, plugin);
    if live.Some? {
      assert PrevIs(rs[live.value], plugin, PreviousOf(rs, plugin));
    }
  }

  lemma PublishStepKeeps(lib: Lib, w: World, c: nat, req: Request, trust: Trust, prev: Previous, fetch: Fetch,
                         id: string, now: int)
    requires WorldOk(lib, w) && c in w.calls && w.calls[c] == PublishCall(req, Recording(trust, prev, fetch))
    ensures WorldOk(lib, PublishStep(lib, w, c, req, trust, prev, fetch, id, now))
    ensures DbEvolves(w.db, PublishStep(lib, w, c, req, trust, prev, fetch, id, now).db)
  {
    hide WorldOk, ValidSubmission, FetchInRange, RecordTx, Decide, DbOk, DbEvolves, VerdictOk, Recorded, RecordedOutcome;
    CallIn(lib, w, c);
    DbIn(lib, w);
    var v := Decide(lib, prev, trust, req.sub, fetch);
    DecideIsOk(lib, prev, trust, req.sub, fetch);
    RecordKeeps(w.db, req, v, id, now);
    var (d, r) := RecordTx(w.db, req, v, id, now);
    EvolvesReflexive(w.db);
    EndCallKeeps(lib, w, c);
    if r.Ok? {
      EvolvingKeepsWorld(lib, w, d);
      CommittedMeans(w.db, req, v, id, now);
      CommittedAnswers(w.db, req, v, id, now);
      AnswerKeeps(lib, w.(db := d), c, req, r.value);
    } else if r.error.Raced? {
      RacedMeans(w.db, req, v, id, now);
      SetCallKeeps(lib, w, c, PublishCall(req, ReplayRead(r.error.release)));
    }
  }

  lemma DbIn(lib: Lib, w: World)
    requires WorldOk(lib, w)
    ensures DbOk(w.db)
  {
    hide DbOk, CallOk, RepliesOk;
  }

  lemma CommittedAnswers(db: Db, req: Request, verdict: Verdict, id: string, now: int)
    requires RecordTx(db, req, verdict, id, now).1.Ok?
    ensures KeyAnswers(RecordTx(db, req, verdict, id, now).0, req, RecordTx(db, req, verdict, id, now).1.value.release)
  {
    hide RecordRefusal, InsertAdmitted, Retired, Waiting, RetireEntries, PublishEntry;
    CommittedMeans(db, req, verdict, id, now);
  }

  /** A transaction that found its key taken by the same request knows the release it stands for. */
  lemma RacedMeans(db: Db, req: Request, verdict: Verdict, id: string, now: int)
    requires RecordTx(db, req, verdict, id, now).1.Err? && RecordTx(db, req, verdict, id, now).1.error.Raced?
    ensures KeyAnswers(db, req, RecordTx(db, req, verdict, id, now).1.error.release)
  {
    hide InsertAdmitted, Retired, Waiting, RowWithVersion, LiveRow, Recorded;
  }

  lemma CallStepKeeps(lib: Lib, w: World, l: Label)
    requires WorldOk(lib, w) && (l.Read? || l.FetchDone? || l.Commit?) && l.call in w.calls
    ensures WorldOk(lib, CallStep(lib, w, l)) && DbEvolves(w.db, CallStep(lib, w, l).db)
  {
    hide WorldOk, DbEvolves, DbOk, FetchInRange, ReadStep, PublishStep, ReverifyTx, ReverifyRead, SetCall, EndCall;
    var c := l.call;
    EvolvesReflexive(w.db);
    match (w.calls[c], l)
    case (PublishCall(req, pc), Read(_)) =>
      ReadStepKeeps(lib, w, c, req, pc);
      ReadStepOnlyReads(w, c, req, pc);
    case (PublishCall(req, Fetching(trust, prev)), FetchDone(_, fetch)) =>
      if FetchInRange(fetch) {
        FetchedKeeps(lib, w, c, req, trust, prev, fetch);
      }
    case (PublishCall(req, Recording(trust, prev, fetch)), Commit(_, id, now)) =>
      PublishStepKeeps(lib, w, c, req, trust, prev, fetch, id, now);
    case (ReverifyCall(_, _), _) =>
      ReverifyStepKeeps(lib, w, l);
    case _ =>
  }

  lemma FetchedKeeps(lib: Lib, w: World, c: nat, req: Request, trust: Trust, prev: Previous, fetch: Fetch)
    requires WorldOk(lib, w) && c in w.calls && w.calls[c] == PublishCall(req, Fetching(trust, prev)) && FetchInRange(fetch)
    ensures var v := SetCall(w, c, PublishCall(req, Recording(trust, prev, fetch))); WorldOk(lib, v) && v.db == w.db
  {
    hide WorldOk, RequestOk, FetchInRange, PrevHolds, CanPublish;
    CallIn(lib, w, c);
    SetCallKeeps(lib, w, c, PublishCall(req, Recording(trust, prev, fetch)));
  }

  lemma ReverifyStepKeeps(lib: Lib, w: World, l: Label)
    requires WorldOk(lib, w) && (l.Read? || l.FetchDone? || l.Commit?) && l.call in w.calls && w.calls[l.call].ReverifyCall?
    ensures WorldOk(lib, CallStep(lib, w, l)) && DbEvolves(w.db, CallStep(lib, w, l).db)
  {
    hide WorldOk, DbEvolves, DbOk, FetchInRange, ReverifyTx, ReverifyRead;
    var c := l.call;
    CallIn(lib, w, c);
    DbIn(lib, w);
    EvolvesReflexive(w.db);
    EndCallKeeps(lib, w, c);
    match (w.calls[c], l)
    case (ReverifyCall(reviewer, RowRead(release)), Read(_)) =>
      if ReverifyRead(w.db.releases, release).Ok? {
        SetCallKeeps(lib, w, c, ReverifyCall(reviewer, Refetching(w.db.releases[ReverifyRead(w.db.releases, release).value])));
      }
    case (ReverifyCall(reviewer, Refetching(row)), FetchDone(_, fetch)) =>
      if FetchInRange(fetch) {
        SetCallKeeps(lib, w, c, ReverifyCall(reviewer, Rerecording(row, fetch)));
      }
    case (ReverifyCall(reviewer, Rerecording(row, fetch)), Commit(_, _, _)) =>
      ReverifyKeeps(w.db, row, reviewer, fetch);
      EvolvingKeepsWorld(lib, EndCall(w, c), ReverifyTx(w.db, row, reviewer, fetch).0);
    case _ =>
  }

  lemma ReadStepOnlyReads(w: World, c: nat, req: Request, pc: PublishPc)
    ensures ReadStep(w, c, req, pc).db == w.db
  {
    hide RowWithVersion, CanPublish, LiveRow, RowWithId;
  }

  lemma SignInKeeps(db: Db, account: string, row: Account)
    requires DbOk(db)
    ensures DbOk(DirectStep(db, SignIn(account, row))) && DbEvolves(db, DirectStep(db, SignIn(account, row)))
  {
    hide TableOk, KeysPoint, RowsKeyed, KeysInjective, LogOk, ForeignKeysOk, PluginsOk, GrantsOk, RowsEvolve, LiveAdvances;
    SameRowsEvolve(db.releases);
  }

  lemma DirectStepKeeps(db: Db, l: Label)
    requires DbOk(db)
    ensures DbOk(DirectStep(db, l)) && DbEvolves(db, DirectStep(db, l))
  {
    hide DbOk, DbEvolves, ApproveTx, RejectTx, SetTrustTx, AddTx, RemoveTx, ClaimTx, DelistTx, RelistTx, ImportTx, ImportGrantTx;
    EvolvesReflexive(db);
    match l
    case DoApprove(release, reviewer, note, now) => ApproveKeeps(db, release, reviewer, note, now);
    case DoReject(release, reviewer, note, now) => RejectKeeps(db, release, reviewer, note, now);
    case DoSetTrust(account, level, reviewer, note) => SetTrustKeeps(db, account, level, reviewer, note);
    case DoAdd(plugin, account, target, role) => AddKeeps(db, plugin, account, target, role);
    case DoRemove(plugin, account, removed) => RemoveKeeps(db, plugin, account, removed);
    case DoClaim(claim, account) => if IsPluginId(claim.plugin) { ClaimKeeps(db, claim, account); }
    case DoDelist(plugin, reviewer, note, now) => DelistKeeps(db, plugin, reviewer, note, now);
    case DoRelist(plugin, reviewer, note) => RelistKeeps(db, plugin, reviewer, note);
    case DoImport(seed, ids, now) => if |ids| == |seed| { ImportKeeps(db, seed, ids, now); }
    case DoImportGrant(plugin, account) => ImportGrantKeeps(db, plugin, account);
    case SignIn(account, row) => SignInKeeps(db, account, row);
    case _ =>
  }

  lemma NextKeeps(lib: Lib, w: World, l: Label)
    requires WorldOk(lib, w)
    ensures WorldOk(lib, Next(lib, w, l)) && DbEvolves(w.db, Next(lib, w, l).db)
  {
    hide WorldOk, DbEvolves, DbOk, CallStep, DirectStep, RequestOk, NewSubmission;
    EvolvesReflexive(w.db);
    DbIn(lib, w);
    match l
    case StartPublish(c, raw, account, rawKey) =>
      var sub := NewSubmission(raw);
      var key := TrimSpace(rawKey);
      if c !in w.calls && sub.Ok? && key != "" {
        NewSubmissionValidates(raw);
        var req := Request(sub.value, account, key, HashRequest(lib, sub.value));
        RequestStarts(lib, req);
        SetCallKeeps(lib, w, c, PublishCall(req, KeyRead));
      }
    case StartReverify(c, release, reviewer) =>
      SetCallKeeps(lib, w, c, ReverifyCall(reviewer, RowRead(release)));
    case Read(c) => if c in w.calls { CallStepKeeps(lib, w, l); }
    case FetchDone(c, _) => if c in w.calls { CallStepKeeps(lib, w, l); }
    case Commit(c, _, _) => if c in w.calls { CallStepKeeps(lib, w, l); }
    case Abandon(c) => EndCallKeeps(lib, w, c);
    case _ =>
      DirectStepKeeps(w.db, l);
      EvolvingKeepsWorld(lib, w, DirectStep(w.db, l));
  }

  lemma RequestStarts(lib: Lib, req: Request)
    requires ValidSubmission(req.sub) && req.hash == HashRequest(lib, req.sub) && req.key != ""
    ensures RequestOk(lib, req)
  {
  }

  lemma StartOk(lib: Lib)
    ensures WorldOk(lib, START)
  {
    hide DbOk;
    EmptyDbOk();
  }

  /** Over any run the invariants hold and the database only evolves. */
  lemma {:induction false} RunKeeps(lib: Lib, w: World, ls: seq<Label>)
    requires WorldOk(lib, w)
    ensures WorldOk(lib, Run(lib, w, ls)) && DbEvolves(w.db, Run(lib, w, ls).db)
  {
    hide WorldOk, DbEvolves, Next;
    if ls == [] {
      EvolvesReflexive(w.db);
    } else {
      var mid := Run(lib, w, ls[..|ls| - 1]);
      RunKeeps(lib, w, ls[..|ls| - 1]);
      NextKeeps(lib, mid, ls[|ls| - 1]);
      EvolvesTransitive(w.db, mid.db, Run(lib, w, ls).db);
    }
  }

  /** Some run leads from the empty database to `w`. */
  ghost predicate Reachable(lib: Lib, w: World) {
    exists ls :: Run(lib, START, ls) == w
  }

  lemma ReachableOk(lib: Lib, w: World)
    requires Reachable(lib, w)
    ensures WorldOk(lib, w)
  {
    hide WorldOk, Run, DbEvolves;
    var ls :| Run(lib, START, ls) == w;
    StartOk(lib);
    RunKeeps(lib, START, ls);
  }
}
