/** The state machine and the calls agree: a call whose steps are scheduled with nothing in between
    leaves the database, and gives the answer, that the method of the same name does. */
module Schedules {
  import opened Basics
  import opened Submissions
  import opened Tables
  import opened Publishing
  import opened Reviewing
  import opened Protocol
  import opened Safety

  /** What is left of a publish with `left` reads to go, the fetch and the commit included. */
  function Rest(left: nat, c: nat, fetch: Fetch, id: string, now: int): seq<Label> {
    if left == 0 then [FetchDone(c, fetch), Commit(c, id, now)] else [Read(c)] + Rest(left - 1, c, fetch, id, now)
  }

  /** `w` with one more publish in flight. */
  function At(w: World, c: nat, req: Request, pc: PublishPc): World {
    SetCall(w, c, PublishCall(req, pc))
  }

  /** `w` after a publish that came to `tx` has answered. */
  function Finished(w: World, req: Request, tx: (Db, Result<Outcome, Error>)): World {
    World(tx.0, w.calls, if tx.1.Ok? then w.replies + [Reply(req, tx.1.value)] else w.replies)
  }

  lemma Forward(lib: Lib, w: World, l: Label, ls: seq<Label>)
    ensures Run(lib, w, [l] + ls) == Run(lib, Next(lib, w, l), ls)
  {
    hide Next;
    RunSplits(lib, w, [l], ls);
    assert [l][..0] == [];
    assert Run(lib, w, []) == w;
  }

  lemma Undone(w: World, c: nat, call: Call)
    requires c !in w.calls
    ensures EndCall(SetCall(w, c, call), c) == w
  {
    assert w.calls[c := call] - {c} == w.calls;
  }

  lemma Ended(lib: Lib, w: World, c: nat, fetch: Fetch, id: string, now: int)
    requires c !in w.calls
    ensures Next(lib, w, Read(c)) == Next(lib, w, FetchDone(c, fetch)) == Next(lib, w, Commit(c, id, now)) == w
  {
  }

  /** The labels of a call that has ended do nothing. */
  lemma {:induction false} RestIdle(lib: Lib, w: World, left: nat, c: nat, fetch: Fetch, id: string, now: int)
    requires c !in w.calls
    ensures Run(lib, w, Rest(left, c, fetch, id, now)) == w
  {
    hide Next;
    Ended(lib, w, c, fetch, id, now);
    if left == 0 {
      assert Rest(0, c, fetch, id, now) == [FetchDone(c, fetch)] + [Commit(c, id, now)];
      Forward(lib, w, FetchDone(c, fetch), [Commit(c, id, now)]);
      assert [Commit(c, id, now)] == [Commit(c, id, now)] + [];
      Forward(lib, w, Commit(c, id, now), []);
    } else {
      Forward(lib, w, Read(c), Rest(left - 1, c, fetch, id, now));
      RestIdle(lib, w, left - 1, c, fetch, id, now);
    }
  }

  lemma FromFetching(lib: Lib, w: World, c: nat, req: Request, trust: Trust, prev: Previous,
                     fetch: Fetch, id: string, now: int)
    requires c !in w.calls && FetchInRange(fetch) && SeenKey(w.db, req).None?
    ensures Run(lib, At(w, c, req, Fetching(trust, prev)), Rest(0, c, fetch, id, now))
         == Finished(w, req, RecordTx(w.db, req, Decide(lib, prev, trust, req.sub, fetch), id, now))
  {
    hide RecordTx, Decide, FetchInRange, SeenKey;
    var fetching, recording := At(w, c, req, Fetching(trust, prev)), At(w, c, req, Recording(trust, prev, fetch));
    Forward(lib, fetching, FetchDone(c, fetch), [Commit(c, id, now)]);
    assert fetching.calls[c := PublishCall(req, Recording(trust, prev, fetch))] == recording.calls;
    assert Next(lib, fetching, FetchDone(c, fetch)) == recording;
    assert [Commit(c, id, now)] == [Commit(c, id, now)] + [];
    Forward(lib, recording, Commit(c, id, now), []);
    Undone(w, c, PublishCall(req, Recording(trust, prev, fetch)));
    NotRaced(w.db, req, Decide(lib, prev, trust, req.sub, fetch), id, now);
    var (d, r) := RecordTx(w.db, req, Decide(lib, prev, trust, req.sub, fetch), id, now);
    Undone(w.(db := d), c, PublishCall(req, Recording(trust, prev, fetch)));
  }

  /** One read: the call goes on from `pc` to `on`, or ends. */
  lemma ReadOnce(lib: Lib, w: World, c: nat, req: Request, pc: PublishPc, more: nat, fetch: Fetch, id: string, now: int)
    requires c !in w.calls
    ensures Run(lib, At(w, c, req, pc), Rest(more + 1, c, fetch, id, now))
         == Run(lib, ReadStep(At(w, c, req, pc), c, req, pc), Rest(more, c, fetch, id, now))
  {
    hide ReadStep;
    Forward(lib, At(w, c, req, pc), Read(c), Rest(more, c, fetch, id, now));
  }

  lemma ReadsFrom(w: World, c: nat, req: Request, pc: PublishPc, on: PublishPc)
    requires c !in w.calls
    ensures SetCall(At(w, c, req, pc), c, PublishCall(req, on)) == At(w, c, req, on)
    ensures EndCall(At(w, c, req, pc), c) == w
  {
    Undone(w, c, PublishCall(req, pc));
  }

  lemma FromTrust(lib: Lib, w: World, c: nat, req: Request, fetch: Fetch, id: string, now: int)
    requires c !in w.calls && FetchInRange(fetch) && SeenKey(w.db, req).None?
    ensures var trust := TrustOf(w.db.trust, req.account);
            var prev := PreviousOf(w.db.releases, req.sub.plugin);
            Run(lib, At(w, c, req, TrustRead), Rest(2, c, fetch, id, now)) ==
              Finished(w, req, if trust == Blocked then (w.db, Err(AccountBlocked))
                               else RecordTx(w.db, req, Decide(lib, prev, trust, req.sub, fetch), id, now))
  {
    hide RecordTx, Decide, FetchInRange, SeenKey, PreviousOf, Run, Rest;
    var trust, prev := TrustOf(w.db.trust, req.account), PreviousOf(w.db.releases, req.sub.plugin);
    ReadOnce(lib, w, c, req, TrustRead, 1, fetch, id, now);
    ReadsFrom(w, c, req, TrustRead, LiveRead(trust));
    if trust == Blocked {
      RestIdle(lib, w, 1, c, fetch, id, now);
    } else {
      ReadOnce(lib, w, c, req, LiveRead(trust), 0, fetch, id, now);
      ReadsFrom(w, c, req, LiveRead(trust), Fetching(trust, prev));
      FromFetching(lib, w, c, req, trust, prev, fetch, id, now);
    }
  }

  lemma FromGrant(lib: Lib, w: World, c: nat, req: Request, fetch: Fetch, id: string, now: int)
    requires c !in w.calls && FetchInRange(fetch) && SeenKey(w.db, req).None? && req.key != ""
    ensures Run(lib, At(w, c, req, GrantRead), Rest(5, c, fetch, id, now))
         == Finished(w, req, PublishAlone(lib, w.db, req, fetch, id, now))
  {
    hide RecordTx, Decide, FetchInRange, SeenKey, PreviousOf, Run, Rest, HoldsGrant, CanPublish, RowWithVersion, TrustOf;
    ReadOnce(lib, w, c, req, GrantRead, 4, fetch, id, now);
    ReadsFrom(w, c, req, GrantRead, IdentityRead);
    RestIdle(lib, w, 4, c, fetch, id, now);
    ReadOnce(lib, w, c, req, IdentityRead, 3, fetch, id, now);
    ReadsFrom(w, c, req, IdentityRead, VersionRead);
    RestIdle(lib, w, 3, c, fetch, id, now);
    ReadOnce(lib, w, c, req, VersionRead, 2, fetch, id, now);
    ReadsFrom(w, c, req, VersionRead, TrustRead);
    RestIdle(lib, w, 2, c, fetch, id, now);
    FromTrust(lib, w, c, req, fetch, id, now);
  }

  lemma FromKey(lib: Lib, w: World, c: nat, req: Request, fetch: Fetch, id: string, now: int)
    requires c !in w.calls && FetchInRange(fetch) && req.key != ""
    ensures Run(lib, At(w, c, req, KeyRead), Rest(6, c, fetch, id, now))
         == Finished(w, req, PublishAlone(lib, w.db, req, fetch, id, now))
  {
    hide RecordTx, Decide, FetchInRange, SeenKey, PreviousOf, Run, Rest, HoldsGrant, CanPublish, RowWithVersion, TrustOf;
    hide OutcomeOf;
    ReadOnce(lib, w, c, req, KeyRead, 5, fetch, id, now);
    match SeenKey(w.db, req)
    case None =>
      ReadsFrom(w, c, req, KeyRead, GrantRead);
      FromGrant(lib, w, c, req, fetch, id, now);
    case Some(Ok(r)) =>
      ReadsFrom(w, c, req, KeyRead, ReplayRead(r));
      ReadOnce(lib, w, c, req, ReplayRead(r), 4, fetch, id, now);
      ReadsFrom(w, c, req, ReplayRead(r), KeyRead);
      RestIdle(lib, ReadStep(At(w, c, req, ReplayRead(r)), c, req, ReplayRead(r)), 4, c, fetch, id, now);
    case Some(Err(_)) =>
      ReadsFrom(w, c, req, KeyRead, KeyRead);
      RestIdle(lib, w, 5, c, fetch, id, now);
  }

  /** A publish whose steps run with nothing in between does, to the database and in its answer,
      exactly what the call does alone, and disturbs no other call. */
  lemma UninterruptedPublish(lib: Lib, w: World, c: nat, raw: RawSubmission, account: string, rawKey: string,
                             fetch: Fetch, id: string, now: int)
    requires c !in w.calls && FetchInRange(fetch) && NewSubmission(raw).Ok?
    ensures var sub := NewSubmission(raw).value;
            var req := Request(sub, account, TrimSpace(rawKey), HashRequest(lib, sub));
            Run(lib, w, [StartPublish(c, raw, account, rawKey)] + Rest(6, c, fetch, id, now)) ==
              Finished(w, req, PublishAlone(lib, w.db, req, fetch, id, now))
  {
    hide NewSubmission, TrimSpace, HashRequest, Run, Rest, FetchInRange;
    var sub := NewSubmission(raw).value;
    var req := Request(sub, account, TrimSpace(rawKey), HashRequest(lib, sub));
    Forward(lib, w, StartPublish(c, raw, account, rawKey), Rest(6, c, fetch, id, now));
    if req.key == "" {
      RestIdle(lib, w, 6, c, fetch, id, now);
    } else {
      FromKey(lib, w, c, req, fetch, id, now);
    }
  }

  /** The same for a re-verification. */
  lemma UninterruptedReverify(lib: Lib, w: World, c: nat, release: string, reviewer: string, fetch: Fetch, id: string, now: int)
    requires c !in w.calls && FetchInRange(fetch)
    ensures Run(lib, w, [StartReverify(c, release, reviewer)] + Rest(1, c, fetch, id, now))
         == w.(db := ReverifyAlone(w.db, release, reviewer, fetch).0)
  {
    hide ReverifyAlone, FetchInRange, Run;
    Forward(lib, w, StartReverify(c, release, reviewer), Rest(1, c, fetch, id, now));
    ReadingEnds(lib, w, c, release, reviewer, fetch, id, now);
  }

  lemma ReadingEnds(lib: Lib, w: World, c: nat, release: string, reviewer: string, fetch: Fetch, id: string, now: int)
    requires c !in w.calls && FetchInRange(fetch)
    ensures Run(lib, SetCall(w, c, ReverifyCall(reviewer, RowRead(release))), Rest(1, c, fetch, id, now))
         == w.(db := ReverifyAlone(w.db, release, reviewer, fetch).0)
  {
    hide ReverifyTx, ReverifyRead, FetchInRange, Run;
    var reading := SetCall(w, c, ReverifyCall(reviewer, RowRead(release)));
    Forward(lib, reading, Read(c), Rest(0, c, fetch, id, now));
    match ReverifyRead(w.db.releases, release)
    case Err(_) =>
      Undone(w, c, ReverifyCall(reviewer, RowRead(release)));
      RestIdle(lib, w, 0, c, fetch, id, now);
    case Ok(k) =>
      RefetchingEnds(lib, w, c, reviewer, w.db.releases[k], fetch, id, now);
      assert reading.calls[c := ReverifyCall(reviewer, Refetching(w.db.releases[k]))]
          == SetCall(w, c, ReverifyCall(reviewer, Refetching(w.db.releases[k]))).calls;
  }

  lemma RefetchingEnds(lib: Lib, w: World, c: nat, reviewer: string, row: Release, fetch: Fetch, id: string, now: int)
    requires c !in w.calls && FetchInRange(fetch)
    ensures Run(lib, SetCall(w, c, ReverifyCall(reviewer, Refetching(row))), Rest(0, c, fetch, id, now))
         == w.(db := ReverifyTx(w.db, row, reviewer, fetch).0)
  {
    hide ReverifyTx, FetchInRange;
    var before, after := SetCall(w, c, ReverifyCall(reviewer, Refetching(row))), SetCall(w, c, ReverifyCall(reviewer, Rerecording(row, fetch)));
    Forward(lib, before, FetchDone(c, fetch), [Commit(c, id, now)]);
    assert before.calls[c := ReverifyCall(reviewer, Rerecording(row, fetch))] == after.calls;
    assert [Commit(c, id, now)] == [Commit(c, id, now)] + [];
    Forward(lib, after, Commit(c, id, now), []);
    Undone(w, c, ReverifyCall(reviewer, Rerecording(row, fetch)));
  }
}
