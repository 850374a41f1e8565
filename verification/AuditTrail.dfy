/** Reading the state of every release back out of the append-only audit log. */
module AuditTrail {
  import opened Basics
  import opened Tables
  import opened Publishing
  import opened Reviewing
  import opened Catalogue
  import opened Invariants

  /** What one event says about release `id`. */
  function Effect(e: Event, id: string, s: Option<ReleaseState>): Option<ReleaseState> {
    match e
    case PublishEvent(_, release, _, state, _, _, superseded, _) =>
      if release == id then Some(state) else if superseded == Some(id) then Some(Superseded) else s
    case SupersedePendingEvent(release, _, _, _) => if release == id then Some(Superseded) else s
    case ApproveEvent(release, _, _, _, superseded, _) =>
      if release == id then Some(Approved) else if superseded == Some(id) then Some(Superseded) else s
    case RejectEvent(release, _, _, _) => if release == id then Some(Rejected) else s
    case _ => s
  }

  /** The state the log leaves release `id` in, from the state it started in. */
  function ReplayLog(log: seq<Entry>, id: string, start: Option<ReleaseState>): Option<ReleaseState> {
    if log == [] then start else Effect(log[|log| - 1].event, id, ReplayLog(log[..|log| - 1], id, start))
  }

  /** An imported release starts approved, any other one does not exist yet. */
  function Start(r: Release): Option<ReleaseState> {
    if r.source == Imported then Some(Approved) else None
  }

  ghost predicate NoRow(rs: seq<Release>, id: string) {
    forall i :: 0 <= i < |rs| ==> rs[i].id != id
  }

  /** The log accounts for the state of every release, and for nothing that is not a release. */
  ghost predicate LogOk(log: seq<Entry>, rs: seq<Release>) {
    && (forall i :: 0 <= i < |rs| ==> ReplayLog(log, rs[i].id, Start(rs[i])) == Some(rs[i].state))
    && (forall id :: NoRow(rs, id) ==> ReplayLog(log, id, None) == None)
  }

  lemma ReplayOneMore(log: seq<Entry>, e: Entry, id: string, s: Option<ReleaseState>)
    ensures ReplayLog(log + [e], id, s) == Effect(e.event, id, ReplayLog(log, id, s))
  {
    assert (log + [e])[..|log|] == log;
  }

  lemma {:induction false} ReplayRetirements(log: seq<Entry>, req: Request, waiting: seq<Release>,
                                             id: string, s: Option<ReleaseState>)
    ensures ReplayLog(log + RetireEntries(req, waiting), id, s)
         == if exists w :: w in waiting && w.id == id then Some(Superseded) else ReplayLog(log, id, s)
  {
    if waiting == [] {
      assert log + RetireEntries(req, waiting) == log;
    } else {
      var init, w := waiting[..|waiting| - 1], waiting[|waiting| - 1];
      ReplayRetirements(log, req, init, id, s);
      assert log + RetireEntries(req, waiting) == log + RetireEntries(req, init) + [RetireEntry(req, w)];
      ReplayOneMore(log + RetireEntries(req, init), RetireEntry(req, w), id, s);
      assert waiting == init + [w];
    }
  }

  /** An id the log never mentions keeps whatever it started with. */
  lemma {:induction false} UnmentionedKeeps(log: seq<Entry>, id: string, s: Option<ReleaseState>)
    requires ReplayLog(log, id, None) == None
    ensures ReplayLog(log, id, s) == s
  {
    if log != [] {
      UnmentionedKeeps(log[..|log| - 1], id, s);
    }
  }

  /** Events that are not about a release's state. */
  predicate Neutral(e: Event) {
    !(e.PublishEvent? || e.SupersedePendingEvent? || e.ApproveEvent? || e.RejectEvent?)
  }

  lemma NeutralKeepsLog(log: seq<Entry>, e: Entry, rs: seq<Release>, ss: seq<Release>)
    requires LogOk(log, rs) && Neutral(e.event) && |ss| == |rs|
    requires forall i :: 0 <= i < |rs| ==> ss[i].id == rs[i].id && ss[i].source == rs[i].source && ss[i].state == rs[i].state
    ensures LogOk(log + [e], ss)
  {
    forall i | 0 <= i < |ss|
      ensures ReplayLog(log + [e], ss[i].id, Start(ss[i])) == Some(ss[i].state)
    {
      ReplayOneMore(log, e, ss[i].id, Start(ss[i]));
      assert ss[i].id == rs[i].id;
    }
    forall id | NoRow(ss, id)
      ensures ReplayLog(log + [e], id, None) == None
    {
      ReplayOneMore(log, e, id, None);
      assert NoRow(rs, id);
    }
  }

  /** A database that held no release accounts for the ones imported into it. */
  lemma ImportKeepsLog(log: seq<Entry>, e: Entry, ss: seq<Release>)
    requires LogOk(log, []) && Neutral(e.event)
    requires forall i :: 0 <= i < |ss| ==> ss[i].source == Imported && ss[i].state == Approved
    ensures LogOk(log + [e], ss)
  {
    forall id
      ensures ReplayLog(log + [e], id, None) == None
      ensures ReplayLog(log + [e], id, Some(Approved)) == Some(Approved)
    {
      assert NoRow([], id);
      UnmentionedKeeps(log, id, Some(Approved));
      ReplayOneMore(log, e, id, None);
      ReplayOneMore(log, e, id, Some(Approved));
    }
  }

  /** What the rows of a publish say about an id. */
  lemma ReplayPublish(db: Db, req: Request, v: Verdict, id: string, now: int, x: string, s: Option<ReleaseState>)
    ensures ReplayLog(Recorded(db, req, v, id, now).audit, x, s)
         == if x == id then Some(v.state)
            else if SupersededBy(db, req.sub.plugin, v) == Some(x) then Some(Superseded)
            else if exists w :: w in Waiting(db.releases, req.sub.plugin) && w.id == x then Some(Superseded)
            else ReplayLog(db.audit, x, s)
  {
    var waiting := Waiting(db.releases, req.sub.plugin);
    ReplayRetirements(db.audit, req, waiting, x, s);
    ReplayOneMore(db.audit + RetireEntries(req, waiting), PublishEntry(db, req, v, id), x, s);
  }

  lemma WaitingIds(rs: seq<Release>, plugin: string, i: nat)
    requires UniqueIds(rs) && i < |rs|
    ensures (exists w :: w in Waiting(rs, plugin) && w.id == rs[i].id)
       <==> rs[i].plugin == plugin && rs[i].state == Pending
  {
    assert rs[i] in rs;
    if rs[i].plugin == plugin && rs[i].state == Pending {
      assert rs[i] in Waiting(rs, plugin);
    }
    if w :| w in Waiting(rs, plugin) && w.id == rs[i].id {
      assert w in rs;
      var j :| 0 <= j < |rs| && rs[j] == w;
      assert i == j;
    }
  }

  lemma LiveIs(rs: seq<Release>, plugin: string, i: nat)
    requires OneApproved(rs) && i < |rs| && rs[i].plugin == plugin && rs[i].state == Approved
    ensures LiveRow(rs, plugin) == Some(i)
  {
  }

  /** The publish rows account for the new release and for every release it retired. */
  lemma RecordedKeepsLog(db: Db, req: Request, v: Verdict, id: string, now: int)
    requires LogOk(db.audit, db.releases) && UniqueIds(db.releases) && OneApproved(db.releases)
    requires NoRow(db.releases, id)
    requires Submitted(db.releases, Recorded(db, req, v, id, now).releases, PublishRow(req, v, id, now))
    ensures LogOk(Recorded(db, req, v, id, now).audit, Recorded(db, req, v, id, now).releases)
  {
    var rs, d := db.releases, Recorded(db, req, v, id, now);
    var plugin, row := req.sub.plugin, PublishRow(req, v, id, now);
    forall i | 0 <= i < |d.releases|
      ensures ReplayLog(d.audit, d.releases[i].id, Start(d.releases[i])) == Some(d.releases[i].state)
    {
      ReplayPublish(db, req, v, id, now, d.releases[i].id, Start(d.releases[i]));
      if i < |rs| {
        assert d.releases[i] == AfterSubmission(rs[i], row);
        WaitingIds(rs, plugin, i);
        SupersededIs(db, plugin, v, i);
      }
    }
    forall x | NoRow(d.releases, x)
      ensures ReplayLog(d.audit, x, None) == None
    {
      NoRowStillUnlogged(db, req, v, id, now, x);
    }
  }

  lemma NoRowStillUnlogged(db: Db, req: Request, v: Verdict, id: string, now: int, x: string)
    requires LogOk(db.audit, db.releases)
    requires Submitted(db.releases, Recorded(db, req, v, id, now).releases, PublishRow(req, v, id, now))
    requires NoRow(Recorded(db, req, v, id, now).releases, x)
    ensures ReplayLog(Recorded(db, req, v, id, now).audit, x, None) == None
  {
    var rs, ss := db.releases, Recorded(db, req, v, id, now).releases;
    assert ss[|rs|].id == id;
    forall i | 0 <= i < |rs|
      ensures rs[i].id != x
    {
      assert ss[i].id == rs[i].id;
    }
    ReplayPublish(db, req, v, id, now, x, None);
    NotMentioned(db, req.sub.plugin, v, x);
  }

  lemma SupersededIs(db: Db, plugin: string, v: Verdict, i: nat)
    requires UniqueIds(db.releases) && OneApproved(db.releases) && i < |db.releases|
    ensures SupersededBy(db, plugin, v) == Some(db.releases[i].id)
       <==> v.state == Approved && db.releases[i].plugin == plugin && db.releases[i].state == Approved
  {
  }

  lemma NotMentioned(db: Db, plugin: string, v: Verdict, x: string)
    requires NoRow(db.releases, x)
    ensures SupersededBy(db, plugin, v) != Some(x)
    ensures !exists w :: w in Waiting(db.releases, plugin) && w.id == x
  {
    forall w | w in Waiting(db.releases, plugin)
      ensures w.id != x
    {
      assert w in db.releases;
    }
  }

  /** The row of an approval or a rejection accounts for the decided release and the retired one. */
  lemma DecisionKeepsLog(log: seq<Entry>, rs: seq<Release>, ss: seq<Release>, k: nat, s: Release, e: Entry)
    requires LogOk(log, rs) && UniqueIds(rs) && OneApproved(rs)
    requires Decided(rs, ss, k, s) && RowEvolves(rs[k], s)
    requires (e.event.ApproveEvent? && s.state == Approved && e.event.superseded == LiveId(rs, s.plugin))
          || (e.event.RejectEvent? && s.state == Rejected)
    requires e.event.release == s.id
    ensures LogOk(log + [e], ss)
  {
    forall i | 0 <= i < |ss|
      ensures ReplayLog(log + [e], ss[i].id, Start(ss[i])) == Some(ss[i].state)
    {
      assert ss[i].id == rs[i].id && Start(ss[i]) == Start(rs[i]);
      ReplayOneMore(log, e, ss[i].id, Start(ss[i]));
      LiveIdIs(rs, s.plugin, i);
    }
    forall id | NoRow(ss, id)
      ensures ReplayLog(log + [e], id, None) == None
    {
      assert ss[k].id == s.id;
      forall i | 0 <= i < |rs|
        ensures rs[i].id != id
      {
        assert ss[i].id == rs[i].id;
      }
      assert NoRow(rs, id);
      ReplayOneMore(log, e, id, None);
    }
  }

  lemma LiveIdIs(rs: seq<Release>, plugin: string, i: nat)
    requires UniqueIds(rs) && OneApproved(rs) && i < |rs|
    ensures LiveId(rs, plugin) == Some(rs[i].id) <==> rs[i].plugin == plugin && rs[i].state == Approved
  {
  }
}
