/** Who holds a plugin: claiming an id, and granting and revoking it. */
module Ownership {
  import opened Basics
  import opened Notes
  import opened Submissions
  import opened Tables

  const MAX_NAME_BYTES := 120
  const MAX_DESCRIPTION_BYTES := 500
  const MAX_AUTHOR_BYTES := 120
  const MAX_HOMEPAGE_BYTES := 500

  datatype Claim = Claim(plugin: string, name: string, description: string, author: string, homepage: string)

  /** requireOwnerRoleTx. */
  function OwnerRoleProblem(grants: map<(string, string), Role>, plugin: string, account: string): Option<Error> {
    if (plugin, account) !in grants then Some(NotAnOwner)
    else if grants[(plugin, account)] != Owner then Some(RoleCannotManageOwners)
    else None
  }

  /** The accounts that hold `plugin`, at any role. */
  function Holders(grants: map<(string, string), Role>, plugin: string): set<string> {
    set g | g in grants && g.0 == plugin :: g.1
  }

  // ---- Add ----

  /** `target` is the account the handle resolved to, or None when it resolved to none. */
  function AddTx(db: Db, plugin: string, caller: string, target: Option<string>, role: Role): (Db, Result<(), Error>) {
    match OwnerRoleProblem(db.grants, plugin, caller)
    case Some(e) => (db, Err(e))
    case None =>
      if target.None? || target.value !in db.accounts then (db, Err(NoSuchAccount))
      else if db.accounts[target.value].disabled then (db, Err(AccountDisabled))
      else if (plugin, target.value) in db.grants then (db, Err(AlreadyAnOwner))
      else if !GrantAdmitted(db.accounts, db.plugins, plugin, target.value, Some(caller)) then (db, Err(ConstraintViolated))
      else if ActorProblem(db.accounts, ByAccount(caller)).Some?
      then (db, Err(ActorProblem(db.accounts, ByAccount(caller)).value))
      else
        (db.(grants := db.grants[(plugin, target.value) := role],
             audit := db.audit + [Entry(ByAccount(caller), OwnerAddEvent(plugin, target.value, role))]),
         Ok(()))
  }

  method Add(store: Store, plugin: string, caller: string, target: Option<string>, role: Role)
    returns (r: Result<(), Error>)
    modifies store
    ensures (store.Contents(), r) == AddTx(old(store.Contents()), plugin, caller, target, role)
  {
    var begun := store.Contents();
    var problem := OwnerRoleProblem(store.grants, plugin, caller);
    if problem.Some? {
      return Err(problem.value);
    }
    if target.None? || target.value !in store.accounts {
      return Err(NoSuchAccount);
    }
    if store.accounts[target.value].disabled {
      return Err(AccountDisabled);
    }
    if (plugin, target.value) in store.grants {
      return Err(AlreadyAnOwner);
    }
    var ok := store.InsertPluginOwner(plugin, target.value, role, Some(caller));
    if !ok {
      return Err(ConstraintViolated);
    }
    var recorded := store.Record(ByAccount(caller), OwnerAddEvent(plugin, target.value, role));
    if recorded.Some? {
      store.Rollback(begun);
      return Err(recorded.value);
    }
    r := Ok(());
  }

  // ---- Remove ----

  function RemoveTx(db: Db, plugin: string, caller: string, target: string): (Db, Result<(), Error>) {
    match OwnerRoleProblem(db.grants, plugin, caller)
    case Some(e) => (db, Err(e))
    case None =>
      if |Holders(db.grants, plugin)| <= 1 then (db, Err(LastOwner))
      else if (plugin, target) !in db.grants then (db, Err(NotAnOwner))
      else if ActorProblem(db.accounts, ByAccount(caller)).Some?
      then (db, Err(ActorProblem(db.accounts, ByAccount(caller)).value))
      else
        (db.(grants := db.grants - {(plugin, target)},
             audit := db.audit + [Entry(ByAccount(caller), OwnerRemoveEvent(plugin, target))]),
         Ok(()))
  }

  method Remove(store: Store, plugin: string, caller: string, target: string)
    returns (r: Result<(), Error>)
    modifies store
    ensures (store.Contents(), r) == RemoveTx(old(store.Contents()), plugin, caller, target)
  {
    var begun := store.Contents();
    var problem := OwnerRoleProblem(store.grants, plugin, caller);
    if problem.Some? {
      return Err(problem.value);
    }
    if |Holders(store.grants, plugin)| <= 1 {
      return Err(LastOwner);
    }
    var removed := store.DeletePluginOwner(plugin, target);
    if !removed {
      store.Rollback(begun);
      return Err(NotAnOwner);
    }
    var recorded := store.Record(ByAccount(caller), OwnerRemoveEvent(plugin, target));
    if recorded.Some? {
      store.Rollback(begun);
      return Err(recorded.value);
    }
    r := Ok(());
  }

  // ---- the grant imported from owners.json ----

  function ImportGrantTx(db: Db, plugin: string, account: string): (Db, Result<(), Error>) {
    if (plugin, account) in db.grants then (db, Ok(()))
    else if !GrantAdmitted(db.accounts, db.plugins, plugin, account, None) then (db, Err(ConstraintViolated))
    else
      (db.(grants := db.grants[(plugin, account) := Owner],
           audit := db.audit + [Entry(BySystem, OwnerImportEvent(plugin, account))]),
       Ok(()))
  }

  // ---- ClaimID ----

  predicate FieldFits(value: string, max: nat) {
    ByteLen(value) <= max && IsPlainText(value)
  }

  function TrimClaim(c: Claim): Claim {
    Claim(c.plugin, TrimSpace(c.name), TrimSpace(c.description), TrimSpace(c.author), TrimSpace(c.homepage))
  }

  /** Claim.validate, on trimmed fields. */
  predicate ClaimUsable(c: Claim) {
    && FieldFits(c.name, MAX_NAME_BYTES) && FieldFits(c.description, MAX_DESCRIPTION_BYTES)
    && FieldFits(c.author, MAX_AUTHOR_BYTES) && FieldFits(c.homepage, MAX_HOMEPAGE_BYTES)
    && c.name != "" && (c.homepage == "" || IsPublishableUrl(c.homepage))
  }

  function ClaimedPlugin(c: Claim): Plugin {
    Plugin(c.name, c.description, c.author, c.homepage, None, None)
  }

  /** `raw.plugin` is a core.PluginID: it was parsed before it got here. */
  function ClaimTx(db: Db, raw: Claim, account: string): (Db, Result<(), Error>) {
    var c := TrimClaim(raw);
    if !ClaimUsable(c) then (db, Err(BadListing))
    else if c.plugin in db.plugins then (db, Err(AlreadyClaimed))
    else if !PluginChecks(c.plugin, ClaimedPlugin(c)) || (c.plugin, account) in db.grants || account !in db.accounts
    then (db, Err(ConstraintViolated))
    else if ActorProblem(db.accounts, ByAccount(account)).Some?
    then (db, Err(ActorProblem(db.accounts, ByAccount(account)).value))
    else
      (db.(plugins := db.plugins[c.plugin := ClaimedPlugin(c)],
           grants := db.grants[(c.plugin, account) := Owner],
           audit := db.audit + [Entry(ByAccount(account), ClaimEvent(c.plugin, c.name))]),
       Ok(()))
  }

  method ClaimID(store: Store, raw: Claim, account: string) returns (r: Result<(), Error>)
    modifies store
    ensures (store.Contents(), r) == ClaimTx(old(store.Contents()), raw, account)
  {
    var c := TrimClaim(raw);
    if !ClaimUsable(c) {
      return Err(BadListing);
    }
    var begun := store.Contents();
    if c.plugin in store.plugins {
      return Err(AlreadyClaimed);
    }
    var ok := store.InsertPlugin(c.plugin, ClaimedPlugin(c));
    if ok {
      ok := store.InsertPluginOwner(c.plugin, account, Owner, Some(account));
    }
    if !ok {
      store.Rollback(begun);
      return Err(ConstraintViolated);
    }
    var recorded := store.Record(ByAccount(account), ClaimEvent(c.plugin, c.name));
    if recorded.Some? {
      store.Rollback(begun);
      return Err(recorded.value);
    }
    r := Ok(());
  }

  // ---- what the changes are to each other ----

  /** Removing who was just added undoes it, and is never refused to the owner who added them. */
  lemma RemoveUndoesAdd(db: Db, plugin: string, caller: string, target: Option<string>, role: Role)
    requires AddTx(db, plugin, caller, target, role).1.Ok?
    ensures var d := AddTx(db, plugin, caller, target, role).0;
            var (e, r) := RemoveTx(d, plugin, caller, target.value);
            && d == db.(grants := d.grants, audit := d.audit) && d.grants.Keys == db.grants.Keys + {(plugin, target.value)}
            && r.Ok? && e == db.(audit := e.audit)
  {
    var d := AddTx(db, plugin, caller, target, role).0;
    assert caller != target.value;
    assert (plugin, caller) in d.grants && (plugin, target.value) in d.grants;
    assert {caller, target.value} <= Holders(d.grants, plugin);
    TwoAtLeast(Holders(d.grants, plugin), caller, target.value);
    assert d.grants - {(plugin, target.value)} == db.grants;
  }

  lemma TwoAtLeast(s: set<string>, a: string, b: string)
    requires a != b && {a, b} <= s
    ensures |s| >= 2
  {
    assert s == {a, b} + (s - {a, b});
    assert |{a, b}| == 2;
  }

  /** A refused change changes nothing, and a removal takes away one grant and no other. */
  lemma RemoveTakesOneGrant(db: Db, plugin: string, caller: string, target: string)
    ensures var (d, r) := RemoveTx(db, plugin, caller, target);
            if r.Err? then d == db
            else
              && d == db.(grants := d.grants, audit := d.audit) && |d.audit| == |db.audit| + 1
              && (plugin, target) in db.grants && d.grants.Keys == db.grants.Keys - {(plugin, target)}
              && forall g :: g in d.grants ==> d.grants[g] == db.grants[g]
  {
  }

  /** An id is claimed once: its claimant manages it from then on, and nobody else can claim it. */
  lemma ClaimedOnce(db: Db, raw: Claim, account: string, again: Claim, other: string)
    requires ClaimTx(db, raw, account).1.Ok? && again.plugin == raw.plugin
    ensures var d := ClaimTx(db, raw, account).0;
            && OwnerRoleProblem(d.grants, raw.plugin, account).None?
            && d.plugins.Keys == db.plugins.Keys + {raw.plugin} && raw.plugin !in db.plugins
            && ClaimTx(d, again, other) == (d, Err(if ClaimUsable(TrimClaim(again)) then AlreadyClaimed else BadListing))
  {
    hide ClaimUsable, TrimSpace, PluginChecks;
  }
}
