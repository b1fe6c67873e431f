/**
 What CreateSandbox, handled alone, does in the end: for every name and database, and whichever of its calls fail.
 script(k) decides the handler's first call.
 */
module CreateOutcome {
  import opened Wrappers
  import opened Models
  import opened Scheduler
  import opened Protocol
  import opened Atomic
  import opened RequestOutcome

  function NewRow(app: string, memoryMB: int): Row { Row(app, memoryMB, None, None, None, Pending, 0, 0, [], []) }

  function Required(memoryMB: int): int { if memoryMB == 0 then 512 else memoryMB }

  /** The row of that id can be deleted to free its name: it is destroyed or failed, and no command names it. */
  predicate Reusable(db: Db, id: SandboxId) {
    id in db.rows && (db.rows[id].state == Destroyed || db.rows[id].state == Failed)
    && !exists c | c in db.cmds :: db.cmds[c].sandbox == id
  }

  /** The database without row id. */
  function Freed(db: Db, id: SandboxId): Db
    requires id in db.rows
  {
    db.(rows := db.rows - {id}, apps := db.apps - {db.rows[id].app})
  }

  function Inserted(db: Db, app: string, memoryMB: int, id: SandboxId): Db {
    db.(rows := db.rows[id := NewRow(app, memoryMB)], apps := db.apps[app := id], born := db.born + {id})
  }

  /** Placed on the node the scheduler picks, if it picks one. */
  function AfterPlace(db: Db, id: SandboxId, need: int, script: nat -> Choice, k: nat): Db
    requires id in db.rows && db.rows[id].state == Pending
  {
    var target := Place(HealthyNodes(db.nodes), need);
    if script(k).fails || target.None? then db else AfterAssign(db, id, target.value, script, k + 1)
  }

  function AfterInsert(db: Db, app: string, memoryMB: int, id: SandboxId, script: nat -> Choice, k: nat): Db {
    if script(k).fails || app in db.apps || id in db.born || id in db.rows then db
    else AfterPlace(Inserted(db, app, memoryMB, id), id, Required(memoryMB), script, k + 1)
  }

  function AfterCreate(db: Db, app: string, memoryMB: int, id: SandboxId, script: nat -> Choice, k: nat): Db {
    if script(k).fails then db
    else if app !in db.apps then AfterInsert(db, app, memoryMB, id, script, k + 1)
    else if !Reusable(db, db.apps[app]) || script(k + 1).fails then db
    else AfterInsert(Freed(db, db.apps[app]), app, memoryMB, id, script, k + 2)
  }

  lemma PlaceEnds(db: Db, id: SandboxId, need: int, script: nat -> Choice, k: nat)
    requires id in db.rows && db.rows[id].state == Pending
    ensures Drive(db, InCreate(CreatePlace(id, need)), script, k).db == AfterPlace(db, id, need, script, k)
  {
    DriveOnce(db, InCreate(CreatePlace(id, need)), script, k);
    var target := Place(HealthyNodes(db.nodes), need);
    if !script(k).fails && target.Some? {
      AssignOutcome(db, id, target.value, script, k + 1);
    }
  }

  lemma InsertEnds(db: Db, app: string, memoryMB: int, id: SandboxId, script: nat -> Choice, k: nat)
    ensures Drive(db, InCreate(CreateInsert(app, memoryMB, id)), script, k).db
            == AfterInsert(db, app, memoryMB, id, script, k)
  {
    DriveOnce(db, InCreate(CreateInsert(app, memoryMB, id)), script, k);
    if !script(k).fails && app !in db.apps && id !in db.born && id !in db.rows {
      PlaceEnds(Inserted(db, app, memoryMB, id), id, Required(memoryMB), script, k + 1);
    }
  }

  lemma DeleteEnds(db: Db, app: string, memoryMB: int, id: SandboxId, prior: SandboxId, script: nat -> Choice, k: nat)
    requires prior in db.rows && (db.rows[prior].state == Destroyed || db.rows[prior].state == Failed)
    ensures Drive(db, InCreate(CreateDelete(app, memoryMB, id, prior)), script, k).db
            == if !Reusable(db, prior) || script(k).fails then db
               else AfterInsert(Freed(db, prior), app, memoryMB, id, script, k + 1)
  {
    DriveOnce(db, InCreate(CreateDelete(app, memoryMB, id, prior)), script, k);
    if Reusable(db, prior) && !script(k).fails {
      InsertEnds(Freed(db, prior), app, memoryMB, id, script, k + 1);
    }
  }

  /** A free name, or that of a destroyed or failed row that never had a command, gets a new row, which goes to starting
      on the node the scheduler picks with one start command; the old row is gone. Any other name changes nothing, and
      each failing call ends the handler where it is. */
  lemma CreateEnds(db: Db, app: string, memoryMB: int, id: SandboxId, script: nat -> Choice, k: nat)
    ensures Drive(db, InCreate(CreateLookup(app, memoryMB, id)), script, k).db
            == AfterCreate(db, app, memoryMB, id, script, k)
  {
    DriveOnce(db, InCreate(CreateLookup(app, memoryMB, id)), script, k);
    if !script(k).fails {
      if app !in db.apps || db.apps[app] !in db.rows {
        InsertEnds(db, app, memoryMB, id, script, k + 1);
      } else {
        var row := db.rows[db.apps[app]];
        if row.state == Destroyed || row.state == Failed {
          DeleteEnds(db, app, memoryMB, id, db.apps[app], script, k + 1);
        }
      }
    }
  }

  /** A name can be taken when it is free or its row can be deleted. */
  predicate CanCreate(db: Db, app: string) { app !in db.apps || Reusable(db, db.apps[app]) }

  /** Row id is new, and starting on the roomiest node that fits with its one start command c, or pending without one
      when there is no capacity. */
  predicate Created(before: Db, after: Db, app: string, memoryMB: int, id: SandboxId, c: CmdId) {
    var target := Place(HealthyNodes(before.nodes), if memoryMB == 0 then 512 else memoryMB);
    && app in after.apps && after.apps[app] == id && id in after.rows
    && after.rows[id].app == app && after.rows[id].memoryMB == memoryMB && after.rows[id].node == target
    && after.rows[id].state == (if target.Some? then Starting else Pending)
    && after.rows == before.rows[id := after.rows[id]]
    && after.cmds == (if target.None? then before.cmds
                      else before.cmds[c := Cmd(StartCmd, target.value, id, Queued, 0, 60, after.rows[id].version,
                                                Starting)])
    && after.routes == before.routes && after.lost == before.lost
  }

  lemma InsertCreates(db: Db, app: string, memoryMB: int, id: SandboxId, script: nat -> Choice, k: nat)
    requires (forall j :: !script(j).fails && script(j).cmd !in db.cmds)
    requires app !in db.apps && id !in db.born && id !in db.rows
    ensures Created(db, AfterInsert(db, app, memoryMB, id, script, k), app, memoryMB, id, script(k + 3).cmd)
  {
    var after := AfterInsert(db, app, memoryMB, id, script, k);
    assert after.rows == db.rows[id := after.rows[id]];
  }

  /** When no call fails, creating under such a name inserts the row; the old row is gone and all others are as before.
      */
  lemma CreateSucceeds(db: Db, app: string, memoryMB: int, id: SandboxId, script: nat -> Choice)
    requires CanCreate(db, app) && id !in db.born && id !in db.rows
    requires app in db.apps ==> db.apps[app] in db.rows && db.rows[db.apps[app]].app == app
    requires forall k :: !script(k).fails && script(k).cmd !in db.cmds
    ensures var after := Drive(db, InCreate(CreateLookup(app, memoryMB, id)), script, 0).db;
            if app !in db.apps then Created(db, after, app, memoryMB, id, script(4).cmd)
            else Created(Freed(db, db.apps[app]), after, app, memoryMB, id, script(5).cmd)
  {
    CreateEnds(db, app, memoryMB, id, script, 0);
    if app !in db.apps {
      InsertCreates(db, app, memoryMB, id, script, 1);
    } else {
      InsertCreates(Freed(db, db.apps[app]), app, memoryMB, id, script, 2);
    }
  }

  /** Otherwise nothing changes: the name belongs to a live row, or to a dead one that still has a command. */
  lemma CreateRefused(db: Db, app: string, memoryMB: int, id: SandboxId, script: nat -> Choice)
    requires !CanCreate(db, app)
    ensures Drive(db, InCreate(CreateLookup(app, memoryMB, id)), script, 0).db == db
  {
    CreateEnds(db, app, memoryMB, id, script, 0);
  }
}
