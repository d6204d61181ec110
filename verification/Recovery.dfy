/** The restart sequence and one janitor pass in which nothing fails, as the loops of the
    code over the table and the data directory.  `RestartPath` shows that they are a path of
    the step model. */
module Recovery {
  import opened Rows
  import opened World
  import Actions
  import Protocol
  import opened Invariant
  import opened Safety

  // ---------- what a crash can leave ----------

  /** Every row has its own directory, which is there unless the row is marked; a directory
      with the ID of a row is the row's. */
  predicate Recoverable(rows: Table, disk: Disk) {
    && (forall id | id in rows ::
          rows[id].dir.id == id && rows[id].expiresAt >= 0 && (rows[id].deletedAt.None? ==> rows[id].dir in disk))
    && (forall p | p in disk && p.id in rows :: rows[p.id].dir == p)
  }

  lemma IsRecoverable(w: World)
    requires Inv(w)
    ensures Recoverable(w.rows, w.disk)
  {
    hide LeakInv, WorkDiskInv, ConversionInv, LeaseInv, ReaderInv, MarkerInv, DeleterInv, AwaitConversionInv,
      AwaitLeaseInv, PendingInv, StrandInv, CreatorInv, WorkerInv, BacklogInv, QueueInv, TimerInv, RetryInv, ForgetInv;
  }

  /** At every moment of every run, so also after a crash at that moment. */
  lemma AlwaysRecoverable(ws: seq<World>, ss: seq<Protocol.Step>, i: nat)
    requires IsRun(ws, ss) && i < |ws|
    ensures Recoverable(ws[i].rows, ws[i].disk)
  {
    hide Inv, Recoverable;
    RunKeepsInv(ws, ss, i);
    IsRecoverable(ws[i]);
  }

  // ---------- what is wanted ----------

  function VisibleRows(rows: Table, now: int): Table {
    map id | id in rows && Visible(rows[id], now) :: rows[id]
  }

  function CollectedDirs(rows: Table, now: int): set<Path> {
    set id | id in rows && Collectable(rows[id], now) :: rows[id].dir
  }

  function Kept(disk: Disk, dirs: set<Path>): Disk {
    map p | p in disk && p in dirs :: disk[p]
  }

  // ---------- the code ----------

  class Service {
    var rows: Table
    var disk: Disk

    constructor (rows: Table, disk: Disk)
      ensures this.rows == rows && this.disk == disk
    {
      this.rows, this.disk := rows, disk;
    }

    /** ReconcileStorage: tenant by tenant, directory by directory. */
    method ReconcileStorage()
      modifies this`disk
      ensures disk == Kept(old(disk), SourceDirs(rows))
    {
      var referenced: set<Path>, ids := {}, rows.Keys;
      while ids != {}
        invariant ids <= rows.Keys
        invariant forall p :: p in referenced <==> exists id :: id in rows && id !in ids && rows[id].dir == p
        decreases ids
      {
        var id :| id in ids;
        referenced := referenced + {rows[id].dir};
        ids := ids - {id};
      }
      assert referenced == SourceDirs(rows);
      ghost var before := disk;
      var tenants := set p | p in disk :: p.tenant;
      while tenants != {}
        invariant disk.Keys <= before.Keys && forall p | p in disk :: disk[p] == before[p]
        invariant forall p | p in before :: p !in disk ==> p !in referenced
        invariant forall p | p in disk :: p.tenant in tenants || p in referenced
        decreases tenants
      {
        var tenant :| tenant in tenants;
        RemoveOrphans(referenced, tenant);
        tenants := tenants - {tenant};
      }
    }

    /** The inner loop of ReconcileStorage. */
    method RemoveOrphans(referenced: set<Path>, tenant: string)
      modifies this`disk
      ensures disk.Keys <= old(disk).Keys && forall p | p in disk :: disk[p] == old(disk)[p]
      ensures forall p | p in old(disk) :: p in disk <==> p.tenant != tenant || p in referenced
    {
      ghost var before := disk;
      var entries := set p | p in disk && p.tenant == tenant;
      while entries != {}
        invariant forall p | p in entries :: p in before && p.tenant == tenant
        invariant disk.Keys <= before.Keys && forall p | p in disk :: disk[p] == before[p]
        invariant forall p | p in before :: p in disk <==> p.tenant != tenant || p in entries || p in referenced
        decreases entries
      {
        var entry :| entry in entries;
        if entry !in referenced {
          disk := Actions.RemoveAll(disk, entry, None);
        }
        entries := entries - {entry};
      }
    }

    /** deleteExpired; nobody reads or converts. */
    method DeleteExpired(now: int)
      requires Recoverable(rows, disk)
      modifies this
      ensures rows == VisibleRows(old(rows), now)
      ensures disk.Keys == old(disk).Keys - CollectedDirs(old(rows), now)
      ensures forall p | p in disk :: disk[p] == old(disk)[p]
    {
      ghost var table, dirs := rows, disk;
      var expired := ExpiredIds(rows, now);
      ghost var all := expired;
      var records := map id | id in expired :: rows[id];
      while expired != {}
        invariant expired <= all && rows.Keys == table.Keys - (all - expired)
        invariant forall id | id in rows :: rows[id] == table[id]
        invariant disk.Keys <= dirs.Keys && forall p | p in disk :: disk[p] == dirs[p]
        invariant forall p | p in dirs :: p in disk <==> !(p.id in all - expired && table[p.id].dir == p)
        decreases expired
      {
        var id :| id in expired;
        DeleteRecord(id, records[id], now);
        expired := expired - {id};
      }
      forall id | id in table ensures id in all <==> !Visible(table[id], now) {}
    }

    /** The body of the loop of deleteExpired. */
    method DeleteRecord(id: FileId, record: Row, now: int)
      requires id in rows && rows[id] == record
      modifies this
      ensures rows == old(rows) - {id} && disk == old(disk) - {record.dir}
    {
      if record.deletedAt.None? {
        rows := MarkDeleted(rows, id, record.tenant, now);
      }
      disk := Actions.RemoveAll(disk, record.dir, None);
      rows := Remove(rows, id, record.tenant);
    }

    /** The start of the process up to the end of the first janitor pass.  The directories
        are then exactly those of the rows, the rows exactly the visible ones, and nothing
        else of what is kept has changed. */
    method Restart(consolidate: bool, now: int)
      requires Recoverable(rows, disk)
      modifies this
      ensures rows == VisibleRows(if consolidate then ConsolidateTenants(old(rows)) else old(rows), now)
      ensures disk.Keys == SourceDirs(rows)
      ensures forall id | id in rows :: rows[id].dir in old(disk) && disk[rows[id].dir] == old(disk)[rows[id].dir]
    {
      if consolidate {
        rows := ConsolidateTenants(rows);
      }
      ghost var table, dirs := rows, disk;
      ReconcileStorage();
      assert Recoverable(rows, disk);
      DeleteExpired(now);
      VisibleRemain(table, dirs, now, rows, disk);
    }
  }

  lemma VisibleRemain(table: Table, dirs: Disk, now: int, rows: Table, disk: Disk)
    requires Recoverable(table, dirs)
    requires rows == VisibleRows(table, now)
    requires disk.Keys == Kept(dirs, SourceDirs(table)).Keys - CollectedDirs(table, now)
    ensures disk.Keys == SourceDirs(rows)
    ensures forall id | id in rows :: rows[id].dir in dirs
  {
    forall p ensures p in disk <==> p in SourceDirs(rows) {
      if p in disk {
        assert p in SourceDirs(table);
        assert table[p.id].dir == p && p.id in rows;
      }
      if p in SourceDirs(rows) {
        assert rows[p.id].dir == p && p in dirs;
        assert p in SourceDirs(table);
      }
    }
  }
}
