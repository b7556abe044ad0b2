/** The ORM session every service works on: rows changed in place, made durable by commit, undone by rollback. */
module Store {
  import opened Entities

  class AsyncSession {
    var pools: map<Id, Pool>
    var desktops: map<Id, Desktop>
    var sessions: map<Id, Session>
    var entitlements: set<Entitlement>
    var nextId: Id
    var committed: Db

    constructor (db: Db)
      ensures State() == committed == db
    {
      pools, desktops, sessions, entitlements := db.pools, db.desktops, db.sessions, db.entitlements;
      nextId, committed := db.nextId, db;
    }

    /** The rows as this session sees them. */
    function State(): Db
      reads this
    {
      Db(pools, desktops, sessions, entitlements, nextId)
    }

    /** No change is pending: what every call finds, and what it must leave. */
    predicate Clean()
      reads this
    {
      committed == State()
    }

    method Commit()
      modifies this`committed
      ensures Clean()
    {
      committed := Db(pools, desktops, sessions, entitlements, nextId);
    }

    method Rollback()
      modifies this
      ensures Clean() && State() == old(committed)
    {
      pools, desktops, sessions := committed.pools, committed.desktops, committed.sessions;
      entitlements, nextId := committed.entitlements, committed.nextId;
    }

    /** While this call waits, others commit: `later` is what the tables hold then. */
    method Wait(later: Db)
      requires Clean()
      modifies this
      ensures Clean() && State() == later
    {
      pools, desktops, sessions := later.pools, later.desktops, later.sessions;
      entitlements, nextId, committed := later.entitlements, later.nextId, later;
    }

    /** The UPDATE of a row object: the columns set to a new value, on the row as it is; it fails when there is none. */
    method FlushDesktop(d: Id, read: Desktop, row: Desktop) returns (found: bool)
      modifies this`desktops
      ensures found <==> d in desktops
      ensures State() == Late(old(State()), d, read, row)
    {
      if d !in desktops {
        return false;
      }
      desktops := desktops[d := Merged(desktops[d], read, row)];
      return true;
    }

    method FlushPoolStatus(p: Id, status: PoolStatus) returns (found: bool)
      modifies this`pools
      ensures found <==> p in pools
      ensures State() == MovePool(old(State()), p, status)
    {
      if p !in pools {
        return false;
      }
      pools := pools[p := pools[p].(status := status)];
      return true;
    }

    /** The INSERT of a pool row fails when its name is taken. */
    method AddPool(pool: Pool) returns (added: bool)
      modifies this`pools, this`nextId
      ensures added <==> !exists p | p in old(pools) :: old(pools)[p].name == pool.name
      ensures pools == if added then old(pools)[old(nextId) := pool] else old(pools)
      ensures nextId == old(nextId) + if added then 1 else 0
    {
      if exists p | p in pools :: pools[p].name == pool.name {
        return false;
      }
      pools, nextId := pools[nextId := pool], nextId + 1;
      return true;
    }

    method AddDesktop(row: Desktop) returns (d: Id)
      modifies this`desktops, this`nextId
      ensures d == old(nextId) && nextId == d + 1 && desktops == old(desktops)[d := row]
    {
      d := nextId;
      desktops, nextId := desktops[d := row], nextId + 1;
    }

    method AddSession(row: Session) returns (s: Id)
      modifies this`sessions, this`nextId
      ensures s == old(nextId) && nextId == s + 1 && sessions == old(sessions)[s := row]
    {
      s := nextId;
      sessions, nextId := sessions[s := row], nextId + 1;
    }

    /** Deletes a desktop row; its sessions stay, without a desktop. */
    method DeleteDesktop(d: Id)
      modifies this`desktops, this`sessions
      ensures desktops == old(desktops) - {d}
      ensures sessions == map s | s in old(sessions) ::
                if old(sessions)[s].desktop == Some(d) then old(sessions)[s].(desktop := None) else old(sessions)[s]
    {
      desktops := desktops - {d};
      sessions := map s | s in sessions ::
        if sessions[s].desktop == Some(d) then sessions[s].(desktop := None) else sessions[s];
    }
  }
}
