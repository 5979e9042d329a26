/** The database session: the rows it currently sees (committed plus pending writes) and the
    last committed snapshot, so that `commit` and `rollback` are explicit steps. */
module Database {
  import opened Models

  class Store {
    var users: seq<User>
    var profiles: seq<Profile>
    var tasks: seq<Task>
    /** The state as of the last successful commit. */
    var committed: Tables

    function Current(): Tables
      reads this
    {
      Tables(users, profiles, tasks)
    }

    /** Rows stay in primary-key order, and what was committed meets every constraint. */
    ghost predicate Valid()
      reads this
    {
      RowOrder(Current()) && Constraints(committed)
    }

    /** No uncommitted writes: the state every request starts and ends in. */
    predicate Settled()
      reads this
    {
      Current() == committed
    }

    constructor (initial: Tables)
      requires Constraints(initial)
      ensures Valid() && Settled() && Current() == initial
    {
      users, profiles, tasks := initial.users, initial.profiles, initial.tasks;
      committed := initial;
    }

    /** `db.session.commit()`: flushes the pending rows; a UNIQUE violation makes it fail and
        leaves the transaction to be rolled back. */
    method Commit() returns (ok: bool)
      requires Valid()
      modifies this`committed
      ensures Valid()
      ensures ok == UniqueKeys(Current())
      ensures committed == if ok then Current() else old(committed)
    {
      ok := UniqueKeys(Current());
      if ok {
        committed := Current();
      }
    }

    /** `db.session.rollback()`: discards every uncommitted write. */
    method Rollback()
      requires Valid()
      modifies this
      ensures Valid() && Settled()
      ensures Current() == old(committed) && committed == old(committed)
    {
      users, profiles, tasks := committed.users, committed.profiles, committed.tasks;
    }

    /** Deleting a user in one transaction, with the cascade to its profile and tasks made
        explicit; an unknown id changes nothing. */
    method DeleteUser(id: nat) returns (found: bool)
      requires Valid() && Settled()
      modifies this
      ensures Valid() && Settled()
      ensures found == HasUser(old(users), id)
      ensures Current() == if found then CascadeDelete(old(Current()), id) else old(Current())
    {
      found := exists i :: 0 <= i < |users| && users[i].id == id;
      if found {
        var next := CascadeDelete(Current(), id);
        CascadeDeletePreserves(Current(), id);
        users, profiles, tasks := next.users, next.profiles, next.tasks;
        var ok := Commit();
      }
    }
  }
}
