/** The three mapped tables (User, Profile, Task), what the database enforces on them,
    and the delete cascade declared on User's relationships. */
module Models {
  import opened Wrappers
  import opened DateTimes
  import opened Seqs

  /** Column defaults and declared column widths. */
  const DEFAULT_PRIORITY: string := "Medium"
  const USERNAME_WIDTH: nat := 64
  const EMAIL_WIDTH: nat := 120
  const PASSWORD_HASH_WIDTH: nat := 128
  const FULL_NAME_WIDTH: nat := 100
  const TITLE_WIDTH: nat := 140
  const PRIORITY_WIDTH: nat := 20

  /** A `user` row.  `created_at` is never NULL: the ORM leaves a None value out of the
      INSERT, so the `utcnow` default fills it. */
  datatype User = User(id: nat, username: string, email: string, passwordHash: Option<string>, createdAt: DateTime)

  /** A `profile` row; `user_id` is a nullable, unique, unenforced foreign key. */
  datatype Profile = Profile(id: nat, fullName: Option<string>, bio: Option<string>, userId: Option<int>)

  /** A `task` row; `title`, `priority` and `user_id` are NOT NULL, `completed` defaults to False. */
  datatype Task = Task(
    id: nat, title: string, description: Option<string>, priority: string,
    dueDate: Option<DateTime>, completed: bool, createdAt: DateTime, userId: int)

  /** The whole database, each table in row (primary-key) order. */
  datatype Tables = Tables(users: seq<User>, profiles: seq<Profile>, tasks: seq<Task>)

  const Empty: Tables := Tables([], [], [])

  function UserKey(u: User): int { u.id }
  function ProfileKey(p: Profile): int { p.id }
  function TaskKey(t: Task): int { t.id }

  /** Rows are kept in increasing primary-key order, so primary keys are unique. */
  predicate RowOrder(t: Tables)
  {
    Increasing(t.users, UserKey) && Increasing(t.profiles, ProfileKey) && Increasing(t.tasks, TaskKey)
  }

  /** `username` and `email` are UNIQUE. */
  predicate UniqueUsers(us: seq<User>)
  {
    forall i, j :: 0 <= i < j < |us| ==> us[i].username != us[j].username && us[i].email != us[j].email
  }

  /** `profile.user_id` is UNIQUE (several NULLs are allowed): a user has at most one profile. */
  predicate UniqueProfileOwners(ps: seq<Profile>)
  {
    forall i, j :: 0 <= i < j < |ps| && ps[i].userId.Some? ==> ps[i].userId != ps[j].userId
  }

  /** The UNIQUE constraints the database checks when pending rows are flushed. */
  predicate UniqueKeys(t: Tables)
  {
    UniqueUsers(t.users) && UniqueProfileOwners(t.profiles)
  }

  /** Everything the database guarantees about committed data.  Foreign keys and string
      widths are not part of it: SQLite enforces neither by default. */
  predicate Constraints(t: Tables)
  {
    RowOrder(t) && UniqueKeys(t)
  }

  /** The rowid SQLite gives the next inserted row: one more than the largest in the table. */
  function NextId<T>(rows: seq<T>, key: T -> int): (n: nat)
    requires forall r :: r in rows ==> key(r) >= 0
    ensures Increasing(rows, key) ==> forall i :: 0 <= i < |rows| ==> key(rows[i]) < n
    ensures rows == [] ==> n == 1
  {
    if rows == [] then 1 else key(rows[|rows| - 1]) + 1
  }

  predicate HasUser(us: seq<User>, id: int)
  {
    exists i :: 0 <= i < |us| && us[i].id == id
  }

  /** Every task and every owned profile points at an existing user. */
  predicate ReferencesIntact(t: Tables)
  {
    && (forall k :: 0 <= k < |t.tasks| ==> HasUser(t.users, t.tasks[k].userId))
    && (forall k :: 0 <= k < |t.profiles| && t.profiles[k].userId.Some? ==> HasUser(t.users, t.profiles[k].userId.value))
  }

  /** The declared `String(n)` widths, which the forms check but SQLite does not. */
  predicate TaskWithinWidths(t: Task)
  {
    |t.title| <= TITLE_WIDTH && |t.priority| <= PRIORITY_WIDTH
  }

  predicate UserWithinWidths(u: User)
  {
    |u.username| <= USERNAME_WIDTH && |u.email| <= EMAIL_WIDTH
    && (u.passwordHash.Some? ==> |u.passwordHash.value| <= PASSWORD_HASH_WIDTH)
  }

  predicate ProfileWithinWidths(p: Profile)
  {
    p.fullName.Some? ==> |p.fullName.value| <= FULL_NAME_WIDTH
  }

  // ---------------------------------------------------------------- cascade delete

  function NotUser(id: nat): User -> bool { (u: User) => u.id != id }
  function NotProfileOf(id: nat): Profile -> bool { (p: Profile) => p.userId != Some(id) }
  function NotTaskOf(id: nat): Task -> bool { (k: Task) => k.userId != id }

  /** Deleting user `id` with `cascade='all, delete-orphan'` on `profile` and `tasks`:
      the user row, the profile pointing at it and the tasks pointing at it go. */
  function CascadeDelete(t: Tables, id: nat): Tables
  {
    Tables(Filter(t.users, NotUser(id)), Filter(t.profiles, NotProfileOf(id)), Filter(t.tasks, NotTaskOf(id)))
  }

  /** The cascade removes exactly the user's rows and keeps every other row, in order. */
  lemma CascadeDeleteRemovesExactly(t: Tables, id: nat)
    ensures forall u :: u in CascadeDelete(t, id).users <==> u in t.users && u.id != id
    ensures forall p :: p in CascadeDelete(t, id).profiles <==> p in t.profiles && p.userId != Some(id)
    ensures forall k :: k in CascadeDelete(t, id).tasks <==> k in t.tasks && k.userId != id
    ensures !HasUser(CascadeDelete(t, id).users, id)
  {
  }

  /** The cascade keeps the database's guarantees and leaves no task or profile dangling
      that was not dangling before. */
  lemma CascadeDeletePreserves(t: Tables, id: nat)
    requires Constraints(t)
    ensures Constraints(CascadeDelete(t, id))
    ensures ReferencesIntact(t) ==> ReferencesIntact(CascadeDelete(t, id))
  {
    var r := CascadeDelete(t, id);
    FilterIncreasing(t.users, NotUser(id), UserKey);
    FilterIncreasing(t.profiles, NotProfileOf(id), ProfileKey);
    FilterIncreasing(t.tasks, NotTaskOf(id), TaskKey);
    SubsequenceUnique(t, id);
    if ReferencesIntact(t) {
      forall k | 0 <= k < |r.tasks| ensures HasUser(r.users, r.tasks[k].userId) {
        var task := r.tasks[k];
        assert task in t.tasks;
        var j :| 0 <= j < |t.tasks| && t.tasks[j] == task;
        var i :| 0 <= i < |t.users| && t.users[i].id == task.userId;
        assert t.users[i] in r.users;
      }
      forall k | 0 <= k < |r.profiles| && r.profiles[k].userId.Some?
        ensures HasUser(r.users, r.profiles[k].userId.value)
      {
        var p := r.profiles[k];
        assert p in t.profiles;
        var j :| 0 <= j < |t.profiles| && t.profiles[j] == p;
        var i :| 0 <= i < |t.users| && t.users[i].id == p.userId.value;
        assert t.users[i] in r.users;
      }
    }
  }

  lemma SubsequenceUnique(t: Tables, id: nat)
    requires Constraints(t)
    ensures UniqueKeys(CascadeDelete(t, id))
  {
    FilterUniqueUsers(t.users, NotUser(id));
    FilterUniqueProfiles(t.profiles, NotProfileOf(id));
  }

  lemma {:induction false} FilterUniqueUsers(us: seq<User>, keep: User -> bool)
    requires UniqueUsers(us)
    ensures UniqueUsers(Filter(us, keep))
  {
    if us != [] {
      FilterUniqueUsers(us[1..], keep);
      var rest := Filter(us[1..], keep);
      forall v | v in rest ensures v.username != us[0].username && v.email != us[0].email {
        var k :| 0 <= k < |us[1..]| && us[1..][k] == v;
        assert us[k + 1] == v;
      }
    }
  }

  lemma {:induction false} FilterUniqueProfiles(ps: seq<Profile>, keep: Profile -> bool)
    requires UniqueProfileOwners(ps)
    ensures UniqueProfileOwners(Filter(ps, keep))
  {
    if ps != [] {
      FilterUniqueProfiles(ps[1..], keep);
      var rest := Filter(ps[1..], keep);
      forall v | v in rest && ps[0].userId.Some? ensures v.userId != ps[0].userId {
        var k :| 0 <= k < |ps[1..]| && ps[1..][k] == v;
        assert ps[k + 1] == v;
      }
    }
  }
}
