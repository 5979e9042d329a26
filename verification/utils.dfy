/** Maintenance operations on the whole database: the JSON backup, the restore that erases and
    rebuilds the three tables with two intermediate commits, and the seeding of a sample user. */
module Utils {
  import opened Wrappers
  import opened Json
  import opened DateTimes
  import opened Seqs
  import opened Models
  import opened Columns
  import opened Forms
  import opened Database

  // ================================================================ backup

  /** A user as the backup writes it; the id is not written. */
  function UserJson(u: User): Json
  {
    JObj([("username", JStr(u.username)), ("email", JStr(u.email)),
          ("password_hash", OptionalString(u.passwordHash)), ("created_at", JStr(IsoFormat(u.createdAt)))])
  }

  /** A profile as the backup writes it, with its raw `user_id`; the id is not written. */
  function ProfileJson(p: Profile): Json
  {
    JObj([("full_name", OptionalString(p.fullName)), ("bio", OptionalString(p.bio)), ("user_id", OptionalInt(p.userId))])
  }

  /** A task as the backup writes it, with its raw `user_id`; the id is not written. */
  function TaskBackupJson(t: Task): Json
  {
    JObj([("title", JStr(t.title)), ("description", OptionalString(t.description)),
          ("priority", JStr(t.priority)), ("due_date", OptionalIso(t.dueDate)),
          ("completed", JBool(t.completed)), ("created_at", JStr(IsoFormat(t.createdAt))),
          ("user_id", JNum(t.userId))])
  }

  /** `backup_database_to_json`: every row of every table, in row order. */
  function Backup(t: Tables): Json
  {
    JObj([("users", JArr(MapSeq(t.users, UserJson))),
          ("profiles", JArr(MapSeq(t.profiles, ProfileJson))),
          ("tasks", JArr(MapSeq(t.tasks, TaskBackupJson)))])
  }

  /** The backup holds one record per row of each table, the k-th record being the k-th row's. */
  lemma BackupHoldsEveryRow(t: Tables)
    ensures Lookup(Backup(t).fields, "users") == Some(JArr(MapSeq(t.users, UserJson)))
    ensures Lookup(Backup(t).fields, "profiles") == Some(JArr(MapSeq(t.profiles, ProfileJson)))
    ensures Lookup(Backup(t).fields, "tasks") == Some(JArr(MapSeq(t.tasks, TaskBackupJson)))
    ensures |MapSeq(t.users, UserJson)| == |t.users| && |MapSeq(t.profiles, ProfileJson)| == |t.profiles|
    ensures |MapSeq(t.tasks, TaskBackupJson)| == |t.tasks|
    ensures forall k :: 0 <= k < |t.tasks| ==> MapSeq(t.tasks, TaskBackupJson)[k] == TaskBackupJson(t.tasks[k])
  {
    var fs := Backup(t).fields;
    LookupAt(fs, "users", 0);
    LookupAt(fs, "profiles", 1);
    LookupAt(fs, "tasks", 2);
    forall k | 0 <= k < |t.tasks| ensures MapSeq(t.tasks, TaskBackupJson)[k] == TaskBackupJson(t.tasks[k]) {
      MapSeqAt(t.tasks, TaskBackupJson, k);
    }
  }

  /** A task without a due date is backed up with a null `due_date`, one with a due date with
      its ISO text. */
  lemma BackupDueDate(t: Task)
    ensures Lookup(TaskBackupJson(t).fields, "due_date") == if t.dueDate.None? then Some(JNull) else Some(JStr(IsoFormat(t.dueDate.value)))
  {
    var fs := TaskBackupJson(t).fields;
    LookupAt(fs, "due_date", 3);
  }

  // ================================================================ restore: one row

  /** `data[key]` on a dict: a missing key raises KeyError. */
  function Required(fs: seq<(string, Json)>, key: string): (r: Result<Json>)
    ensures r.Ok? <==> Lookup(fs, key).Some?
    ensures r.Ok? ==> Lookup(fs, key) == Some(r.value)
  {
    match Lookup(fs, key)
    case Some(v) => Ok(v)
    case None => Err
  }

  /** The `created_at` a restored row gets: the parsed text, or `now` from the column default. */
  function CreatedAt(d: Option<DateTime>, now: DateTime): DateTime
  {
    match d
    case Some(t) => t
    case None => now
  }

  /** A user built from one element of `users`: `username`, `email` and `password_hash` are
      required keys, `created_at` is optional. */
  function RestoreUser(j: Json, id: nat, now: DateTime): (r: Result<User>)
    ensures r.Ok? ==> r.value.id == id
  {
    match j
    case JObj(fs) =>
      var username := Required(fs, "username");
      var email := Required(fs, "email");
      var hash := Required(fs, "password_hash");
      if username.Err? || email.Err? || hash.Err? then Err
      else
        var u := RequiredString(username.value);
        var e := RequiredString(email.value);
        var h := NullableString(hash.value);
        var c := IsoDateTime(Get(fs, "created_at", JNull));
        if u.Ok? && e.Ok? && h.Ok? && c.Ok? then Ok(User(id, u.value, e.value, h.value, CreatedAt(c.value, now)))
        else Err
    case _ => Err
  }

  /** A profile built from one element of `profiles`: all three keys are required. */
  function RestoreProfile(j: Json, id: nat): (r: Result<Profile>)
    ensures r.Ok? ==> r.value.id == id
  {
    match j
    case JObj(fs) =>
      var fullName := Required(fs, "full_name");
      var bio := Required(fs, "bio");
      var owner := Required(fs, "user_id");
      if fullName.Err? || bio.Err? || owner.Err? then Err
      else
        var f := NullableString(fullName.value);
        var b := NullableString(bio.value);
        var o := NullableInt(owner.value);
        if f.Ok? && b.Ok? && o.Ok? then Ok(Profile(id, f.value, b.value, o.value)) else Err
    case _ => Err
  }

  /** A task built from one element of `tasks`: every key but `due_date` and `created_at` is
      required; a null `priority` or `completed` takes the column default; `user_id` is kept as
      written. */
  function RestoreTask(j: Json, id: nat, now: DateTime): (r: Result<Task>)
    ensures r.Ok? ==> r.value.id == id
  {
    match j
    case JObj(fs) =>
      var title := Required(fs, "title");
      var description := Required(fs, "description");
      var priority := Required(fs, "priority");
      var completed := Required(fs, "completed");
      var owner := Required(fs, "user_id");
      if title.Err? || description.Err? || priority.Err? || completed.Err? || owner.Err? then Err
      else
        var t := RequiredString(title.value);
        var d := NullableString(description.value);
        var p := StringWithDefault(priority.value, DEFAULT_PRIORITY);
        var due := IsoDateTime(Get(fs, "due_date", JNull));
        var c := BooleanWithDefault(completed.value, false);
        var created := IsoDateTime(Get(fs, "created_at", JNull));
        var o := RequiredInt(owner.value);
        if t.Ok? && d.Ok? && p.Ok? && due.Ok? && c.Ok? && created.Ok? && o.Ok? then
          Ok(Task(id, t.value, d.value, p.value, due.value, c.value, CreatedAt(created.value, now), o.value))
        else Err
    case _ => Err
  }

  /** A restored user copies `username` and `email` and its `password_hash` (null or text); a
      missing one of those keys, or a `created_at` that is set but not ISO text, fails. */
  lemma RestoreUserMeans(fs: seq<(string, Json)>, id: nat, now: DateTime)
    ensures var r := RestoreUser(JObj(fs), id, now);
      && (r.Ok? ==> Lookup(fs, "username") == Some(JStr(r.value.username)))
      && (r.Ok? ==> Lookup(fs, "email") == Some(JStr(r.value.email)))
      && (r.Ok? ==> Lookup(fs, "password_hash") == Some(OptionalString(r.value.passwordHash)))
      && (r.Ok? && !Truthy(Get(fs, "created_at", JNull)) ==> r.value.createdAt == now)
      && (Lookup(fs, "username").None? || Lookup(fs, "email").None? || Lookup(fs, "password_hash").None? ==> r.Err?)
      && (Truthy(Get(fs, "created_at", JNull)) && !Get(fs, "created_at", JNull).JStr? ==> r.Err?)
  {
  }

  /** A restored task keeps the raw `user_id` it was given, whether or not such a user exists;
      a null `priority` becomes 'Medium' and a null `completed` False; a missing required key
      fails. */
  lemma RestoreTaskMeans(fs: seq<(string, Json)>, id: nat, now: DateTime)
    ensures var r := RestoreTask(JObj(fs), id, now);
      && (r.Ok? ==> Lookup(fs, "user_id") == Some(JNum(r.value.userId)) && FitsInt64(r.value.userId))
      && (Lookup(fs, "user_id").Some? && Lookup(fs, "user_id").value.JNum? && !FitsInt64(Lookup(fs, "user_id").value.n) ==> r.Err?)
      && (r.Ok? ==> Lookup(fs, "title") == Some(JStr(r.value.title)))
      && (r.Ok? && Lookup(fs, "priority") == Some(JNull) ==> r.value.priority == DEFAULT_PRIORITY)
      && (r.Ok? && Lookup(fs, "completed") == Some(JNull) ==> !r.value.completed)
      && (r.Ok? && !Truthy(Get(fs, "due_date", JNull)) ==> r.value.dueDate == None)
      && ((|| Lookup(fs, "title").None? || Lookup(fs, "description").None? || Lookup(fs, "priority").None?
           || Lookup(fs, "completed").None? || Lookup(fs, "user_id").None?) ==> r.Err?)
  {
  }

  function UserBuilder(now: DateTime): (Json, nat) -> Result<User>
  {
    (j: Json, id: nat) => RestoreUser(j, id, now)
  }

  function ProfileBuilder(): (Json, nat) -> Result<Profile>
  {
    (j: Json, id: nat) => RestoreProfile(j, id)
  }

  function TaskBuilder(now: DateTime): (Json, nat) -> Result<Task>
  {
    (j: Json, id: nat) => RestoreTask(j, id, now)
  }

  // ================================================================ restore: the whole

  /** `for x in data.get(key, [])`: what the loop visits, or None when the value cannot be
      iterated (TypeError). */
  function TableItems(fs: seq<(string, Json)>, key: string): Option<seq<Json>>
  {
    Iterate(Get(fs, key, JArr([])))
  }

  /** A missing top-level key restores as an empty table. */
  lemma MissingTableIsEmpty(fs: seq<(string, Json)>, key: string)
    requires forall i :: 0 <= i < |fs| ==> fs[i].0 != key
    ensures TableItems(fs, key) == Some([])
  {
    LookupSpec(fs, key);
  }

  /** The rows a table's array rebuilds into; the erased table numbers them from 1. */
  function RestoredUsers(fs: seq<(string, Json)>, now: DateTime): Result<seq<User>>
  {
    match TableItems(fs, "users")
    case None => Err
    case Some(items) => BuildRows(items, UserBuilder(now), 1)
  }

  function RestoredProfiles(fs: seq<(string, Json)>): Result<seq<Profile>>
  {
    match TableItems(fs, "profiles")
    case None => Err
    case Some(items) => BuildRows(items, ProfileBuilder(), 1)
  }

  function RestoredTasks(fs: seq<(string, Json)>, now: DateTime): Result<seq<Task>>
  {
    match TableItems(fs, "tasks")
    case None => Err
    case Some(items) => BuildRows(items, TaskBuilder(now), 1)
  }

  /** `restore_database_from_json`: whether it reports success, and the committed database it
      leaves.  The erasure is committed first, so any failure leaves at most what a later commit
      wrote: nothing if the users could not be rebuilt and committed, the restored users alone if
      the profiles or tasks then fail. */
  function RestoreOutcome(data: Json, now: DateTime): (bool, Tables)
  {
    if !data.JObj? then (false, Empty)
    else match RestoredUsers(data.fields, now)
      case Err => (false, Empty)
      case Ok(users) =>
        if !UniqueUsers(users) then (false, Empty)
        else
          var usersOnly := Tables(users, [], []);
          match RestoredProfiles(data.fields)
          case Err => (false, usersOnly)
          case Ok(profiles) =>
            match RestoredTasks(data.fields, now)
            case Err => (false, usersOnly)
            case Ok(tasks) =>
              if UniqueProfileOwners(profiles) then (true, Tables(users, profiles, tasks))
              else (false, usersOnly)
  }

  /** Restore never leaves the old data behind: a failure leaves either the empty database or
      the restored users with no profiles and no tasks, the latter exactly when the users were
      rebuilt and committed; a success holds one row per element of each array. */
  lemma RestoreEffect(data: Json, now: DateTime)
    ensures var (ok, after) := RestoreOutcome(data, now);
      && (!ok ==> after.profiles == [] && after.tasks == [])
      && (!ok && after.users != [] ==> data.JObj? && RestoredUsers(data.fields, now) == Ok(after.users))
      && (!ok && data.JObj? && RestoredUsers(data.fields, now).Ok? && UniqueUsers(RestoredUsers(data.fields, now).value) ==>
            after.users == RestoredUsers(data.fields, now).value)
      && (ok ==>
            && data.JObj?
            && TableItems(data.fields, "users").Some? && |after.users| == |TableItems(data.fields, "users").value|
            && TableItems(data.fields, "profiles").Some? && |after.profiles| == |TableItems(data.fields, "profiles").value|
            && TableItems(data.fields, "tasks").Some? && |after.tasks| == |TableItems(data.fields, "tasks").value|)
  {
  }

  /** A table rebuilt from 1 numbers its rows 1, 2, 3, ... in array order. */
  lemma {:induction false} RowsFromOne<T>(items: seq<Json>, build: (Json, nat) -> Result<T>, key: T -> int)
    requires forall j: Json, id: nat :: build(j, id).Ok? ==> key(build(j, id).value) == id
    ensures BuildRows(items, build, 1).Ok? ==>
      forall k :: 0 <= k < |BuildRows(items, build, 1).value| ==> key(BuildRows(items, build, 1).value[k]) == k + 1
  {
    BuildRowsSpec(items, build, 1);
  }

  /** A restore numbers the rows of each table 1, 2, 3, ... in array order. */
  lemma RestoreNumbersRows(data: Json, now: DateTime)
    ensures var (ok, after) := RestoreOutcome(data, now);
      && (forall k :: 0 <= k < |after.users| ==> after.users[k].id == k + 1)
      && (forall k :: 0 <= k < |after.profiles| ==> after.profiles[k].id == k + 1)
      && (forall k :: 0 <= k < |after.tasks| ==> after.tasks[k].id == k + 1)
  {
    if data.JObj? {
      var fs := data.fields;
      if TableItems(fs, "users").Some? {
        RowsFromOne(TableItems(fs, "users").value, UserBuilder(now), UserKey);
      }
      if TableItems(fs, "profiles").Some? {
        RowsFromOne(TableItems(fs, "profiles").value, ProfileBuilder(), ProfileKey);
      }
      if TableItems(fs, "tasks").Some? {
        RowsFromOne(TableItems(fs, "tasks").value, TaskBuilder(now), TaskKey);
      }
    }
  }

  // ---------------------------------------------------------------- the restore procedure

  /** One row order for a table rebuilt from 1: ids 1, 2, 3, ... increase. */
  lemma NumberedIncreasing<T>(rows: seq<T>, key: T -> int)
    requires forall k :: 0 <= k < |rows| ==> key(rows[k]) == k + 1
    ensures Increasing(rows, key)
  {
  }

  /** The users loop: adds one user per element, in order, stopping at the first that fails. */
  method AddUsers(db: Store, items: seq<Json>, now: DateTime) returns (ok: bool)
    requires db.Valid() && db.users == []
    modifies db
    ensures db.Valid()
    ensures db.committed == old(db.committed) && db.profiles == old(db.profiles) && db.tasks == old(db.tasks)
    ensures ok == BuildRows(items, UserBuilder(now), 1).Ok?
    ensures ok ==> db.users == BuildRows(items, UserBuilder(now), 1).value
  {
    var i := 0;
    while i < |items|
      invariant 0 <= i <= |items|
      invariant db.committed == old(db.committed) && db.profiles == old(db.profiles) && db.tasks == old(db.tasks)
      invariant BuildRows(items[..i], UserBuilder(now), 1) == Ok(db.users)
      invariant forall k :: 0 <= k < |db.users| ==> db.users[k].id == k + 1
      invariant db.Valid()
    {
      var user := RestoreUser(items[i], 1 + i, now);
      if user.Err? {
        BuildRowsStops(items, UserBuilder(now), 1, i);
        return false;
      }
      BuildRowsExtend(items, UserBuilder(now), 1, i, db.users, user.value);
      NumberedIncreasing(db.users + [user.value], UserKey);
      db.users := db.users + [user.value];
      i := i + 1;
    }
    assert items[..i] == items;
    return true;
  }

  /** The profiles loop. */
  method AddProfiles(db: Store, items: seq<Json>) returns (ok: bool)
    requires db.Valid() && db.profiles == []
    modifies db
    ensures db.Valid()
    ensures db.committed == old(db.committed) && db.users == old(db.users) && db.tasks == old(db.tasks)
    ensures ok == BuildRows(items, ProfileBuilder(), 1).Ok?
    ensures ok ==> db.profiles == BuildRows(items, ProfileBuilder(), 1).value
  {
    var i := 0;
    while i < |items|
      invariant 0 <= i <= |items|
      invariant db.committed == old(db.committed) && db.users == old(db.users) && db.tasks == old(db.tasks)
      invariant BuildRows(items[..i], ProfileBuilder(), 1) == Ok(db.profiles)
      invariant forall k :: 0 <= k < |db.profiles| ==> db.profiles[k].id == k + 1
      invariant db.Valid()
    {
      var profile := RestoreProfile(items[i], 1 + i);
      if profile.Err? {
        BuildRowsStops(items, ProfileBuilder(), 1, i);
        return false;
      }
      BuildRowsExtend(items, ProfileBuilder(), 1, i, db.profiles, profile.value);
      NumberedIncreasing(db.profiles + [profile.value], ProfileKey);
      db.profiles := db.profiles + [profile.value];
      i := i + 1;
    }
    assert items[..i] == items;
    return true;
  }

  /** The tasks loop. */
  method AddTasks(db: Store, items: seq<Json>, now: DateTime) returns (ok: bool)
    requires db.Valid() && db.tasks == []
    modifies db
    ensures db.Valid()
    ensures db.committed == old(db.committed) && db.users == old(db.users) && db.profiles == old(db.profiles)
    ensures ok == BuildRows(items, TaskBuilder(now), 1).Ok?
    ensures ok ==> db.tasks == BuildRows(items, TaskBuilder(now), 1).value
  {
    var i := 0;
    while i < |items|
      invariant 0 <= i <= |items|
      invariant db.committed == old(db.committed) && db.users == old(db.users) && db.profiles == old(db.profiles)
      invariant BuildRows(items[..i], TaskBuilder(now), 1) == Ok(db.tasks)
      invariant forall k :: 0 <= k < |db.tasks| ==> db.tasks[k].id == k + 1
      invariant db.Valid()
    {
      var task := RestoreTask(items[i], 1 + i, now);
      if task.Err? {
        BuildRowsStops(items, TaskBuilder(now), 1, i);
        return false;
      }
      BuildRowsExtend(items, TaskBuilder(now), 1, i, db.tasks, task.value);
      NumberedIncreasing(db.tasks + [task.value], TaskKey);
      db.tasks := db.tasks + [task.value];
      i := i + 1;
    }
    assert items[..i] == items;
    return true;
  }

  /** `restore_database_from_json`, with its commit after the erasure and after the users. */
  method Restore(db: Store, data: Json, now: DateTime) returns (ok: bool)
    requires db.Valid() && db.Settled()
    modifies db
    ensures db.Valid() && db.Settled()
    ensures (ok, db.Current()) == RestoreOutcome(data, now)
  {
    db.tasks, db.profiles, db.users := [], [], [];
    var erased := db.Commit();
    if !data.JObj? {
      db.Rollback();
      return false;
    }
    var userItems := TableItems(data.fields, "users");
    if userItems.None? {
      db.Rollback();
      return false;
    }
    ok := AddUsers(db, userItems.value, now);
    if ok {
      ok := db.Commit();
    }
    if !ok {
      db.Rollback();
      return false;
    }
    var profileItems := TableItems(data.fields, "profiles");
    if profileItems.None? {
      db.Rollback();
      return false;
    }
    ok := AddProfiles(db, profileItems.value);
    if !ok {
      db.Rollback();
      return false;
    }
    var taskItems := TableItems(data.fields, "tasks");
    if taskItems.None? {
      db.Rollback();
      return false;
    }
    ok := AddTasks(db, taskItems.value, now);
    if ok {
      ok := db.Commit();
    }
    if !ok {
      db.Rollback();
      return false;
    }
  }

  // ================================================================ backup, then restore

  /** What a row looks like after a backup and a restore: renumbered, everything else kept. */
  function Renumbered<T>(rows: seq<T>, withId: (T, nat) -> T): (r: seq<T>)
    ensures |r| == |rows|
  {
    if rows == [] then [] else Renumbered(rows[..|rows| - 1], withId) + [withId(rows[|rows| - 1], |rows|)]
  }

  lemma {:induction false} RenumberedAt<T>(rows: seq<T>, withId: (T, nat) -> T, k: nat)
    requires k < |rows|
    ensures Renumbered(rows, withId)[k] == withId(rows[k], k + 1)
  {
    if k < |rows| - 1 {
      RenumberedAt(rows[..|rows| - 1], withId, k);
    }
  }

  function UserWithId(u: User, id: nat): User { u.(id := id) }
  function ProfileWithId(p: Profile, id: nat): Profile { p.(id := id) }
  function TaskWithId(t: Task, id: nat): Task { t.(id := id) }

  /** The database a backup of `t` restores to. */
  function RestoredFrom(t: Tables): Tables
  {
    Tables(Renumbered(t.users, UserWithId), Renumbered(t.profiles, ProfileWithId), Renumbered(t.tasks, TaskWithId))
  }

  lemma UserRoundTrip(u: User, id: nat, now: DateTime)
    ensures RestoreUser(UserJson(u), id, now) == Ok(u.(id := id))
  {
    var fs := UserJson(u).fields;
    LookupAt(fs, "username", 0);
    LookupAt(fs, "email", 1);
    LookupAt(fs, "password_hash", 2);
    LookupAt(fs, "created_at", 3);
    NullableStringRoundTrip(u.passwordHash);
    IsoDateTimeRoundTrip(Some(u.createdAt));
  }

  lemma ProfileRoundTrip(p: Profile, id: nat)
    requires p.userId.Some? ==> FitsInt64(p.userId.value)
    ensures RestoreProfile(ProfileJson(p), id) == Ok(p.(id := id))
  {
    var fs := ProfileJson(p).fields;
    LookupAt(fs, "full_name", 0);
    LookupAt(fs, "bio", 1);
    LookupAt(fs, "user_id", 2);
    NullableStringRoundTrip(p.fullName);
    NullableStringRoundTrip(p.bio);
    NullableIntRoundTrip(p.userId);
  }

  lemma TaskBackupLookups(t: Task)
    ensures var fs := TaskBackupJson(t).fields;
      && Lookup(fs, "title") == Some(JStr(t.title))
      && Lookup(fs, "description") == Some(OptionalString(t.description))
      && Lookup(fs, "priority") == Some(JStr(t.priority))
      && Lookup(fs, "due_date") == Some(OptionalIso(t.dueDate))
      && Lookup(fs, "completed") == Some(JBool(t.completed))
      && Lookup(fs, "created_at") == Some(JStr(IsoFormat(t.createdAt)))
      && Lookup(fs, "user_id") == Some(JNum(t.userId))
  {
    var fs := TaskBackupJson(t).fields;
    LookupAt(fs, "title", 0);
    LookupAt(fs, "description", 1);
    LookupAt(fs, "priority", 2);
    LookupAt(fs, "due_date", 3);
    LookupAt(fs, "completed", 4);
    LookupAt(fs, "created_at", 5);
    LookupAt(fs, "user_id", 6);
  }

  lemma TaskRoundTrip(t: Task, id: nat, now: DateTime)
    requires FitsInt64(t.userId)
    ensures RestoreTask(TaskBackupJson(t), id, now) == Ok(t.(id := id))
  {
    TaskBackupLookups(t);
    NullableStringRoundTrip(t.description);
    IsoDateTimeRoundTrip(t.dueDate);
    IsoDateTimeRoundTrip(Some(t.createdAt));
  }

  lemma UsersRoundTrip(us: seq<User>, now: DateTime)
    ensures BuildRows(MapSeq(us, UserJson), UserBuilder(now), 1) == Ok(Renumbered(us, UserWithId))
  {
    var items := MapSeq(us, UserJson);
    forall k | 0 <= k < |items| ensures UserBuilder(now)(items[k], 1 + k) == Ok(Renumbered(us, UserWithId)[k]) {
      MapSeqAt(us, UserJson, k);
      RenumberedAt(us, UserWithId, k);
      UserRoundTrip(us[k], 1 + k, now);
    }
    BuildRowsExact(items, UserBuilder(now), 1, Renumbered(us, UserWithId));
  }

  lemma ProfilesRoundTrip(ps: seq<Profile>)
    requires forall p :: p in ps && p.userId.Some? ==> FitsInt64(p.userId.value)
    ensures BuildRows(MapSeq(ps, ProfileJson), ProfileBuilder(), 1) == Ok(Renumbered(ps, ProfileWithId))
  {
    var items := MapSeq(ps, ProfileJson);
    forall k | 0 <= k < |items| ensures ProfileBuilder()(items[k], 1 + k) == Ok(Renumbered(ps, ProfileWithId)[k]) {
      MapSeqAt(ps, ProfileJson, k);
      RenumberedAt(ps, ProfileWithId, k);
      ProfileRoundTrip(ps[k], 1 + k);
    }
    BuildRowsExact(items, ProfileBuilder(), 1, Renumbered(ps, ProfileWithId));
  }

  lemma TasksRoundTrip(ts: seq<Task>, now: DateTime)
    requires forall t :: t in ts ==> FitsInt64(t.userId)
    ensures BuildRows(MapSeq(ts, TaskBackupJson), TaskBuilder(now), 1) == Ok(Renumbered(ts, TaskWithId))
  {
    var items := MapSeq(ts, TaskBackupJson);
    forall k | 0 <= k < |items| ensures TaskBuilder(now)(items[k], 1 + k) == Ok(Renumbered(ts, TaskWithId)[k]) {
      MapSeqAt(ts, TaskBackupJson, k);
      RenumberedAt(ts, TaskWithId, k);
      TaskRoundTrip(ts[k], 1 + k, now);
    }
    BuildRowsExact(items, TaskBuilder(now), 1, Renumbered(ts, TaskWithId));
  }

  /** Renumbering keeps usernames, emails and profile owners, hence their uniqueness. */
  lemma RenumberedKeepsUnique(t: Tables)
    requires UniqueKeys(t)
    ensures UniqueKeys(RestoredFrom(t))
  {
    var r := RestoredFrom(t);
    forall k | 0 <= k < |t.users| ensures r.users[k] == t.users[k].(id := k + 1) {
      RenumberedAt(t.users, UserWithId, k);
    }
    forall k | 0 <= k < |t.profiles| ensures r.profiles[k] == t.profiles[k].(id := k + 1) {
      RenumberedAt(t.profiles, ProfileWithId, k);
    }
  }

  /** The `user_id` columns hold SQLite INTEGERs, so every stored value fits in 64 bits. */
  predicate IntegersFit(t: Tables)
  {
    && (forall p :: p in t.profiles && p.userId.Some? ==> FitsInt64(p.userId.value))
    && (forall k :: k in t.tasks ==> FitsInt64(k.userId))
  }

  /** Restoring a backup succeeds (for a database meeting its constraints) and gives back every
      row, in order, with every backed-up field, each table renumbered from 1. */
  lemma BackupRestoreRoundTrip(t: Tables, now: DateTime)
    requires Constraints(t) && IntegersFit(t)
    ensures RestoreOutcome(Backup(t), now) == (true, RestoredFrom(t))
  {
    BackupHoldsEveryRow(t);
    var fs := Backup(t).fields;
    assert TableItems(fs, "users") == Some(MapSeq(t.users, UserJson));
    assert TableItems(fs, "profiles") == Some(MapSeq(t.profiles, ProfileJson));
    assert TableItems(fs, "tasks") == Some(MapSeq(t.tasks, TaskBackupJson));
    UsersRoundTrip(t.users, now);
    ProfilesRoundTrip(t.profiles);
    TasksRoundTrip(t.tasks, now);
    RenumberedKeepsUnique(t);
    var r := RestoredFrom(t);
    assert RestoredUsers(fs, now) == Ok(r.users);
    assert RestoredProfiles(fs) == Ok(r.profiles);
    assert RestoredTasks(fs, now) == Ok(r.tasks);
  }

  /** A task keeps pointing at its owner through a backup and a restore exactly when the owner
      already had the id its position gives it: the backup drops user ids, the task keeps its
      raw `user_id`. */
  lemma RestoredOwner(t: Tables, k: nat, i: nat)
    requires k < |t.tasks| && i < |t.users| && t.tasks[k].userId == t.users[i].id
    ensures RestoredFrom(t).tasks[k].userId == RestoredFrom(t).users[i].id <==> t.users[i].id == i + 1
  {
    RenumberedAt(t.tasks, TaskWithId, k);
    RenumberedAt(t.users, UserWithId, i);
  }

  /** So references survive when user ids are 1, 2, 3, ... in row order. */
  lemma DenseIdsKeepReferences(t: Tables)
    requires forall i :: 0 <= i < |t.users| ==> t.users[i].id == i + 1
    requires ReferencesIntact(t)
    ensures ReferencesIntact(RestoredFrom(t))
  {
    var r := RestoredFrom(t);
    forall i | 0 <= i < |t.users| ensures r.users[i] == t.users[i] {
      RenumberedAt(t.users, UserWithId, i);
    }
    assert r.users == t.users;
    forall k | 0 <= k < |r.tasks| ensures HasUser(r.users, r.tasks[k].userId) {
      RenumberedAt(t.tasks, TaskWithId, k);
    }
    forall k | 0 <= k < |r.profiles| && r.profiles[k].userId.Some? ensures HasUser(r.users, r.profiles[k].userId.value) {
      RenumberedAt(t.profiles, ProfileWithId, k);
    }
  }

  /** And they break otherwise: after user 1 was deleted, user 2's task comes back owned by
      nobody, because user 2 is restored as user 1. */
  lemma GapInIdsOrphansTasks(now: DateTime)
    ensures var user := User(2, "alice", "alice@example.com", None, now);
      var task := Task(1, "Write report", None, DEFAULT_PRIORITY, None, false, now, 2);
      var t := Tables([user], [], [task]);
      && Constraints(t) && IntegersFit(t) && ReferencesIntact(t)
      && RestoreOutcome(Backup(t), now).0
      && !ReferencesIntact(RestoreOutcome(Backup(t), now).1)
  {
    var user := User(2, "alice", "alice@example.com", None, now);
    var task := Task(1, "Write report", None, DEFAULT_PRIORITY, None, false, now, 2);
    var t := Tables([user], [], [task]);
    assert t.users[0].id == 2;
    BackupRestoreRoundTrip(t, now);
    var r := RestoredFrom(t);
    RenumberedAt(t.users, UserWithId, 0);
    RenumberedAt(t.tasks, TaskWithId, 0);
    assert r.users == [user.(id := 1)];
    assert !HasUser(r.users, r.tasks[0].userId);
  }

  // ================================================================ seeding

  const TEST_USERNAME: string := "testuser"
  const TEST_EMAIL: string := "test@example.com"

  /** One of the sample tasks the seeding loop adds. */
  datatype SampleTask = SampleTask(title: string, description: string, priority: string,
                                   dueDate: Option<DateTime>, completed: bool)

  const SAMPLE_TASKS: seq<SampleTask> := [
    SampleTask("Complete project", "Finish the task management application", "High",
               Some(DateTimeFields(2023, 12, 31, 0, 0, 0)), false),
    SampleTask("Buy groceries", "Milk, eggs, bread, fruits", "Medium",
               Some(DateTimeFields(2023, 11, 15, 0, 0, 0)), true),
    SampleTask("Exercise", "30 minutes of cardio", "Low", None, false)
  ]

  function SampleRow(s: SampleTask, id: nat, owner: nat, now: DateTime): Task
  {
    Task(id, s.title, Some(s.description), s.priority, s.dueDate, s.completed, now, owner)
  }

  /** The sample tasks as rows with consecutive ids from `base`, all owned by `owner`. */
  function SampleRows(samples: seq<SampleTask>, owner: nat, base: nat, now: DateTime): (r: seq<Task>)
    ensures |r| == |samples|
    ensures forall k :: 0 <= k < |r| ==> r[k] == SampleRow(samples[k], base + k, owner, now)
  {
    if samples == [] then []
    else SampleRows(samples[..|samples| - 1], owner, base, now) + [SampleRow(samples[|samples| - 1], base + |samples| - 1, owner, now)]
  }

  function TestUser(id: nat, passwordHash: string, now: DateTime): User
  {
    User(id, TEST_USERNAME, TEST_EMAIL, Some(passwordHash), now)
  }

  function TestProfile(id: nat, owner: nat): Profile
  {
    Profile(id, Some("Test User"), Some("This is a test user profile"), Some(owner))
  }

  /** The tables after the second commit of seeding: the test profile and the sample tasks
      added for user `uid`. */
  function WithSamples(t: Tables, uid: nat, now: DateTime): Tables
  {
    t.(profiles := t.profiles + [TestProfile(NextId(t.profiles, ProfileKey), uid)],
       tasks := t.tasks + SampleRows(SAMPLE_TASKS, uid, NextId(t.tasks, TaskKey), now))
  }

  /** `seed_database`: nothing when `testuser` exists; otherwise the user is committed first
      (which fails, changing nothing, if another user has its email), then its profile and the
      three sample tasks are committed together (which fails, keeping only the user, if some
      profile already claims the new user's id). */
  function SeedOutcome(t: Tables, now: DateTime, passwordHash: string): Tables
  {
    if UsernameTaken(t.users, TEST_USERNAME) then t
    else
      var withUser := t.(users := t.users + [TestUser(NextId(t.users, UserKey), passwordHash, now)]);
      if !UniqueUsers(withUser.users) then t
      else
        var full := WithSamples(withUser, NextId(t.users, UserKey), now);
        if UniqueProfileOwners(full.profiles) then full else withUser
  }

  /** Rows whose keys continue past every key of a key-increasing table keep it increasing. */
  lemma AppendRowsIncreasing<T>(s: seq<T>, rows: seq<T>, key: T -> int, base: int)
    requires Increasing(s, key) && forall i :: 0 <= i < |s| ==> key(s[i]) < base
    requires forall k :: 0 <= k < |rows| ==> key(rows[k]) == base + k
    ensures Increasing(s + rows, key)
  {
  }

  /** The second commit keeps row order and adds one profile and three tasks, all the user's. */
  lemma WithSamplesEffect(t: Tables, uid: nat, now: DateTime)
    requires RowOrder(t)
    ensures var s := WithSamples(t, uid, now);
      && s.users == t.users
      && s.profiles == t.profiles + [TestProfile(NextId(t.profiles, ProfileKey), uid)]
      && |s.tasks| == |t.tasks| + 3 && s.tasks[..|t.tasks|] == t.tasks
      && (forall k :: |t.tasks| <= k < |s.tasks| ==> s.tasks[k].userId == uid)
      && RowOrder(s)
  {
    var rows := SampleRows(SAMPLE_TASKS, uid, NextId(t.tasks, TaskKey), now);
    AppendRowsIncreasing(t.tasks, rows, TaskKey, NextId(t.tasks, TaskKey));
    AppendIncreasing(t.profiles, TestProfile(NextId(t.profiles, ProfileKey), uid), ProfileKey);
    var s := WithSamples(t, uid, now);
    assert s.tasks[..|t.tasks|] == t.tasks;
    assert forall k :: |t.tasks| <= k < |s.tasks| ==> s.tasks[k] == rows[k - |t.tasks|];
  }

  /** Seeding changes nothing when `testuser` exists.  Otherwise, unless it changes nothing, it
      adds exactly one user, named `testuser`, with an id no user had, and then either nothing
      else or the tables `WithSamples` describes, in row order.  On a database meeting its
      UNIQUE constraints it changes nothing only when the username or the email is taken, and
      it adds the profile and the sample tasks exactly when no profile already claims the new
      user's id. */
  lemma SeedEffect(t: Tables, now: DateTime, passwordHash: string)
    requires RowOrder(t)
    ensures var s := SeedOutcome(t, now, passwordHash);
      && (UsernameTaken(t.users, TEST_USERNAME) ==> s == t)
      && (s != t ==>
            && !UsernameTaken(t.users, TEST_USERNAME)
            && |s.users| == |t.users| + 1 && s.users[..|t.users|] == t.users
            && s.users[|t.users|].username == TEST_USERNAME && s.users[|t.users|].email == TEST_EMAIL
            && !HasUser(t.users, s.users[|t.users|].id)
            && (s == t.(users := s.users) || s == WithSamples(t.(users := s.users), s.users[|t.users|].id, now)))
    ensures var s := SeedOutcome(t, now, passwordHash);
      var uid := NextId(t.users, UserKey);
      UniqueKeys(t) && !UsernameTaken(t.users, TEST_USERNAME) && !EmailTaken(t.users, TEST_EMAIL) ==>
        && s != t
        && (s == WithSamples(t.(users := t.users + [TestUser(uid, passwordHash, now)]), uid, now) <==>
              forall k :: 0 <= k < |t.profiles| ==> t.profiles[k].userId != Some(uid))
  {
    var s := SeedOutcome(t, now, passwordHash);
    if !UsernameTaken(t.users, TEST_USERNAME) {
      assert s.users[..|t.users|] == t.users;
      if UniqueKeys(t) && !EmailTaken(t.users, TEST_EMAIL) {
        var uid := NextId(t.users, UserKey);
        var withUser := t.(users := t.users + [TestUser(uid, passwordHash, now)]);
        var all := withUser.users;
        forall i, j | 0 <= i < j < |all| ensures all[i].username != all[j].username && all[i].email != all[j].email {
          assert all[i] == t.users[i];
          if j < |t.users| {
            assert all[j] == t.users[j];
          }
        }
        assert |s.users| == |t.users| + 1;
        var full := WithSamples(withUser, uid, now);
        var ps := full.profiles;
        assert ps == t.profiles + [TestProfile(NextId(t.profiles, ProfileKey), uid)];
        if forall k :: 0 <= k < |t.profiles| ==> t.profiles[k].userId != Some(uid) {
          forall i, j | 0 <= i < j < |ps| && ps[i].userId.Some? ensures ps[i].userId != ps[j].userId {
            assert ps[i] == t.profiles[i];
            if j < |t.profiles| {
              assert ps[j] == t.profiles[j];
            }
          }
        } else {
          var k :| 0 <= k < |t.profiles| && t.profiles[k].userId == Some(uid);
          assert ps[k] == t.profiles[k] && ps[|t.profiles|].userId == Some(uid);
          assert s == withUser;
          assert |s.profiles| != |full.profiles|;
        }
      }
    }
  }

  /** Once seeded, seeding again changes nothing, whatever its clock reading or password hash;
      so seeding twice is seeding once. */
  lemma SeedIdempotent(t: Tables, now: DateTime, passwordHash: string, later: DateTime, laterHash: string)
    ensures SeedOutcome(t, now, passwordHash) != t ==>
      SeedOutcome(SeedOutcome(t, now, passwordHash), later, laterHash) == SeedOutcome(t, now, passwordHash)
    ensures SeedOutcome(SeedOutcome(t, now, passwordHash), now, passwordHash) == SeedOutcome(t, now, passwordHash)
  {
    var s := SeedOutcome(t, now, passwordHash);
    if s != t {
      assert s.users[|t.users|].username == TEST_USERNAME;
      assert UsernameTaken(s.users, TEST_USERNAME);
    }
  }

  /** The loop that adds the sample tasks, ids from `base`, all owned by `uid`. */
  method AddSampleTasks(db: Store, uid: nat, now: DateTime)
    requires db.Valid()
    modifies db
    ensures db.Valid()
    ensures db.committed == old(db.committed) && db.users == old(db.users) && db.profiles == old(db.profiles)
    ensures db.tasks == old(db.tasks) + SampleRows(SAMPLE_TASKS, uid, NextId(old(db.tasks), TaskKey), now)
  {
    var base := NextId(db.tasks, TaskKey);
    var i := 0;
    while i < |SAMPLE_TASKS|
      invariant 0 <= i <= |SAMPLE_TASKS|
      invariant db.committed == old(db.committed) && db.users == old(db.users) && db.profiles == old(db.profiles)
      invariant db.tasks == old(db.tasks) + SampleRows(SAMPLE_TASKS[..i], uid, base, now)
      invariant forall k :: 0 <= k < |db.tasks| ==> db.tasks[k].id < base + i
      invariant db.Valid()
    {
      var task := SampleRow(SAMPLE_TASKS[i], base + i, uid, now);
      AppendIncreasing(db.tasks, task, TaskKey);
      assert SAMPLE_TASKS[..i + 1][..i] == SAMPLE_TASKS[..i];
      db.tasks := db.tasks + [task];
      i := i + 1;
    }
    assert SAMPLE_TASKS[..i] == SAMPLE_TASKS;
  }

  /** `seed_database`, with its two commits. */
  method Seed(db: Store, now: DateTime, passwordHash: string)
    requires db.Valid() && db.Settled()
    modifies db
    ensures db.Valid() && db.Settled()
    ensures db.Current() == SeedOutcome(old(db.Current()), now, passwordHash)
  {
    if UsernameTaken(db.users, TEST_USERNAME) {
      return;
    }
    var uid := NextId(db.users, UserKey);
    AppendIncreasing(db.users, TestUser(uid, passwordHash, now), UserKey);
    db.users := db.users + [TestUser(uid, passwordHash, now)];
    var ok := db.Commit();
    if !ok {
      db.Rollback();
      return;
    }
    ghost var withUser := db.Current();
    var pid := NextId(db.profiles, ProfileKey);
    AppendIncreasing(db.profiles, TestProfile(pid, uid), ProfileKey);
    db.profiles := db.profiles + [TestProfile(pid, uid)];
    AddSampleTasks(db, uid, now);
    assert db.Current() == WithSamples(withUser, uid, now);
    ok := db.Commit();
    if !ok {
      db.Rollback();
    }
  }
}
