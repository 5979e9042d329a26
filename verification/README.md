# Task manager: a verified model of its core

The task manager is a small Flask application over SQLite. Users register, then create, list,
filter, edit, toggle, delete, export and import their tasks. Maintenance helpers back the whole
database up to JSON, restore it from JSON and seed it with a sample user. A dashboard counts a
user's tasks.

The model treats the database as three row sequences (users, profiles, tasks) plus the last
committed snapshot. This makes the ORM's `commit` and `rollback` explicit steps (class
`Database.Store`). Each request handler is a function from the old tables to a response and
the new tables. Handlers that change state are also methods on the store, and each method is
proved to reach exactly the state its function describes.

Modules, one file each:

- `wrappers.dfy`: `Option`, `Result`.
- `seqs.dfy`: order-preserving filters and counts, the shape of `query.filter_by(...)` and
  `query.count()`.
- `json.dfy`: decoded JSON values (null, booleans, integers, strings, arrays and objects; no
  floating-point numbers); `dict.get`, `dict[key]`, truthiness and iteration.
- `datetimes.dfy`: `datetime.isoformat`, `datetime.fromisoformat`, and
  `strptime(s, '%Y-%m-%d')` on a field record (year, month, day, hour, minute, second).
- `models.dfy`: the three tables, their defaults and UNIQUE / NOT NULL constraints, and the
  delete cascade.
- `database.dfy`: the session (`Store`), with `Commit`, `Rollback` and the cascading user
  delete.
- `forms.dfy`: the task, registration and profile form validators.
- `columns.dfy`: how the ORM stores a decoded JSON value in a column, and the generic
  "one row per array element, stop at the first failure" loop.
- `tasks.dfy`: the task routes.
- `utils.dfy`: backup, restore and seeding.
- `views.dfy`: the dashboard counts.

Choices that follow the code and its configured backend (SQLite, `config.py:11`):

- **Row ids.** A new row's id is one more than the largest id in its table, and 1 in an empty
  table. So ids restart at 1 after `restore` empties the tables.
- **Constraints.** A commit succeeds exactly when the UNIQUE constraints hold. These are the
  user's username and email, and the profile's `user_id`; several NULL `user_id`s are allowed.
  SQLite enforces neither foreign keys nor `VARCHAR` widths, so a commit never checks them.
  Where forms keep values within widths, lemmas prove it.
- **Sort order.** `ORDER BY due_date ASC` puts tasks without a due date first, because SQLite
  sorts NULL before every value. Tasks with equal due dates stay in row order; SQLite does not
  promise any tie order.
- **Defaults.** A None attribute is left out of the INSERT, so the column default fills it:
  priority 'Medium', completed False, created_at = the clock.
- **Restore is not atomic.** The erasure is committed first, and the restored users are
  committed on their own. A later failure therefore leaves the empty database, or the restored
  users with no profiles and no tasks. It never leaves the data that was there before.
- **Backups drop user ids.** A restore numbers the users 1, 2, 3, ... in backup order. Profiles
  and tasks keep the `user_id` they were backed up with. References therefore survive a backup
  and a restore exactly when the user ids were 1..n in row order. `Utils.GapInIdsOrphansTasks`
  shows a database, with one deleted user, whose restored task points at no user.

## Model

| member | source | states |
|---|---|---|
| Models.NextId | config.py:11 | the id SQLite gives a new row is larger than every id in a table kept in id order, and is 1 in an empty table |
| Models.CascadeDeleteRemovesExactly | app/models.py:12-13 | deleting a user removes exactly that user, the profile pointing at it and the tasks pointing at it, and keeps every other row |
| Models.CascadeDeletePreserves | app/models.py:6-38 | the cascade keeps row order, uniqueness of usernames, emails and profile owners, and intact references |
| Models.SubsequenceUnique | app/models.py:8-9 | removing rows cannot break a UNIQUE constraint |
| Models.FilterUniqueUsers | app/models.py:8-9 | any subsequence of users with unique usernames and emails keeps them unique |
| Models.FilterUniqueProfiles | app/models.py:28 | any subsequence of profiles keeps at most one profile per user |
| Database.Store.constructor | app/models.py:6-38 | a store starts settled, with its committed state equal to the initial tables |
| Database.Store.Commit | app/models.py:8-9 | a commit succeeds iff usernames, emails and profile owners are unique; on success the current state becomes the committed one, otherwise the committed state is unchanged |
| Database.Store.Rollback | app/utils.py:142-145 | a rollback discards every uncommitted write and returns to the last committed state |
| Database.Store.DeleteUser | app/models.py:12-13 | deleting a user id commits the cascade if the user exists and changes nothing otherwise |
| DateTimes.IsoRoundTrip | app/utils.py:112 | `fromisoformat` reads back exactly what `isoformat` wrote |
| DateTimes.FromIsoFormat | app/tasks.py:129 | a parsed date-time has the calendar date written in its first ten characters; text shorter than a date is refused |
| DateTimes.ParseYmd | app/tasks.py:29 | a parsed `%Y-%m-%d` day is a valid calendar date whose year is the leading four digits |
| DateTimes.YmdRoundTrip | app/tasks.py:29 | every valid date written as `YYYY-MM-DD` parses back to itself |
| DateTimes.NotADate | app/tasks.py:28-32 | the text "not-a-date" does not parse as a day |
| DateTimes.NotAfterTotalOrder | app/tasks.py:34 | date-time order is a total order (reflexive, total, antisymmetric, transitive) |
| Columns.RequiredString | app/utils.py:109-110 | a string column accepts exactly a JSON string and stores it |
| Columns.NullableString | app/utils.py:111 | a nullable text column stores null as NULL and a string as itself; anything else fails |
| Columns.StringWithDefault | app/models.py:34 | a null priority takes the column default; a string is stored as given; anything else fails |
| Columns.BooleanWithDefault | app/models.py:36 | a null flag takes the default; a boolean is stored as given; a number is accepted exactly when it is 0 or 1, stored as False or True |
| Columns.RequiredInt | app/models.py:38 | a NOT NULL integer column accepts exactly a JSON number within SQLite's signed 64-bit INTEGER range and stores it |
| Columns.NullableInt | app/models.py:28 | a nullable integer column stores null as NULL and a number within the signed 64-bit range as itself; a number outside it, or anything else, fails |
| Columns.IsoDateTime | app/utils.py:133 | a falsy value means no date-time; a truthy one is accepted exactly when it is text `fromisoformat` parses, and becomes that date-time |
| Columns.NullableStringRoundTrip | app/utils.py:73 | a nullable string written to JSON reads back unchanged |
| Columns.NullableIntRoundTrip | app/utils.py:79 | a nullable integer an INTEGER column can hold, written to JSON, reads back unchanged |
| Columns.IsoDateTimeRoundTrip | app/utils.py:85 | an optional date-time written as ISO text or null reads back unchanged |
| Columns.BuildRows | app/tasks.py:124-133 | a successful run builds one row per array element |
| Columns.BuildRowsSpec | app/tasks.py:124-138 | the run succeeds iff every element builds, and then the k-th row is the k-th element's, built with id base + k |
| Columns.BuildRowsExtend | app/tasks.py:124-133 | one more element that builds extends the rows built so far by its row |
| Columns.BuildRowsStops | app/tasks.py:136-138 | one element that fails makes the whole run fail |
| Columns.BuildRowsExact | app/tasks.py:124-133 | rows that each build from their element are exactly what the run returns |
| Forms.ValidateTaskForm | app/forms.py:41-54 | a form is accepted exactly when its CSRF token checks, its title is non-blank and at most 140 characters, its description at most 500, its priority one of High/Medium/Low and a submitted due date parses; the fields are passed on unchanged and the due date is the parsed day, or the one the form was built with when none is posted |
| Forms.BlankTitleRefused | app/forms.py:42-45 | a title of only white space is refused |
| Forms.ValidTaskFormFitsColumns | app/forms.py:41-54 | a validated title and priority fit the task table's declared widths |
| Forms.RegistrationValidMeans | app/forms.py:12-39 | a valid registration has a 4-64 character username, a password of at least 6 characters repeated identically, and a username and email no existing user has |
| Forms.RegistrationKeepsUsersUnique | app/forms.py:31-39 | adding the user a valid registration describes keeps usernames and emails unique |
| Forms.TakenUsernameRefused | app/forms.py:31-34 | a username an existing user has is refused |
| Forms.ValidProfileFormFitsColumns | app/forms.py:56-59 | a valid profile form (CSRF token checked)'s full name fits its 100-character column and its bio is at most 500 characters |
| Tasks.PriorityCriterion | app/tasks.py:19-20 | no priority filter iff the argument is absent, empty or 'All'; otherwise the filter is the argument itself |
| Tasks.StatusCriterion | app/tasks.py:22-25 | 'completed' filters on completed, 'pending' on not completed, any other value on nothing |
| Tasks.DayCriterion | app/tasks.py:27-32 | a day filter exists iff the argument parses as `%Y-%m-%d`, and it is that day |
| Tasks.DueNotAfterTotalPreorder | app/tasks.py:34 | the nulls-first due-date order is total and transitive |
| Tasks.InsertByDueCorrect | app/tasks.py:34 | inserting into a due-date-sorted list keeps it sorted and adds exactly that task |
| Tasks.SortByDueCorrect | app/tasks.py:34 | the sort returns a permutation of its input in ascending due-date order, NULLs first |
| Tasks.TaskList | app/tasks.py:12-35 | the list holds exactly the caller's tasks that match every criterion, each as often as in the table, sorted by due date; nobody else's task appears |
| Tasks.PriorityFilter | app/tasks.py:19-20 | an absent, empty or 'All' priority gives the unfiltered list; any other keeps exactly the tasks with that priority |
| Tasks.StatusFilter | app/tasks.py:22-25 | 'completed' keeps the completed tasks, 'pending' the others, and any other status gives the list without a status filter |
| Tasks.DueDateFilter | app/tasks.py:27-32 | an unparseable due date gives the list without a day filter; a parseable one keeps exactly the tasks due on that calendar day |
| Tasks.NotADateIgnored | app/tasks.py:27-32 | `due_date=not-a-date` lists the same tasks as no due date |
| Tasks.FindTask | app/tasks.py:58 | the lookup by id returns a position holding that id, or none when no row has it (a 404) |
| Tasks.UpdateKeepsOrder | app/tasks.py:94 | changing a row in place without changing its id keeps the table in id order |
| Tasks.FoundIsOnly | app/tasks.py:90 | in a table kept in id order, the row found is the only one with that id |
| Tasks.ToggleEffect | app/tasks.py:89-96 | the toggle succeeds iff the caller owns the task; then it flips only that task's `completed` and reports the new value; otherwise nothing changes |
| Tasks.ToggleTwice | app/tasks.py:89-96 | toggling the same task twice restores the table |
| Tasks.FirstMatchSame | app/tasks.py:90 | the lookup finds the same position in any table with the same ids |
| Tasks.ToggleTask | app/tasks.py:89-96 | the handler leaves exactly the tables the toggle outcome describes, committed, with users and profiles untouched |
| Tasks.EditEffect | app/tasks.py:57-72 | an edit goes through exactly when the task exists, is the caller's and the form (built from the task) validates; it sets that one task's title, description and priority to the posted ones and its due date to the posted day (kept when none is posted), and keeps its id, owner, completion flag and creation time; a task of someone else is always refused; anything but an edit changes nothing |
| Tasks.EditTask | app/tasks.py:57-72 | the handler leaves exactly the tables the edit outcome describes, committed |
| Tasks.RemoveKeepsOrder | app/tasks.py:82 | removing one row keeps the table in id order |
| Tasks.DeleteEffect | app/tasks.py:76-85 | the delete succeeds iff the caller owns the task, and then removes exactly that one task and keeps the rest in id order; otherwise nothing changes |
| Tasks.DeleteTask | app/tasks.py:76-85 | the handler leaves exactly the tables the delete outcome describes, committed |
| Tasks.CreateEffect | app/tasks.py:39-53 | a task is created exactly when the form validates; it is appended with a fresh, largest id, the caller as owner, completed False, the current time, the posted title, description and priority, the posted due day (none if none posted) and column-fitting values; an invalid form adds nothing |
| Tasks.CreateTask | app/tasks.py:39-53 | the handler leaves exactly the tables the create outcome describes, committed |
| Tasks.ExportTasks | app/tasks.py:100-111 | the export has one record per task the caller owns |
| Tasks.ExportTasksAt | app/tasks.py:102-109 | the k-th record is the k-th owned task's six fields, in row order |
| Tasks.ExportOnlyOwnTasks | app/tasks.py:101 | every exported record comes from a task the caller owns |
| Tasks.ReadRowValuesMeans | app/tasks.py:125-130 | an imported element's title is its `title` string; a missing or null priority becomes 'Medium' and a missing or null completed becomes False; a falsy due date is none; a missing title or a non-text truthy due date fails |
| Tasks.ImportRow | app/tasks.py:124-132 | an element becomes a task iff it is an object whose fields can be stored; the task is the caller's, created now, with the id it is given |
| Tasks.ImportedRows | app/tasks.py:124-133 | on success, one task per element, each the caller's, created now, with consecutive fresh ids |
| Tasks.ImportedRowsSpec | app/tasks.py:124-138 | the import succeeds iff every element becomes a task, and then the k-th task is the k-th element's |
| Tasks.ImportFailureChangesNothing | app/tasks.py:116-121 | a non-JSON request, a malformed body, a non-array payload or any failing element leaves the tables unchanged, with the matching error |
| Tasks.ImportSucceedsIff | app/tasks.py:115-138 | the import succeeds exactly when the body is an array and every element becomes a task |
| Tasks.ImportSuccessAppends | app/tasks.py:124-135 | a successful import reports the array's length and appends exactly that many tasks of the caller after the existing ones, changing nothing else |
| Tasks.ImportTasks | app/tasks.py:115-138 | the handler leaves exactly the tables the import outcome describes: all elements committed, or nothing |
| Tasks.ImportRowOfExport | app/tasks.py:102-108 | importing one exported record rebuilds the task except for the id, owner and creation time the import assigns |
| Tasks.ExportedLookups | app/tasks.py:103-107 | each exported field reads back as the task's value |
| Tasks.ReadExportedValues | app/tasks.py:125-130 | the import reads an exported record's title, description, priority, due date and completion exactly |
| Tasks.ImportExportedAt | app/tasks.py:102-130 | the k-th exported record imports as the k-th owned task with id base + k, the caller as owner and the current creation time |
| Tasks.Reimported | app/tasks.py:124-133 | the re-imported tasks are as many as the owned tasks |
| Tasks.ImportExportedEach | app/tasks.py:124-133 | each exported record imports as the matching re-imported task |
| Tasks.ImportExportedAll | app/tasks.py:124-133 | importing an export rebuilds all the owned tasks, in order |
| Tasks.ExportImportRoundTrip | app/tasks.py:100-138 | importing an export succeeds, reports its length and appends tasks with the same title, description, priority, due date and completion, in order |
| Utils.BackupHoldsEveryRow | app/utils.py:62-92 | the backup holds one record per user, profile and task, the k-th record being the k-th row's |
| Utils.BackupDueDate | app/utils.py:85 | a missing due date is backed up as null, a present one as its ISO text |
| Utils.Required | app/utils.py:109 | `data[key]` succeeds exactly when the key is present, with its value |
| Utils.RestoreUser | app/utils.py:107-113 | a restored user gets the id it is given |
| Utils.RestoreUserMeans | app/utils.py:108-113 | a restored user copies username, email and password hash; a falsy created_at takes the clock; a missing key or a non-text created_at fails |
| Utils.RestoreProfile | app/utils.py:119-125 | a restored profile gets the id it is given |
| Utils.RestoreTask | app/utils.py:128-138 | a restored task gets the id it is given |
| Utils.RestoreTaskMeans | app/utils.py:129-137 | a restored task keeps the raw `user_id` (which must fit in 64 bits) and its title; a null priority becomes 'Medium' and a null completed False; a falsy due date is none; a missing required key fails |
| Utils.MissingTableIsEmpty | app/utils.py:107 | a missing top-level table key restores as an empty array |
| Utils.RestoreEffect | app/utils.py:97-145 | a failed restore leaves no profiles and no tasks, and users only if they were rebuilt and committed; a successful one holds one row per array element in each table |
| Utils.RowsFromOne | app/utils.py:101-104 | a table rebuilt after erasure numbers its rows 1, 2, 3, ... |
| Utils.RestoreNumbersRows | app/utils.py:101-138 | every table a restore leaves numbers its rows 1, 2, 3, ... in array order |
| Utils.NumberedIncreasing | app/utils.py:107-114 | rows numbered 1, 2, 3, ... are in id order |
| Utils.AddUsers | app/utils.py:107-114 | the users loop adds one user per element, in order, and fails iff some element cannot be stored |
| Utils.AddProfiles | app/utils.py:119-125 | the profiles loop adds one profile per element, in order, and fails iff some element cannot be stored |
| Utils.AddTasks | app/utils.py:128-138 | the tasks loop adds one task per element, in order, and fails iff some element cannot be stored |
| Utils.Restore | app/utils.py:97-145 | the procedure, with its commits at the erasure and after the users, reports and leaves exactly what the restore outcome describes, settled |
| Utils.Renumbered | app/utils.py:70-89 | renumbering keeps the number of rows |
| Utils.RenumberedAt | app/utils.py:70-89 | the k-th renumbered row is the k-th row with id k + 1 |
| Utils.UserRoundTrip | app/utils.py:70-75 | a backed-up user restores as itself, with its new id |
| Utils.ProfileRoundTrip | app/utils.py:76-80 | a backed-up profile (its `user_id` an SQLite INTEGER) restores as itself, with its new id |
| Utils.TaskBackupLookups | app/utils.py:81-89 | each backed-up task field reads back as the task's value |
| Utils.TaskRoundTrip | app/utils.py:81-89 | a backed-up task (its `user_id` an SQLite INTEGER) restores as itself, with its new id and its raw `user_id` |
| Utils.UsersRoundTrip | app/utils.py:107-114 | the backed-up users restore as the users renumbered from 1, in order |
| Utils.ProfilesRoundTrip | app/utils.py:119-125 | the backed-up profiles restore as the profiles renumbered from 1, in order |
| Utils.TasksRoundTrip | app/utils.py:128-138 | the backed-up tasks restore as the tasks renumbered from 1, in order |
| Utils.RenumberedKeepsUnique | app/utils.py:116 | renumbering keeps usernames, emails and profile owners unique |
| Utils.BackupRestoreRoundTrip | app/utils.py:62-145 | restoring a backup of a database meeting its constraints (with every `user_id` a 64-bit INTEGER) succeeds and gives back every row with every backed-up field, in order, each table renumbered from 1 |
| Utils.RestoredOwner | app/utils.py:70-89 | a task still points at its owner after backup and restore iff the owner's id was its position + 1 |
| Utils.DenseIdsKeepReferences | app/utils.py:62-145 | with user ids 1..n in row order, intact references stay intact through backup and restore |
| Utils.GapInIdsOrphansTasks | app/utils.py:70-75 | a database whose only user has id 2 restores successfully, but its task then points at no user |
| Utils.SampleRows | app/utils.py:25-54 | the sample rows are the three sample tasks, all owned by the new user, with consecutive ids |
| Utils.AppendRowsIncreasing | app/utils.py:52-54 | rows with consecutive fresh ids keep a table in id order |
| Utils.WithSamplesEffect | app/utils.py:16-56 | the second seeding commit adds exactly one profile and three tasks, all owned by the new user, and keeps row order |
| Utils.SeedEffect | app/utils.py:6-60 | seeding changes nothing if `testuser` exists; otherwise it adds exactly one user named `testuser` with an unused id, and then either nothing else or its profile and three tasks; on a database meeting its UNIQUE constraints it does add the user whenever neither the username nor the email is taken, and adds the profile and tasks exactly when no profile already claims the new user's id |
| Utils.SeedIdempotent | app/utils.py:10 | once seeding changed the database, seeding again changes nothing, whatever the clock or hash; seeding twice equals seeding once |
| Utils.AddSampleTasks | app/utils.py:52-54 | the seeding loop appends the three sample tasks of the new user with consecutive fresh ids |
| Utils.Seed | app/utils.py:6-60 | the procedure, with its two commits, leaves exactly what the seeding outcome describes, settled |
| Views.Dashboard | app/views.py:13-28 | the total counts the caller's tasks, completed the caller's completed tasks, high, medium and low the caller's tasks of each priority, and pending is total minus completed |
| Views.PendingIsUnfinished | app/views.py:14-16 | pending counts exactly the caller's unfinished tasks, so 0 <= pending <= total and completed <= total |
| Views.PrioritiesWithinTotal | app/views.py:18-20 | the three priority counts are non-negative and add up to at most the total |
| Views.TotalIsOwnedTasks | app/views.py:14 | the total is the number of distinct tasks the caller owns |
| Views.OthersTasksIgnored | app/views.py:14-20 | another user's task changes none of the caller's counts |

## Left out

- The browser scripts, `app/cli.py`, `app/__init__.py` and the rest of `config.py` are not part
  of this model. They hold UI, file I/O and application set-up.
- Login, logout, `LoginForm` and the login manager are not part of this model. The logged-in
  user's id is the `caller` parameter.
- Password hashing is a foreign call. The seeded user's hash is the `passwordHash` parameter.
- The WTForms `Email` format check is a foreign call. Its verdict is the `emailWellFormed`
  parameter.
- The clock behind the `created_at` defaults is the `now` parameter: one clock reading per
  request stamps every row it inserts, where the code reads `datetime.utcnow` once per row.
- Flask-WTF's CSRF protection is modelled only by its verdict: every form input carries a
  `csrfValid` flag, and a form whose token fails is refused. How the token is made, signed and
  checked is not modelled.
- Floating-point JSON numbers are not modelled. JSON numbers are integers. So a backup or import
  file holding `1.0` for `completed` or `3.0` for `user_id` is outside the model, although the
  code accepts both (`1.0 == True` in Python, and SQLite stores 3.0 in an INTEGER column as 3).
- Forms.ValidateTaskForm: title, description and priority are modelled as always posted. A
  field missing from the POST of an edit, which then keeps the value the form was built with
  (`TaskForm(obj=task)`), is modelled only for the due date.
- Row ids above 9223372036854775807 (2^63 - 1) are not modelled. There SQLite stops taking max + 1 and picks an unused
  id at random.
- Microseconds are not modelled. `fromisoformat` is modelled only for `YYYY-MM-DD`, optionally
  followed by any one separator character and `HH`, `HH:MM` or `HH:MM:SS`. Fractions of a
  second and UTC offsets are refused.
- Only ASCII digits count as digits.
- A JSON value of the wrong type for a column (a number as a title, say) is modelled as a
  failure. SQLite may store some of them after a coercion.
- Error and flash message texts, template rendering and HTTP status codes are not modelled. An
  error is modelled only by its kind.
- Concurrent requests and transaction isolation are not modelled. Each request runs alone.
- The GET pages of the create, edit and profile forms render templates and change nothing, so
  they are not modelled.
- `backup_database_to_json`'s own exception path is left out: the data the model allows cannot
  raise there, and its `else None` branches are dead because `created_at` is never NULL.
- Tasks.ExportTasks: the export's `jsonify` step is not modelled. The result is the sequence of
  records before serialisation.
- Tasks.TaskList: SQLite does not specify the order of tasks with equal due dates. The model
  keeps them in row order, which is one order SQLite may return.
- Utils.Restore: the restore is not atomic. The model follows the code, which commits after
  the erasure and after the users, rather than an all-or-nothing restore.
