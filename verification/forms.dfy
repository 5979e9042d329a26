/** The WTForms validators of the task, registration and profile forms, as checks over the
    submitted strings.  A form is valid when every validator of every field passes. */
module Forms {
  import opened Wrappers
  import opened DateTimes
  import opened Models

  /** The characters Python's `str.strip()` removes (`str.isspace`). */
  predicate IsSpace(c: char)
  {
    || c == ' ' || '\t' <= c <= '\r' || '\U{1c}' <= c <= '\U{1f}'
    || c == '\U{85}' || c == '\U{a0}' || c == '\U{1680}' || '\U{2000}' <= c <= '\U{200a}'
    || c == '\U{2028}' || c == '\U{2029}' || c == '\U{202f}' || c == '\U{205f}' || c == '\U{3000}'
  }

  /** `DataRequired`: the data is non-empty and not only whitespace. */
  predicate DataRequired(s: string)
  {
    exists i :: 0 <= i < |s| && !IsSpace(s[i])
  }

  /** `Length(min, max)`; `max < 0` stands for "no maximum". */
  predicate Length(s: string, min: nat, max: int)
  {
    min <= |s| && (max < 0 || |s| <= max)
  }

  // ---------------------------------------------------------------- TaskForm

  const PRIORITY_CHOICES: seq<string> := ["High", "Medium", "Low"]
  const DESCRIPTION_MAX: nat := 500

  /** What the browser posts.  `dueDate` is None when the field is not posted at all, in
      which case the field keeps the value it was built with.  `csrfValid` is the verdict of
      Flask-WTF's CSRF check on the posted token (every `FlaskForm` carries one). */
  datatype TaskFormInput = TaskFormInput(title: string, description: string, priority: string, dueDate: Option<string>, csrfValid: bool)

  /** The data of a TaskForm that passed validation. */
  datatype TaskFields = TaskFields(title: string, description: string, priority: string, dueDate: Option<DateTime>)

  /** `TaskForm.validate()`.  `current` is the due date the form was built with (`obj=task` when
      editing, nothing when creating).  A posted date must parse with `%Y-%m-%d` (an empty one
      does not) and is stored as midnight of that day. */
  function ValidateTaskForm(f: TaskFormInput, current: Option<DateTime>): (r: Result<TaskFields>)
    ensures r.Ok? ==> r.value.title == f.title && r.value.description == f.description && r.value.priority == f.priority
    ensures r.Ok? ==> 1 <= |r.value.title| <= TITLE_WIDTH && |r.value.description| <= DESCRIPTION_MAX
    ensures r.Ok? ==> r.value.priority in PRIORITY_CHOICES
    ensures f.title == "" || |f.title| > TITLE_WIDTH || |f.description| > DESCRIPTION_MAX ==> r.Err?
    ensures f.priority !in PRIORITY_CHOICES ==> r.Err?
    ensures f.dueDate.Some? && ParseYmd(f.dueDate.value).None? ==> r.Err?
    ensures r.Ok? && f.dueDate.None? ==> r.value.dueDate == current
    ensures r.Ok? && f.dueDate.Some? ==>
              r.value.dueDate.Some? && Some(DateOf(r.value.dueDate.value)) == ParseYmd(f.dueDate.value) && IsMidnight(r.value.dueDate.value)
    ensures !f.csrfValid ==> r.Err?
    ensures (&& f.csrfValid && DataRequired(f.title) && |f.title| <= TITLE_WIDTH && |f.description| <= DESCRIPTION_MAX
             && f.priority in PRIORITY_CHOICES && (f.dueDate.Some? ==> ParseYmd(f.dueDate.value).Some?)) ==> r.Ok?
  {
    var due: Option<Option<DateTime>> :=
      match f.dueDate
      case None => Some(current)
      case Some(s) => (match ParseYmd(s) case Some(d) => Some(Some(AtMidnight(d))) case None => None);
    // Every choice starts with a letter, so a chosen priority is never blank.
    assert f.priority in PRIORITY_CHOICES ==> !IsSpace(f.priority[0]);
    if f.csrfValid && DataRequired(f.title) && Length(f.title, 0, TITLE_WIDTH as int)
       && Length(f.description, 0, DESCRIPTION_MAX as int)
       && DataRequired(f.priority) && f.priority in PRIORITY_CHOICES
       && due.Some?
    then Ok(TaskFields(f.title, f.description, f.priority, due.value))
    else Err
  }

  /** A title made only of whitespace is refused as missing. */
  lemma BlankTitleRefused(f: TaskFormInput, current: Option<DateTime>)
    requires forall i :: 0 <= i < |f.title| ==> IsSpace(f.title[i])
    ensures ValidateTaskForm(f, current).Err?
  {
  }

  /** A task saved from a valid form fits the declared `String(140)` title and `String(20)` priority. */
  lemma ValidTaskFormFitsColumns(f: TaskFormInput, current: Option<DateTime>, t: Task)
    requires ValidateTaskForm(f, current).Ok?
    requires t.title == f.title && t.priority == f.priority
    ensures TaskWithinWidths(t)
  {
  }

  // ---------------------------------------------------------------- RegistrationForm

  const USERNAME_MIN: nat := 4
  const PASSWORD_MIN: nat := 6

  /** The posted registration fields; `csrfValid` as for the task form. */
  datatype RegistrationInput = RegistrationInput(username: string, email: string, password: string, password2: string, csrfValid: bool)

  predicate UsernameTaken(users: seq<User>, name: string)
  {
    exists i :: 0 <= i < |users| && users[i].username == name
  }

  predicate EmailTaken(users: seq<User>, email: string)
  {
    exists i :: 0 <= i < |users| && users[i].email == email
  }

  /** `RegistrationForm.validate()` against the existing users.  `emailWellFormed` is the
      verdict of WTForms' `Email` validator, which is not modelled. */
  predicate RegistrationValid(users: seq<User>, f: RegistrationInput, emailWellFormed: bool)
  {
    && f.csrfValid
    && DataRequired(f.username) && Length(f.username, USERNAME_MIN, USERNAME_WIDTH as int)
    && DataRequired(f.email) && emailWellFormed
    && DataRequired(f.password) && Length(f.password, PASSWORD_MIN, -1)
    && DataRequired(f.password2) && f.password2 == f.password
    && !UsernameTaken(users, f.username)
    && !EmailTaken(users, f.email)
  }

  /** A valid registration has a 4-64 character username, a password of at least 6 characters
      repeated exactly, and a username and email no existing user has. */
  lemma RegistrationValidMeans(users: seq<User>, f: RegistrationInput, emailWellFormed: bool)
    requires RegistrationValid(users, f, emailWellFormed)
    ensures USERNAME_MIN <= |f.username| <= USERNAME_WIDTH
    ensures |f.password| >= PASSWORD_MIN && f.password2 == f.password
    ensures forall u :: u in users ==> u.username != f.username && u.email != f.email
  {
    forall u | u in users ensures u.username != f.username && u.email != f.email {
      var i :| 0 <= i < |users| && users[i] == u;
    }
  }

  /** The uniqueness checks are what make the insert succeed: adding the registered user keeps
      usernames and emails unique. */
  lemma RegistrationKeepsUsersUnique(users: seq<User>, f: RegistrationInput, emailWellFormed: bool, u: User)
    requires UniqueUsers(users)
    requires RegistrationValid(users, f, emailWellFormed)
    requires u.username == f.username && u.email == f.email
    ensures UniqueUsers(users + [u])
  {
    var all := users + [u];
    forall i, j | 0 <= i < j < |all| ensures all[i].username != all[j].username && all[i].email != all[j].email {
      if j == |users| {
        assert all[i] == users[i];
      } else {
        assert all[i] == users[i] && all[j] == users[j];
      }
    }
  }

  /** A username some existing user already has is refused, whatever the other fields hold. */
  lemma TakenUsernameRefused(users: seq<User>, f: RegistrationInput, emailWellFormed: bool)
    requires exists u :: u in users && u.username == f.username
    ensures !RegistrationValid(users, f, emailWellFormed)
  {
    var u :| u in users && u.username == f.username;
    var i :| 0 <= i < |users| && users[i] == u;
  }

  // ---------------------------------------------------------------- ProfileForm

  const BIO_MAX: nat := 500

  /** `ProfileForm.validate()`; `csrfValid` is the verdict of the CSRF check. */
  predicate ProfileFormValid(fullName: string, bio: string, csrfValid: bool)
  {
    csrfValid && Length(fullName, 0, FULL_NAME_WIDTH as int) && Length(bio, 0, BIO_MAX as int)
  }

  /** A profile saved from a valid form fits the declared `String(100)` full name. */
  lemma ValidProfileFormFitsColumns(fullName: string, bio: string, csrfValid: bool, p: Profile)
    requires ProfileFormValid(fullName, bio, csrfValid)
    requires p.fullName == Some(fullName) && p.bio == Some(bio)
    ensures ProfileWithinWidths(p) && |p.bio.value| <= BIO_MAX
  {
  }
}
