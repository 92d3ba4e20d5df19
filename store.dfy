/** The relational store behind the route handlers, reduced to what they use:
    a table of users keyed by a unique email, a table of todo rows owned by
    users, and an identifier generator. Pure operations on a snapshot, and a
    class whose methods apply them in place. */
module Store {
  import opened Common
  import Seqs

  datatype User = User(id: Id, email: string, trialEnds: Timestamp, isSubscribed: bool)

  datatype TodoRow = TodoRow(
    id: Id,
    text: string,
    category: string,
    completed: bool,
    priority: Option<string>,
    description: Option<string>,
    userId: Id)

  /** A store call that throws: the lookup, or the write that follows it. A
      handler that makes no such call ignores that value. */
  datatype Fault = NoFault | LookupFails | WriteFails(message: string)

  /** A snapshot of both tables; identifiers below `nextId` are taken. */
  datatype Db = Db(users: seq<User>, todos: seq<TodoRow>, nextId: Id)

  ghost predicate EmailsUnique(users: seq<User>)
  {
    forall i, j :: 0 <= i < j < |users| ==> users[i].email != users[j].email
  }

  predicate HasUserId(users: seq<User>, id: Id)
  {
    exists i :: 0 <= i < |users| && users[i].id == id
  }

  /** The schema's constraints: unique emails, unique identifiers that the
      generator has handed out, and every todo owned by an existing user. */
  ghost predicate WellFormed(db: Db)
  {
    && EmailsUnique(db.users)
    && (forall i, j :: 0 <= i < j < |db.users| ==> db.users[i].id != db.users[j].id)
    && (forall i :: 0 <= i < |db.users| ==> db.users[i].id < db.nextId)
    && (forall i, j :: 0 <= i < j < |db.todos| ==> db.todos[i].id != db.todos[j].id)
    && (forall i :: 0 <= i < |db.todos| ==> db.todos[i].id < db.nextId && HasUserId(db.users, db.todos[i].userId))
  }

  /** `findUnique({where: {email}})`. */
  function FindByEmail(users: seq<User>, email: string): (r: Option<User>)
    ensures r.Some? ==> r.value in users && r.value.email == email
    ensures r.None? <==> forall i :: 0 <= i < |users| ==> users[i].email != email
  {
    if users == [] then None
    else if users[0].email == email then Some(users[0])
    else FindByEmail(users[1..], email)
  }

  /** The todos a user owns (`include: {todos: true}`), in storage order. */
  function TodosOf(todos: seq<TodoRow>, userId: Id): seq<TodoRow>
  {
    Seqs.Filter(todos, (t: TodoRow) => t.userId == userId)
  }

  function NewUser(db: Db, email: string, trialEnds: Timestamp): User
  {
    User(db.nextId, email, trialEnds, false)
  }

  /** Insert a user with the email unless one exists; an existing row is left
      exactly as it is (`upsert` with `update: {}`). */
  function FindOrCreate(db: Db, email: string, trialEnds: Timestamp): (r: Db)
    ensures r.todos == db.todos
    ensures FindByEmail(db.users, email).Some? ==> r == db
    ensures FindByEmail(db.users, email).None? ==>
              r == Db(db.users + [NewUser(db, email, trialEnds)], db.todos, db.nextId + 1)
  {
    if FindByEmail(db.users, email).Some? then db
    else Db(db.users + [NewUser(db, email, trialEnds)], db.todos, db.nextId + 1)
  }

  function NewTodoRow(db: Db, text: string, category: string, userId: Id): TodoRow
  {
    TodoRow(db.nextId, text, category, false, None, None, userId)
  }

  /** `todo.create`: append one row with a fresh identifier. */
  function AddTodo(db: Db, text: string, category: string, userId: Id): (r: Db)
    ensures r.users == db.users && r.nextId == db.nextId + 1
    ensures r.todos == db.todos + [NewTodoRow(db, text, category, userId)]
  {
    Db(db.users, db.todos + [NewTodoRow(db, text, category, userId)], db.nextId + 1)
  }

  /** `user.update({where: {email}, data: {isSubscribed: true}})` on the rows. */
  function MarkSubscribed(users: seq<User>, email: string): (r: seq<User>)
    ensures |r| == |users|
    ensures forall i :: 0 <= i < |users| ==>
              r[i] == if users[i].email == email then users[i].(isSubscribed := true) else users[i]
  {
    if users == [] then []
    else
      var u := users[0];
      [if u.email == email then u.(isSubscribed := true) else u] + MarkSubscribed(users[1..], email)
  }

  // ---- properties ----

  /** With unique emails, the lookup finds the one row holding the email. */
  lemma {:induction false} FindByEmailFindsRow(users: seq<User>, i: int)
    requires EmailsUnique(users) && 0 <= i < |users|
    ensures FindByEmail(users, users[i].email) == Some(users[i])
  {
    if i > 0 {
      assert users[0].email != users[i].email;
      FindByEmailFindsRow(users[1..], i - 1);
    }
  }

  lemma {:induction false} FindByEmailAppend(users: seq<User>, u: User, email: string)
    ensures FindByEmail(users + [u], email) ==
              if FindByEmail(users, email).Some? then FindByEmail(users, email)
              else if u.email == email then Some(u) else None
  {
    if users != [] {
      assert (users + [u])[1..] == users[1..] + [u];
      FindByEmailAppend(users[1..], u, email);
    }
  }

  /** After find-or-create the email has a row: the row that was there, or a
      new unsubscribed one with the given trial end; the constraints hold. */
  lemma FindOrCreateSpec(db: Db, email: string, trialEnds: Timestamp)
    requires WellFormed(db)
    ensures var r := FindOrCreate(db, email, trialEnds);
            && WellFormed(r)
            && FindByEmail(r.users, email) ==
                 if FindByEmail(db.users, email).Some? then FindByEmail(db.users, email)
                 else Some(NewUser(db, email, trialEnds))
  {
    var u := NewUser(db, email, trialEnds);
    FindByEmailAppend(db.users, u, email);
    var r := FindOrCreate(db, email, trialEnds);
    if FindByEmail(db.users, email).None? {
      forall i, j | 0 <= i < j < |r.users| ensures r.users[i].email != r.users[j].email {
        if j == |db.users| { assert r.users[i] == db.users[i]; }
      }
      forall i | 0 <= i < |r.todos| ensures HasUserId(r.users, r.todos[i].userId) {
        var k :| 0 <= k < |db.users| && db.users[k].id == db.todos[i].userId;
        assert r.users[k] == db.users[k];
      }
    }
  }

  /** Creating the same email again changes nothing: no second row. */
  lemma FindOrCreateIdempotent(db: Db, email: string, t1: Timestamp, t2: Timestamp)
    ensures FindOrCreate(FindOrCreate(db, email, t1), email, t2) == FindOrCreate(db, email, t1)
  {
    FindByEmailAppend(db.users, NewUser(db, email, t1), email);
  }

  /** A created todo is listed for its owner exactly once, after the owner's
      earlier todos, and the constraints still hold. */
  lemma CreatedTodoListedOnce(db: Db, text: string, category: string, userId: Id)
    requires WellFormed(db) && HasUserId(db.users, userId)
    ensures var row := NewTodoRow(db, text, category, userId);
            && TodosOf(AddTodo(db, text, category, userId).todos, userId) == TodosOf(db.todos, userId) + [row]
            && (forall i :: 0 <= i < |TodosOf(db.todos, userId)| ==> TodosOf(db.todos, userId)[i].id != row.id)
            && WellFormed(AddTodo(db, text, category, userId))
  {
    var row := NewTodoRow(db, text, category, userId);
    Seqs.FilterAppend(db.todos, [row], (t: TodoRow) => t.userId == userId);
    assert Seqs.Filter([row], (t: TodoRow) => t.userId == userId) == [row];
  }

  /** Creating a todo for one user leaves every other user's list as it was. */
  lemma CreateLeavesOtherUsersTodos(db: Db, text: string, category: string, owner: Id, other: Id)
    requires owner != other
    ensures TodosOf(AddTodo(db, text, category, owner).todos, other) == TodosOf(db.todos, other)
  {
    var row := NewTodoRow(db, text, category, owner);
    Seqs.FilterAppend(db.todos, [row], (t: TodoRow) => t.userId == other);
    assert Seqs.Filter([row], (t: TodoRow) => t.userId == other) == [];
  }

  /** Marking is idempotent and keeps the constraints. */
  lemma MarkSubscribedSpec(db: Db, email: string)
    requires WellFormed(db)
    ensures MarkSubscribed(MarkSubscribed(db.users, email), email) == MarkSubscribed(db.users, email)
    ensures WellFormed(db.(users := MarkSubscribed(db.users, email)))
  {
    var r := MarkSubscribed(db.users, email);
    assert forall i :: 0 <= i < |r| ==> r[i].email == db.users[i].email && r[i].id == db.users[i].id;
    forall i | 0 <= i < |db.todos| ensures HasUserId(r, db.todos[i].userId) {
      var k :| 0 <= k < |db.users| && db.users[k].id == db.todos[i].userId;
      assert r[k].id == db.users[k].id;
    }
  }

  /** After marking, the lookup finds the same row with the flag set. */
  lemma {:induction false} MarkSubscribedFindsRow(users: seq<User>, email: string)
    requires FindByEmail(users, email).Some?
    ensures FindByEmail(MarkSubscribed(users, email), email) == Some(FindByEmail(users, email).value.(isSubscribed := true))
  {
    if users[0].email != email {
      MarkSubscribedFindsRow(users[1..], email);
      assert MarkSubscribed(users, email)[1..] == MarkSubscribed(users[1..], email);
    }
  }

  // ---- the store as the handlers use it ----

  /** The shared database handle; each method is one store call. */
  class Database {
    var users: seq<User>
    var todos: seq<TodoRow>
    var nextId: Id

    function State(): Db
      reads this
    {
      Db(users, todos, nextId)
    }

    ghost predicate Valid()
      reads this
    {
      WellFormed(State())
    }

    /** An empty store, which shows the constraints can be met. `new
        PrismaClient()` opens whatever the database already holds, so the
        route methods take any store that meets the constraints, not this one. */
    constructor ()
      ensures Valid() && State() == Db([], [], 0)
    {
      users, todos, nextId := [], [], 0;
    }

    function FindUnique(email: string): Option<User>
      reads this
    {
      FindByEmail(users, email)
    }

    /** `user.create`: refused when the email is taken (unique constraint). */
    method CreateUser(email: string, trialEnds: Timestamp) returns (r: Option<User>)
      requires Valid()
      modifies this
      ensures Valid()
      ensures r.None? <==> FindByEmail(old(users), email).Some?
      ensures r.None? ==> State() == old(State())
      ensures r.Some? ==> State() == FindOrCreate(old(State()), email, trialEnds)
                          && r == Some(NewUser(old(State()), email, trialEnds))
    {
      if FindByEmail(users, email).Some? {
        return None;
      }
      FindOrCreateSpec(State(), email, trialEnds);
      r := Some(NewUser(State(), email, trialEnds));
      users := users + [r.value];
      nextId := nextId + 1;
    }

    /** `user.upsert` with `update: {}`: returns the row now holding the email. */
    method Upsert(email: string, trialEnds: Timestamp) returns (u: User)
      requires Valid()
      modifies this
      ensures Valid()
      ensures State() == FindOrCreate(old(State()), email, trialEnds)
      ensures FindByEmail(users, email) == Some(u)
      ensures FindByEmail(old(users), email).Some? ==> Some(u) == FindByEmail(old(users), email)
      ensures FindByEmail(old(users), email).None? ==> u == NewUser(old(State()), email, trialEnds)
    {
      FindOrCreateSpec(State(), email, trialEnds);
      var found := FindByEmail(users, email);
      if found.Some? {
        return found.value;
      }
      u := NewUser(State(), email, trialEnds);
      users := users + [u];
      nextId := nextId + 1;
    }

    /** `todo.create`: refused when the owner does not exist (foreign key). */
    method CreateTodo(text: string, category: string, userId: Id) returns (r: Option<TodoRow>)
      requires Valid()
      modifies this
      ensures Valid()
      ensures r.None? <==> !HasUserId(old(users), userId)
      ensures r.None? ==> State() == old(State())
      ensures r.Some? ==> State() == AddTodo(old(State()), text, category, userId)
                          && r == Some(NewTodoRow(old(State()), text, category, userId))
    {
      if !HasUserId(users, userId) {
        return None;
      }
      CreatedTodoListedOnce(State(), text, category, userId);
      r := Some(NewTodoRow(State(), text, category, userId));
      todos := todos + [r.value];
      nextId := nextId + 1;
    }

    /** `user.update` of `isSubscribed` by email: refused when no row has it. */
    method UpdateSubscribed(email: string) returns (r: Option<User>)
      requires Valid()
      modifies this
      ensures Valid()
      ensures r.None? <==> FindByEmail(old(users), email).None?
      ensures r.None? ==> State() == old(State())
      ensures r.Some? ==> State() == old(State()).(users := MarkSubscribed(old(users), email))
                          && r == Some(FindByEmail(old(users), email).value.(isSubscribed := true))
    {
      var found := FindByEmail(users, email);
      if found.None? {
        return None;
      }
      var marked := MarkSubscribed(users, email);
      assert WellFormed(Db(marked, todos, nextId))
          && FindByEmail(marked, email) == Some(found.value.(isSubscribed := true)) by {
        MarkSubscribedSpec(State(), email);
        MarkSubscribedFindsRow(users, email);
      }
      users := marked;
      r := FindByEmail(marked, email);
    }
  }
}
