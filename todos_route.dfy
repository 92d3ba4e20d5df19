/** `GET /api/todos` and `POST /api/todos`: the session check, the lookup of
    the session's user, and the listing or creation of that user's todos. */
module TodosRoute {
  import opened Common
  import opened Json
  import opened Store

  /** `GET`: 401 without a session email, 500 when the lookup throws, 404
      for an unknown email, else the todos of the user with that email. The
      handler writes nothing, so only `LookupFails` applies; `WriteFails` is
      ignored. */
  function Get(db: Db, sessionEmail: Option<string>, fault: Fault): (r: Reply<seq<TodoRow>>)
    ensures !HasEmail(sessionEmail) ==> r == Fail(401, NotAuthenticated)
    ensures HasEmail(sessionEmail) && fault == LookupFails ==> r == Fail(500, InternalServerError)
    ensures r == Fail(404, UserNotFound) <==>
              HasEmail(sessionEmail) && fault != LookupFails
              && forall i :: 0 <= i < |db.users| ==> db.users[i].email != sessionEmail.value
    ensures r.Ok? ==> exists i :: 0 <= i < |db.users| && db.users[i].email == sessionEmail.value
                                  && r.body == TodosOf(db.todos, db.users[i].id)
    ensures HasEmail(sessionEmail) && fault != LookupFails && FindByEmail(db.users, sessionEmail.value).Some? ==>
              r == Ok(TodosOf(db.todos, FindByEmail(db.users, sessionEmail.value).value.id))
  {
    if !HasEmail(sessionEmail) then Fail(401, NotAuthenticated)
    else if fault == LookupFails then Fail(500, InternalServerError)
    else match FindByEmail(db.users, sessionEmail.value)
      case None => Fail(404, UserNotFound)
      case Some(u) => Ok(TodosOf(db.todos, u.id))
  }

  /** `text` as stored: the store's schema accepts only a string. */
  function TextArg(v: Json): (t: Option<string>)
    ensures t.Some? ==> Member(v, "text") == Some(JStr(t.value))
    ensures t.None? ==> Member(v, "text").None? || !Member(v, "text").value.JStr?
  {
    match Member(v, "text")
    case Some(JStr(s)) => Some(s)
    case _ => None
  }

  /** `category = 'other'`: the default replaces only a missing field. */
  function CategoryArg(v: Json): (c: Option<string>)
    ensures Member(v, "category").None? ==> c == Some("other")
    ensures Member(v, "category").Some? ==>
              (c.Some? <==> Member(v, "category").value.JStr?)
              && (c.Some? ==> Member(v, "category") == Some(JStr(c.value)))
  {
    match Member(v, "category")
    case None => Some("other")
    case Some(JStr(s)) => Some(s)
    case _ => None
  }

  /** `POST`: 401 without a session email (nothing created); 500 for a body
      that cannot be read or destructured and for a throwing store call; 404
      for an unknown email (nothing created); else exactly one todo, owned by
      that user, is created and returned. The text is not checked for being
      empty. */
  method Post(store: Database, sessionEmail: Option<string>, body: Body, fault: Fault)
    returns (r: Reply<TodoRow>)
    requires store.Valid()
    modifies store
    ensures store.Valid()
    ensures r.Fail? ==> store.State() == old(store.State())
    ensures !HasEmail(sessionEmail) ==> r == Fail(401, NotAuthenticated)
    ensures HasEmail(sessionEmail) && !Destructurable(body) ==> r == Fail(500, InternalServerError)
    ensures HasEmail(sessionEmail) && Destructurable(body) && fault == LookupFails ==>
              r == Fail(500, InternalServerError)
    ensures HasEmail(sessionEmail) && Destructurable(body) && fault != LookupFails ==>
              (r == Fail(404, UserNotFound) <==> FindByEmail(old(store.users), sessionEmail.value).None?)
    ensures (&& HasEmail(sessionEmail) && Destructurable(body) && fault != LookupFails
             && FindByEmail(old(store.users), sessionEmail.value).Some?
             && (fault.WriteFails? || TextArg(body.value).None? || CategoryArg(body.value).None?)) ==>
              r == Fail(500, InternalServerError)
    ensures r.Ok? ==>
              && HasEmail(sessionEmail) && Destructurable(body) && fault == NoFault
              && FindByEmail(old(store.users), sessionEmail.value).Some?
              && TextArg(body.value).Some? && CategoryArg(body.value).Some?
              && var u := FindByEmail(old(store.users), sessionEmail.value).value;
                 var text, category := TextArg(body.value).value, CategoryArg(body.value).value;
                 && store.State() == AddTodo(old(store.State()), text, category, u.id)
                 && r.body == NewTodoRow(old(store.State()), text, category, u.id)
    ensures (&& HasEmail(sessionEmail) && Destructurable(body) && fault == NoFault
             && FindByEmail(old(store.users), sessionEmail.value).Some?
             && TextArg(body.value).Some? && CategoryArg(body.value).Some?) ==> r.Ok?
  {
    if !HasEmail(sessionEmail) {
      return Fail(401, NotAuthenticated);
    }
    if !Destructurable(body) {
      return Fail(500, InternalServerError);
    }
    if fault == LookupFails {
      return Fail(500, InternalServerError);
    }
    var user := store.FindUnique(sessionEmail.value);
    if user.None? {
      return Fail(404, UserNotFound);
    }
    var text, category := TextArg(body.value), CategoryArg(body.value);
    if fault.WriteFails? || text.None? || category.None? {
      return Fail(500, InternalServerError);
    }
    ghost var k :| 0 <= k < |store.users| && store.users[k] == user.value;
    var created := store.CreateTodo(text.value, category.value, user.value.id);
    if created.None? {
      return Fail(500, InternalServerError);
    }
    r := Ok(created.value);
  }

  // ---- properties ----

  /** Listing after a successful creation shows the owner's earlier todos
      followed by the new one, whose identifier none of them has. */
  lemma ListAfterCreate(db: Db, email: string, text: string, category: string)
    requires WellFormed(db) && email != ""
    requires FindByEmail(db.users, email).Some?
    ensures var u := FindByEmail(db.users, email).value;
            var row := NewTodoRow(db, text, category, u.id);
            && Get(AddTodo(db, text, category, u.id), Some(email), NoFault) == Ok(TodosOf(db.todos, u.id) + [row])
            && (forall i :: 0 <= i < |TodosOf(db.todos, u.id)| ==> TodosOf(db.todos, u.id)[i].id != row.id)
  {
    var u := FindByEmail(db.users, email).value;
    var k :| 0 <= k < |db.users| && db.users[k] == u;
    CreatedTodoListedOnce(db, text, category, u.id);
  }

  /** A todo created for one user never shows in another user's list. */
  lemma CreateIsInvisibleToOthers(db: Db, owner: string, other: string, text: string, category: string)
    requires WellFormed(db) && owner != other
    requires FindByEmail(db.users, owner).Some?
    ensures var u := FindByEmail(db.users, owner).value;
            Get(AddTodo(db, text, category, u.id), Some(other), NoFault) == Get(db, Some(other), NoFault)
  {
    var u := FindByEmail(db.users, owner).value;
    var found := FindByEmail(db.users, other);
    if found.Some? {
      var i :| 0 <= i < |db.users| && db.users[i] == u;
      var j :| 0 <= j < |db.users| && db.users[j] == found.value;
      assert i != j;
      CreateLeavesOtherUsersTodos(db, text, category, u.id, found.value.id);
    }
  }
}
