/** `POST /api/auth/test-login`: find the test user by email, creating it
    with a two-day trial when it is absent. */
module TestLogin {
  import opened Common
  import opened Store

  const TestUserEmail := "test@example.com"
  const CreateFailed := "Failed to create test user"

  /** A present test user is left alone; an absent one is created once;
      success leaves a test user in the store; a throwing store call is 500
      and changes nothing. */
  method Post(store: Database, now: Timestamp, fault: Fault) returns (r: Reply<bool>)
    requires store.Valid()
    modifies store
    ensures store.Valid()
    ensures r.Fail? ==> r == Fail(500, CreateFailed) && store.State() == old(store.State())
    ensures fault == LookupFails ==> r.Fail?
    ensures fault == NoFault ==> r == Ok(true)
    ensures fault.WriteFails? ==> (r.Ok? <==> FindByEmail(old(store.users), TestUserEmail).Some?)
    ensures r.Ok? ==> store.State() == FindOrCreate(old(store.State()), TestUserEmail, TrialEnd(now))
    ensures r.Ok? ==> FindByEmail(store.users, TestUserEmail).Some?
  {
    if fault == LookupFails {
      return Fail(500, CreateFailed);
    }
    var user := store.FindUnique(TestUserEmail);
    if user.None? {
      if fault.WriteFails? {
        return Fail(500, CreateFailed);
      }
      FindOrCreateSpec(store.State(), TestUserEmail, TrialEnd(now));
      user := store.CreateUser(TestUserEmail, TrialEnd(now));
    }
    return Ok(true);
  }
}
