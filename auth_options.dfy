/** The credentials sign-in: the demo-pair check, the find-or-create of the
    demo user, and the two callbacks that copy the identity into the token and
    from the token into the session, as `auth-options.ts` defines them. */
module AuthOptions {
  import opened Common
  import opened Store

  const DemoEmail := "test@example.com"
  const DemoPassword := "demo123"

  /** The submitted form; either field may be missing. */
  datatype Credentials = Credentials(email: Option<string>, password: Option<string>)

  /** The user object `authorize` returns. */
  datatype Identity = Identity(id: Id, email: string, trialEnds: Timestamp)

  /** `authorize`'s outcome: `null`, a user, or the store's exception. */
  datatype AuthResult = Rejected | Accepted(identity: Identity) | Errored

  predicate Filled(s: Option<string>)
  {
    s.Some? && s.value != ""
  }

  /** Both fields present and non-empty, and exactly the demo pair. */
  function IsDemoLogin(credentials: Option<Credentials>): (ok: bool)
    ensures ok <==> credentials == Some(Credentials(Some(DemoEmail), Some(DemoPassword)))
  {
    && credentials.Some?
    && Filled(credentials.value.email) && Filled(credentials.value.password)
    && credentials.value.email.value == DemoEmail
    && credentials.value.password.value == DemoPassword
  }

  function IdentityOf(u: User): (i: Identity)
    ensures i.id == u.id && i.email == u.email && i.trialEnds == u.trialEnds
  {
    Identity(u.id, u.email, u.trialEnds)
  }

  /** `authorize`: anything but the demo pair is rejected without touching the
      store; the demo pair upserts the demo user (a thrown upsert changes
      nothing) and returns that row's identity. */
  method Authorize(store: Database, credentials: Option<Credentials>, now: Timestamp, fault: Fault)
    returns (r: AuthResult)
    requires store.Valid()
    modifies store
    ensures store.Valid()
    ensures !IsDemoLogin(credentials) ==> r == Rejected && store.State() == old(store.State())
    ensures IsDemoLogin(credentials) && fault != NoFault ==> r == Errored && store.State() == old(store.State())
    ensures IsDemoLogin(credentials) && fault == NoFault ==>
              && store.State() == FindOrCreate(old(store.State()), DemoEmail, TrialEnd(now))
              && FindByEmail(store.users, DemoEmail).Some?
              && r == Accepted(IdentityOf(FindByEmail(store.users, DemoEmail).value))
    ensures r.Accepted? && FindByEmail(old(store.users), DemoEmail).Some? ==>
              r.identity == IdentityOf(FindByEmail(old(store.users), DemoEmail).value)
  {
    if credentials.None? || !Filled(credentials.value.email) || !Filled(credentials.value.password) {
      return Rejected;
    }
    if credentials.value.email.value == DemoEmail && credentials.value.password.value == DemoPassword {
      if fault != NoFault {
        return Errored;
      }
      var user := store.Upsert(DemoEmail, TrialEnd(now));
      return Accepted(IdentityOf(user));
    }
    return Rejected;
  }

  /** Signing in again with the demo pair never adds a second demo user and
      leaves the existing row as it is. */
  lemma RepeatedLoginKeepsOneUser(db: Db, now1: Timestamp, now2: Timestamp)
    requires WellFormed(db)
    ensures var once := FindOrCreate(db, DemoEmail, TrialEnd(now1));
            && FindOrCreate(once, DemoEmail, TrialEnd(now2)) == once
            && WellFormed(once)
            && FindByEmail(once.users, DemoEmail).Some?
  {
    FindOrCreateIdempotent(db, DemoEmail, TrialEnd(now1), TrialEnd(now2));
    FindOrCreateSpec(db, DemoEmail, TrialEnd(now1));
  }

  // ---- the callbacks ----

  /** The token's claims this application writes, and the rest untouched. */
  class Token {
    var id: Option<Id>
    var email: Option<string>
    var trialEnds: Option<Timestamp>
    var otherClaims: map<string, string>

    constructor (otherClaims: map<string, string>)
      ensures id.None? && email.None? && trialEnds.None? && this.otherClaims == otherClaims
    {
      id, email, trialEnds := None, None, None;
      this.otherClaims := otherClaims;
    }
  }

  class SessionUser {
    var id: Option<Id>
    var email: Option<string>
    var trialEnds: Option<Timestamp>
    var name: Option<string>

    constructor (name: Option<string>)
      ensures id.None? && email.None? && trialEnds.None? && this.name == name
    {
      id, email, trialEnds := None, None, None;
      this.name := name;
    }
  }

  class Session {
    var user: SessionUser?
    var expires: Timestamp

    constructor (user: SessionUser?, expires: Timestamp)
      ensures this.user == user && this.expires == expires
    {
      this.user, this.expires := user, expires;
    }
  }

  /** `jwt`: with a user, copy its id, email and trial end into the token;
      return the same token object. */
  method Jwt(token: Token, user: Option<Identity>) returns (t: Token)
    modifies token
    ensures t == token
    ensures user.None? ==> unchanged(token)
    ensures user.Some? ==>
              && token.id == Some(user.value.id)
              && token.email == Some(user.value.email)
              && token.trialEnds == Some(user.value.trialEnds)
              && token.otherClaims == old(token.otherClaims)
  {
    if user.Some? {
      token.id := Some(user.value.id);
      token.email := Some(user.value.email);
      token.trialEnds := Some(user.value.trialEnds);
    }
    return token;
  }

  /** `session`: when there is a token and a session user, copy the token's
      id, email and trial end into the session user; return the session. */
  method SessionCallback(session: Session, token: Token?) returns (s: Session)
    modifies session.user
    ensures s == session && session.user == old(session.user)
    ensures token == null && session.user != null ==> unchanged(session.user)
    ensures token != null && session.user != null ==>
              && session.user.id == token.id
              && session.user.email == token.email
              && session.user.trialEnds == token.trialEnds
              && session.user.name == old(session.user.name)
  {
    if token != null && session.user != null {
      session.user.id := token.id;
      session.user.email := token.email;
      session.user.trialEnds := token.trialEnds;
    }
    return session;
  }

  /** Sign-in followed by session resolution: the session user ends up with
      the identity `authorize` returned. */
  method SignInClaims(identity: Identity, token: Token, session: Session)
    requires session.user != null
    modifies token, session.user
    ensures session.user.id == Some(identity.id)
    ensures session.user.email == Some(identity.email)
    ensures session.user.trialEnds == Some(identity.trialEnds)
    ensures token.otherClaims == old(token.otherClaims) && session.user.name == old(session.user.name)
  {
    var t := Jwt(token, Some(identity));
    var s := SessionCallback(session, t);
  }
}
