/** The session store (`src/context/AuthContext.tsx`): a mock login, signup and
    logout over the current user, the loading flag and the single `lightfolio_user`
    slot of local storage. The transitions are stated as functions over the part
    of the state a reload can observe; the provider's methods perform them step by step. */
module Auth {
  import opened Wrappers
  import opened Types

  /** What the storage slot can hold: a user serialised by login or signup, or text
      that does not parse as one. */
  datatype Stored = Serialized(user: User) | Garbage(text: string)

  /** The signed-in user and the storage slot. */
  datatype Session = Session(user: Option<User>, storage: Option<Stored>)

  /** The session after a call and how the call settled. */
  datatype Step = Step(session: Session, outcome: Result<()>)

  /** `email.split('@')[0]`: the part of the address before its first '@'. */
  function DisplayName(email: string): (name: string)
    ensures name <= email
    ensures '@' !in name
    ensures |name| < |email| ==> email[|name|] == '@'
  {
    if email == [] || email[0] == '@' then [] else [email[0]] + DisplayName(email[1..])
  }

  /** The display name of `local@domain` is `local`, whatever the domain holds. */
  lemma {:induction false} DisplayNameOfAddress(local: string, domain: string)
    requires '@' !in local
    ensures DisplayName(local + "@" + domain) == local
  {
    if local != [] {
      assert (local + "@" + domain)[1..] == local[1..] + "@" + domain;
      DisplayNameOfAddress(local[1..], domain);
    }
  }

  /** An address without '@' is its own display name. */
  lemma DisplayNameWithoutAt(email: string)
    requires '@' !in email
    ensures DisplayName(email) == email
  {
  }

  /** The provider's mount effect: a slot holding a serialised user signs that user in;
      a slot holding anything else that is not empty is cleared; an empty slot is
      skipped, since `''` is falsy. */
  function Restore(storage: Option<Stored>): (s: Session)
    ensures storage.Some? && storage.value.Serialized? ==> s == Session(Some(storage.value.user), storage)
    ensures storage.Some? && storage.value.Garbage? ==>
              s.user.None? && (s.storage.None? <==> storage.value.text != "") && (s.storage.Some? ==> s.storage == storage)
    ensures storage.None? ==> s == Session(None, None)
  {
    match storage
    case None => Session(None, None)
    case Some(Serialized(u)) => Session(Some(u), storage)
    case Some(Garbage(t)) => if t == "" then Session(None, storage) else Session(None, None)
  }

  predicate AcceptsLogin(email: string, password: string) {
    email != "" && password != ""
  }

  function LoginStep(s: Session, email: string, password: string, id: string): (r: Step)
    ensures r.outcome.Ok? <==> AcceptsLogin(email, password)
    ensures r.outcome.Ok? ==> r.session.user == Some(User(id, DisplayName(email), email, None)) &&
                              r.session.storage == Some(Serialized(r.session.user.value))
    ensures r.outcome.Thrown? ==> r.session == s && r.outcome.message == "Invalid credentials"
  {
    if AcceptsLogin(email, password) then
      var u := User(id, DisplayName(email), email, None);
      Step(Session(Some(u), Some(Serialized(u))), Ok(()))
    else Step(s, Thrown("Invalid credentials"))
  }

  predicate AcceptsSignup(name: string, email: string, password: string) {
    name != "" && email != "" && password != ""
  }

  function SignupStep(s: Session, name: string, email: string, password: string, id: string): (r: Step)
    ensures r.outcome.Ok? <==> AcceptsSignup(name, email, password)
    ensures r.outcome.Ok? ==> r.session.user == Some(User(id, name, email, None)) &&
                              r.session.storage == Some(Serialized(r.session.user.value))
    ensures r.outcome.Thrown? ==> r.session == s && r.outcome.message == "Please fill all required fields"
  {
    if AcceptsSignup(name, email, password) then
      var u := User(id, name, email, None);
      Step(Session(Some(u), Some(Serialized(u))), Ok(()))
    else Step(s, Thrown("Please fill all required fields"))
  }

  function LogoutStep(s: Session): (r: Session)
    ensures r.user.None? && r.storage.None?
  {
    Session(None, None)
  }

  /** Once the stored user has been read: a user is signed in exactly when the slot
      holds that user, serialised. */
  predicate Coherent(s: Session) {
    (s.user.Some? <==> s.storage.Some? && s.storage.value.Serialized?) &&
    (s.user.Some? ==> s.storage.value.user == s.user.value)
  }

  /** Every transition after the mount effect keeps the slot and the user in step. */
  lemma CoherentIsInvariant(s: Session, storage: Option<Stored>, name: string, email: string, password: string, id: string)
    ensures Coherent(Restore(storage))
    ensures Coherent(s) ==> Coherent(LoginStep(s, email, password, id).session)
    ensures Coherent(s) ==> Coherent(SignupStep(s, name, email, password, id).session)
    ensures Coherent(LogoutStep(s))
  {
  }

  /** A reload restores exactly the user that was signed in, or nobody after a logout. */
  lemma ReloadRestoresUser(s: Session)
    requires Coherent(s)
    ensures Restore(s.storage).user == s.user
  {
  }

  /** `login` then reload: the user comes back with the name taken from the address. */
  lemma LoginSurvivesReload(s: Session, local: string, domain: string, password: string, id: string)
    requires '@' !in local && password != ""
    ensures var r := LoginStep(s, local + "@" + domain, password, id);
            r.outcome.Ok? && Restore(r.session.storage).user == Some(User(id, local, local + "@" + domain, None))
  {
    DisplayNameOfAddress(local, domain);
  }

  /** `useAuth()`: the provider's value, or the error thrown outside a provider. */
  function UseAuth<C>(context: Option<C>): (r: Result<C>)
    ensures context.Some? ==> r == Ok(context.value)
    ensures context.None? ==> r == Thrown("useAuth must be used within an AuthProvider")
  {
    if context.None? then Thrown("useAuth must be used within an AuthProvider") else Ok(context.value)
  }

  /** `AuthProvider`'s state; `storage` is the `lightfolio_user` slot. */
  class Provider {
    var user: Option<User>
    var isLoading: bool
    var storage: Option<Stored>

    function Current(): Session
      reads this
    {
      Session(user, storage)
    }

    /** Mount: nobody signed in and loading, with whatever the slot already holds. */
    constructor (stored: Option<Stored>)
      ensures user.None? && isLoading && storage == stored
    {
      user := None;
      isLoading := true;
      storage := stored;
    }

    /** The mount effect; it runs once, before anyone can have signed in. */
    method LoadStoredUser()
      requires user.None?
      modifies this
      ensures Current() == Restore(old(storage)) && !isLoading
    {
      if storage.Some? {
        match storage.value
        case Serialized(u) =>
          user := Some(u);
        case Garbage(t) =>
          if t != "" {
            storage := None;
          }
      }
      isLoading := false;
    }

    /** `login(email, password)`, with the new user's id passed in. */
    method Login(email: string, password: string, id: string) returns (outcome: Result<()>)
      modifies this
      ensures Current() == LoginStep(old(Current()), email, password, id).session
      ensures outcome == LoginStep(old(Current()), email, password, id).outcome
      ensures !isLoading
    {
      isLoading := true;
      if email != "" && password != "" {
        var u := User(id, DisplayName(email), email, None);
        user := Some(u);
        storage := Some(Serialized(u));
        outcome := Ok(());
      } else {
        outcome := Thrown("Invalid credentials");
      }
      isLoading := false;
    }

    /** `signup(name, email, password)`, with the new user's id passed in. */
    method Signup(name: string, email: string, password: string, id: string) returns (outcome: Result<()>)
      modifies this
      ensures Current() == SignupStep(old(Current()), name, email, password, id).session
      ensures outcome == SignupStep(old(Current()), name, email, password, id).outcome
      ensures !isLoading
    {
      isLoading := true;
      if name != "" && email != "" && password != "" {
        var u := User(id, name, email, None);
        user := Some(u);
        storage := Some(Serialized(u));
        outcome := Ok(());
      } else {
        outcome := Thrown("Please fill all required fields");
      }
      isLoading := false;
    }

    method Logout()
      modifies this
      ensures Current() == LogoutStep(old(Current())) && isLoading == old(isLoading)
    {
      user := None;
      storage := None;
    }
  }
}
