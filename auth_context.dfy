/** The mock authentication context of src/contexts/AuthContext.tsx: the
    `useAuth` guard and the `user`/`isLoading` state that `login`, `signup`
    and `logout` drive. The awaited one-second delay splits each of `login`
    and `signup` into a start step and a finish step. */
module AuthContext {
  import opened Wrappers
  import opened Strings

  /** The context's `User`. */
  datatype User = User(id: string, name: string, email: string, company: Option<string>)

  const OutsideProviderMessage: string := "useAuth must be used within an AuthProvider"

  /** `useAuth`: the context value, or the error it throws outside a provider. */
  function UseAuth<C>(context: Option<C>): (r: Result<C, string>)
    ensures r.Ok? <==> context.Some?
    ensures r.Ok? ==> r.value == context.value
    ensures r.Err? ==> r.error == OutsideProviderMessage
  {
    match context
    case Some(c) => Ok(c)
    case None => Err(OutsideProviderMessage)
  }

  /** The mock user `login` stores: id "1", the email, "Demo Company", and as
      name the part of the email before its first '@'. */
  function LoginUser(email: string): (u: User)
    ensures u.id == "1" && u.email == email && u.company == Some("Demo Company")
    ensures IsPrefix(u.name, email) && '@' !in u.name
    ensures '@' !in email ==> u.name == email
    ensures '@' in email ==> |u.name| < |email| && email[|u.name|] == '@'
  {
    User("1", BeforeFirst(email, '@'), email, Some("Demo Company"))
  }

  /** The mock user `signup` stores, with the `Date.now()` id as a parameter. */
  function SignupUser(newId: string, name: string, email: string, company: Option<string>): (u: User)
    ensures u.id == newId && u.name == name && u.email == email && u.company == company
  {
    User(newId, name, email, company)
  }

  /** The provider's state. */
  class AuthState {
    var user: Option<User>
    var isLoading: bool

    /** The provider mounts with the stored user, or none, and not loading. */
    constructor (stored: Option<User>)
      ensures user == stored && !isLoading
    {
      user := stored;
      isLoading := false;
    }

    /** The synchronous start of `login` and of `signup`. */
    method BeginRequest()
      modifies this
      ensures isLoading && user == old(user)
    {
      isLoading := true;
    }

    /** The end of `login` once the delay is over. `failed` stands for a
        rejected delay: the error "Login failed" is raised and the user kept.
        The password is never read. */
    method FinishLogin(email: string, password: string, failed: bool) returns (r: Result<(), string>)
      modifies this
      ensures !isLoading
      ensures r.Ok? <==> !failed
      ensures !failed ==> user == Some(LoginUser(email))
      ensures failed ==> user == old(user) && r == Err("Login failed")
    {
      if failed {
        r := Err("Login failed");
      } else {
        user := Some(LoginUser(email));
        r := Ok(());
      }
      isLoading := false;
    }

    /** The end of `signup` once the delay is over; like `FinishLogin` but
        storing the given name, email and company under a fresh id. */
    method FinishSignup(newId: string, name: string, email: string, password: string,
                        company: Option<string>, failed: bool) returns (r: Result<(), string>)
      modifies this
      ensures !isLoading
      ensures r.Ok? <==> !failed
      ensures !failed ==> user == Some(SignupUser(newId, name, email, company))
      ensures failed ==> user == old(user) && r == Err("Signup failed")
    {
      if failed {
        r := Err("Signup failed");
      } else {
        user := Some(SignupUser(newId, name, email, company));
        r := Ok(());
      }
      isLoading := false;
    }

    /** `logout` clears the user from any state and leaves the loading flag alone. */
    method Logout()
      modifies this
      ensures user == None && isLoading == old(isLoading)
    {
      user := None;
    }
  }

  /** The name is cut at the first '@', and an email without one is used whole. */
  lemma SampleLoginNames()
    ensures LoginUser("ada@b@c").name == "ada"
    ensures LoginUser("ada").name == "ada"
  {
    var e := "ada@b@c";
    var n := LoginUser(e).name;
    assert e[0] == 'a' && e[1] == 'd' && e[2] == 'a' && e[3] == '@';
    assert IndexOf(e, '@') == 3;
    assert n == e[..3];
    assert '@' !in "ada";
  }
}
