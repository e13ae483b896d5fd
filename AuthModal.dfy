/** The sign-in dialog (`src/components/auth/AuthModal.tsx`): its login/signup mode,
    its fields, and a submit that runs the matching session call and closes the
    dialog only when that call returns. */
module AuthModal {
  import opened Wrappers
  import opened Types
  import Auth

  datatype Mode = Login | Signup

  /** `toggleMode`. */
  function Toggled(m: Mode): (r: Mode)
    ensures r != m
  {
    if m == Login then Signup else Login
  }

  lemma ToggleTwice(m: Mode)
    ensures Toggled(Toggled(m)) == m
  {
  }

  /** The one session call a submit makes. */
  datatype AuthCall = LoginCall(email: string, password: string) | SignupCall(name: string, email: string, password: string)

  function CallFor(m: Mode, name: string, email: string, password: string): (c: AuthCall)
    ensures c.LoginCall? <==> m == Login
    ensures c.email == email && c.password == password
    ensures c.SignupCall? ==> c.name == name
  {
    if m == Login then LoginCall(email, password) else SignupCall(name, email, password)
  }

  /** What the call does to the session. */
  function Run(c: AuthCall, s: Auth.Session, id: string): Auth.Step {
    match c
    case LoginCall(email, password) => Auth.LoginStep(s, email, password, id)
    case SignupCall(name, email, password) => Auth.SignupStep(s, name, email, password, id)
  }

  /** A submit returns, and so closes the dialog, exactly when the fields its mode
      sends are all filled in; the name is sent, and required, only when signing up. */
  lemma SubmitSucceedsIff(m: Mode, name: string, email: string, password: string, s: Auth.Session, id: string)
    ensures Run(CallFor(m, name, email, password), s, id).outcome.Ok? <==>
            email != "" && password != "" && (m == Signup ==> name != "")
    ensures Run(CallFor(m, name, email, password), s, id).outcome.Thrown? ==>
            Run(CallFor(m, name, email, password), s, id).session == s
  {
  }

  /** What the dialog renders: its heading, the inputs of the form in order, and the
      submit button's label and state. */
  datatype Form = Form(heading: string, inputs: seq<string>, submitLabel: string, submitEnabled: bool)

  function FormFor(m: Mode, isLoading: bool): (f: Form)
    ensures "name" in f.inputs <==> m == Signup
    ensures |f.inputs| >= 2 && f.inputs[|f.inputs| - 2..] == ["email", "password"]
    ensures f.submitEnabled <==> !isLoading
    ensures f.heading == if m == Login then "Log in to your account" else "Create an account"
  {
    Form(
      if m == Login then "Log in to your account" else "Create an account",
      (if m == Signup then ["name"] else []) + ["email", "password"],
      if isLoading then (if m == Login then "Logging in..." else "Signing up...")
      else (if m == Login then "Log in" else "Sign up"),
      !isLoading)
  }

  class Modal {
    const auth: Auth.Provider
    var mode: Mode
    var name: string
    var email: string
    var password: string
    /** How many times the dialog has asked its owner to close it (`onClose`). */
    var closeRequests: nat

    constructor (auth: Auth.Provider, initialMode: Mode)
      ensures this.auth == auth && mode == initialMode
      ensures name == "" && email == "" && password == "" && closeRequests == 0
    {
      this.auth := auth;
      mode := initialMode;
      name, email, password := "", "", "";
      closeRequests := 0;
    }

    function Render(): Form
      reads this, auth
    {
      FormFor(mode, auth.isLoading)
    }

    method ToggleMode()
      modifies this
      ensures mode == Toggled(old(mode))
      ensures name == old(name) && email == old(email) && password == old(password) && closeRequests == old(closeRequests)
    {
      mode := if mode == Login then Signup else Login;
    }

    method SetFields(name: string, email: string, password: string)
      modifies this
      ensures this.name == name && this.email == email && this.password == password
      ensures mode == old(mode) && closeRequests == old(closeRequests)
    {
      this.name, this.email, this.password := name, email, password;
    }

    /** `handleSubmit`: one session call for the current mode, then `onClose` if it
        returned; a throw is swallowed and the dialog stays open. */
    method HandleSubmit(id: string) returns (call: AuthCall)
      modifies this, auth
      ensures call == CallFor(mode, name, email, password)
      ensures auth.Current() == Run(call, old(auth.Current()), id).session && !auth.isLoading
      ensures closeRequests == old(closeRequests) + if Run(call, old(auth.Current()), id).outcome.Ok? then 1 else 0
      ensures mode == old(mode) && name == old(name) && email == old(email) && password == old(password)
    {
      var outcome;
      if mode == Login {
        call := LoginCall(email, password);
        outcome := auth.Login(email, password, id);
      } else {
        call := SignupCall(name, email, password);
        outcome := auth.Signup(name, email, password, id);
      }
      if outcome.Ok? {
        closeRequests := closeRequests + 1;
      }
    }
  }
}
