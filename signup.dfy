/**
 * app/signup.jsx: the sign-up form. Submitting checks the five fields,
 * posts the registration, and on success logs the new user in with the
 * email as the login name. The Signup button (components/Button.jsx) shows
 * a spinner instead of a pressable while `loading` is true, so a second
 * submit cannot start before the first one has finished.
 */
module Signup {
  import opened Wrappers
  import opened Session

  /** The five text inputs; each keeps the last text typed into it. */
  datatype Field = Name | Email | PhoneNo | Password | ConfirmPassword

  /** The result of the client-side checks, in the order the handler applies them. */
  datatype Check = MissingField | PasswordMismatch | Passed

  /**
   * The checks of `onSubmit`: any empty field first, then a password that
   * differs from its confirmation.
   */
  function Validate(email: string, name: string, password: string, confirm: string, phoneNo: string): (c: Check)
    ensures c == MissingField <==> email == "" || name == "" || password == "" || confirm == "" || phoneNo == ""
    ensures c == PasswordMismatch <==>
              email != "" && name != "" && password != "" && confirm != "" && phoneNo != "" && password != confirm
    ensures c == Passed <==>
              email != "" && name != "" && password != "" && phoneNo != "" && password == confirm
  {
    if email == "" || name == "" || password == "" || confirm == "" || phoneNo == "" then MissingField
    else if password != confirm then PasswordMismatch
    else Passed
  }

  /** The JSON body of `/api/register`. */
  datatype RegisterBody = RegisterBody(name: string, email: string, password: string, phoneno: string)

  /** The JSON body of `/api/login`. */
  datatype LoginBody = LoginBody(name: string, password: string)

  /** The outcome of `/api/register`: the HTTP `ok` flag and the body's `message`, or an exception. */
  datatype RegisterReply = Registered(ok: bool, message: string) | RegisterThrew

  /** The outcome of `/api/login`: the HTTP status and the body's fields, or an exception. */
  datatype LoginReply = LoginResponded(status: int, token: string, user: User, message: string) | LoginThrew

  /** What the screen does outward, in order. */
  datatype Effect =
    | Alert(title: string, message: string)
    | Register(registration: RegisterBody)
    | Login(credentials: LoginBody)
    | Navigate(route: string)

  /** Where a submit stands: no request, the registration awaited, or the follow-up login awaited. */
  datatype Phase = Idle | AwaitingRegister | AwaitingLogin

  /** The alert of a submit refused by the checks. */
  function CheckAlert(c: Check): (r: Effect)
    requires c != Passed
    ensures c == MissingField ==> r == Alert("Signup", "Please fill all the fields!")
    ensures c == PasswordMismatch ==> r == Alert("Signup", "Password and confirm password should be the same!")
  {
    if c == MissingField then Alert("Signup", "Please fill all the fields!")
    else Alert("Signup", "Password and confirm password should be the same!")
  }

  /** The effects of a login reply: status 200 goes home, any other status or an exception raises an alert. */
  function LoginEffects(reply: LoginReply): (r: seq<Effect>)
    ensures (r == [Navigate("home")]) <==> reply.LoginResponded? && reply.status == 200
    ensures reply.LoginResponded? && reply.status != 200 ==>
              r == [Alert("Login Failed", if reply.message != "" then reply.message else "Invalid email or password")]
    ensures reply.LoginThrew? ==> r == [Alert("Error", "Something went wrong while logging in.")]
  {
    match reply
    case LoginResponded(status, _, _, message) =>
      if status == 200 then [Navigate("home")]
      else [Alert("Login Failed", if message != "" then message else "Invalid email or password")]
    case LoginThrew => [Alert("Error", "Something went wrong while logging in.")]
  }

  class SignupScreen {
    var email: string
    var name: string
    var password: string
    var confirmPassword: string
    var phoneNo: string
    var loading: bool
    var phase: Phase
    /** The device store's 'token' and 'user' keys as this screen leaves them. */
    var storedToken: Option<string>
    var storedUser: Option<User>
    /** Every alert, request and navigation the screen has made, oldest first. */
    var effects: seq<Effect>

    /** The spinner is on exactly while a request is awaited, and only checked bodies are ever posted. */
    ghost predicate Valid()
      reads this
    {
      && (loading <==> phase != Idle)
      && forall i :: 0 <= i < |effects| && effects[i].Register? ==>
           var b := effects[i].registration; b.name != "" && b.email != "" && b.password != "" && b.phoneno != ""
    }

    constructor ()
      ensures Valid()
      ensures email == "" && name == "" && password == "" && confirmPassword == "" && phoneNo == ""
      ensures !loading && phase == Idle && storedToken == None && storedUser == None && effects == []
    {
      email, name, password, confirmPassword, phoneNo := "", "", "", "", "";
      loading, phase, storedToken, storedUser, effects := false, Idle, None, None, [];
    }

    /** `onChangeText` of one input: the ref now holds `value`. */
    method SetField(field: Field, value: string)
      requires Valid()
      modifies this`email, this`name, this`password, this`confirmPassword, this`phoneNo
      ensures Valid()
      ensures email == if field == Email then value else old(email)
      ensures name == if field == Name then value else old(name)
      ensures password == if field == Password then value else old(password)
      ensures confirmPassword == if field == ConfirmPassword then value else old(confirmPassword)
      ensures phoneNo == if field == PhoneNo then value else old(phoneNo)
    {
      match field
      case Email => email := value;
      case Name => name := value;
      case Password => password := value;
      case ConfirmPassword => confirmPassword := value;
      case PhoneNo => phoneNo := value;
    }

    /**
     * A press on the Signup button (possible only while not loading). A
     * refused check raises its alert and sends nothing; otherwise the
     * spinner comes on and the registration is posted with the field values.
     */
    method Submit()
      requires Valid() && !loading
      modifies this`loading, this`phase, this`effects
      ensures Valid()
      ensures var c := Validate(email, name, password, confirmPassword, phoneNo);
        if c == Passed then
          && loading && phase == AwaitingRegister
          && effects == old(effects) + [Register(RegisterBody(name, email, password, phoneNo))]
        else
          && !loading && phase == Idle
          && effects == old(effects) + [CheckAlert(c)]
    {
      var c := Validate(email, name, password, confirmPassword, phoneNo);
      if c != Passed {
        effects := effects + [CheckAlert(c)];
        assert effects[|effects| - 1] == CheckAlert(c);
        assert forall i :: 0 <= i < |old(effects)| ==> effects[i] == old(effects)[i];
        return;
      }
      loading := true;
      phase := AwaitingRegister;
      effects := effects + [Register(RegisterBody(name, email, password, phoneNo))];
      assert forall i :: 0 <= i < |old(effects)| ==> effects[i] == old(effects)[i];
    }

    /**
     * The registration reply. An ok reply shows the server's message and
     * starts the login with the email (as it stands now) as the name; the
     * spinner stays on. Otherwise an alert, and the spinner goes off.
     */
    method OnRegisterReply(reply: RegisterReply)
      requires Valid() && phase == AwaitingRegister
      modifies this`loading, this`phase, this`effects
      ensures Valid()
      ensures reply.Registered? && reply.ok ==>
                && loading && phase == AwaitingLogin
                && effects == old(effects) + [Alert("Signup", reply.message), Login(LoginBody(email, password))]
      ensures reply.Registered? && !reply.ok ==>
                !loading && phase == Idle && effects == old(effects) + [Alert("Signup Error", reply.message)]
      ensures reply.RegisterThrew? ==>
                !loading && phase == Idle && effects == old(effects) + [Alert("Error", "Something went wrong. Please try again.")]
    {
      var added: seq<Effect>;
      match reply {
      case Registered(ok, message) =>
        if ok {
          added := [Alert("Signup", message), Login(LoginBody(email, password))];
          phase := AwaitingLogin;
        } else {
          added := [Alert("Signup Error", message)];
          phase := Idle;
          loading := false;
        }
      case RegisterThrew =>
        added := [Alert("Error", "Something went wrong. Please try again.")];
        phase := Idle;
        loading := false;
      }
      effects := effects + added;
      assert forall i :: 0 <= i < |old(effects)| ==> effects[i] == old(effects)[i];
      assert forall i :: |old(effects)| <= i < |effects| ==> !effects[i].Register?;
    }

    /**
     * The login reply. Status 200 stores the token and the user and goes
     * home; anything else raises an alert and stores nothing. Either way
     * the spinner goes off.
     */
    method OnLoginReply(reply: LoginReply)
      requires Valid() && phase == AwaitingLogin
      modifies this`loading, this`phase, this`storedToken, this`storedUser, this`effects
      ensures Valid()
      ensures !loading && phase == Idle
      ensures effects == old(effects) + LoginEffects(reply)
      ensures reply.LoginResponded? && reply.status == 200 ==>
                storedToken == Some(reply.token) && storedUser == Some(reply.user)
      ensures !(reply.LoginResponded? && reply.status == 200) ==>
                storedToken == old(storedToken) && storedUser == old(storedUser)
    {
      if reply.LoginResponded? && reply.status == 200 {
        storedToken := Some(reply.token);
        storedUser := Some(reply.user);
      }
      effects := effects + LoginEffects(reply);
      assert forall i :: 0 <= i < |old(effects)| ==> effects[i] == old(effects)[i];
      phase := Idle;
      loading := false;
    }
  }
}
