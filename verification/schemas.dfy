/**
 * The request-body schemas shared by the frontend and the HTTP backend:
 * sign-up needs an email, a password and a name; sign-in an email and a
 * password; room creation a name of 3 to 20 characters. String lengths
 * are counted the way JavaScript counts them, in UTF-16 code units. The
 * email format is a parameter.
 */
module Schemas {
  import opened Wrappers

  /** One field of a request body: missing, a string, or some other JSON value. */
  datatype Value = Missing | Str(s: string) | NonString

  /** A schema violation, naming the field. */
  datatype Issue =
    | InvalidType(field: string)
    | TooSmall(field: string, minimum: nat)
    | TooBig(field: string, maximum: nat)
    | InvalidEmail(field: string)

  /** `s.length` in JavaScript: characters outside the Basic Multilingual Plane count twice. */
  function Utf16Length(s: string): (n: nat)
    ensures n >= |s|
    ensures n <= 2 * |s|
    decreases |s|
  {
    if s == [] then 0 else (if s[0] as int > 0xFFFF then 2 else 1) + Utf16Length(s[1..])
  }

  /** For text inside the Basic Multilingual Plane the JavaScript length is the character count. */
  lemma {:induction false} Utf16LengthBmp(s: string)
    requires forall i :: 0 <= i < |s| ==> s[i] as int <= 0xFFFF
    ensures Utf16Length(s) == |s|
    decreases |s|
  {
    if s != [] {
      Utf16LengthBmp(s[1..]);
    }
  }

  const RoomNameMin: nat := 3
  const RoomNameMax: nat := 20

  /** The issues of `CreateRoomSchema`: `name: z.string().min(3).max(20)`. */
  function RoomIssues(name: Value): (r: seq<Issue>)
    ensures r == [] <==> name.Str? && RoomNameMin <= Utf16Length(name.s) <= RoomNameMax
    ensures !name.Str? ==> r == [InvalidType("name")]
  {
    match name
    case Str(s) =>
      (if Utf16Length(s) < RoomNameMin then [TooSmall("name", RoomNameMin)] else [])
      + (if Utf16Length(s) > RoomNameMax then [TooBig("name", RoomNameMax)] else [])
    case _ => [InvalidType("name")]
  }

  /** `CreateRoomSchema.safeParse`: the room name, or the issues found. */
  function ParseCreateRoom(name: Value): (r: Result<string, seq<Issue>>)
    ensures r.Ok? <==> name.Str? && RoomNameMin <= Utf16Length(name.s) <= RoomNameMax
    ensures r.Ok? ==> r.value == name.s
    ensures r.Err? ==> r.error != []
  {
    var issues := RoomIssues(name);
    if issues == [] then Ok(name.s) else Err(issues)
  }

  /** Names of 2 and 21 characters are refused, 3 and 20 accepted (for plain text). */
  lemma RoomNameBoundaries(s: string)
    requires forall i :: 0 <= i < |s| ==> s[i] as int <= 0xFFFF
    ensures |s| == 2 || |s| == 21 ==> ParseCreateRoom(Str(s)).Err?
    ensures |s| == 3 || |s| == 20 ==> ParseCreateRoom(Str(s)).Ok?
  {
    Utf16LengthBmp(s);
  }

  /** The issues of `z.email(...)`; `isEmail` is zod's email pattern. */
  function EmailIssues(email: Value, isEmail: string -> bool): (r: seq<Issue>)
    ensures r == [] <==> email.Str? && isEmail(email.s)
  {
    match email
    case Str(s) => if isEmail(s) then [] else [InvalidEmail("email")]
    case _ => [InvalidType("email")]
  }

  /** The issues of `z.string()`: any string, the empty one included, passes. */
  function StringIssues(field: string, v: Value): (r: seq<Issue>)
    ensures r == [] <==> v.Str?
  {
    if v.Str? then [] else [InvalidType(field)]
  }

  datatype SignUp = SignUp(email: string, password: string, name: string)
  datatype SignIn = SignIn(email: string, password: string)

  /** `CreateUserSchema.safeParse`: all three fields are checked and every issue is reported. */
  function ParseCreateUser(email: Value, password: Value, name: Value, isEmail: string -> bool): (r: Result<SignUp, seq<Issue>>)
    ensures r.Ok? <==> email.Str? && isEmail(email.s) && password.Str? && name.Str?
    ensures r.Ok? ==> r.value == SignUp(email.s, password.s, name.s)
    ensures r.Err? ==> r.error != []
  {
    var issues := EmailIssues(email, isEmail) + StringIssues("password", password) + StringIssues("name", name);
    if issues == [] then Ok(SignUp(email.s, password.s, name.s)) else Err(issues)
  }

  /** `SignInSchema.safeParse`: only the email and the password are checked. */
  function ParseSignIn(email: Value, password: Value, isEmail: string -> bool): (r: Result<SignIn, seq<Issue>>)
    ensures r.Ok? <==> email.Str? && isEmail(email.s) && password.Str?
    ensures r.Ok? ==> r.value == SignIn(email.s, password.s)
    ensures r.Err? ==> r.error != []
  {
    var issues := EmailIssues(email, isEmail) + StringIssues("password", password);
    if issues == [] then Ok(SignIn(email.s, password.s)) else Err(issues)
  }

  /** Whatever a sign-up body would pass, its email and password pass sign-in too. */
  lemma SignUpImpliesSignIn(email: Value, password: Value, name: Value, isEmail: string -> bool)
    requires ParseCreateUser(email, password, name, isEmail).Ok?
    ensures ParseSignIn(email, password, isEmail).Ok?
  {
  }
}
