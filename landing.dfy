/**
 * The landing page of app/page.tsx: the sign-in handler, checked in order
 * against the user table (a map keyed by the stored email column), and the
 * slide index that the auto-scroll timer advances.
 */
module Landing {
  import opened Wrappers
  import opened Text
  import opened UserContext

  datatype DbUser = DbUser(username: string, email: string, password: string, company: Option<string>)

  /** How the user-table query went: normally, with an error result, or with a thrown exception. */
  datatype DbFault = NoFault | QueryError | Thrown

  datatype SignInOutcome = MissingEmail | MissingPassword | UnknownUser | WrongPassword | Crashed | SignedIn(user: User)

  const MissingEmailMessage: string := "Please enter your email."
  const MissingPasswordMessage: string := "Please enter your password."
  const UnknownUserMessage: string := "Unknown user. Please create an account first."
  const WrongPasswordMessage: string := "Invalid email or password."
  const CrashedMessage: string := "Something went wrong. Please try again."

  /** `email.toLowerCase().trim()`, the value the email column is matched against. */
  function LookupKey(email: string): string {
    Trim(Lower(email))
  }

  /** The outcome of `handleSignIn`: the checks run in source order and stop at the first failure. */
  function SignIn(email: string, password: string, db: map<string, DbUser>, fault: DbFault): (o: SignInOutcome)
    ensures o.MissingEmail? <==> IsBlank(email)
    ensures o.MissingPassword? <==> !IsBlank(email) && IsBlank(password)
    ensures o.Crashed? <==> !IsBlank(email) && !IsBlank(password) && fault.Thrown?
    ensures o.UnknownUser? <==>
      !IsBlank(email) && !IsBlank(password) && (fault.QueryError? || (fault.NoFault? && LookupKey(email) !in db))
    ensures o.WrongPassword? <==>
      !IsBlank(email) && !IsBlank(password) && fault.NoFault? && LookupKey(email) in db
      && db[LookupKey(email)].password != password
    ensures o.SignedIn? ==>
      var row := db[LookupKey(email)];
      && fault.NoFault? && LookupKey(email) in db && row.password == password
      && o.user == User(row.username, row.email, OrElse(row.company, ""))
  {
    if Trim(email) == [] then MissingEmail
    else if Trim(password) == [] then MissingPassword
    else if fault.Thrown? then Crashed
    else if fault.QueryError? || LookupKey(email) !in db then UnknownUser
    else
      var row := db[LookupKey(email)];
      if row.password != password then WrongPassword
      else SignedIn(User(row.username, row.email, OrElse(row.company, "")))
  }

  /** A blank email is rejected before the table is consulted: the table cannot change the answer. */
  lemma BlankEmailSkipsLookup(email: string, password: string, db1: map<string, DbUser>, f1: DbFault,
                              db2: map<string, DbUser>, f2: DbFault)
    requires IsBlank(email)
    ensures SignIn(email, password, db1, f1) == SignIn(email, password, db2, f2) == MissingEmail
  {
  }

  /** The password is compared exactly: one that differs from the stored one only by surrounding spaces is refused. */
  lemma PasswordNotTrimmed(email: string, password: string, db: map<string, DbUser>)
    requires !IsBlank(email) && !IsBlank(password) && LookupKey(email) in db
    requires password != db[LookupKey(email)].password && Trim(password) == Trim(db[LookupKey(email)].password)
    ensures SignIn(email, password, db, NoFault).WrongPassword?
  {
  }

  /** The email matters only through its lookup key: case and surrounding spaces do not change the outcome. */
  lemma EmailNormalised(e1: string, e2: string, password: string, db: map<string, DbUser>, fault: DbFault)
    requires !IsBlank(e1) && !IsBlank(e2) && LookupKey(e1) == LookupKey(e2)
    ensures SignIn(e1, password, db, fault) == SignIn(e2, password, db, fault)
  {
  }

  function Message(o: SignInOutcome): string {
    match o
    case MissingEmail => MissingEmailMessage
    case MissingPassword => MissingPasswordMessage
    case UnknownUser => UnknownUserMessage
    case WrongPassword => WrongPasswordMessage
    case Crashed => CrashedMessage
    case SignedIn(_) => ""
  }

  class SignInForm {
    var email: string
    var password: string
    var loginError: string
    var loginLoading: bool

    constructor ()
      ensures email == "" && password == "" && loginError == "" && !loginLoading
    {
      email, password, loginError, loginLoading := "", "", "", false;
    }

    method HandleSignIn(session: Session, db: map<string, DbUser>, fault: DbFault)
      modifies this`loginError, this`loginLoading, session
      ensures loginError == Message(SignIn(old(email), old(password), db, fault))
      ensures loginLoading ==
        (if SignIn(old(email), old(password), db, fault).MissingEmail?
            || SignIn(old(email), old(password), db, fault).MissingPassword?
         then old(loginLoading) else false)
      ensures SignIn(old(email), old(password), db, fault).SignedIn? ==>
        && session.user == Some(SignIn(old(email), old(password), db, fault).user)
        && session.storage == StorageAfterSet(old(session.storage), session.user)
      ensures !SignIn(old(email), old(password), db, fault).SignedIn? ==>
        session.user == old(session.user) && session.storage == old(session.storage)
    {
      // The checks and the table lookup are the decision SignIn; the
      // handler applies its effects around it in the source's order.
      var o := SignIn(email, password, db, fault);
      loginError := "";
      if o.MissingEmail? || o.MissingPassword? {
        loginError := Message(o);
        return;
      }
      loginLoading := true;
      if o.SignedIn? {
        session.SetUser(Some(o.user));
      } else {
        loginError := Message(o);
      }
      loginLoading := false;
    }
  }

  const Slides: seq<string> := ["hero", "video", "why", "impact"]

  /** The auto-scroll step `(prev + 1) % slides.length`. */
  function NextSlide(prev: nat): (r: nat)
    ensures r < |Slides|
    ensures prev + 1 < |Slides| ==> r == prev + 1
    ensures prev == |Slides| - 1 ==> r == 0
  {
    (prev + 1) % |Slides|
  }

  /** Four steps bring every slide index back to itself. */
  lemma SlidesCycle(i: nat)
    requires i < |Slides|
    ensures NextSlide(NextSlide(NextSlide(NextSlide(i)))) == i
  {
  }
}
