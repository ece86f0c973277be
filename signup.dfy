/**
 * The signup form of app/auth/signup/page.tsx: validation, the
 * case-insensitive duplicate-email check against the user list kept in
 * localStorage, the append, and the immediate login.
 */
module Signup {
  import opened Wrappers
  import opened Text
  import opened UserContext

  const MissingFieldsMessage: string := "Please enter name and email."
  const DuplicateMessage: string := "Account already exists. Please log in."

  datatype SignUpOutcome = MissingFields | AlreadyExists | Created(user: User)

  /** The user list under the users key (`raw ? JSON.parse(raw) : []`). */
  function UsersIn(storage: map<string, Stored>): seq<User> {
    if UsersKey in storage && storage[UsersKey].UserList? then storage[UsersKey].users else []
  }

  /** `users.some(u => u.email.toLowerCase() === email.trim().toLowerCase())`. */
  predicate EmailTaken(users: seq<User>, email: string) {
    exists i :: 0 <= i < |users| && Lower(users[i].email) == Lower(Trim(email))
  }

  /** No two stored users share an email up to ASCII case. */
  predicate EmailsDistinct(users: seq<User>) {
    forall i, j :: 0 <= i < j < |users| ==> Lower(users[i].email) != Lower(users[j].email)
  }

  /** What `handleSubmit` decides, given the stored users and the three inputs. */
  function SignUp(users: seq<User>, name: string, email: string, company: string): (o: SignUpOutcome)
    ensures o.MissingFields? <==> IsBlank(name) || IsBlank(email)
    ensures o.AlreadyExists? <==>
      !IsBlank(name) && !IsBlank(email) && exists i :: 0 <= i < |users| && Lower(users[i].email) == Lower(Trim(email))
    ensures o.Created? ==> o.user == User(Trim(name), Trim(email), Trim(company))
    ensures o.Created? ==> o.user.name != "" && o.user.email != ""
  {
    if Trim(name) == [] || Trim(email) == [] then MissingFields
    else if EmailTaken(users, email) then AlreadyExists
    else Created(User(Trim(name), Trim(email), Trim(company)))
  }

  function ErrorText(o: SignUpOutcome): string {
    match o
    case MissingFields => MissingFieldsMessage
    case AlreadyExists => DuplicateMessage
    case Created(_) => ""
  }

  /** A successful signup keeps the stored emails pairwise distinct up to case. */
  lemma {:induction false} SignUpKeepsEmailsDistinct(users: seq<User>, name: string, email: string, company: string)
    requires EmailsDistinct(users)
    requires SignUp(users, name, email, company).Created?
    ensures EmailsDistinct(users + [SignUp(users, name, email, company).user])
  {
    var u := SignUp(users, name, email, company).user;
    var all := users + [u];
    forall i, j | 0 <= i < j < |all|
      ensures Lower(all[i].email) != Lower(all[j].email)
    {
      if j == |users| {
        assert !EmailTaken(users, email);
        assert all[i] == users[i];
      } else {
        assert all[i] == users[i] && all[j] == users[j];
      }
    }
  }

  /** The storage after a successful signup: the user appended to the list, then stored as current. */
  function StorageAfterSignUp(storage: map<string, Stored>, u: User): (r: map<string, Stored>)
    ensures UsersIn(r) == UsersIn(storage) + [u]
    ensures Loaded(r, None) == Some(u)
    ensures forall k :: k != UsersKey && k != UserKey ==> (k in r <==> k in storage)
    ensures forall k :: k != UsersKey && k != UserKey && k in r ==> r[k] == storage[k]
  {
    assert |UsersKey| != |UserKey|;
    storage[UsersKey := UserList(UsersIn(storage) + [u])][UserKey := UserRecord(u)]
  }

  class SignUpForm {
    var name: string
    var email: string
    var company: string
    var error: string

    constructor ()
      ensures name == "" && email == "" && company == "" && error == ""
    {
      name, email, company, error := "", "", "", "";
    }

    method HandleSubmit(session: Session)
      modifies this`error, session
      ensures error == ErrorText(SignUp(UsersIn(old(session.storage)), old(name), old(email), old(company)))
      ensures SignUp(UsersIn(old(session.storage)), old(name), old(email), old(company)).Created? ==>
        && session.user == Some(SignUp(UsersIn(old(session.storage)), old(name), old(email), old(company)).user)
        && session.storage == StorageAfterSignUp(old(session.storage), session.user.value)
      ensures !SignUp(UsersIn(old(session.storage)), old(name), old(email), old(company)).Created? ==>
        session.user == old(session.user) && session.storage == old(session.storage)
    {
      // The checks are the decision SignUp; the effects follow in source order.
      var users := UsersIn(session.storage);
      var o := SignUp(users, name, email, company);
      error := "";
      if !o.Created? {
        error := ErrorText(o);
        return;
      }
      users := users + [o.user];
      session.storage := session.storage[UsersKey := UserList(users)];
      session.SetUser(Some(o.user));
      session.storage := session.storage[UserKey := UserRecord(o.user)];
    }
  }
}
