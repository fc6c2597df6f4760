/** The sign-up page: the form's validation chain and the append of a new,
    pending volunteer to the registry. */
module SignupPage {
  import opened Common
  import opened Storage

  /** The first validation message for the form, or `None` when it passes.
      Empty fields are reported first, then a mismatch, then a short
      password. */
  function FormError(fullName: string, email: string, password: string, confirmPassword: string)
    : (r: Option<string>)
    ensures r.None? <==> fullName != "" && email != "" && password != "" && confirmPassword != ""
                         && password == confirmPassword && |password| >= 8
    ensures (fullName == "" || email == "" || password == "" || confirmPassword == "")
            ==> r == Some("All fields are required")
    ensures (fullName != "" && email != "" && password != "" && confirmPassword != "" &&
             password != confirmPassword) ==> r == Some("Passwords do not match")
    ensures (fullName != "" && email != "" && password != "" && confirmPassword != "" &&
             password == confirmPassword && |password| < 8)
            ==> r == Some("Password must be at least 8 characters long")
  {
    if fullName == "" || email == "" || password == "" || confirmPassword == "" then
      Some("All fields are required")
    else if password != confirmPassword then Some("Passwords do not match")
    else if |password| < 8 then Some("Password must be at least 8 characters long")
    else None
  }

  /** The entry a sign-up creates: always a pending volunteer. */
  function NewUser(fullName: string, email: string, password: string, createdAt: string): (u: User)
    ensures u.role == Volunteer && u.status == Some(Pending)
    ensures u.email == email && u.password == password && u.fullName == fullName
  {
    User(fullName, email, password, Volunteer, Some(Pending), Some(createdAt))
  }

  /** Appending an entry whose email is new keeps registry emails unique. */
  lemma AppendFreshEmailKeepsUnique(users: seq<User>, u: User)
    requires UniqueEmails(users) && !HasEmail(users, u.email)
    ensures UniqueEmails(users + [u])
  {
    forall i, j | 0 <= i < j < |users| + 1 ensures (users + [u])[i].email != (users + [u])[j].email {
      if j == |users| {
        assert (users + [u])[i] == users[i];
      }
    }
  }

  class SignupPage {
    var fullName: string
    var email: string
    var password: string
    var confirmPassword: string
    var error: Option<string>
    const storage: LocalStorage

    constructor (storage: LocalStorage)
      ensures this.storage == storage
      ensures fullName == "" && email == "" && password == "" && confirmPassword == "" && error == None
    {
      this.storage := storage;
      fullName, email, password, confirmPassword, error := "", "", "", "", None;
    }

    /** `saveUserData`: read the registry, refuse a taken email, otherwise
        push the entry and write the list back. */
    method SaveUserData(u: User) returns (ok: bool)
      modifies this, storage
      ensures ok <==> !old(storage.users).Corrupt? && !HasEmail(ReadList(old(storage.users)).value, u.email)
      ensures ok ==> storage.users == List(ReadList(old(storage.users)).value + [u]) && error == old(error)
      ensures !ok ==> storage.users == old(storage.users) && error.Some?
      ensures old(storage.users).List? && HasEmail(old(storage.users).items, u.email) ==>
                error == Some("Email already registered")
      ensures ok && UniqueEmails(ReadList(old(storage.users)).value) ==> UniqueEmails(storage.users.items)
      ensures storage.strings == old(storage.strings) && storage.invoices == old(storage.invoices)
      ensures fullName == old(fullName) && email == old(email)
      ensures password == old(password) && confirmPassword == old(confirmPassword)
    {
      var existing := ReadList(storage.users);
      if existing.Err? {
        error := Some(existing.message);
        return false;
      }
      var users := existing.value;
      if HasEmail(users, u.email) {
        error := Some("Email already registered");
        return false;
      }
      if UniqueEmails(users) {
        AppendFreshEmailKeepsUnique(users, u);
      }
      users := users + [u];
      storage.SetUsers(users);
      ok := true;
    }

    /** `handleSubmit`; `createdAt` is the timestamp the page reads from the
        clock. Returns where the page navigates, if anywhere. */
    method HandleSubmit(createdAt: string) returns (nav: Option<string>)
      modifies this, storage
      ensures fullName == old(fullName) && email == old(email)
      ensures password == old(password) && confirmPassword == old(confirmPassword)
      ensures storage.invoices == old(storage.invoices)
      ensures FormError(fullName, email, password, confirmPassword).Some? ==>
                error == FormError(fullName, email, password, confirmPassword) && nav == None
                && storage.users == old(storage.users) && storage.strings == old(storage.strings)
      ensures FormError(fullName, email, password, confirmPassword).None? ==>
                var u := NewUser(fullName, email, password, createdAt);
                var before := ReadList(old(storage.users));
                if before.Ok? && !HasEmail(before.value, email) then
                  storage.users == List(before.value + [u]) && nav == Some("/login") && error == None
                  && storage.strings == old(storage.strings)["lastRegisteredEmail" := email]
                else
                  storage.users == old(storage.users) && nav == None && error.Some?
                  && storage.strings == old(storage.strings)
    {
      error := None;
      var problem := FormError(fullName, email, password, confirmPassword);
      if problem.Some? {
        error := problem;
        return None;
      }
      var u := NewUser(fullName, email, password, createdAt);
      var saved := SaveUserData(u);
      if saved {
        storage.SetItem("lastRegisteredEmail", email);
        nav := Some("/login");
      } else {
        nav := None;
      }
    }
  }
}
