/** Password checks and updates (src/authentication/password.rs). Argon2
    hashing and the parsing of PHC strings are done by a library: the model
    receives `verify`, which says of a stored hash string and a candidate
    whether the string is not a PHC hash at all, or whether it is and the
    candidate matches it, and `hash`, which hashes a password with a salt. */
module Authentication {
  import opened Wrappers
  import opened Store

  datatype Credentials = Credentials(username: string, password: string)

  datatype AuthError = InvalidCredentials(reason: string) | UnexpectedError(reason: string)

  datatype Verdict = Match | Mismatch | NotPhc

  type Verifier = (string, string) -> Verdict
  type Hasher = (string, string) -> string


  /** The hash verified when the username is unknown, so that unknown and
      known users cost the same. */
  const FALLBACK_HASH: string :=
    "$argon2id$v=19$m=15000,t=2,p=1$gZiV/M1gPc22ElAH/Jh1Hw$CWOrkoo7oJBQ/iyh7uJ0LO2aLEfrHwTWllSAxT0zRno"

  /** `verify_password_hash`. */
  function VerifyPasswordHash(expected: string, candidate: string, verify: Verifier): (r: Result<(), AuthError>)
    ensures r.Success? <==> verify(expected, candidate) == Match
    ensures verify(expected, candidate) == NotPhc
         ==> r == Failure(UnexpectedError("Failed to parse hash in PHC string format."))
    ensures verify(expected, candidate) == Mismatch ==> r == Failure(InvalidCredentials("Invalid password."))
  {
    match verify(expected, candidate)
    case NotPhc => Failure(UnexpectedError("Failed to parse hash in PHC string format."))
    case Mismatch => Failure(InvalidCredentials("Invalid password."))
    case Match => Success(())
  }

  /** The verdict of `validate_credentials` and the hashes it verified the
      password against, in order. */
  datatype Validation = Validation(result: Result<Uuid, AuthError>, verifiedAgainst: seq<string>)

  const UNKNOWN_USERNAME: string := "Unknown username."

  /** `validate_credentials`; `lookupOk` is the outcome of the user query. */
  function ValidateCredentials(credentials: Credentials, users: seq<User>, lookupOk: bool, verify: Verifier)
    : (v: Validation)
    ensures !lookupOk ==> v.result.Failure? && v.result.error.UnexpectedError? && v.verifiedAgainst == []
    ensures lookupOk ==> |v.verifiedAgainst| == 1
    ensures lookupOk && CredentialsOf(users, credentials.username).None? ==>
              && v.verifiedAgainst == [FALLBACK_HASH]
              && v.result.Failure?
              && (verify(FALLBACK_HASH, credentials.password) != NotPhc ==> v.result.error.InvalidCredentials?)
              && (verify(FALLBACK_HASH, credentials.password) == Match
                  ==> v.result == Failure(InvalidCredentials(UNKNOWN_USERNAME)))
    ensures lookupOk && CredentialsOf(users, credentials.username).Some? ==>
              var (id, stored) := CredentialsOf(users, credentials.username).value;
              && v.verifiedAgainst == [stored]
              && (v.result.Success? <==> verify(stored, credentials.password) == Match)
              && (v.result.Success? ==> v.result.value == id)
    ensures lookupOk ==>
              var expected := if CredentialsOf(users, credentials.username).Some?
                              then CredentialsOf(users, credentials.username).value.1 else FALLBACK_HASH;
              verify(expected, credentials.password) != Match
              ==> v.result == Failure(VerifyPasswordHash(expected, credentials.password, verify).error)
    ensures v.result.Success? ==>
              exists h :: User(v.result.value, credentials.username, h) in users && verify(h, credentials.password) == Match
  {
    if !lookupOk then
      Validation(Failure(UnexpectedError("Failed to perform a query to retrieve stored credentials.")), [])
    else
      var found := CredentialsOf(users, credentials.username);
      var userId: Option<Uuid> := if found.Some? then Some(found.value.0) else None;
      var expected := if found.Some? then found.value.1 else FALLBACK_HASH;
      match VerifyPasswordHash(expected, credentials.password, verify)
      case Failure(e) => Validation(Failure(e), [expected])
      case Success(_) =>
        match userId
        case None => Validation(Failure(InvalidCredentials(UNKNOWN_USERNAME)), [expected])
        case Some(id) => Validation(Success(id), [expected])
  }

  /** `UPDATE users SET password_hash = $1 WHERE user_id = $2` with the hash
      of `password` under `salt`. */
  function SetPasswordHash(users: seq<User>, id: Uuid, password: string, salt: string, hash: Hasher)
    : (users': seq<User>)
    ensures |users'| == |users|
    ensures forall i :: 0 <= i < |users| && users[i].id == id
              ==> users'[i] == users[i].(passwordHash := hash(password, salt))
    ensures forall i :: 0 <= i < |users| && users[i].id != id ==> users'[i] == users[i]
  {
    seq(|users|, i requires 0 <= i < |users| =>
      if users[i].id == id then users[i].(passwordHash := hash(password, salt)) else users[i])
  }

  /** `update_password`; `updateOk` is the outcome of the update query. */
  function UpdatePassword(users: seq<User>, id: Uuid, password: string, salt: string, hash: Hasher, updateOk: bool)
    : (r: Result<seq<User>, string>)
    ensures r.Failure? <==> !updateOk
    ensures r.Success? ==> r.value == SetPasswordHash(users, id, password, salt, hash)
  {
    if updateOk then Success(SetPasswordHash(users, id, password, salt, hash))
    else Failure("Failed to perform a query to update a user password.")
  }

  /** The update rewrites the stored hash of `id`, if there is one, and no
      other user's. */
  lemma {:induction false} SetPasswordHashLookup(users: seq<User>, id: Uuid, other: Uuid, password: string,
                                                 salt: string, hash: Hasher)
    ensures var users' := SetPasswordHash(users, id, password, salt, hash);
            && (PasswordHashOf(users, id).Some? ==> PasswordHashOf(users', id) == Some(hash(password, salt)))
            && (PasswordHashOf(users, id).None? ==> PasswordHashOf(users', id).None?)
            && (other != id ==> PasswordHashOf(users', other) == PasswordHashOf(users, other))
  {
    var users' := SetPasswordHash(users, id, password, salt, hash);
    if |users| > 0 {
      var rest' := SetPasswordHash(users[1..], id, password, salt, hash);
      SetPasswordHashLookup(users[1..], id, other, password, salt, hash);
      assert users'[1..] == rest';
      assert users'[0].id == users[0].id;
      assert users[0].id == id ==> users'[0].passwordHash == hash(password, salt);
      assert users[0].id != id ==> users'[0] == users[0];
      assert PasswordHashOf(users', id) == if users[0].id == id then Some(users'[0].passwordHash)
                                           else PasswordHashOf(rest', id);
      assert PasswordHashOf(users', other) == if users[0].id == other then Some(users'[0].passwordHash)
                                              else PasswordHashOf(rest', other);
    }
  }

  /** After a successful update the stored hash of `id` verifies against the
      new password, and every other user's stored hash is as before. */
  lemma UpdatedPasswordVerifies(users: seq<User>, id: Uuid, other: Uuid, password: string, salt: string,
                                hash: Hasher, verify: Verifier)
    requires verify(hash(password, salt), password) == Match
    requires PasswordHashOf(users, id).Some?
    ensures var users' := UpdatePassword(users, id, password, salt, hash, true).value;
            && PasswordHashOf(users', id).Some?
            && VerifyPasswordHash(PasswordHashOf(users', id).value, password, verify).Success?
            && (other != id ==> PasswordHashOf(users', other) == PasswordHashOf(users, other))
  {
    SetPasswordHashLookup(users, id, other, password, salt, hash);
  }
}
