/** `POST /admin/password` (src/routes/admin/password/post.rs): an ordered
    chain of checks, each of which can end the request. The first check that
    fails decides the error and its rendering; later checks do not run, and
    the password is written only when every check passed. */
module ChangePassword {
  import opened Wrappers
  import opened Http
  import opened Store
  import opened AdminPasswords
  import Authentication

  datatype FormData = FormData(currentPassword: Text, newPassword: Text, newPasswordConfirmation: Text)

  datatype ChangePasswordError = BadRequest(message: string) | UnexpectedError

  const CHANGE_PASSWORD_PATH: string := "/admin/change_password"
  const WRONG_PASSWORD: string := "Wrong password"
  const PASSWORDS_DIFFER: string := "You entered two different new passwords - the field values must match"
  const Changed: Flash := SuccessFlash("Successfully changed password")

  /** `ResponseError::status_code`. */
  function StatusCodeOf(e: ChangePasswordError): (s: StatusCode)
    ensures e.BadRequest? <==> IsClientError(s)
    ensures e.UnexpectedError? <==> IsServerError(s)
    ensures e.BadRequest? ==> s == BAD_REQUEST
    ensures e.UnexpectedError? ==> s == INTERNAL_SERVER_ERROR
  {
    match e
    case BadRequest(_) => BAD_REQUEST
    case UnexpectedError => INTERNAL_SERVER_ERROR
  }

  /** `ResponseError::error_response`: a bad request is rendered as a
      redirect back to the form with the message flashed (not with the 400
      that `status_code` names); an unexpected error keeps its 500 but
      carries the same `Location`. */
  function ErrorResponse(e: ChangePasswordError): (r: Reply)
    ensures r.response.location == Some(CHANGE_PASSWORD_PATH)
    ensures e.BadRequest? ==> IsRedirectTo(r.response, CHANGE_PASSWORD_PATH) && r.flashes == [ErrorFlash(e.message)]
    ensures e.UnexpectedError? ==> r.response.status == INTERNAL_SERVER_ERROR && r.flashes == []
  {
    match e
    case BadRequest(message) => Reply(Response(SEE_OTHER, Some(CHANGE_PASSWORD_PATH)), [ErrorFlash(message)])
    case UnexpectedError => Reply(Response(StatusCodeOf(e), Some(CHANGE_PASSWORD_PATH)), [])
  }

  /** The checks, in the order the handler runs them. */
  datatype Step = ParseCurrent | ParseNew | ParseConfirmation | CompareNew | LookupHash | VerifyCurrent | Update

  const PIPELINE: seq<Step> := [ParseCurrent, ParseNew, ParseConfirmation, CompareNew, LookupHash, VerifyCurrent, Update]

  datatype ChangePasswordIo = ChangePasswordIo(
    lookupOk: bool,   // get_stored_password_hash reached the store
    salt: string,     // SaltString::generate
    updateOk: bool)   // the UPDATE succeeded

  /** The reply, the users table afterwards, and the steps that ran. */
  datatype ChangeOutcome = ChangeOutcome(reply: Reply, users: seq<User>, steps: seq<Step>)

  /** The request ends at step `k` of the chain with the given reply. */
  function StopAt(k: nat, reply: Reply, users: seq<User>): (o: ChangeOutcome)
    requires k < |PIPELINE|
    ensures o.steps == PIPELINE[..k + 1] && o.users == users
  {
    ChangeOutcome(reply, users, PIPELINE[..k + 1])
  }

  /** Every check before the update passes: the three fields parse, the
      new password and its confirmation agree, the stored hash is found, and
      the current password verifies against it. */
  predicate ChecksPass(userId: Uuid, form: FormData, users: seq<User>, io: ChangePasswordIo,
                       verify: Authentication.Verifier)
  {
    && Parse(form.currentPassword).Success?
    && Parse(form.newPassword).Success?
    && Parse(form.newPasswordConfirmation).Success?
    && Chars(form.newPassword) == Chars(form.newPasswordConfirmation)
    && io.lookupOk
    && PasswordHashOf(users, userId).Some?
    && verify(PasswordHashOf(users, userId).value, Chars(form.currentPassword)) == Authentication.Match
  }

  /** `change_password`. */
  function ChangePassword(userId: Uuid, form: FormData, users: seq<User>, io: ChangePasswordIo,
                          verify: Authentication.Verifier, hash: Authentication.Hasher): (o: ChangeOutcome)
    ensures 0 < |o.steps| <= |PIPELINE| && o.steps == PIPELINE[..|o.steps|]
    ensures Parse(form.currentPassword).Failure?
         ==> o.reply == ErrorResponse(BadRequest(WRONG_PASSWORD)) && o.steps == PIPELINE[..1]
    ensures Parse(form.currentPassword).Success? && Parse(form.newPassword).Failure?
         ==> o.reply == ErrorResponse(BadRequest(Parse(form.newPassword).error.Message())) && o.steps == PIPELINE[..2]
    ensures Parse(form.currentPassword).Success? && Parse(form.newPassword).Success?
            && Parse(form.newPasswordConfirmation).Failure?
         ==> o.reply == ErrorResponse(BadRequest(Parse(form.newPasswordConfirmation).error.Message()))
             && o.steps == PIPELINE[..3]
    ensures Parse(form.currentPassword).Success? && Parse(form.newPassword).Success?
            && Parse(form.newPasswordConfirmation).Success?
            && Chars(form.newPassword) != Chars(form.newPasswordConfirmation)
         ==> o.reply == ErrorResponse(BadRequest(PASSWORDS_DIFFER)) && o.steps == PIPELINE[..4]
    ensures o.users != users ==> o.steps == PIPELINE
    ensures o.steps == PIPELINE && io.updateOk ==>
              && o.users == Authentication.SetPasswordHash(users, userId, Chars(form.newPassword), io.salt, hash)
              && IsRedirectTo(o.reply.response, CHANGE_PASSWORD_PATH)
              && o.reply.flashes == [Changed, MustLogIn]
    ensures o.steps != PIPELINE || !io.updateOk ==> o.users == users && o.reply.flashes != [Changed, MustLogIn]
    ensures o.reply.flashes == [Changed, MustLogIn] <==> ChecksPass(userId, form, users, io, verify) && io.updateOk
  {
    match Parse(form.currentPassword)
    case Failure(_) => StopAt(0, ErrorResponse(BadRequest(WRONG_PASSWORD)), users)
    case Success(currentPassword) =>
      match Parse(form.newPassword)
      case Failure(e) => StopAt(1, ErrorResponse(BadRequest(e.Message())), users)
      case Success(newPassword) =>
        match Parse(form.newPasswordConfirmation)
        case Failure(e) => StopAt(2, ErrorResponse(BadRequest(e.Message())), users)
        case Success(newPasswordConfirmation) =>
          if newPassword.AsRef() != newPasswordConfirmation.AsRef() then
            StopAt(3, ErrorResponse(BadRequest(PASSWORDS_DIFFER)), users)
          else if !io.lookupOk then StopAt(4, Reply(E500(), []), users)
          else
            match PasswordHashOf(users, userId)
            case None => StopAt(4, Reply(E500(), []), users)
            case Some(passwordHash) =>
              match Authentication.VerifyPasswordHash(passwordHash, currentPassword.AsRef(), verify)
              case Failure(e) =>
                if e.InvalidCredentials? then StopAt(5, ErrorResponse(BadRequest(WRONG_PASSWORD)), users)
                else StopAt(5, ErrorResponse(UnexpectedError), users)
              case Success(_) =>
                match Authentication.UpdatePassword(users, userId, newPassword.AsRef(), io.salt, hash, io.updateOk)
                case Failure(_) => StopAt(6, Reply(E500(), []), users)
                case Success(users') =>
                  var redirect := SeeOther(CHANGE_PASSWORD_PATH);
                  StopAt(6, Reply(redirect.response, [Changed] + redirect.flashes), users')
  }

  /** The store and verification steps: a missing stored hash or a failed
      lookup is a plain 500; a stored hash that is not a PHC string is an
      unexpected error (500, back to the form); a wrong current password is
      "Wrong password". */
  lemma StoreAndVerifyOutcomes(userId: Uuid, form: FormData, users: seq<User>, io: ChangePasswordIo,
                               verify: Authentication.Verifier, hash: Authentication.Hasher)
    requires Parse(form.currentPassword).Success? && Parse(form.newPassword).Success?
    requires Parse(form.newPasswordConfirmation).Success?
    requires Chars(form.newPassword) == Chars(form.newPasswordConfirmation)
    ensures var o := ChangePassword(userId, form, users, io, verify, hash);
            && (!io.lookupOk || PasswordHashOf(users, userId).None?
                ==> o.reply == Reply(E500(), []) && o.users == users && o.steps == PIPELINE[..5])
            && (io.lookupOk && PasswordHashOf(users, userId).Some? ==>
                  var v := verify(PasswordHashOf(users, userId).value, Chars(form.currentPassword));
                  && (v != Authentication.Match ==> o.steps == PIPELINE[..6] && o.users == users)
                  && (v == Authentication.Mismatch ==> o.reply == ErrorResponse(BadRequest(WRONG_PASSWORD)))
                  && (v == Authentication.NotPhc ==> o.reply == ErrorResponse(UnexpectedError))
                  && (v == Authentication.Match && !io.updateOk ==> o.reply == Reply(E500(), []) && o.steps == PIPELINE))
  {
  }

  /** A request that passes every check, with a successful update, runs the
      whole chain, writes the new hash for the user and redirects back to
      the form with the success flash. */
  lemma ValidChangeSucceeds(userId: Uuid, form: FormData, users: seq<User>, io: ChangePasswordIo,
                            verify: Authentication.Verifier, hash: Authentication.Hasher)
    requires ChecksPass(userId, form, users, io, verify) && io.updateOk
    ensures var o := ChangePassword(userId, form, users, io, verify, hash);
            && o.steps == PIPELINE
            && o.users == Authentication.SetPasswordHash(users, userId, Chars(form.newPassword), io.salt, hash)
            && IsRedirectTo(o.reply.response, CHANGE_PASSWORD_PATH)
            && o.reply.flashes == [Changed, MustLogIn]
  {
  }

  /** A successful change leaves a stored hash the new password verifies
      against, so the next change must present the new password; nobody
      else's hash changes. */
  lemma ChangedPasswordVerifies(userId: Uuid, other: Uuid, form: FormData, users: seq<User>, io: ChangePasswordIo,
                                verify: Authentication.Verifier, hash: Authentication.Hasher)
    requires ChecksPass(userId, form, users, io, verify) && io.updateOk
    requires verify(hash(Chars(form.newPassword), io.salt), Chars(form.newPassword)) == Authentication.Match
    ensures var users' := ChangePassword(userId, form, users, io, verify, hash).users;
            && PasswordHashOf(users', userId).Some?
            && verify(PasswordHashOf(users', userId).value, Chars(form.newPassword)) == Authentication.Match
            && (other != userId ==> PasswordHashOf(users', other) == PasswordHashOf(users, other))
  {
    ValidChangeSucceeds(userId, form, users, io, verify, hash);
    Authentication.UpdatedPasswordVerifies(users, userId, other, Chars(form.newPassword), io.salt, hash, verify);
  }

  /** A current password that is not a valid password (too short, too long
      or blank) is answered "Wrong password" whatever the other fields hold:
      no lookup runs. */
  lemma InvalidCurrentPasswordIsWrong(userId: Uuid, form: FormData, users: seq<User>, io: ChangePasswordIo,
                                      verify: Authentication.Verifier, hash: Authentication.Hasher)
    requires Parse(form.currentPassword).Failure?
    ensures var o := ChangePassword(userId, form, users, io, verify, hash);
            && o.reply.flashes == [ErrorFlash(WRONG_PASSWORD)]
            && IsRedirectTo(o.reply.response, CHANGE_PASSWORD_PATH)
            && o.steps == [ParseCurrent] && o.users == users
  {
  }
}
