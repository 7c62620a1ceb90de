/** The user schema: stored record, schema validation, the pre-save hook, password matching and
    reset-token generation. */
module UserModel {
  import opened Base
  import opened Errors
  import opened Libraries

  /** The values the `role` enum accepts; "admin" is not one of them. */
  const Roles: seq<string> := ["user", "publisher"]
  const DefaultRole: string := "user"
  const MinPasswordLength: nat := 6
  /** How long a reset token is meant to live: ten minutes, in milliseconds. */
  const ResetTokenLifetime: int := 10 * 60 * 1000

  /** A stored user. `password` is the bcrypt digest the pre-save hook wrote; None in `name`
      or `email` is a null or missing value (the schema's misspelt `require` makes no path required). */
  datatype User = User(
    id: Id,
    name: Option<string>,
    email: Option<string>,
    role: string,
    password: string,
    resetPasswordToken: Option<string>,
    resetPasswordExpiration: Option<int>)

  /** The role a new user gets: the schema default applies when `role` is undefined. */
  function RoleOrDefault(role: Option<string>): (r: string)
    ensures role.Some? ==> r == role.value
    ensures role.None? ==> r == "user"
  {
    if role.Some? then role.value else DefaultRole
  }

  /** The `match` validator: skipped for undefined and for "". */
  predicate EmailAccepted(email: Option<string>, lib: Lib)
    ensures email.None? || email == Some("") ==> EmailAccepted(email, lib)
    ensures email.Some? && email.value != "" ==> (EmailAccepted(email, lib) <==> lib.emailPattern(email.value))
  {
    email.None? || email.value == "" || lib.emailPattern(email.value)
  }

  /** The `minlength: 6` validator: skipped for undefined. */
  predicate PasswordAccepted(password: Option<string>)
    ensures password.None? ==> PasswordAccepted(password)
    ensures password.Some? ==> (PasswordAccepted(password) <==> |password.value| >= 6)
  {
    password.None? || |password.value| >= MinPasswordLength
  }

  /** The messages Mongoose collects when it validates a user, one per failing path, in schema order. */
  function ValidationMessages(email: Option<string>, role: string, password: Option<string>, lib: Lib): (msgs: seq<string>)
    ensures msgs == [] <==> EmailAccepted(email, lib) && role in Roles && PasswordAccepted(password)
    ensures |msgs| <= 3
  {
    (if EmailAccepted(email, lib) then [] else ["Please use valid email"])
    + (if role in Roles then [] else ["`" + role + "` is not a valid enum value for path `role`."])
    + (if PasswordAccepted(password) then []
       else ["Path `password` (`" + password.value + "`) is shorter than the minimum allowed length (6)."])
  }

  /** Every user that passes schema validation is a "user" or a "publisher", never an "admin". */
  lemma ValidatedRoleIsNotAdmin(email: Option<string>, role: string, password: Option<string>, lib: Lib)
    requires ValidationMessages(email, role, password, lib) == []
    ensures role == "user" || role == "publisher"
    ensures role != "admin"
  {
  }

  /** `user.matchPassword(entered)`: bcrypt's comparison against the stored digest, nothing more. */
  predicate MatchPassword(lib: Lib, entered: string, stored: string)
  {
    lib.bcryptCompare(entered, stored)
  }

  /** Against a digest made by `bcrypt.hash`, a sound bcrypt admits exactly the plaintext hashed. */
  lemma MatchPasswordOnDigest(lib: Lib, entered: string, plaintext: string)
    requires BcryptSound(lib)
    ensures MatchPassword(lib, entered, lib.bcryptHash(plaintext)) <==> entered == plaintext
  {
  }

  /** The password a save writes for a document whose password is `current` and was `saved`
      when the document was last loaded or written (None: never saved). The pre-save hook hashes
      a modified password before the write; an unmodified one it lets through as it is. */
  function WrittenPassword(saved: Option<string>, current: string, lib: Lib): string
  {
    if saved == Some(current) then current else lib.bcryptHash(current)
  }

  /** A save leaves an unchanged password as it was, and a changed one is stored so that the
      plaintext the handler assigned logs in. */
  lemma WrittenPasswordLogsIn(lib: Lib, saved: Option<string>, current: string)
    requires BcryptSound(lib)
    ensures saved == Some(current) ==> WrittenPassword(saved, current, lib) == current
    ensures saved != Some(current) ==> MatchPassword(lib, current, WrittenPassword(saved, current, lib))
  {
  }

  /** A stored digest d that a save left unchanged in the database but rehashed in memory, and
      that a second save of the same document then writes, no longer admits the plaintext d was
      made from. */
  lemma ResavedRehashRejectsOriginal(lib: Lib, plaintext: string)
    requires BcryptSound(lib)
    requires plaintext != lib.bcryptHash(plaintext)
    requires plaintext != lib.bcryptHash(lib.bcryptHash(plaintext))
    ensures var d := lib.bcryptHash(plaintext);
      !MatchPassword(lib, plaintext, WrittenPassword(Some(d), lib.bcryptHash(d), lib))
  {
    var d := lib.bcryptHash(plaintext);
    // bcrypt is injective under BcryptSound, so the rehash differs from d and the second save hashes it
    assert lib.bcryptCompare(d, lib.bcryptHash(d));
    assert lib.bcryptCompare(d, lib.bcryptHash(plaintext)) <==> d == plaintext;
    assert lib.bcryptHash(d) != d;
  }

  /** A user document loaded into memory: the handlers assign its fields and then save it. */
  class UserDoc {
    const id: Id
    var name: Option<string>
    var email: Option<string>
    var role: string
    /** None after `user.password = req.body.password` with no password in the body. */
    var password: Option<string>
    var resetPasswordToken: Option<string>
    var resetPasswordExpiration: Option<int>
    /** The password as the last load or save left it in the database; None for a document
        that was never saved. */
    var savedPassword: Option<string>

    /** `isModified('password')`: the password differs from the one last loaded or written
        (every path of a new document counts as modified). */
    predicate PasswordModified()
      reads this
    {
      savedPassword.None? || password != savedPassword
    }

    constructor Load(u: User)
      ensures id == u.id && name == u.name && email == u.email && role == u.role
      ensures password == Some(u.password) && savedPassword == Some(u.password)
      ensures resetPasswordToken == u.resetPasswordToken && resetPasswordExpiration == u.resetPasswordExpiration
    {
      id := u.id;
      name := u.name;
      email := u.email;
      role := u.role;
      password := Some(u.password);
      savedPassword := Some(u.password);
      resetPasswordToken := u.resetPasswordToken;
      resetPasswordExpiration := u.resetPasswordExpiration;
    }

    /** A new document, as `User.create` builds it before saving. */
    constructor New(id: Id, name: Option<string>, email: Option<string>, role: string, password: Option<string>)
      ensures this.id == id && this.name == name && this.email == email && this.role == role
      ensures this.password == password && savedPassword == None
      ensures resetPasswordToken == None && resetPasswordExpiration == None
    {
      this.id := id;
      this.name := name;
      this.email := email;
      this.role := role;
      this.password := password;
      savedPassword := None;
      resetPasswordToken := None;
      resetPasswordExpiration := None;
    }

    /** The record a save writes. */
    function Record(): (u: User)
      reads this
      requires password.Some?
      ensures u.id == id && u.email == email && u.role == role && u.password == password.value
    {
      User(id, name, email, role, password.value, resetPasswordToken, resetPasswordExpiration)
    }

    /** getResetPasswordToken: the raw token (drawn from randomBytes, here a parameter) is
        returned, only its SHA-256 digest is kept, and the expiry is set ten minutes ahead. */
    method GetResetPasswordToken(raw: string, now: int, lib: Lib) returns (resetToken: string)
      modifies this`resetPasswordToken, this`resetPasswordExpiration
      ensures resetToken == raw
      ensures resetPasswordToken == Some(lib.sha256Hex(raw))
      ensures resetPasswordExpiration == Some(now + 600000)
    {
      resetToken := raw;
      resetPasswordToken := Some(lib.sha256Hex(resetToken));
      resetPasswordExpiration := Some(now + ResetTokenLifetime);
    }

    /** The part of the async pre-save hook that runs before the write. A modified password is
        hashed and the save waits for it (bcrypt refuses an undefined one, and the save fails).
        An unmodified one makes the hook call next() at once, so the save goes ahead with the
        password as it is while the hook runs on: `early` says so. */
    method PreSave(lib: Lib) returns (err: Option<Err>, early: bool)
      modifies this`password
      ensures old(PasswordModified()) && old(password).None? ==>
        err == Some(BcryptIllegalArguments()) && password == old(password) && !early
      ensures old(PasswordModified()) && old(password).Some? ==>
        err == None && password == Some(lib.bcryptHash(old(password).value)) && !early
      ensures !old(PasswordModified()) ==> err == None && password == old(password) && password.Some? && early
    {
      if !PasswordModified() {
        return None, true;
      }
      if password.None? {
        return Some(BcryptIllegalArguments()), false;
      }
      password := Some(lib.bcryptHash(password.value));
      err, early := None, false;
    }

    /** The rest of a hook that called next() early: the hash of the unmodified password lands
        in this document once the save has gone ahead, and only a later save writes it. */
    method FinishPreSave(lib: Lib)
      requires password.Some?
      modifies this`password
      ensures password == Some(lib.bcryptHash(old(password).value))
    {
      password := Some(lib.bcryptHash(password.value));
    }
  }
}
