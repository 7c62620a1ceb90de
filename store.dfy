/** The database: one collection per model, each a map from document id to record, and the
    save of a loaded user document. */
module Store {
  import opened Base
  import opened Errors
  import opened Libraries
  import opened UserModel
  import opened Resources

  class Db {
    var users: map<Id, User>
    var bootcamps: map<Id, Bootcamp>
    var courses: map<Id, Course>
    var reviews: map<Id, Review>

    /** Every user is stored under its own id, and the unique index on `email` holds (a
        missing email counts as the value null, as it does for a non-sparse index). */
    ghost predicate Valid()
      reads this
    {
      (forall k :: k in users ==> users[k].id == k) && UniqueEmails(users)
    }

    constructor ()
      ensures Valid()
      ensures users == map[] && bootcamps == map[] && courses == map[] && reviews == map[]
    {
      users, bootcamps, courses, reviews := map[], map[], map[], map[];
    }
  }

  /** No two users share an email, a missing one included. */
  ghost predicate UniqueEmails(users: map<Id, User>)
  {
    forall j, k :: j in users && k in users && j != k ==> users[j].email != users[k].email
  }

  /** Some other user already holds this email. */
  predicate EmailTaken(users: map<Id, User>, email: Option<string>, except: Id)
  {
    exists k :: k in users && k != except && users[k].email == email
  }

  /** A stored user's own email is not taken by anyone else, so saving it back cannot hit the
      unique index. */
  lemma OwnEmailFree(users: map<Id, User>, k: Id)
    requires UniqueEmails(users) && k in users
    ensures !EmailTaken(users, users[k].email, k)
  {
  }

  /** Writing a user whose email nobody else holds keeps the emails unique. */
  lemma WriteKeepsEmailsUnique(users: map<Id, User>, k: Id, u: User)
    requires UniqueEmails(users) && !EmailTaken(users, u.email, k)
    ensures UniqueEmails(users[k := u])
  {
  }

  /** The ids of the bootcamps a user owns. */
  function OwnedBy(bootcamps: map<Id, Bootcamp>, owner: Id): set<Id>
  {
    set k | k in bootcamps && bootcamps[k].owner == owner
  }

  /** Adding a bootcamp under a fresh id adds exactly that id to its owner's bootcamps. */
  lemma CreateAddsOne(bootcamps: map<Id, Bootcamp>, k: Id, b: Bootcamp)
    requires k !in bootcamps
    ensures OwnedBy(bootcamps[k := b], b.owner) == OwnedBy(bootcamps, b.owner) + {k}
    ensures |OwnedBy(bootcamps[k := b], b.owner)| == |OwnedBy(bootcamps, b.owner)| + 1
  {
    assert OwnedBy(bootcamps[k := b], b.owner) == OwnedBy(bootcamps, b.owner) + {k};
    assert k !in OwnedBy(bootcamps, b.owner);
  }

  /** Would a save with these settings stop at validation? */
  predicate FailsValidation(validate: bool, doc: UserDoc, lib: Lib)
    reads doc
  {
    validate && ValidationMessages(doc.email, doc.role, doc.password, lib) != []
  }

  /** user.save() and User.create(): schema validation (skipped under { validateBeforeSave: false }), then the
      pre-save hook, then the write, which the unique index on `email` can refuse. Nothing is
      written unless all three succeed. The password written is hashed only when it was
      modified; either way the document ends up holding the hash of the password it had. */
  method SaveUser(db: Db, doc: UserDoc, validate: bool, lib: Lib) returns (err: Option<Err>)
    requires db.Valid()
    modifies db`users, doc`password, doc`savedPassword
    ensures db.Valid()
    ensures old(FailsValidation(validate, doc, lib)) ==>
      && err == Some(ValidationError("User", ValidationMessages(doc.email, doc.role, old(doc.password), lib)))
      && db.users == old(db.users) && doc.password == old(doc.password) && doc.savedPassword == old(doc.savedPassword)
    ensures !old(FailsValidation(validate, doc, lib)) && old(doc.PasswordModified()) && old(doc.password).None? ==>
      && err == Some(BcryptIllegalArguments()) && db.users == old(db.users)
      && doc.password == old(doc.password) && doc.savedPassword == old(doc.savedPassword)
    ensures !old(FailsValidation(validate, doc, lib)) && old(doc.password).Some? ==>
      var written := WrittenPassword(old(doc.savedPassword), old(doc.password).value, lib);
      && doc.password == Some(lib.bcryptHash(old(doc.password).value))
      && (EmailTaken(old(db.users), doc.email, doc.id) ==>
            err == Some(DuplicateKey()) && db.users == old(db.users) && doc.savedPassword == old(doc.savedPassword))
      && (!EmailTaken(old(db.users), doc.email, doc.id) ==>
            && err == None && doc.savedPassword == Some(written)
            && db.users == old(db.users)[doc.id := old(doc.Record()).(password := written)])
  {
    if validate {
      var msgs := ValidationMessages(doc.email, doc.role, doc.password, lib);
      if msgs != [] {
        return Some(ValidationError("User", msgs));
      }
    }
    var early;
    err, early := doc.PreSave(lib);
    if err.Some? {
      return;
    }
    if EmailTaken(db.users, doc.email, doc.id) {
      err := Some(DuplicateKey());
    } else {
      WriteKeepsEmailsUnique(db.users, doc.id, doc.Record());
      db.users := db.users[doc.id := doc.Record()];
      doc.savedPassword := doc.password;
    }
    if early {
      doc.FinishPreSave(lib);
    }
  }
}
