/** The owned resources. Their schemas are not part of this model: only the owner reference,
    the parent bootcamp, the photo and an abstract map of the remaining fields are kept. */
module Resources {
  import opened Base

  /** `user` is the owning user's id. */
  datatype Bootcamp = Bootcamp(owner: Id, photo: Option<string>, fields: map<string, string>)

  /** `owner` is None when the creating request had no `user` in its body. */
  datatype Course = Course(owner: Option<Id>, bootcamp: Id, fields: map<string, string>)

  datatype Review = Review(owner: Option<Id>, bootcamp: Id, fields: map<string, string>)
}
