/** The third-party routines the core calls, taken as arbitrary functions. Nothing in the model
    depends on how they compute; lemmas that need a property of them say so in a requires. */
module Libraries {
  import opened Base

  datatype Lib = Lib(
    /** jwt.verify(token, JWT_SECRET).id; None when verification throws (malformed, expired or bad signature). */
    jwtVerify: string -> Option<Id>,
    /** jwt.sign({ id }, JWT_SECRET, { expiresIn: JWT_EXPIRE }). */
    jwtSign: Id -> string,
    /** bcrypt.hash(plaintext, await bcrypt.genSalt(10)), with the random salt folded in. */
    bcryptHash: string -> string,
    /** bcrypt.compare(plaintext, digest). */
    bcryptCompare: (string, string) -> bool,
    /** crypto.createHash("sha256").update(s).digest("hex"). */
    sha256Hex: string -> string,
    /** The address pattern of the user schema's `match` validator. */
    emailPattern: string -> bool
  )

  /** A plaintext matches a digest exactly when the digest was made from it. */
  ghost predicate BcryptSound(lib: Lib)
  {
    forall p, q :: lib.bcryptCompare(p, lib.bcryptHash(q)) <==> p == q
  }
}
