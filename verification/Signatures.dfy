/** Signature schemes, of which the proofs use only that signatures verify. */
module Signatures {

  /** Public key of a secret, signing and verifying, with signatures of type `S`. */
  datatype Scheme<!S> = Scheme(
    public: string -> string,
    sign: (string, string) -> S,
    verify: (string, string, S) -> bool)

  ghost predicate Correct<S>(s: Scheme<S>) {
    forall secret, message :: s.verify(s.public(secret), message, s.sign(secret, message))
  }
}
