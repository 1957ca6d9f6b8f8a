/** Password hashing as the admin routes use it. bcrypt's salt and cost
    factor are not modelled: a hash is the password behind a fixed prefix,
    which keeps the two facts the routes rely on, that a hash is never the
    plaintext and that a hash matches only the password it was made from. */
module Auth {

  /** The prefix of a bcrypt hash at cost factor 10. */
  const HashPrefix: string := "$2b$10$"

  /** `bcrypt.hash(password, 10)`. */
  function Hash(password: string): (h: string)
    ensures |h| == |HashPrefix| + |password|
    ensures h != password
  {
    HashPrefix + password
  }

  /** `bcrypt.compare(password, hash)`. */
  predicate Compare(password: string, hash: string) {
    hash == Hash(password)
  }

  /** Different passwords never share a hash. */
  lemma HashInjective(a: string, b: string)
    requires Hash(a) == Hash(b)
    ensures a == b
  {
    assert a == Hash(a)[|HashPrefix|..];
    assert b == Hash(b)[|HashPrefix|..];
  }

  /** A stored hash accepts exactly the password it was made from. */
  lemma CompareExactly(password: string, attempt: string)
    ensures Compare(attempt, Hash(password)) <==> attempt == password
  {
    if Compare(attempt, Hash(password)) {
      HashInjective(attempt, password);
    }
  }
}
