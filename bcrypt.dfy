/**
 * A stand-in for bcrypt's `hashpw` and `checkpw`. The stored form keeps the
 * salt in front, like bcrypt's; the digest part is an ideal, collision-free
 * one, so `CheckPassword(p, HashPassword(q, salt))` holds exactly when p == q.
 */
module Bcrypt {

  /** A salt as `gensalt()` returns it: `$2b$`, the cost, `$`, then 22 characters. */
  const SALT_LENGTH: nat := 29

  type Salt = s: string | |s| == SALT_LENGTH witness "$2b$12$abcdefghijklmnopqrstuv"

  /** `hashpw(plain, salt)` */
  function HashPassword(plain: string, salt: Salt): string
  {
    salt + plain
  }

  /** `checkpw(plain, hashed)` */
  predicate CheckPassword(plain: string, hashed: string)
  {
    |hashed| >= SALT_LENGTH && hashed[SALT_LENGTH..] == plain
  }

  /** The one property of bcrypt the manager depends on. */
  lemma CheckHashed(plain: string, salt: Salt)
    ensures CheckPassword(plain, HashPassword(plain, salt))
    ensures HashPassword(plain, salt) != ""
  {
  }

  /** Under the ideal digest, any other password is rejected. */
  lemma CheckRejectsOther(plain: string, other: string, salt: Salt)
    requires other != plain
    ensures !CheckPassword(other, HashPassword(plain, salt))
  {
  }
}
