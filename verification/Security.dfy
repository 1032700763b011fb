/** Password hashing and token issuance (app/core/security.py).

    The cryptographic libraries are parameters: a `Primitives` value holds the
    functions the code calls, and `Lawful` states what is assumed of them. A
    token is the payload it carries; decoding returns what was encoded. Times
    are whole microseconds, the resolution of a Python `datetime`. */
module Security {
  import opened Prelude

  const MICROS_PER_SECOND := 1_000_000
  const MICROS_PER_MINUTE := 60_000_000

  datatype Settings = Settings(
    accessMinutes: int,
    refreshMinutes: int,
    maxFailedLogins: int,
    lockoutMinutes: int)

  /** What a library call did: it returned, or it raised. */
  datatype Attempt = Returned(ok: bool) | Raised

  datatype Primitives = Primitives(
    argonHash: (string, string) -> string,     // password, salt
    argonVerify: (string, string) -> Attempt,  // stored hash, password
    argonStale: string -> Option<bool>,        // None: the hash does not parse
    bcryptCheck: (string, string) -> Attempt)  // stored hash, password

  const ARGON2: string := "$argon2"
  const ARGON2ID: string := "$argon2id$"

  predicate IsArgon2(hashed: string) {
    ARGON2 <= hashed
  }

  predicate IsBcrypt(hashed: string) {
    "$2a$" <= hashed || "$2b$" <= hashed || "$2y$" <= hashed
  }

  /** The assumptions on Argon2: a new hash is an Argon2id hash with the
      current parameters, and it verifies the password it was made from. */
  ghost predicate Lawful(k: Primitives) {
    forall password, salt ::
      var h := k.argonHash(password, salt);
      && ARGON2ID <= h
      && k.argonVerify(h, password) == Returned(true)
      && k.argonStale(h) == Some(false)
  }

  function HashPassword(k: Primitives, plain: string, salt: string): string {
    k.argonHash(plain, salt)
  }

  predicate VerifyPassword(k: Primitives, plain: string, hashed: string) {
    if hashed == "" then false
    else if IsArgon2(hashed) then k.argonVerify(hashed, plain) == Returned(true)
    else if IsBcrypt(hashed) then k.bcryptCheck(hashed, plain) == Returned(true)
    else false
  }

  /** The verifier after the announced clean-up: the bcrypt branch removed. */
  predicate VerifyArgon2Only(k: Primitives, plain: string, hashed: string) {
    hashed != "" && IsArgon2(hashed) && k.argonVerify(hashed, plain) == Returned(true)
  }

  predicate NeedsRehash(k: Primitives, hashed: string) {
    if hashed == "" then true
    else if IsArgon2(hashed) then k.argonStale(hashed) != Some(false)
    else true
  }

  /** A new hash is current and verifies its own password. */
  lemma NewHashIsCurrent(k: Primitives, plain: string, salt: string)
    requires Lawful(k)
    ensures var h := HashPassword(k, plain, salt);
            ARGON2ID <= h && IsArgon2(h) && !NeedsRehash(k, h) && VerifyPassword(k, plain, h)
  {
    var h := k.argonHash(plain, salt);
    assert ARGON2ID <= h;
    assert ARGON2 == ARGON2ID[..7];
    assert h[..7] == ARGON2;
  }

  /** Removing the bcrypt branch changes no answer on an Argon2 hash, and on any
      other hash it changes the answer exactly when bcrypt would have accepted. */
  lemma BcryptBranchMatters(k: Primitives, plain: string, hashed: string)
    ensures VerifyPassword(k, plain, hashed) == VerifyArgon2Only(k, plain, hashed)
       <==> !(!IsArgon2(hashed) && IsBcrypt(hashed) && k.bcryptCheck(hashed, plain) == Returned(true))
  {
    if IsBcrypt(hashed) {
      assert hashed != "";
    }
  }

  /** The format of a stored hash chooses the library that decides; a hash of no known
      format verifies nothing. */
  lemma VerifyDispatch(k: Primitives, plain: string, hashed: string)
    ensures "$argon2" <= hashed ==>
              (VerifyPassword(k, plain, hashed) <==> k.argonVerify(hashed, plain) == Returned(true))
    ensures "$2a$" <= hashed || "$2b$" <= hashed || "$2y$" <= hashed ==>
              (VerifyPassword(k, plain, hashed) <==> k.bcryptCheck(hashed, plain) == Returned(true))
    ensures !("$argon2" <= hashed || "$2a$" <= hashed || "$2b$" <= hashed || "$2y$" <= hashed) ==>
              !VerifyPassword(k, plain, hashed)
  {
    assert "$argon2"[1] == 'a' && "$2a$"[1] == '2' && "$2b$"[1] == '2' && "$2y$"[1] == '2';
    if "$argon2" <= hashed {
      assert hashed[1] == 'a' && hashed != "";
    } else if IsBcrypt(hashed) {
      assert hashed != "";
    }
  }

  /** A hash is kept at sign-in exactly when it is an Argon2 hash that the library
      parses and finds to have the current parameters. */
  lemma KeptHashes(k: Primitives, hashed: string)
    ensures !NeedsRehash(k, hashed) <==> "$argon2" <= hashed && k.argonStale(hashed) == Some(false)
  {
    if hashed == "" {
      assert |"$argon2"| == 7;
    }
  }

  // --- Tokens --------------------------------------------------------------

  datatype TokenType = Access | Refresh | OtherType(name: string)

  /** The payload of a signed token; an absent claim is None. */
  datatype Claims = Claims(
    sub: string,
    iat: int,
    exp: int,
    typ: Option<TokenType>,
    email: Option<string>,
    role: Option<string>,
    sid: Option<string>,
    jti: Option<string>)

  /** What a client sends where a token is expected. */
  datatype Bearer = NoToken | Unsigned | Signed(claims: Claims)

  datatype TokenError = BadSignature | Expired

  /** `int(t.timestamp())`: whole seconds, truncated towards zero. */
  function Seconds(t: int): int {
    if t >= 0 then t / MICROS_PER_SECOND else -((-t) / MICROS_PER_SECOND)
  }

  function AccessToken(s: Settings, sub: string, email: string, role: string, sid: string, now: nat): Claims {
    Claims(sub, Seconds(now), Seconds(now + s.accessMinutes * MICROS_PER_MINUTE), Some(Access),
           Some(email), Some(role), Some(sid), None)
  }

  function RefreshToken(s: Settings, sub: string, sid: string, jti: string, now: nat): Claims {
    Claims(sub, Seconds(now), Seconds(now + s.refreshMinutes * MICROS_PER_MINUTE), Some(Refresh),
           None, None, Some(sid), Some(jti))
  }

  /** A token lives from its issue up to, and not including, its `exp` second. */
  predicate Unexpired(c: Claims, now: int) {
    now < c.exp * MICROS_PER_SECOND
  }

  function DecodeToken(b: Bearer, now: int): Result<Claims, TokenError> {
    match b
    case Signed(c) => if Unexpired(c, now) then Success(c) else Failure(Expired)
    case _ => Failure(BadSignature)
  }

  /** Flooring both ends to seconds loses nothing: the token's lifetime is the
      configured one, and `exp` is never later than the unfloored instant. */
  lemma LifetimeIsExact(minutes: int, now: nat)
    requires minutes >= 0
    ensures Seconds(now + minutes * MICROS_PER_MINUTE) - Seconds(now) == minutes * 60
    ensures Seconds(now + minutes * MICROS_PER_MINUTE) * MICROS_PER_SECOND <= now + minutes * MICROS_PER_MINUTE
  {
    var t := now + minutes * MICROS_PER_MINUTE;
    assert t == now + (minutes * 60) * MICROS_PER_SECOND;
  }
}
