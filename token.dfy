/** The token engine of lib/token.js: a token is a random salt followed by
    the base64 SHA-1 digest of salt and session secret. SHA-1/base64 is a
    parameter `hash`; the only thing assumed of it is the length of its output
    (base64 of a 20-byte digest is 28 characters). Math.random() draws and the
    random bytes of a new secret are parameters too. */
module Token {
  import opened Wrappers
  import opened Js
  import opened Errors
  import opened Http

  /** Characters of salt, and salt characters read back by validate. */
  const LENGTH: nat := 10

  const CHARS: string := "ABCDEFGHIJKLMNOPQRSTUVWXYZabcdefghijklmnopqrstuvwxyz0123456789"

  const DIGEST_LENGTH: nat := 28

  /** base64(sha1(x)): always 28 characters. */
  type Digest = s: string | |s| == DIGEST_LENGTH witness "ABCDEFGHIJKLMNOPQRSTUVWXYZab"

  type Hasher = string -> Digest

  /** A token together with the secret it was derived from. */
  datatype Minted = Minted(token: string, secret: string)

  /** tokenize: the salt, then the digest of salt and secret. */
  function Tokenize(hash: Hasher, salt: string, secret: string): (t: string)
    ensures |t| == |salt| + DIGEST_LENGTH
    ensures t[..|salt|] == salt
  {
    salt + hash(salt + secret)
  }

  /** Two tokens that start with different salts of the same length differ,
      whatever the digest: the salt is the token's prefix (Tokenize). */
  lemma DistinctSaltsDistinctTokens(t1: string, t2: string, salt1: string, salt2: string)
    requires |salt1| == |salt2| && salt1 != salt2
    requires |t1| >= |salt1| && t1[..|salt1|] == salt1
    requires |t2| >= |salt2| && t2[..|salt2|] == salt2
    ensures t1 != t2
  {
  }

  /** One result of Math.random(). */
  predicate IsDraw(r: real)
  {
    0.0 <= r < 1.0
  }

  predicate AreDraws(draws: seq<real>)
  {
    forall i :: 0 <= i < |draws| ==> IsDraw(draws[i])
  }

  /** Math.floor(r * chars.length): the index one draw selects. */
  function CharIndex(r: real): (i: nat)
    requires IsDraw(r)
    ensures i < |CHARS|
  {
    (r * |CHARS| as real).Floor
  }

  /** The salt a sequence of draws produces, one character per draw. */
  function SaltOf(draws: seq<real>): (s: string)
    requires AreDraws(draws)
    ensures |s| == |draws|
    ensures forall i :: 0 <= i < |s| ==> s[i] == CHARS[CharIndex(draws[i])]
    ensures forall i :: 0 <= i < |s| ==> s[i] in CHARS
  {
    seq(|draws|, i requires 0 <= i < |draws| => CHARS[CharIndex(draws[i])])
  }

  /** salt(len): appends one alphabet character per draw. */
  method Salt(len: nat, draws: seq<real>) returns (s: string)
    requires |draws| == len && AreDraws(draws)
    ensures |s| == len
    ensures forall i :: 0 <= i < len ==> s[i] in CHARS
    ensures s == SaltOf(draws)
  {
    s := "";
    for i := 0 to len
      invariant |s| == i
      invariant s == SaltOf(draws[..i])
    {
      s := s + [CHARS[CharIndex(draws[i])]];
    }
    assert draws[..len] == draws;
  }

  /** What `salt + session[secretKey]` concatenates: the stored secret, or the
      text "undefined" when the session has no such entry. */
  function SecretText(session: Session, secretKey: string): string
  {
    if secretKey in session then session[secretKey] else "undefined"
  }

  /** token.slice(0, n). */
  function Prefix(s: string, n: nat): (p: string)
    ensures |p| == (if |s| < n then |s| else n)
    ensures p == s[..|p|]
  {
    if |s| <= n then s else s[..n]
  }

  /** validate: a non-string token is refused; otherwise the token must equal
      the token re-derived from its first LENGTH characters and the secret the
      session holds now. */
  function Validate(hash: Hasher, secretKey: string, session: Session, token: Value): (valid: bool)
    ensures !token.Text? ==> !valid
    ensures valid <==> token.Text? && |token.s| == LENGTH + DIGEST_LENGTH
                       && token.s[LENGTH..] == hash(token.s[..LENGTH] + SecretText(session, secretKey))
  {
    token.Text? && token.s == Tokenize(hash, Prefix(token.s, LENGTH), SecretText(session, secretKey))
  }

  /** A falsy submission (absent, empty, `false`, `0`, `null`) never validates. */
  lemma FalsyNeverValidates(hash: Hasher, secretKey: string, session: Session, token: Value)
    requires !Truthy(token)
    ensures !Validate(hash, secretKey, session, token)
  {
  }

  /** Validation looks at the session only through the one secret entry. */
  lemma ValidateReadsOnlySecret(hash: Hasher, secretKey: string, s1: Session, s2: Session, token: Value)
    requires SecretText(s1, secretKey) == SecretText(s2, secretKey)
    ensures Validate(hash, secretKey, s1, token) == Validate(hash, secretKey, s2, token)
  {
  }

  /** Round trip: a token made from a LENGTH-character salt and the secret the
      session holds validates. */
  lemma ValidateTokenize(hash: Hasher, secretKey: string, session: Session, salt: string, secret: string)
    requires |salt| == LENGTH
    requires SecretText(session, secretKey) == secret
    ensures Validate(hash, secretKey, session, Text(Tokenize(hash, salt, secret)))
  {
    var t := Tokenize(hash, salt, secret);
    assert t[..LENGTH] == salt;
    assert t[LENGTH..] == hash(salt + secret);
  }

  /** A token and secret such that the token is some salt's tokenization
      under that secret. */
  ghost predicate WellMinted(hash: Hasher, m: Minted)
  {
    |m.token| == LENGTH + DIGEST_LENGTH && m.token == Tokenize(hash, m.token[..LENGTH], m.secret)
  }

  /** A well-minted token validates wherever the session holds its secret. */
  lemma WellMintedValidates(hash: Hasher, secretKey: string, session: Session, m: Minted)
    requires WellMinted(hash, m)
    requires SecretText(session, secretKey) == m.secret
    ensures Validate(hash, secretKey, session, Text(m.token))
  {
    ValidateTokenize(hash, secretKey, session, m.token[..LENGTH], m.secret);
  }

  /** The session after create(): a truthy stored secret is kept, otherwise
      the fresh one is written; no other entry changes. */
  function StoreSecret(session: Session, secretKey: string, freshSecret: string): (s': Session)
    requires freshSecret != ""
    ensures secretKey in s' && s'[secretKey] != ""
    ensures secretKey in session && session[secretKey] != "" ==> s' == session
    ensures !(secretKey in session && session[secretKey] != "") ==> s'[secretKey] == freshSecret
    ensures s'.Keys == session.Keys + {secretKey}
    ensures forall k :: k in session && k != secretKey ==> s'[k] == session[k]
  {
    if secretKey in session && session[secretKey] != "" then session else session[secretKey := freshSecret]
  }

  /** create() on a session that may be absent: the new session and the
      minted token, or SessionInvalid. */
  function CreateOn(hash: Hasher, session: Option<Session>, secretKey: string, freshSecret: string, salt: string)
    : (r: Result<(Session, Minted), Error>)
    requires freshSecret != ""
    ensures session.None? <==> r.Err?
    ensures r.Err? ==> r.error == SessionInvalid
    ensures r.Ok? ==> r.value.0 == StoreSecret(session.value, secretKey, freshSecret)
    ensures r.Ok? ==> r.value.1.secret == r.value.0[secretKey] && r.value.1.secret != ""
    ensures r.Ok? ==> |r.value.1.token| == |salt| + DIGEST_LENGTH && r.value.1.token[..|salt|] == salt
    ensures r.Ok? && |salt| == LENGTH ==> WellMinted(hash, r.value.1)
    ensures r.Ok? && |salt| == LENGTH ==> Validate(hash, secretKey, r.value.0, Text(r.value.1.token))
  {
    match session
    case None => Err(SessionInvalid)
    case Some(s) =>
      var s' := StoreSecret(s, secretKey, freshSecret);
      var m := Minted(Tokenize(hash, salt, s'[secretKey]), s'[secretKey]);
      if |salt| == LENGTH then
        ValidateTokenize(hash, secretKey, s', salt, m.secret);
        Ok((s', m))
      else
        Ok((s', m))
  }

  /** create(req, secretKey): gets or creates the session secret and mints a
      token with a fresh salt. */
  method Create(hash: Hasher, req: Request, secretKey: string, freshSecret: string, draws: seq<real>)
    returns (r: Result<Minted, Error>)
    requires freshSecret != ""
    requires |draws| == LENGTH && AreDraws(draws)
    modifies req`session
    ensures var created := CreateOn(hash, old(req.session), secretKey, freshSecret, SaltOf(draws));
            && (created.Err? ==> r == Err(created.error) && req.session == old(req.session))
            && (created.Ok? ==> r == Ok(created.value.1) && req.session == Some(created.value.0))
  {
    if req.session.None? {
      return Err(SessionInvalid);
    }
    var session := req.session.value;
    var secret := if secretKey in session then session[secretKey] else "";
    if secret == "" {
      req.session := Some(session[secretKey := freshSecret]);
      secret := req.session.value[secretKey];
    }
    var salt := Salt(LENGTH, draws);
    r := Ok(Minted(Tokenize(hash, salt, secret), secret));
  }
}
