/**
 Envelope encryption of integration secrets (backend/app/services/credential_envelope.py).  AES-GCM is
 symbolic: a sealed value opens with exactly the key, nonce and associated data it was sealed with.
 */
module CredentialEnvelope {
  import opened Common

  type KeyId = nat
  type Nonce = nat

  datatype Context = Context(company: string, provider: string, field: string)
  datatype Ciphertext = Sealed(key: KeyId, nonce: Nonce, context: Context, secret: string)
  datatype Envelope = Envelope(nonce: Nonce, context: Context, keyProvider: string, keyVersion: string)

  /** What the broker's environment configures: the current key and, during a rotation, the previous one. */
  datatype Keys = Keys(currentVersion: string, current: Option<KeyId>, previousVersion: string, previous: Option<KeyId>)

  datatype Error = KeyNotConfigured | ContextMismatch | ProviderMismatch | VersionUnavailable | IntegrityFailure

  function Encrypt(keys: Keys, secret: string, context: Context, nonce: Nonce): Result<(Ciphertext, Envelope), Error> {
    if keys.current.None? then Err(KeyNotConfigured)
    else Ok((Sealed(keys.current.value, nonce, context, secret), Envelope(nonce, context, "env", keys.currentVersion)))
  }

  function DataKey(keys: Keys, version: string): Result<KeyId, Error> {
    if version == keys.currentVersion then
      if keys.current.Some? then Ok(keys.current.value) else Err(KeyNotConfigured)
    else if version == keys.previousVersion then
      if keys.previous.Some? then Ok(keys.previous.value) else Err(KeyNotConfigured)
    else Err(VersionUnavailable)
  }

  function Decrypt(keys: Keys, c: Ciphertext, e: Envelope, context: Context): Result<string, Error> {
    if e.context != context then Err(ContextMismatch)
    else if e.keyProvider != "env" then Err(ProviderMismatch)
    else
      var key := DataKey(keys, e.keyVersion);
      if key.Err? then Err(key.error)
      else if key.value == c.key && e.nonce == c.nonce && context == c.context then Ok(c.secret)
      else Err(IntegrityFailure)
  }

  /** The keys of every deployment, by version. */
  type KeyRing = map<string, KeyId>

  /** `keys` configures only versions of the ring, each with its own key, and has a current key. */
  predicate Configures(keys: Keys, ring: KeyRing) {
    && keys.currentVersion in ring && keys.current == Some(ring[keys.currentVersion])
    && (keys.previous.Some? ==> keys.previousVersion in ring && keys.previous.value == ring[keys.previousVersion])
  }

  predicate Available(keys: Keys, version: string) {
    version == keys.currentVersion || (version == keys.previousVersion && keys.previous.Some?)
  }

  /**
   A secret encrypted in one deployment decrypts in another to itself, in its own context, exactly when its
   key version is still the current or the previous one there.
   */
  lemma RoundTrip(ring: KeyRing, writer: Keys, reader: Keys, secret: string, context: Context, nonce: Nonce)
    requires Configures(writer, ring) && Configures(reader, ring)
    ensures var sealed := Encrypt(writer, secret, context, nonce);
            sealed.Ok? && (Available(reader, writer.currentVersion) <==> Decrypt(reader, sealed.value.0, sealed.value.1, context).Ok?)
    ensures var sealed := Encrypt(writer, secret, context, nonce).value;
            Available(reader, writer.currentVersion) ==> Decrypt(reader, sealed.0, sealed.1, context) == Ok(secret)
  {
  }

  /** Under any envelope, a ciphertext opens only in the context and with the nonce it was sealed with. */
  lemma OpensOnlyInItsContext(writer: Keys, reader: Keys, secret: string, context: Context, nonce: Nonce, e: Envelope, other: Context)
    requires Encrypt(writer, secret, context, nonce).Ok?
    requires Decrypt(reader, Encrypt(writer, secret, context, nonce).value.0, e, other).Ok?
    ensures other == context && Decrypt(reader, Encrypt(writer, secret, context, nonce).value.0, e, other) == Ok(secret)
    ensures e.context == context && e.keyProvider == "env" && e.nonce == nonce
  {
  }
}
