/**
 The stored OAuth credentials of a company and provider (db/tokens.py): an upsert that keeps the old refresh
 token when no new one comes, and a read that decrypts both fields.
 */
module OAuthTokens {
  import opened Common
  import opened CredentialEnvelope

  const ACCESS := "access_token"
  const REFRESH := "refresh_token"

  datatype Owner = Owner(company: string, provider: string)

  datatype Row = Row(access: Ciphertext, accessEnvelope: Envelope, refresh: Option<Ciphertext>, refreshEnvelope: Option<Envelope>,
                     scope: Option<string>, expiresAt: int)

  /** One call of `save_oauth_tokens`; the nonces are random. */
  datatype Save = Save(keys: Keys, access: string, refresh: Option<string>, scope: Option<string>, expiresAt: int,
                       accessNonce: Nonce, refreshNonce: Nonce)

  datatype Tokens = Tokens(access: string, refresh: Option<string>, scope: Option<string>, expiresAt: int)

  function ContextOf(owner: Owner, field: string): Context {
    Context(owner.company, owner.provider, field)
  }

  predicate HasRefresh(save: Save) {
    save.refresh.Some? && save.refresh.value != ""
  }

  // ---- The upsert --------------------------------------------------------------------------

  /** The row a save would insert. */
  function Excluded(owner: Owner, save: Save): Result<Row, Error> {
    var access := Encrypt(save.keys, save.access, ContextOf(owner, ACCESS), save.accessNonce);
    if access.Err? then Err(access.error)
    else if !HasRefresh(save) then Ok(Row(access.value.0, access.value.1, None, None, save.scope, save.expiresAt))
    else
      var refresh := Encrypt(save.keys, save.refresh.value, ContextOf(owner, REFRESH), save.refreshNonce);
      if refresh.Err? then Err(refresh.error)
      else Ok(Row(access.value.0, access.value.1, Some(refresh.value.0), Some(refresh.value.1), save.scope, save.expiresAt))
  }

  /** ON CONFLICT DO UPDATE: without a new refresh token only the access half of the envelope is replaced. */
  function Merged(old_: Row, new_: Row): Row {
    Row(new_.access, new_.accessEnvelope,
        if new_.refresh.Some? then new_.refresh else old_.refresh,
        if new_.refresh.Some? then new_.refreshEnvelope else old_.refreshEnvelope,
        if new_.scope.Some? then new_.scope else old_.scope, new_.expiresAt)
  }

  function Saved(row: Option<Row>, owner: Owner, save: Save): Option<Row> {
    var excluded := Excluded(owner, save);
    if excluded.Err? then row
    else if row.None? then Some(excluded.value)
    else Some(Merged(row.value, excluded.value))
  }

  /** Both fields decrypted, or nothing when either fails. */
  function Read(row: Option<Row>, owner: Owner, keys: Keys): Option<Tokens> {
    if row.None? then None
    else
      var r := row.value;
      var access := Decrypt(keys, r.access, r.accessEnvelope, ContextOf(owner, ACCESS));
      if access.Err? then None
      else if r.refresh.None? || r.refreshEnvelope.None? then Some(Tokens(access.value, None, r.scope, r.expiresAt))
      else
        var refresh := Decrypt(keys, r.refresh.value, r.refreshEnvelope.value, ContextOf(owner, REFRESH));
        if refresh.Err? then None else Some(Tokens(access.value, Some(refresh.value), r.scope, r.expiresAt))
  }

  class OAuthTokenTable {
    var rows: map<Owner, Row>

    constructor ()
      ensures rows == map[]
    {
      rows := map[];
    }

    function RowOf(owner: Owner): Option<Row>
      reads this
    {
      if owner in rows then Some(rows[owner]) else None
    }

    method SaveTokens(owner: Owner, save: Save) returns (error: Option<Error>)
      modifies this
      ensures error.None? <==> Excluded(owner, save).Ok?
      ensures RowOf(owner) == Saved(old(RowOf(owner)), owner, save)
      ensures forall other :: other != owner ==> RowOf(other) == old(RowOf(other))
    {
      var access := Encrypt(save.keys, save.access, ContextOf(owner, ACCESS), save.accessNonce);
      if access.Err? {
        return Some(access.error);
      }
      var refreshCiphertext, refreshEnvelope := None, None;
      if save.refresh.Some? && save.refresh.value != "" {
        var refresh := Encrypt(save.keys, save.refresh.value, ContextOf(owner, REFRESH), save.refreshNonce);
        if refresh.Err? {
          return Some(refresh.error);
        }
        refreshCiphertext, refreshEnvelope := Some(refresh.value.0), Some(refresh.value.1);
      }
      var row := Row(access.value.0, access.value.1, refreshCiphertext, refreshEnvelope, save.scope, save.expiresAt);
      if owner in rows {
        var stored := rows[owner];
        if refreshCiphertext.None? {
          row := row.(refresh := stored.refresh, refreshEnvelope := stored.refreshEnvelope);
        }
        if save.scope.None? {
          row := row.(scope := stored.scope);
        }
      }
      rows := rows[owner := row];
      error := None;
    }

    method GetTokens(owner: Owner, keys: Keys) returns (tokens: Option<Tokens>)
      ensures tokens == Read(RowOf(owner), owner, keys)
    {
      if owner !in rows {
        return None;
      }
      var row := rows[owner];
      var access := Decrypt(keys, row.access, row.accessEnvelope, ContextOf(owner, ACCESS));
      if access.Err? {
        return None;
      }
      var refreshToken := None;
      if row.refresh.Some? && row.refreshEnvelope.Some? {
        var refresh := Decrypt(keys, row.refresh.value, row.refreshEnvelope.value, ContextOf(owner, REFRESH));
        if refresh.Err? {
          return None;
        }
        refreshToken := Some(refresh.value);
      }
      tokens := Some(Tokens(access.value, refreshToken, row.scope, row.expiresAt));
    }

    method Delete(owner: Owner) returns (deleted: bool)
      modifies this
      ensures deleted == (owner in old(rows)) && rows == old(rows) - {owner}
    {
      deleted := owner in rows;
      rows := rows - {owner};
    }
  }

  // ---- Any sequence of saves -----------------------------------------------------------------

  function AfterSaves(owner: Owner, saves: seq<Save>): Option<Row> {
    if saves == [] then None else Saved(AfterSaves(owner, saves[..|saves| - 1]), owner, saves[|saves| - 1])
  }

  /** The index of the last save that brought a refresh token, or -1. */
  function LastRefresh(saves: seq<Save>): (i: int)
    ensures -1 <= i < |saves|
    ensures i >= 0 ==> saves[i].refresh.Some? && saves[i].refresh.value != ""
    ensures forall j :: i < j < |saves| ==> saves[j].refresh.None? || saves[j].refresh.value == ""
  {
    if saves == [] then -1
    else if HasRefresh(saves[|saves| - 1]) then |saves| - 1
    else LastRefresh(saves[..|saves| - 1])
  }

  function LastScope(saves: seq<Save>): Option<string> {
    if saves == [] then None
    else if saves[|saves| - 1].scope.Some? then saves[|saves| - 1].scope
    else LastScope(saves[..|saves| - 1])
  }

  /** The saves that reach the upsert; one made while no key is configured raises before it. */
  function Effective(saves: seq<Save>): (r: seq<Save>)
    ensures forall save :: save in r <==> save in saves && save.keys.current.Some?
  {
    if saves == [] then []
    else
      var last := saves[|saves| - 1];
      Effective(saves[..|saves| - 1]) + (if last.keys.current.Some? then [last] else [])
  }

  /** Each save ran under keys of the ring, or with no current key at all. */
  ghost predicate FromRing(saves: seq<Save>, ring: KeyRing) {
    forall save :: save in saves ==> save.keys.current.None? || Configures(save.keys, ring)
  }

  /** A save without a configured key leaves the stored tokens alone. */
  lemma {:induction false} OnlyEffectiveSavesCount(owner: Owner, saves: seq<Save>)
    ensures AfterSaves(owner, saves) == AfterSaves(owner, Effective(saves))
  {
    if saves != [] {
      var before, last := saves[..|saves| - 1], saves[|saves| - 1];
      OnlyEffectiveSavesCount(owner, before);
      if last.keys.current.Some? {
        assert Effective(saves)[..|Effective(saves)| - 1] == Effective(before);
      } else {
        assert Effective(saves) == Effective(before);
      }
    }
  }

  /** Each stored ciphertext is paired with the envelope it was sealed under. */
  lemma {:induction false} EachFieldKeepsItsEnvelope(owner: Owner, saves: seq<Save>, ring: KeyRing)
    requires FromRing(saves, ring)
    ensures var row, done := AfterSaves(owner, saves), Effective(saves);
            if done == [] then row.None? else row.Some? && Keeps(owner, done, row.value)
  {
    OnlyEffectiveSavesCount(owner, saves);
    if Effective(saves) != [] {
      EffectiveSavesKeepTheirEnvelopes(owner, Effective(saves), ring);
    }
  }

  /** The row holds the last access token and the last refresh token, each as it was encrypted. */
  ghost predicate Keeps(owner: Owner, saves: seq<Save>, row: Row)
    requires saves != []
  {
    var last := saves[|saves| - 1];
    var i := LastRefresh(saves);
    && row.scope == LastScope(saves) && row.expiresAt == last.expiresAt
    && Encrypt(last.keys, last.access, ContextOf(owner, ACCESS), last.accessNonce) == Ok((row.access, row.accessEnvelope))
    && (i < 0 ==> row.refresh.None? && row.refreshEnvelope.None?)
    && (i >= 0 ==> row.refresh.Some? && row.refreshEnvelope.Some?
                   && Encrypt(saves[i].keys, saves[i].refresh.value, ContextOf(owner, REFRESH), saves[i].refreshNonce)
                      == Ok((row.refresh.value, row.refreshEnvelope.value)))
  }

  lemma {:induction false} EffectiveSavesKeepTheirEnvelopes(owner: Owner, saves: seq<Save>, ring: KeyRing)
    requires saves != [] && forall save :: save in saves ==> Configures(save.keys, ring)
    ensures AfterSaves(owner, saves).Some? && Keeps(owner, saves, AfterSaves(owner, saves).value)
  {
    if |saves| > 1 {
      EffectiveSavesKeepTheirEnvelopes(owner, saves[..|saves| - 1], ring);
    }
  }

  /**
   After any saves, across any key rotations, with saves that raised for want of a key among them, reading
   gives the last access token and the last non-empty refresh token that were stored, exactly when the key
   version of each is the reader's current or previous one; otherwise the read gives nothing.
   */
  lemma ReadingGivesTheLatestTokens(owner: Owner, saves: seq<Save>, ring: KeyRing, reader: Keys)
    requires FromRing(saves, ring) && Configures(reader, ring)
    ensures Read(AfterSaves(owner, saves), owner, reader) == LatestTokens(Effective(saves), reader)
  {
    EachFieldKeepsItsEnvelope(owner, saves, ring);
    if Effective(saves) != [] {
      EnvelopesOpen(owner, Effective(saves), ring, reader, AfterSaves(owner, saves).value);
    }
  }

  lemma EnvelopesOpen(owner: Owner, saves: seq<Save>, ring: KeyRing, reader: Keys, row: Row)
    requires saves != [] && (forall save :: save in saves ==> Configures(save.keys, ring)) && Configures(reader, ring)
    requires Keeps(owner, saves, row)
    ensures Read(Some(row), owner, reader) == LatestTokens(saves, reader)
  {
    var last, i := saves[|saves| - 1], LastRefresh(saves);
    RoundTrip(ring, last.keys, reader, last.access, ContextOf(owner, ACCESS), last.accessNonce);
    if i >= 0 {
      RoundTrip(ring, saves[i].keys, reader, saves[i].refresh.value, ContextOf(owner, REFRESH), saves[i].refreshNonce);
    }
  }

  /** What the reader is owed for these saves. */
  ghost function LatestTokens(saves: seq<Save>, reader: Keys): Option<Tokens> {
    if saves == [] then None
    else
      var last, i := saves[|saves| - 1], LastRefresh(saves);
      if Available(reader, last.keys.currentVersion) && (i >= 0 ==> Available(reader, saves[i].keys.currentVersion))
      then Some(Tokens(last.access, if i >= 0 then saves[i].refresh else None, LastScope(saves), last.expiresAt))
      else None
  }
}
