/**
  The token store's pure logic: lookups into `_session_tokens`, the expiry
  policy of `validate_tokens`, the key-by-key merge of `refresh_tokens`, and
  the key table and verdict of `verify_tokens`.
 */
module Tokens {
  import opened Values
  import opened Externals

  const Identity := "identity"
  const Vwg := "vwg"
  /** The vehicle-API authority names its signing keys with this prefix. */
  const KidPrefix := "VWGMBB01DELIV1."
  /** Seconds before expiry at which tokens are already renewed. */
  const RefreshMargin := 60

  /** Python `self._session_tokens[kind][key]`. */
  function Field(tokens: map<string, Json>, kind: string, key: string): (r: Result<Json>)
    ensures r.Ok? <==> kind in tokens && tokens[kind].JObj? && key in tokens[kind].fields
    ensures r.Ok? ==> r.value == tokens[kind].fields[key]
    ensures r.Raised? ==> r.error in {LookupError, TypeError}
  {
    if kind in tokens then Index(tokens[kind], key) else Raised(LookupError)
  }

  /** `'Bearer ' + self._session_tokens[kind]['access_token']`. */
  function Bearer(tokens: map<string, Json>, kind: string): (r: Result<string>)
    ensures r.Ok? <==> Field(tokens, kind, "access_token").Ok? && Field(tokens, kind, "access_token").value.JStr?
    ensures r.Ok? ==> r.value == "Bearer " + Field(tokens, kind, "access_token").value.s
  {
    match Field(tokens, kind, "access_token")
    case Raised(e) => Raised(e)
    case Ok(t) => if t.JStr? then Ok("Bearer " + t.s) else Raised(TypeError)
  }

  // ---------------------------------------------------------------------
  // Expiry policy

  datatype Freshness = Expired | ExpiringSoon | Fresh

  /** The two tests of `validate_tokens`, in its order: already expired, then
      expiring within the next minute. Instants are whole seconds. */
  function TokenFreshness(idExp: int, atExp: int, now: int): Freshness
  {
    if now >= idExp || now >= atExp then Expired
    else if now + RefreshMargin >= idExp || now + RefreshMargin >= atExp then ExpiringSoon
    else Fresh
  }

  function Min(a: int, b: int): int { if a <= b then a else b }

  /** Tokens are renewed exactly when the earlier of the two expiries falls
      within the next minute (or has passed). */
  lemma RefreshWithinMinute(idExp: int, atExp: int, now: int)
    ensures TokenFreshness(idExp, atExp, now) != Fresh <==> Min(idExp, atExp) <= now + RefreshMargin
    ensures TokenFreshness(idExp, atExp, now) == Expired <==> Min(idExp, atExp) <= now
  {
  }

  // ---------------------------------------------------------------------
  // Refresh merge

  /** `for token in tokens: stored[token] = tokens[token]`: every key of the
      response overwrites the stored one, the other stored keys stay. */
  method MergeKeys(stored: map<string, Json>, incoming: map<string, Json>) returns (merged: map<string, Json>)
    ensures merged.Keys == stored.Keys + incoming.Keys
    ensures forall k :: k in incoming ==> merged[k] == incoming[k]
    ensures forall k :: k in stored && k !in incoming ==> merged[k] == stored[k]
    ensures merged == stored + incoming
  {
    merged := stored;
    var todo := incoming.Keys;
    while todo != {}
      invariant todo <= incoming.Keys
      invariant forall k :: k in merged <==> k in stored || (k in incoming && k !in todo)
      invariant forall k :: k in merged ==> merged[k] == if k in incoming && k !in todo then incoming[k] else stored[k]
      decreases |todo|
    {
      var k :| k in todo;
      merged := merged[k := incoming[k]];
      todo := todo - {k};
    }
    MergedIsUnion(stored, incoming, merged);
  }

  /** A map holding the keys of both, with the values of `incoming` wherever
      it has one, is their right-biased union. */
  lemma MergedIsUnion(stored: map<string, Json>, incoming: map<string, Json>, merged: map<string, Json>)
    requires forall k :: k in merged <==> k in stored || k in incoming
    requires forall k :: k in merged ==> merged[k] == if k in incoming then incoming[k] else stored[k]
    ensures merged == stored + incoming
  {
    assert merged.Keys == (stored + incoming).Keys;
  }

  // ---------------------------------------------------------------------
  // Key table of verify_tokens

  /** What one entry of a key set contributes to the table. */
  datatype KeyEntry = NotRsa | Admit(kid: Json, jwk: Json) | Broken

  /** `kid = jwk['kid']`, then `if jwk['kty'] == 'RSA': pubkeys[kid] = from_jwk(jwk)`;
      a missing field, a key the library rejects or an unusable dictionary key
      raises (Broken). */
  function Entry(jwk: Json, keyLoads: Json -> bool): (e: KeyEntry)
    ensures e.Admit? ==> e.jwk == jwk && Index(jwk, "kty") == Ok(JStr("RSA"))
                         && Index(jwk, "kid") == Ok(e.kid) && keyLoads(jwk) && Hashable(e.kid)
    ensures e.NotRsa? <==> Index(jwk, "kid").Ok? && Index(jwk, "kty").Ok? && Index(jwk, "kty").value != JStr("RSA")
    ensures Index(jwk, "kid").Ok? && Index(jwk, "kty") == Ok(JStr("RSA")) && keyLoads(jwk) && Hashable(Index(jwk, "kid").value) ==>
              e == Admit(Index(jwk, "kid").value, jwk)
  {
    match Index(jwk, "kid")
    case Raised(_) => Broken
    case Ok(kid) =>
      match Index(jwk, "kty")
      case Raised(_) => Broken
      case Ok(kty) =>
        if kty != JStr("RSA") then NotRsa
        else if keyLoads(jwk) && Hashable(kid) then Admit(kid, jwk)
        else Broken
  }

  /** The table built from a key set, entries taken in order; None when an entry raises. */
  function KeyTable(jwks: seq<Json>, keyLoads: Json -> bool): Option<map<Json, Json>>
    decreases |jwks|
  {
    if jwks == [] then Some(map[])
    else
      match KeyTable(jwks[..|jwks| - 1], keyLoads)
      case None => None
      case Some(table) =>
        match Entry(jwks[|jwks| - 1], keyLoads)
        case Broken => None
        case NotRsa => Some(table)
        case Admit(kid, jwk) => Some(table[kid := jwk])
  }

  /** The loop of `verify_tokens` that builds `pubkeys`. */
  method BuildKeyTable(jwks: seq<Json>, keyLoads: Json -> bool) returns (table: Option<map<Json, Json>>)
    ensures table == KeyTable(jwks, keyLoads)
  {
    var pubkeys: map<Json, Json> := map[];
    var i := 0;
    while i < |jwks|
      invariant 0 <= i <= |jwks|
      invariant KeyTable(jwks[..i], keyLoads) == Some(pubkeys)
    {
      assert jwks[..i + 1][..i] == jwks[..i];
      var entry := Entry(jwks[i], keyLoads);
      if entry.Broken? {
        KeyTableBrokenStays(jwks, i + 1, keyLoads);
        return None;
      } else if entry.Admit? {
        pubkeys := pubkeys[entry.kid := entry.jwk];
      }
      i := i + 1;
    }
    assert jwks[..i] == jwks;
    table := Some(pubkeys);
  }

  /** Once an entry has raised, the rest of the key set cannot undo it. */
  lemma {:induction false} KeyTableBrokenStays(jwks: seq<Json>, i: nat, keyLoads: Json -> bool)
    requires i <= |jwks| && KeyTable(jwks[..i], keyLoads).None?
    ensures KeyTable(jwks, keyLoads).None?
    decreases |jwks| - i
  {
    if i < |jwks| {
      assert jwks[..i + 1][..i] == jwks[..i];
      KeyTableBrokenStays(jwks, i + 1, keyLoads);
    } else {
      assert jwks[..i] == jwks;
    }
  }

  /** Every key in the table is an RSA key of the set, filed under its own kid. */
  lemma {:induction false} KeyTableSound(jwks: seq<Json>, keyLoads: Json -> bool)
    requires KeyTable(jwks, keyLoads).Some?
    ensures var table := KeyTable(jwks, keyLoads).value;
      forall kid :: kid in table ==> table[kid] in jwks && Entry(table[kid], keyLoads) == Admit(kid, table[kid])
    decreases |jwks|
  {
    if jwks != [] {
      var front := jwks[..|jwks| - 1];
      KeyTableSound(front, keyLoads);
      assert forall j :: j in front ==> j in jwks;
    }
  }

  /** Every admissible RSA key of the set has its kid in the table. */
  lemma {:induction false} KeyTableComplete(jwks: seq<Json>, keyLoads: Json -> bool)
    requires KeyTable(jwks, keyLoads).Some?
    ensures var table := KeyTable(jwks, keyLoads).value;
      forall i :: 0 <= i < |jwks| && Entry(jwks[i], keyLoads).Admit? ==> Entry(jwks[i], keyLoads).kid in table
    decreases |jwks|
  {
    if jwks != [] {
      var front := jwks[..|jwks| - 1];
      KeyTableComplete(front, keyLoads);
      assert forall i :: 0 <= i < |front| ==> front[i] == jwks[i];
    }
  }

  /** The table exists exactly when no entry of the set raises. */
  lemma {:induction false} KeyTableDefined(jwks: seq<Json>, keyLoads: Json -> bool)
    ensures KeyTable(jwks, keyLoads).Some? <==> forall i :: 0 <= i < |jwks| ==> !Entry(jwks[i], keyLoads).Broken?
    decreases |jwks|
  {
    if jwks != [] {
      var front := jwks[..|jwks| - 1];
      KeyTableDefined(front, keyLoads);
      assert forall i :: 0 <= i < |front| ==> front[i] == jwks[i];
    }
  }

  // ---------------------------------------------------------------------
  // Verdict of verify_tokens

  /** The audiences each authority's tokens may carry. */
  function Audience(kind: string, clientId: string): seq<string>
  {
    if kind == Identity then
      [clientId, "VWGMBB01DELIV1", "https://api.vas.eu.dp15.vwg-connect.com", "https://api.vas.eu.wcardp.io"]
    else ["mal.prd.ece.vwg-connect.com"]
  }

  /** The key id looked up for a token header's kid: the vehicle-API authority's
      keys carry a prefix (None when the prefix cannot be added to a non-string). */
  function LookupKid(kind: string, kid: Json): Option<Json>
  {
    if kind != Vwg then Some(kid)
    else if kid.JStr? then Some(JStr(KidPrefix + kid.s))
    else None
  }

  /** The `try` block of `verify_tokens` once the key set `keys` has been fetched:
      any exception inside it yields false. */
  function Verdict(keys: Json, token: Json, kind: string, audience: seq<string>, jwt: Jwt): bool
  {
    match Index(keys, "keys")
    case Raised(_) => false
    case Ok(list) =>
      if !list.JArr? then false
      else
        match KeyTable(list.items, jwt.keyLoads)
        case None => false
        case Some(table) =>
          if !token.JStr? then false
          else
            match jwt.headerKid(token.s)
            case None => false
            case Some(kid) =>
              match LookupKid(kind, kid)
              case None => false
              case Some(k) => k in table && jwt.signatureValid(token.s, table[k], audience)
  }

  /** A token is accepted only through an RSA key of the fetched set filed under
      the token's kid (prefixed for the vehicle-API authority), and only if the
      signature and audience check passes with that key. */
  lemma VerdictKeySelection(keys: Json, token: Json, kind: string, audience: seq<string>, jwt: Jwt)
    requires Verdict(keys, token, kind, audience, jwt)
    ensures token.JStr? && jwt.headerKid(token.s).Some?
    ensures kind == Vwg ==> jwt.headerKid(token.s).value.JStr?
    ensures keys.JObj? && "keys" in keys.fields && keys.fields["keys"].JArr?
    ensures var kid := jwt.headerKid(token.s).value;
      var k := if kind == Vwg then JStr(KidPrefix + kid.s) else kid;
      exists jwk :: jwk in keys.fields["keys"].items && Entry(jwk, jwt.keyLoads) == Admit(k, jwk)
                    && Index(jwk, "kty") == Ok(JStr("RSA"))
                    && jwt.signatureValid(token.s, jwk, audience)
  {
    var items := keys.fields["keys"].items;
    KeyTableSound(items, jwt.keyLoads);
    var table := KeyTable(items, jwt.keyLoads).value;
    var kid := jwt.headerKid(token.s).value;
    var k := LookupKid(kind, kid).value;
    assert table[k] in items;
  }

  /** Without a usable key set nothing verifies; a kind other than the two
      authorities never reaches this point. */
  lemma VerdictNeedsKeySet(keys: Json, token: Json, kind: string, audience: seq<string>, jwt: Jwt)
    requires !keys.JObj? || "keys" !in keys.fields || !keys.fields["keys"].JArr?
    ensures !Verdict(keys, token, kind, audience, jwt)
  {
  }
}
