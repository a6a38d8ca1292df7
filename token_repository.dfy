/** The table of issued token pairs. Each login, refresh or tenant switch
    stores one record; a record whose `loggedOut` flag is set no longer
    authorises anything, and a periodic sweep deletes dead records. */
module TokenRepository {
  import opened Wrappers
  import Tables

  datatype TokenRecord = TokenRecord(
    accessToken: string,
    refreshToken: Option<string>,
    user: nat,                  // id of the owning user
    loggedOut: bool,
    expirationDate: nat)        // the access token's expiration, in milliseconds

  /** A record that still authorises its owner. */
  predicate LiveFor(t: TokenRecord, u: nat) { t.user == u && !t.loggedOut }

  /** `findAllAccessTokensByUser`: the user's records that are not logged out, in table order. */
  function FindAllAccessTokensByUser(ts: seq<TokenRecord>, u: nat): (r: seq<TokenRecord>)
    ensures |r| <= |ts|
    ensures forall t :: t in r <==> t in ts && LiveFor(t, u)
  {
    if ts == [] then []
    else (if LiveFor(ts[0], u) then [ts[0]] else []) + FindAllAccessTokensByUser(ts[1..], u)
  }

  lemma {:induction false} FindAllAppend(a: seq<TokenRecord>, b: seq<TokenRecord>, u: nat)
    ensures FindAllAccessTokensByUser(a + b, u) == FindAllAccessTokensByUser(a, u) + FindAllAccessTokensByUser(b, u)
  {
    if a != [] {
      assert (a + b)[1..] == a[1..] + b;
      FindAllAppend(a[1..], b, u);
    } else {
      assert a + b == b;
    }
  }

  /** `findByAccessToken`. */
  function FindByAccessToken(ts: seq<TokenRecord>, token: string): Result<Option<TokenRecord>>
  {
    Tables.FindUnique(ts, (t: TokenRecord) => t.accessToken == token)
  }

  /** `findByRefreshToken`. */
  function FindByRefreshToken(ts: seq<TokenRecord>, token: string): Result<Option<TokenRecord>>
  {
    Tables.FindUnique(ts, (t: TokenRecord) => t.refreshToken == Some(token))
  }

  /** A lookup that found a record which is not logged out; a missing record
      counts as not live. */
  predicate Live(found: Result<Option<TokenRecord>>)
  {
    found.Ok? && found.value.Some? && !found.value.value.loggedOut
  }

  /** The record after logging it out when it is a live record of `u`. */
  function Revoked(t: TokenRecord, u: nat): TokenRecord
  {
    if LiveFor(t, u) then t.(loggedOut := true) else t
  }

  /** The table after `revokeAllTokensByUser(u)`: every live record of `u`
      logged out, every other record untouched. */
  function RevokeAll(ts: seq<TokenRecord>, u: nat): (r: seq<TokenRecord>)
    ensures |r| == |ts|
  {
    if ts == [] then [] else [Revoked(ts[0], u)] + RevokeAll(ts[1..], u)
  }

  lemma {:induction false} RevokeAllAt(ts: seq<TokenRecord>, u: nat, i: nat)
    requires i < |ts|
    ensures RevokeAll(ts, u)[i] == Revoked(ts[i], u)
  {
    if i > 0 { RevokeAllAt(ts[1..], u, i - 1); }
  }

  /** Revoking leaves the user no live record and changes nothing else: the
      records of other users are untouched, and of the user's records only
      the flag moves. */
  lemma {:induction false} RevokeAllEffect(ts: seq<TokenRecord>, u: nat)
    ensures FindAllAccessTokensByUser(RevokeAll(ts, u), u) == []
    ensures forall v :: v != u ==> FindAllAccessTokensByUser(RevokeAll(ts, u), v) == FindAllAccessTokensByUser(ts, v)
    ensures forall i :: 0 <= i < |ts| ==>
      RevokeAll(ts, u)[i].loggedOut == (ts[i].loggedOut || ts[i].user == u) &&
      RevokeAll(ts, u)[i] == ts[i].(loggedOut := RevokeAll(ts, u)[i].loggedOut)
  {
    if ts != [] {
      RevokeAllEffect(ts[1..], u);
      forall i | 0 <= i < |ts| ensures RevokeAll(ts, u)[i] == Revoked(ts[i], u) { RevokeAllAt(ts, u, i); }
    }
  }

  /** The table after the service issues a new pair to `u`: the old live
      records of `u` revoked, then the new record appended. */
  function Rotate(ts: seq<TokenRecord>, u: nat, issued: TokenRecord): seq<TokenRecord>
  {
    RevokeAll(ts, u) + [issued]
  }

  /** After a rotation the user holds exactly one live record, the new one,
      and every other user's live records are what they were. */
  lemma RotateLeavesOneLive(ts: seq<TokenRecord>, u: nat, issued: TokenRecord)
    requires LiveFor(issued, u)
    ensures FindAllAccessTokensByUser(Rotate(ts, u, issued), u) == [issued]
    ensures forall v :: v != u ==> FindAllAccessTokensByUser(Rotate(ts, u, issued), v) == FindAllAccessTokensByUser(ts, v)
  {
    RevokeAllEffect(ts, u);
    FindAllAppend(RevokeAll(ts, u), [issued], u);
    forall v | v != u
      ensures FindAllAccessTokensByUser(Rotate(ts, u, issued), v) == FindAllAccessTokensByUser(ts, v)
    {
      FindAllAppend(RevokeAll(ts, u), [issued], v);
    }
  }

  /** Any access token the user held before a rotation no longer looks up
      to a live record afterwards: either its record is found logged out, or
      the same text now sits in two records and the lookup fails. */
  lemma PriorAccessTokenDead(ts: seq<TokenRecord>, u: nat, issued: TokenRecord, i: nat)
    requires i < |ts| && ts[i].user == u
    ensures !Live(FindByAccessToken(Rotate(ts, u, issued), ts[i].accessToken))
  {
    var after := Rotate(ts, u, issued);
    RevokeAllAt(ts, u, i);
    assert after[i] == Revoked(ts[i], u);
    assert after[i].accessToken == ts[i].accessToken && after[i].loggedOut;
  }

  /** The same for the refresh token of a record the user held before. */
  lemma PriorRefreshTokenDead(ts: seq<TokenRecord>, u: nat, issued: TokenRecord, i: nat)
    requires i < |ts| && ts[i].user == u && ts[i].refreshToken.Some?
    ensures !Live(FindByRefreshToken(Rotate(ts, u, issued), ts[i].refreshToken.value))
  {
    var after := Rotate(ts, u, issued);
    RevokeAllAt(ts, u, i);
    assert after[i] == Revoked(ts[i], u);
    assert after[i].refreshToken == ts[i].refreshToken && after[i].loggedOut;
  }

  /** The rows `deleteExpiredOrLoggedOutTokens(currentDate)` deletes. Note the
      strict comparison: a record expiring exactly at `currentDate` stays. */
  predicate Dead(t: TokenRecord, currentDate: nat)
  {
    t.loggedOut || t.refreshToken.None? || t.expirationDate < currentDate
  }

  /** The table after the sweep: the records that are not dead, in order. */
  function Sweep(ts: seq<TokenRecord>, currentDate: nat): (r: seq<TokenRecord>)
    ensures |r| <= |ts|
    ensures forall t :: t in r <==> t in ts && !Dead(t, currentDate)
  {
    if ts == [] then []
    else (if Dead(ts[0], currentDate) then [] else [ts[0]]) + Sweep(ts[1..], currentDate)
  }

  lemma {:induction false} SweepAppend(a: seq<TokenRecord>, b: seq<TokenRecord>, d: nat)
    ensures Sweep(a + b, d) == Sweep(a, d) + Sweep(b, d)
  {
    if a != [] {
      assert (a + b)[1..] == a[1..] + b;
      SweepAppend(a[1..], b, d);
    } else {
      assert a + b == b;
    }
  }

  /** A second sweep at the same or an earlier date deletes nothing more. */
  lemma {:induction false} SweepIdempotent(ts: seq<TokenRecord>, d: nat, e: nat)
    requires e <= d
    ensures Sweep(Sweep(ts, d), e) == Sweep(ts, d)
  {
    if ts != [] {
      SweepIdempotent(ts[1..], d, e);
      SweepAppend(if Dead(ts[0], d) then [] else [ts[0]], Sweep(ts[1..], d), e);
    }
  }

  /** The sweep never removes a record that still authorises its owner and
      has not yet expired. */
  lemma SweepKeepsLive(ts: seq<TokenRecord>, d: nat, u: nat)
    ensures forall t :: t in FindAllAccessTokensByUser(ts, u) && t.refreshToken.Some? && d <= t.expirationDate ==>
      t in FindAllAccessTokensByUser(Sweep(ts, d), u)
  {
  }
}
