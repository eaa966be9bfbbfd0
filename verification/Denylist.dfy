/** The Redis denylist (src/auth/access-denylist.ts) beside the life of the access tokens it
    blocks (src/auth/token.service.ts).  One clock in milliseconds; a key set with EX n at
    instant t exists for the instants before t + 1000 n.  `exp` and `iat` are whole seconds. */
module Denylist {
  const ACCESS_TTL_SEC: nat := 600

  /** Key to the instant it expires at. */
  type Keys = map<string, nat>

  function JtiKey(jti: string): string { "deny:jti:" + jti }

  function FamilyKey(familyId: string): string { "deny:fam:" + familyId }

  predicate Exists(keys: Keys, key: string, t: nat) { key in keys && t < keys[key] }

  /** Math.ceil(expiresAtSec - nowMs / 1000). */
  function RemainingSec(expiresAtSec: int, nowMs: nat): int { -((nowMs - 1000 * expiresAtSec) / 1000) }

  function RevokeAccess(keys: Keys, jti: string, expiresAtSec: int, nowMs: nat): Keys {
    var remaining := RemainingSec(expiresAtSec, nowMs);
    if remaining <= 0 then keys else keys[JtiKey(jti) := nowMs + 1000 * remaining]
  }

  function RevokeFamily(keys: Keys, familyId: string, nowMs: nat): Keys {
    keys[FamilyKey(familyId) := nowMs + 1000 * ACCESS_TTL_SEC]
  }

  predicate IsDenied(keys: Keys, jti: string, familyId: string, t: nat) {
    Exists(keys, JtiKey(jti), t) || Exists(keys, FamilyKey(familyId), t)
  }

  /** `exp` of an access token signed at instant t: whole seconds, 600 of them. */
  function ExpiryOf(signedAtMs: nat): nat { signedAtMs / 1000 + ACCESS_TTL_SEC }

  /** jwt.verify accepts a token while the current whole second is before `exp`. */
  predicate Unexpired(exp: nat, t: nat) { t / 1000 < exp }

  class AccessDenylist {
    var keys: Keys

    constructor ()
      ensures keys == map[]
    {
      keys := map[];
    }

    /** False when the token is over already, and then nothing is written. */
    method Revoke(jti: string, expiresAtSec: nat, nowMs: nat) returns (written: bool)
      modifies this
      ensures keys == RevokeAccess(old(keys), jti, expiresAtSec, nowMs)
      ensures written <==> nowMs < 1000 * expiresAtSec
    {
      var remainingSec := RemainingSec(expiresAtSec, nowMs);
      CeilingCovers(expiresAtSec, nowMs);
      if remainingSec <= 0 {
        return false;
      }
      keys := keys[JtiKey(jti) := nowMs + 1000 * remainingSec];
      return true;
    }

    method DenyFamily(familyId: string, nowMs: nat)
      modifies this
      ensures keys == RevokeFamily(old(keys), familyId, nowMs)
    {
      keys := keys[FamilyKey(familyId) := nowMs + 1000 * ACCESS_TTL_SEC];
    }
  }

  /** The ceiling rounds the denial up to or past the token's expiry, by less than a second,
      and is positive exactly while the token has time left. */
  lemma CeilingCovers(exp: int, now: nat)
    ensures 1000 * exp <= now + 1000 * RemainingSec(exp, now) < 1000 * exp + 1000
    ensures RemainingSec(exp, now) > 0 <==> now < 1000 * exp
  {
  }

  /** The two key spaces do not meet, and each is injective. */
  lemma KeysApart(a: string, b: string)
    ensures JtiKey(a) != FamilyKey(b)
    ensures JtiKey(a) == JtiKey(b) ==> a == b
    ensures FamilyKey(a) == FamilyKey(b) ==> a == b
  {
    assert JtiKey(a)[5] == 'j' && FamilyKey(b)[5] == 'f';
    assert JtiKey(a)[9..] == a && JtiKey(b)[9..] == b;
    assert FamilyKey(a)[9..] == a && FamilyKey(b)[9..] == b;
  }

  /** A revoked access token is denied at every instant at which it would still verify, and
      its key is gone less than a second after that. */
  lemma RevokedUntilExpiry(keys: Keys, jti: string, family: string, exp: nat, now: nat, t: nat)
    requires now <= t
    ensures Unexpired(exp, t) ==> IsDenied(RevokeAccess(keys, jti, exp, now), jti, family, t)
    ensures now < 1000 * exp && t >= 1000 * exp + 999 ==> !Exists(RevokeAccess(keys, jti, exp, now), JtiKey(jti), t)
  {
    CeilingCovers(exp, now);
  }

  /** A family denial is in force for exactly 600 seconds, and touches no other key. */
  lemma FamilyDenialLasts(keys: Keys, family: string, d: nat, t: nat, other: string)
    requires d <= t
    ensures Exists(RevokeFamily(keys, family, d), FamilyKey(family), t) <==> t < d + 600000
    ensures other != FamilyKey(family) ==> (Exists(RevokeFamily(keys, family, d), other, t) <==> Exists(keys, other, t))
  {
  }

  /** Access tokens live for 600 seconds from the second they were signed in. */
  lemma AccessLife(signedAtMs: nat, t: nat)
    ensures Unexpired(ExpiryOf(signedAtMs), t) <==> t / 1000 < signedAtMs / 1000 + 600
  {
  }

  /** A family denial written at d covers the whole remaining life of a token signed at s. */
  ghost predicate DenialCovers(d: nat, s: nat) {
    forall t: nat :: d <= t && t / 1000 < s / 1000 + 600 ==> t < d + 600000
  }

  /** That holds exactly for tokens whose second of signing began no later than the denial,
      so in particular for every token signed no later than the denial. */
  lemma DenialCoversIff(d: nat, s: nat)
    ensures DenialCovers(d, s) <==> 1000 * (s / 1000) <= d
    ensures s <= d ==> DenialCovers(d, s)
  {
    if 1000 * (s / 1000) > d {
      var t := d + 600000;
      assert t / 1000 < s / 1000 + 600;
    }
  }
}
