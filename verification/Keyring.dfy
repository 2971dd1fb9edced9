/** The OS keyring: a flat table of secrets keyed by region:profile:key strings, and the
    placeholder strings that point into it from ovh.conf and hosts.yml. */
module Keyring {
  import opened Prelude
  import opened AuthTypes

  type Ring = map<string, string>

  const PLACEHOLDER_PREFIX := "keyring:"

  function User(region: string, profile: string, key: string): string {
    region + ":" + profile + ":" + key
  }

  predicate IsPlaceholder(v: string) {
    PLACEHOLDER_PREFIX <= v
  }

  function MakePlaceholder(region: string, profile: string, key: string): string {
    PLACEHOLDER_PREFIX + User(region, profile, key)
  }

  // For instance the placeholder of a refresh token.
  lemma PlaceholderText()
    ensures MakePlaceholder("ovh-eu", "work", "refresh_token") == "keyring:ovh-eu:work:refresh_token"
  {
  }

  predicate ColonFree(s: string) {
    ':' !in s
  }

  // A region that can own an INI section and keyring entries of its own. "default" holds the
  // settings and "DEFAULT" is the section every INI file has.
  predicate Plain(region: string) {
    region != "" && region != "default" && region != "DEFAULT" && ColonFree(region)
  }

  lemma RegistryIsPlain(region: string)
    requires Known(region)
    ensures Plain(region)
  {
    var i :| 0 <= i < |REGISTRY| && REGISTRY[i] == region;
    forall j | 0 <= j < |REGISTRY|
      ensures Plain(REGISTRY[j])
    {
      assert REGISTRY[0][0] == 'o' && REGISTRY[1][0] == 'o' && REGISTRY[2][0] == 'o';
      assert REGISTRY[3][0] == 'k' && REGISTRY[4][0] == 'k';
      assert REGISTRY[5][0] == 's' && REGISTRY[6][0] == 's';
    }
  }

  lemma KnownExactly(region: string)
    ensures Known(region) <==> region in {"ovh-eu", "ovh-us", "ovh-ca", "kimsufi-eu", "kimsufi-ca", "soyoustart-eu", "soyoustart-ca"}
  {
    assert forall i | 0 <= i < |REGISTRY| :: REGISTRY[i] in REGISTRY;
    assert REGISTRY[0] == "ovh-eu" && REGISTRY[1] == "ovh-us" && REGISTRY[2] == "ovh-ca" && REGISTRY[3] == "kimsufi-eu";
    assert REGISTRY[4] == "kimsufi-ca" && REGISTRY[5] == "soyoustart-eu" && REGISTRY[6] == "soyoustart-ca";
  }

  lemma SplitAtFirstColon(a: string, x: string, b: string, y: string)
    requires ColonFree(a) && ColonFree(b)
    requires a + ":" + x == b + ":" + y
    ensures a == b && x == y
  {
    var s, t := a + ":" + x, b + ":" + y;
    assert forall i | 0 <= i < |a| :: s[i] == a[i];
    assert forall i | 0 <= i < |b| :: t[i] == b[i];
    assert s[|a|] == ':' && t[|b|] == ':';
    assert a == s[..|a|] && b == t[..|b|];
    assert x == s[|a| + 1..] && y == t[|b| + 1..];
  }

  lemma SplitAtLastColon(x: string, a: string, y: string, b: string)
    requires ColonFree(a) && ColonFree(b)
    requires x + ":" + a == y + ":" + b
    ensures x == y && a == b
  {
    var s, t := x + ":" + a, y + ":" + b;
    assert forall i | |x| < i < |s| :: s[i] == a[i - |x| - 1];
    assert forall i | |y| < i < |t| :: t[i] == b[i - |y| - 1];
    assert s[|x|] == ':' && t[|y|] == ':';
    assert x == s[..|x|] && y == t[..|y|];
    assert a == s[|x| + 1..] && b == t[|y| + 1..];
  }

  // Regions and keys without colons make the encoding injective, whatever the profile holds.
  lemma UserInjective(r: string, p: string, k: string, r': string, p': string, k': string)
    requires ColonFree(r) && ColonFree(r') && ColonFree(k) && ColonFree(k')
    ensures User(r, p, k) == User(r', p', k') <==> r == r' && p == p' && k == k'
  {
    if User(r, p, k) == User(r', p', k') {
      assert User(r, p, k) == (r + ":" + p) + ":" + k == r + ":" + (p + ":" + k);
      assert User(r', p', k') == (r' + ":" + p') + ":" + k' == r' + ":" + (p' + ":" + k');
      SplitAtLastColon(r + ":" + p, k, r' + ":" + p', k');
      SplitAtFirstColon(r, p, r', p');
    }
  }

  // A colon in a region is all it takes for two owners to share an entry.
  lemma UserCollides()
    ensures User("ovh-eu:a", "b", "refresh_token") == User("ovh-eu", "a:b", "refresh_token")
  {
    assert "ovh-eu:a" + ":" + "b" == "ovh-eu" + ":" + "a:b";
  }

  // Entries of one owner differ as soon as their keys do.
  lemma UserOfOneOwner(r: string, p: string, k: string, k': string)
    requires User(r, p, k) == User(r, p, k')
    ensures k == k'
  {
    var stem := r + ":" + p + ":";
    assert k == User(r, p, k)[|stem|..] && k' == User(r, p, k')[|stem|..];
  }

  // The key under which concurrent refreshes are coalesced.
  function FlightKey(region: string, profile: string): string {
    region + ":" + profile
  }

  lemma FlightKeyInjective(r: string, p: string, r': string, p': string)
    requires ColonFree(r) && ColonFree(r')
    ensures FlightKey(r, p) == FlightKey(r', p') <==> r == r' && p == p'
  {
    if FlightKey(r, p) == FlightKey(r', p') {
      SplitAtFirstColon(r, p, r', p');
    }
  }

  // keyringGet: a missing entry reads as "not configured", any other failure as "unavailable".
  function RingGet(ring: Ring, user: string, down: set<string>): Outcome<string> {
    if user in down then Err(KeyringUnavailable)
    else if user in ring then Ok(ring[user])
    else Err(NotConfigured)
  }

  function ResolveSecret(v: string, region: string, profile: string, key: string, ring: Ring, down: set<string>)
    : Outcome<string>
  {
    if !IsPlaceholder(v) then Ok(v)
    else if v[|PLACEHOLDER_PREFIX|..] != User(region, profile, key) then Err(PlaceholderMismatch)
    else RingGet(ring, User(region, profile, key), down)
  }

  // A placeholder is accepted for exactly the tuple it was made for.
  lemma PlaceholderAcceptedExactly(r: string, p: string, k: string, r': string, p': string, k': string,
                                   ring: Ring, down: set<string>)
    requires ColonFree(r) && ColonFree(r') && ColonFree(k) && ColonFree(k')
    ensures ResolveSecret(MakePlaceholder(r, p, k), r', p', k', ring, down) != Err(PlaceholderMismatch)
            <==> r == r' && p == p' && k == k'
    ensures ResolveSecret(MakePlaceholder(r, p, k), r, p, k, ring, down) == RingGet(ring, User(r, p, k), down)
  {
    UserInjective(r, p, k, r', p', k');
    assert MakePlaceholder(r, p, k)[|PLACEHOLDER_PREFIX|..] == User(r, p, k);
  }

  /** The keyring service. A failing write leaves the entry as it was. */
  class OsKeyring {
    var entries: Ring

    constructor (entries: Ring)
      ensures this.entries == entries
    {
      this.entries := entries;
    }

    method Set(region: string, profile: string, key: string, secret: string, fails: set<string>)
      returns (err: Option<Error>)
      modifies this
      ensures User(region, profile, key) in fails ==> err == Some(KeyringUnavailable) && entries == old(entries)
      ensures User(region, profile, key) !in fails ==>
                err == None && entries == old(entries)[User(region, profile, key) := secret]
    {
      var user := User(region, profile, key);
      if user in fails {
        return Some(KeyringUnavailable);
      }
      entries := entries[user := secret];
      return None;
    }

    method Get(region: string, profile: string, key: string, down: set<string>) returns (r: Outcome<string>)
      ensures r == RingGet(entries, User(region, profile, key), down)
    {
      var user := User(region, profile, key);
      if user in down {
        return Err(KeyringUnavailable);
      }
      if user !in entries {
        return Err(NotConfigured);
      }
      return Ok(entries[user]);
    }

    // A missing entry is no error. Every caller drops the error.
    method Delete(region: string, profile: string, key: string, fails: set<string>) returns (err: Option<Error>)
      modifies this
      ensures entries == RingDelete(old(entries), User(region, profile, key), fails)
      ensures err == if User(region, profile, key) in fails then Some(KeyringUnavailable) else None
    {
      var user := User(region, profile, key);
      if user in fails {
        return Some(KeyringUnavailable);
      }
      entries := entries - {user};
      return None;
    }
  }

  function RingDelete(ring: Ring, user: string, fails: set<string>): Ring {
    if user in fails then ring else ring - {user}
  }
}
