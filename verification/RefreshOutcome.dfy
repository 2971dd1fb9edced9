/** What one refresh leaves behind and returns, for every answer of the token endpoint. */
module RefreshOutcome {
  import opened Prelude
  import opened AuthTypes
  import opened Store
  import opened LoadOutcome
  import Written = StoreOutcome

  // New tokens were answered for a refresh token that was found.
  predicate Renewed(w: World, region: string, profile: string, down: set<string>, reply: Reply) {
    var before := Load(w, region, profile, down);
    before.Ok? && before.value.refreshToken != "" && region == "ovh-eu" && reply.Tokens?
  }

  // The credentials with the reply's tokens; the old refresh token if it names none.
  function After(c: Credentials, reply: Reply): Credentials
    requires reply.Tokens?
  {
    Credentials(c.region, c.profile, c.authMethod, c.applicationKey, c.applicationSecret, c.consumerKey, c.clientId, c.clientSecret,
                reply.access, if reply.refresh == "" then c.refreshToken else reply.refresh, reply.expiry)
  }

  predicate Reports(w: World, region: string, profile: string, down: set<string>, reply: Reply, faults: Faults, e: Error) {
    match Load(w, region, profile, down)
    case Err(why) => e == why
    case Ok(c) =>
      if c.refreshToken == "" then e == CredentialsExpired
      else if region != "ovh-eu" then e == NoTokenEndpoint
      else match reply
           case NoEndpoint => e == NoTokenEndpoint
           case Declined => e == ExchangeFailed
           case Tokens(_, _, _) => Written.Reports(w, region, profile, After(c, reply), faults, e)
  }

  // A refresh returns the renewed credentials exactly when they could be stored, and else exactly
  // the error of the step that failed.
  lemma RefreshReturnsExactly(w: World, region: string, profile: string, down: set<string>, reply: Reply, faults: Faults)
    ensures var r, before := Refresh(w, region, profile, down, reply, faults).result, Load(w, region, profile, down);
            && (r.Ok? <==> Renewed(w, region, profile, down, reply)
                           && Written.GetsThrough(w, region, profile, After(before.value, reply), faults))
            && (r.Ok? ==> r.value == After(before.value, reply))
            && (forall e :: r == Err(e) <==> Reports(w, region, profile, down, reply, faults, e))
  {
    if Renewed(w, region, profile, down, reply) {
      var c := Load(w, region, profile, down).value;
      assert Refreshed(c, reply) == After(c, reply);
      Written.StoreReportsExactly(w, region, profile, After(c, reply), faults);
    }
  }

  // It leaves everything as it was, unless there are new tokens: then it leaves what their Store
  // leaves, whether that gets through or not.
  lemma RefreshLeavesExactly(w: World, region: string, profile: string, down: set<string>, reply: Reply, faults: Faults)
    ensures var w' := Refresh(w, region, profile, down, reply, faults).world;
            if Renewed(w, region, profile, down, reply) then
              forall v :: v == w' <==> Written.Leaves(w, region, profile, After(Load(w, region, profile, down).value, reply), faults, v)
            else w' == w
  {
    if Renewed(w, region, profile, down, reply) {
      var c := Load(w, region, profile, down).value;
      assert Refreshed(c, reply) == After(c, reply);
      Written.StoreLeavesExactly(w, region, profile, After(c, reply), faults);
    }
  }
}
