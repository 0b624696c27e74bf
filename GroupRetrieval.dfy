/** Resolution of the external security groups of a user: a fixed sequence
    of short-circuit guards, then one directory lookup per linked identity
    of this provider, merged into a collection without duplicates. */
module GroupRetrieval {
  import opened DirectoryServices

  /** A linked external identity: the provider that issued it and its claims
      (claim type to claim value). */
  datatype Identity = Identity(identityProviderName: string, claims: map<string, string>)

  /** A user of the host, with its linked identities in order. */
  datatype User = User(username: string, identities: seq<Identity>)

  /** What the directory answers for one account name. `groupIds` is only
      looked at when `wasAbleToRetrieveGroups` holds. */
  datatype LocatorResult = LocatorResult(wasAbleToRetrieveGroups: bool, groupIds: seq<string>)

  /** The tagged outcome handed back to the host: a list of group ids or a
      human-readable reason why there is none. */
  datatype ExternalGroupResult =
    | Groups(providerName: string, groupIds: seq<string>)
    | FailureReason(providerName: string, reason: string)

  predicate BelongsToProvider(id: Identity) {
    id.identityProviderName == ProviderName
  }

  /** Every identity of this provider carries a SAM account-name claim. */
  predicate SamClaimsPresent(ids: seq<Identity>) {
    forall id :: id in ids && BelongsToProvider(id) ==> SamAccountNameClaimType in id.claims
  }

  predicate Distinct(s: seq<string>) {
    forall i, j :: 0 <= i < j < |s| ==> s[i] != s[j]
  }

  /** The identities of this provider, in the user's order. */
  function AdIdentities(ids: seq<Identity>): (r: seq<Identity>)
    ensures forall id :: id in r ==> id in ids && BelongsToProvider(id)
  {
    if ids == [] then []
    else (if BelongsToProvider(ids[0]) then [ids[0]] else []) + AdIdentities(ids[1..])
  }

  /** The SAM account names of a list of identities, in order. */
  function AccountNames(ads: seq<Identity>): (r: seq<string>)
    requires forall id :: id in ads ==> SamAccountNameClaimType in id.claims
    ensures |r| == |ads|
  {
    seq(|ads|, i requires 0 <= i < |ads| => ads[i].claims[SamAccountNameClaimType])
  }

  /** `acc` followed by each element of `gs`, left to right, that is not
      already present: what adding `gs` to a hash set leaves behind. */
  function AddDistinct(acc: seq<string>, gs: seq<string>): seq<string>
  {
    if gs == [] then acc
    else
      var prior := AddDistinct(acc, gs[..|gs| - 1]);
      if gs[|gs| - 1] in prior then prior else prior + [gs[|gs| - 1]]
  }

  /** The merge of the groups of every successful lookup of `names`. */
  function MergedGroups(names: seq<string>, locator: string -> LocatorResult): seq<string>
  {
    if names == [] then []
    else
      var prior := MergedGroups(names[..|names| - 1], locator);
      var last := locator(names[|names| - 1]);
      if last.wasAbleToRetrieveGroups then AddDistinct(prior, last.groupIds) else prior
  }

  predicate SomeSucceeded(names: seq<string>, locator: string -> LocatorResult) {
    exists i :: 0 <= i < |names| && locator(names[i]).wasAbleToRetrieveGroups
  }

  /** None of the guards applies: the provider and its group support are
      enabled, the user is not the guest and has an identity of this provider. */
  predicate LookupReached(config: DirectoryServicesConfiguration, user: User) {
    && config.isEnabled
    && config.areSecurityGroupsEnabled
    && user.username != GuestLogin
    && !(forall i :: 0 <= i < |user.identities| ==> user.identities[i].identityProviderName != ProviderName)
  }

  /** The account names handed to the directory, in call order. */
  function Queried(config: DirectoryServicesConfiguration, user: User): seq<string>
    requires LookupReached(config, user) ==> SamClaimsPresent(user.identities)
  {
    if LookupReached(config, user) then AccountNames(AdIdentities(user.identities)) else []
  }

  /** The outcome of a resolution, as a function of the configuration, the
      user and the directory's answers. */
  function Resolved(config: DirectoryServicesConfiguration, user: User, locator: string -> LocatorResult): ExternalGroupResult
    requires LookupReached(config, user) ==> SamClaimsPresent(user.identities)
  {
    if !config.isEnabled || !config.areSecurityGroupsEnabled then
      FailureReason(ProviderName, "Not enabled")
    else if user.username == GuestLogin then
      FailureReason(ProviderName, "Not valid for Guest user")
    else if forall i :: 0 <= i < |user.identities| ==> user.identities[i].identityProviderName != ProviderName then
      FailureReason(ProviderName, "No identities matching this provider")
    else
      var names := Queried(config, user);
      if !SomeSucceeded(names, locator) then
        FailureReason(ProviderName, "Couldn't retrieve groups for user " + user.username)
      else
        Groups(ProviderName, MergedGroups(names, locator))
  }

  /** Resolves the groups of `user`. `locator` stands for the directory
      lookup; `queried` lists the account names passed to it, in order. */
  method Read(config: DirectoryServicesConfiguration, user: User, locator: string -> LocatorResult)
    returns (r: ExternalGroupResult, queried: seq<string>)
    requires LookupReached(config, user) ==> SamClaimsPresent(user.identities)
    ensures r == Resolved(config, user, locator)
    ensures queried == Queried(config, user)
  {
    queried := [];
    if !config.isEnabled || !config.areSecurityGroupsEnabled {
      return FailureReason(ProviderName, "Not enabled"), queried;
    }
    if user.username == GuestLogin {
      return FailureReason(ProviderName, "Not valid for Guest user"), queried;
    }
    if forall i :: 0 <= i < |user.identities| ==> user.identities[i].identityProviderName != ProviderName {
      return FailureReason(ProviderName, "No identities matching this provider"), queried;
    }

    var wasAbleToRetrieveSomeGroups := false;
    var newGroups: seq<string> := [];
    var adIdentities := AdIdentities(user.identities);
    for k := 0 to |adIdentities|
      invariant queried == AccountNames(adIdentities[..k])
      invariant wasAbleToRetrieveSomeGroups == SomeSucceeded(queried, locator)
      invariant newGroups == MergedGroups(queried, locator)
    {
      var samAccountName := adIdentities[k].claims[SamAccountNameClaimType];
      var result := locator(samAccountName);
      if result.wasAbleToRetrieveGroups {
        newGroups := AddGroups(newGroups, result.groupIds);
        wasAbleToRetrieveSomeGroups := true;
      }
      LookupStep(queried, samAccountName, locator);
      AccountNamesStep(adIdentities, k);
      queried := queried + [samAccountName];
    }
    assert adIdentities[..|adIdentities|] == adIdentities;
    assert LookupReached(config, user) && queried == Queried(config, user);

    if !wasAbleToRetrieveSomeGroups {
      return FailureReason(ProviderName, "Couldn't retrieve groups for user " + user.username), queried;
    }
    r := Groups(ProviderName, newGroups);
  }

  /** Adds to `newGroups` each id of `groupIds` that it does not hold yet. */
  method AddGroups(newGroups: seq<string>, groupIds: seq<string>) returns (merged: seq<string>)
    ensures merged == AddDistinct(newGroups, groupIds)
  {
    merged := newGroups;
    for j := 0 to |groupIds|
      invariant merged == AddDistinct(newGroups, groupIds[..j])
    {
      assert groupIds[..j + 1][..j] == groupIds[..j];
      if groupIds[j] !in merged {
        merged := merged + [groupIds[j]];
      }
    }
    assert groupIds[..|groupIds|] == groupIds;
  }

  /** One more lookup extends the merge and the success flag by its answer. */
  lemma LookupStep(names: seq<string>, name: string, locator: string -> LocatorResult)
    ensures MergedGroups(names + [name], locator) ==
      if locator(name).wasAbleToRetrieveGroups then AddDistinct(MergedGroups(names, locator), locator(name).groupIds)
      else MergedGroups(names, locator)
    ensures SomeSucceeded(names + [name], locator) <==>
      SomeSucceeded(names, locator) || locator(name).wasAbleToRetrieveGroups
  {
    var names' := names + [name];
    assert names'[..|names'| - 1] == names;
    if SomeSucceeded(names, locator) {
      var i :| 0 <= i < |names| && locator(names[i]).wasAbleToRetrieveGroups;
      assert names'[i] == names[i];
    }
    if SomeSucceeded(names', locator) {
      var i :| 0 <= i < |names'| && locator(names'[i]).wasAbleToRetrieveGroups;
      if i < |names| {
        assert names'[i] == names[i];
      }
    }
  }

  lemma AccountNamesStep(ads: seq<Identity>, k: nat)
    requires k < |ads|
    requires forall id :: id in ads ==> SamAccountNameClaimType in id.claims
    ensures AccountNames(ads[..k + 1]) == AccountNames(ads[..k]) + [ads[k].claims[SamAccountNameClaimType]]
  {
    assert ads[..k + 1] == ads[..k] + [ads[k]];
  }

  // ---------------------------------------------------------------------
  // Properties of the merge

  /** Adding `gs` to `acc` keeps what was there and adds exactly `gs`. */
  lemma {:induction false} AddDistinctMembership(acc: seq<string>, gs: seq<string>)
    ensures forall g :: g in AddDistinct(acc, gs) <==> g in acc || g in gs
  {
    if gs != [] {
      var init := gs[..|gs| - 1];
      AddDistinctMembership(acc, init);
      assert gs == init + [gs[|gs| - 1]];
    }
  }

  /** Adding to a collection without duplicates never creates one. */
  lemma {:induction false} AddDistinctKeepsDistinct(acc: seq<string>, gs: seq<string>)
    requires Distinct(acc)
    ensures Distinct(AddDistinct(acc, gs))
  {
    if gs != [] {
      AddDistinctKeepsDistinct(acc, gs[..|gs| - 1]);
    }
  }

  /** The merged groups are exactly the union of the groups of the
      successful lookups; failed lookups contribute nothing. */
  lemma {:induction false} MergedGroupsIsUnion(names: seq<string>, locator: string -> LocatorResult)
    ensures forall g :: g in MergedGroups(names, locator) <==>
      exists i :: 0 <= i < |names| && locator(names[i]).wasAbleToRetrieveGroups && g in locator(names[i]).groupIds
  {
    if names != [] {
      var init := names[..|names| - 1];
      var last := locator(names[|names| - 1]);
      MergedGroupsIsUnion(init, locator);
      AddDistinctMembership(MergedGroups(init, locator), last.groupIds);
      forall g | g in MergedGroups(names, locator)
        ensures exists i :: 0 <= i < |names| && locator(names[i]).wasAbleToRetrieveGroups && g in locator(names[i]).groupIds
      {
        if g in MergedGroups(init, locator) {
          var i :| 0 <= i < |init| && locator(init[i]).wasAbleToRetrieveGroups && g in locator(init[i]).groupIds;
          assert names[i] == init[i];
        } else {
          assert g in last.groupIds;
        }
      }
      forall g, i | 0 <= i < |names| && locator(names[i]).wasAbleToRetrieveGroups && g in locator(names[i]).groupIds
        ensures g in MergedGroups(names, locator)
      {
        if i < |init| {
          assert init[i] == names[i];
        }
      }
    }
  }

  /** The merged groups hold no duplicates. */
  lemma {:induction false} MergedGroupsDistinct(names: seq<string>, locator: string -> LocatorResult)
    ensures Distinct(MergedGroups(names, locator))
  {
    if names != [] {
      var init := names[..|names| - 1];
      MergedGroupsDistinct(init, locator);
      AddDistinctKeepsDistinct(MergedGroups(init, locator), locator(names[|names| - 1]).groupIds);
    }
  }

  // ---------------------------------------------------------------------
  // Properties of the identity filter

  /** The filter keeps exactly the identities of this provider. */
  lemma {:induction false} AdIdentitiesMembership(ids: seq<Identity>)
    ensures forall id :: id in AdIdentities(ids) <==> id in ids && BelongsToProvider(id)
  {
    if ids != [] {
      AdIdentitiesMembership(ids[1..]);
      assert ids == [ids[0]] + ids[1..];
    }
  }

  /** Filtering distributes over concatenation. */
  lemma {:induction false} AdIdentitiesAppend(a: seq<Identity>, b: seq<Identity>)
    ensures AdIdentities(a + b) == AdIdentities(a) + AdIdentities(b)
  {
    if a != [] {
      assert (a + b)[1..] == a[1..] + b;
      AdIdentitiesAppend(a[1..], b);
    } else {
      assert a + b == b;
    }
  }

  // ---------------------------------------------------------------------
  // Properties of a resolution

  /** The guards, in order: each yields its reason and queries nothing. */
  lemma GuardsShortCircuit(config: DirectoryServicesConfiguration, user: User, locator: string -> LocatorResult)
    requires LookupReached(config, user) ==> SamClaimsPresent(user.identities)
    ensures !config.isEnabled || !config.areSecurityGroupsEnabled ==>
      Resolved(config, user, locator) == FailureReason(ProviderName, "Not enabled")
    ensures config.isEnabled && config.areSecurityGroupsEnabled && user.username == GuestLogin ==>
      Resolved(config, user, locator) == FailureReason(ProviderName, "Not valid for Guest user")
    ensures (config.isEnabled && config.areSecurityGroupsEnabled && user.username != GuestLogin
      && AdIdentities(user.identities) == []) ==>
      Resolved(config, user, locator) == FailureReason(ProviderName, "No identities matching this provider")
    ensures !LookupReached(config, user) ==> Queried(config, user) == []
  {
    NoMatchIffNoAdIdentities(user.identities);
  }

  /** "No identity of this provider" is the same as an empty filter. */
  lemma NoMatchIffNoAdIdentities(ids: seq<Identity>)
    ensures (forall i :: 0 <= i < |ids| ==> ids[i].identityProviderName != ProviderName) <==> AdIdentities(ids) == []
  {
    AdIdentitiesMembership(ids);
    if AdIdentities(ids) != [] {
      assert AdIdentities(ids)[0] in ids;
    }
  }

  /** Once the guards pass, the directory is asked once per identity of
      this provider, in order, with that identity's SAM account name. */
  lemma QueriesFollowAdIdentities(config: DirectoryServicesConfiguration, user: User)
    requires LookupReached(config, user) && SamClaimsPresent(user.identities)
    ensures |Queried(config, user)| == |AdIdentities(user.identities)| > 0
    ensures forall i :: 0 <= i < |Queried(config, user)| ==>
      Queried(config, user)[i] == AdIdentities(user.identities)[i].claims[SamAccountNameClaimType]
  {
    NoMatchIffNoAdIdentities(user.identities);
  }

  /** An identity from another provider changes neither the lookups nor the
      outcome, wherever it sits in the user's list. */
  lemma OtherProvidersIgnored(config: DirectoryServicesConfiguration, user: User, other: Identity, k: nat,
                              locator: string -> LocatorResult)
    requires k <= |user.identities| && !BelongsToProvider(other)
    requires LookupReached(config, user) ==> SamClaimsPresent(user.identities)
    ensures var user' := User(user.username, user.identities[..k] + [other] + user.identities[k..]);
      && (LookupReached(config, user') ==> SamClaimsPresent(user'.identities))
      && Queried(config, user') == Queried(config, user)
      && Resolved(config, user', locator) == Resolved(config, user, locator)
  {
    var ids := user.identities;
    var ids' := ids[..k] + [other] + ids[k..];
    var user' := User(user.username, ids');
    InsertIgnored(ids, other, k);
    NoMatchIffNoAdIdentities(ids);
    NoMatchIffNoAdIdentities(ids');
    assert LookupReached(config, user') == LookupReached(config, user);
    if LookupReached(config, user) {
      InsertKeepsClaims(ids, other, k);
    }
  }

  lemma InsertKeepsClaims(ids: seq<Identity>, other: Identity, k: nat)
    requires k <= |ids| && !BelongsToProvider(other) && SamClaimsPresent(ids)
    ensures SamClaimsPresent(ids[..k] + [other] + ids[k..])
  {
    forall id | id in ids[..k] + [other] + ids[k..]
      ensures id in ids || id == other
    {
      assert id in ids[..k] || id == other || id in ids[k..];
    }
  }

  /** Filtering drops an inserted identity of another provider. Automatic
      induction is off: the proof is a direct calculation, and the
      hypothesis Dafny would add only makes it slower. */
  lemma {:induction false} InsertIgnored(ids: seq<Identity>, other: Identity, k: nat)
    requires k <= |ids| && !BelongsToProvider(other)
    ensures AdIdentities(ids[..k] + [other] + ids[k..]) == AdIdentities(ids)
  {
    var a, b := ids[..k], ids[k..];
    assert ids == a + b;
    assert AdIdentities([other]) == [] by {
      assert [other][1..] == [];
    }
    calc {
      AdIdentities(a + [other] + b);
      { AdIdentitiesAppend(a + [other], b); }
      AdIdentities(a + [other]) + AdIdentities(b);
      { AdIdentitiesAppend(a, [other]); }
      AdIdentities(a) + AdIdentities([other]) + AdIdentities(b);
      AdIdentities(a) + AdIdentities(b);
      { AdIdentitiesAppend(a, b); }
      AdIdentities(ids);
    }
  }

  /** The call succeeds exactly when the guards pass and at least one
      lookup succeeds, even if every other one fails or a successful one
      returns no groups; otherwise the reason names the user. */
  lemma SuccessIffSomeLookupSucceeds(config: DirectoryServicesConfiguration, user: User, locator: string -> LocatorResult)
    requires LookupReached(config, user) ==> SamClaimsPresent(user.identities)
    ensures var names := Queried(config, user);
      Resolved(config, user, locator).Groups? <==>
        exists i :: 0 <= i < |names| && locator(names[i]).wasAbleToRetrieveGroups
    ensures LookupReached(config, user) && !SomeSucceeded(Queried(config, user), locator) ==>
      Resolved(config, user, locator) == FailureReason(ProviderName, "Couldn't retrieve groups for user " + user.username)
  {
  }

  /** On success the group ids are exactly the union of the groups of the
      successful lookups, without duplicates. */
  lemma SuccessIsDistinctUnion(config: DirectoryServicesConfiguration, user: User, locator: string -> LocatorResult)
    requires LookupReached(config, user) ==> SamClaimsPresent(user.identities)
    ensures var names := Queried(config, user);
      var r := Resolved(config, user, locator);
      r.Groups? ==>
      var groups := r.groupIds;
      && Distinct(groups)
      && forall g :: g in groups <==>
        exists i :: 0 <= i < |names| && locator(names[i]).wasAbleToRetrieveGroups && g in locator(names[i]).groupIds
  {
    MergedGroupsIsUnion(Queried(config, user), locator);
    MergedGroupsDistinct(Queried(config, user), locator);
  }

  /** Every outcome, success or failure, is tagged with this provider. */
  lemma AlwaysTaggedWithProvider(config: DirectoryServicesConfiguration, user: User, locator: string -> LocatorResult)
    requires LookupReached(config, user) ==> SamClaimsPresent(user.identities)
    ensures Resolved(config, user, locator).providerName == ProviderName
  {
  }

  function TwoAdUser(name: string, sam1: string, sam2: string): User {
    User(name, [Identity(ProviderName, map[SamAccountNameClaimType := sam1]),
                Identity(ProviderName, map[SamAccountNameClaimType := sam2])])
  }

  /** A user with two identities of this provider is looked up twice, in order. */
  lemma TwoAdUserQueried(config: DirectoryServicesConfiguration, name: string, sam1: string, sam2: string)
    requires config.isEnabled && config.areSecurityGroupsEnabled && name != GuestLogin
    ensures LookupReached(config, TwoAdUser(name, sam1, sam2))
    ensures Queried(config, TwoAdUser(name, sam1, sam2)) == [sam1, sam2]
  {
    var ids := TwoAdUser(name, sam1, sam2).identities;
    assert ids[0].identityProviderName == ProviderName;
    assert ids[1..][1..] == [];
    assert ids[1..][0] == ids[1];
    assert AdIdentities(ids[1..]) == [ids[1]];
    assert AdIdentities(ids) == ids;
  }

  /** Two identities answering {A, B} and {B, C} resolve to {A, B, C}. */
  lemma TwoIdentitiesMerge(config: DirectoryServicesConfiguration, name: string, sam1: string, sam2: string,
                           locator: string -> LocatorResult)
    requires config.isEnabled && config.areSecurityGroupsEnabled && name != GuestLogin
    requires locator(sam1) == LocatorResult(true, ["A", "B"])
    requires locator(sam2) == LocatorResult(true, ["B", "C"])
    ensures Resolved(config, TwoAdUser(name, sam1, sam2), locator) == Groups(ProviderName, ["A", "B", "C"])
  {
    TwoAdUserQueried(config, name, sam1, sam2);
    assert [sam1, sam2][..1] == [sam1];
    assert [sam1][..0] == [];
    assert ["A", "B"][..1] == ["A"];
    assert ["A"][..0] == [];
    assert ["B", "C"][..1] == ["B"];
    assert ["B"][..0] == [];
    assert AddDistinct([], ["A", "B"]) == ["A", "B"];
    assert AddDistinct(["A", "B"], ["B"]) == ["A", "B"];
    assert AddDistinct(["A", "B"], ["B", "C"]) == ["A", "B", "C"];
    assert MergedGroups([sam1], locator) == ["A", "B"];
    assert MergedGroups([sam1, sam2], locator) == ["A", "B", "C"];
    assert SomeSucceeded([sam1, sam2], locator) by {
      assert locator([sam1, sam2][0]).wasAbleToRetrieveGroups;
    }
  }

  /** A failing identity beside one answering {X} still resolves to {X}. */
  lemma PartialFailureStillSucceeds(config: DirectoryServicesConfiguration, name: string, sam1: string, sam2: string,
                                    locator: string -> LocatorResult)
    requires config.isEnabled && config.areSecurityGroupsEnabled && name != GuestLogin
    requires !locator(sam1).wasAbleToRetrieveGroups
    requires locator(sam2) == LocatorResult(true, ["X"])
    ensures Resolved(config, TwoAdUser(name, sam1, sam2), locator) == Groups(ProviderName, ["X"])
  {
    TwoAdUserQueried(config, name, sam1, sam2);
    assert [sam1, sam2][..1] == [sam1];
    assert [sam1][..0] == [];
    assert ["X"][..0] == [];
    assert MergedGroups([sam1], locator) == [];
    assert AddDistinct([], ["X"]) == ["X"];
    assert MergedGroups([sam1, sam2], locator) == ["X"];
    assert SomeSucceeded([sam1, sam2], locator) by {
      assert locator([sam1, sam2][1]).wasAbleToRetrieveGroups;
    }
  }

  /** Two identities whose lookups both fail resolve to the named failure. */
  lemma AllLookupsFail(config: DirectoryServicesConfiguration, name: string, sam1: string, sam2: string,
                       locator: string -> LocatorResult)
    requires config.isEnabled && config.areSecurityGroupsEnabled && name != GuestLogin
    requires !locator(sam1).wasAbleToRetrieveGroups && !locator(sam2).wasAbleToRetrieveGroups
    ensures Resolved(config, TwoAdUser(name, sam1, sam2), locator) ==
      FailureReason(ProviderName, "Couldn't retrieve groups for user " + name)
  {
    TwoAdUserQueried(config, name, sam1, sam2);
  }
}
