/**
 * Merging a requested group list into a profile's `mozilliansorg` access attribute.
 *
 * `UpdateGroups` builds a fresh, minimal profile from an existing one: it carries over the
 * user id and the active flag, starts the `mozilliansorg` attribute from the input's copy,
 * replaces its values by the requested groups, applies the timestamp policy, stamps the
 * publisher and hands the attribute to a signer. The clock reading `now` and the signer are
 * parameters; `UpdatedGroups` is the value the method computes, used by the update pipeline's
 * specification.
 */
module Groups {
  import opened Outcomes
  import opened Schema

  /**
   * The signing capability. `sign` either fails (None) or yields the signature of the attribute
   * as presented; the cryptography itself is not modelled.
   */
  datatype Signer = Signer(sign: AccessAttribute -> Option<string>)

  /** Signs in place: on success the publisher's signature value is set and nothing else changes. */
  function SignAttribute(signer: Signer, attr: AccessAttribute): Result<AccessAttribute> {
    match signer.sign(attr)
    case None => Err(SigningFailed)
    case Some(sig) => Ok(attr.(signature := attr.signature.(publisher := attr.signature.publisher.(value := sig))))
  }

  /** The distinct names of a group list. */
  function Distinct(groups: seq<string>): set<string> {
    set g | g in groups
  }

  /** The group map: every requested group name, each mapped to no value; duplicates collapse. */
  function GroupValuesOf(groups: seq<string>): (values: GroupValues)
    ensures values.Keys == Distinct(groups)
    ensures forall g :: g in values ==> values[g] == None
  {
    map g | g in groups :: None
  }

  predicate NoDuplicates(groups: seq<string>) {
    forall i, j :: 0 <= i < j < |groups| ==> groups[i] != groups[j]
  }

  /** `created` is (re)set when the attribute has no values yet or has never been created. */
  predicate NeedsCreated(attr: AccessAttribute) {
    attr.values.None? || attr.metadata.created == ""
  }

  /** The attribute handed to the signer: the input's copy with the new groups and metadata. */
  function MergedAttribute(current: AccessAttribute, groups: seq<string>, now: string): AccessAttribute {
    var created := if NeedsCreated(current) then now else current.metadata.created;
    AccessAttribute(
      current.metadata.(created := created, lastModified := now, verified := true),
      current.signature.(publisher := current.signature.publisher.(name := Mozilliansorg)),
      Some(GroupValuesOf(groups)))
  }

  /** The result of `UpdateGroups`: the signed attribute in an otherwise default profile. */
  function UpdatedGroups(profile: Profile, groups: seq<string>, signer: Signer, now: string): Result<Profile> {
    match SignAttribute(signer, MergedAttribute(profile.accessInformation.mozilliansorg, groups, now))
    case Err(e) => Err(e)
    case Ok(attr) =>
      var empty := DefaultProfile();
      Ok(empty.(userId := profile.userId, active := profile.active,
                accessInformation := empty.accessInformation.(mozilliansorg := attr)))
  }

  /** Builds the updated profile field by field, as the service does, and signs the attribute. */
  method UpdateGroups(profile: Profile, groups: seq<string>, signer: Signer, now: string)
    returns (r: Result<Profile>)
    ensures r == UpdatedGroups(profile, groups, signer, now)
    ensures r.Err? <==> SignAttribute(signer, MergedAttribute(profile.accessInformation.mozilliansorg, groups, now)).Err?
  {
    var updated := DefaultProfile();
    updated := updated.(userId := profile.userId);
    updated := updated.(active := profile.active);

    var mozilliansGroups := GroupValuesOf(groups);
    var attr := profile.accessInformation.mozilliansorg;
    if attr.values.None? || attr.metadata.created == "" {
      attr := attr.(metadata := attr.metadata.(created := now));
    }
    attr := attr.(values := Some(mozilliansGroups));
    attr := attr.(signature := attr.signature.(publisher := attr.signature.publisher.(name := Mozilliansorg)));
    attr := attr.(metadata := attr.metadata.(lastModified := now));
    attr := attr.(metadata := attr.metadata.(verified := true));

    var signed := SignAttribute(signer, attr);
    if signed.Err? {
      return Err(signed.error);
    }
    updated := updated.(accessInformation := updated.accessInformation.(mozilliansorg := signed.value));
    r := Ok(updated);
  }

  // ---------------------------------------------------------------------------------------
  // The group map

  /** Duplicates collapse: the map never has more entries than names requested, and exactly as many when they are distinct. */
  lemma {:induction false} GroupCount(groups: seq<string>)
    ensures |GroupValuesOf(groups)| == |Distinct(groups)| <= |groups|
    ensures NoDuplicates(groups) ==> |GroupValuesOf(groups)| == |groups|
  {
    if groups != [] {
      var rest := groups[1..];
      GroupCount(rest);
      assert Distinct(groups) == {groups[0]} + Distinct(rest) by {
        assert groups == [groups[0]] + rest;
      }
      if NoDuplicates(groups) {
        assert NoDuplicates(rest) by {
          forall i, j | 0 <= i < j < |rest| ensures rest[i] != rest[j] {
            assert rest[i] == groups[i + 1] && rest[j] == groups[j + 1];
          }
        }
        assert groups[0] !in Distinct(rest);
      }
    }
  }

  /** Input order is irrelevant: two lists naming the same groups give the same map. */
  lemma GroupValuesIgnoreOrder(g1: seq<string>, g2: seq<string>)
    requires forall g :: g in g1 <==> g in g2
    ensures GroupValuesOf(g1) == GroupValuesOf(g2)
  {
  }

  /** `["a", "b", "a"]` yields exactly the two entries "a" and "b", each without a value. */
  lemma DuplicatesCollapse()
    ensures GroupValuesOf(["a", "b", "a"]) == map["a" := None, "b" := None]
    ensures |GroupValuesOf(["a", "b", "a"])| == 2
  {
    var m := GroupValuesOf(["a", "b", "a"]);
    assert m.Keys == {"a", "b"};
  }

  // ---------------------------------------------------------------------------------------
  // What UpdateGroups produces

  /** Only the user id and the active flag come from the input; every other field is the default. */
  lemma UpdateGroupsCarriesIdentity(profile: Profile, groups: seq<string>, signer: Signer, now: string)
    requires UpdatedGroups(profile, groups, signer, now).Ok?
    ensures var p := UpdatedGroups(profile, groups, signer, now).value;
      && p.userId == profile.userId
      && p.active == profile.active
      && p.primaryEmail == DefaultProfile().primaryEmail
      && p.firstName == DefaultProfile().firstName
      && p.lastName == DefaultProfile().lastName
      && p.accessInformation.ldap == DEFAULT_ACCESS
      && p.accessInformation.hris == DEFAULT_ACCESS
      && p.accessInformation.accessProvider == DEFAULT_ACCESS
  {
  }

  /**
   * The attribute starts as the input's copy: its classification, the publisher's algorithm and
   * type, and the additional signatures are the input's.
   */
  lemma UpdateGroupsStartsFromInputAttribute(profile: Profile, groups: seq<string>, signer: Signer, now: string)
    requires UpdatedGroups(profile, groups, signer, now).Ok?
    ensures var before := profile.accessInformation.mozilliansorg;
      var after := UpdatedGroups(profile, groups, signer, now).value.accessInformation.mozilliansorg;
      && after.metadata.classification == before.metadata.classification
      && after.signature.additional == before.signature.additional
      && after.signature.publisher.alg == before.signature.publisher.alg
      && after.signature.publisher.typ == before.signature.publisher.typ
  {
  }

  /** The values become exactly the distinct requested groups, each mapped to no value. */
  lemma UpdateGroupsSetsValues(profile: Profile, groups: seq<string>, signer: Signer, now: string)
    requires UpdatedGroups(profile, groups, signer, now).Ok?
    ensures var values := UpdatedGroups(profile, groups, signer, now).value.accessInformation.mozilliansorg.values;
      && values.Some?
      && (forall g :: g in values.value <==> g in groups)
      && (forall g :: g in values.value ==> values.value[g] == None)
  {
  }

  /** An empty group list gives present but empty values, not absent ones. */
  lemma EmptyGroupsYieldEmptyValues(profile: Profile, signer: Signer, now: string)
    requires UpdatedGroups(profile, [], signer, now).Ok?
    ensures UpdatedGroups(profile, [], signer, now).value.accessInformation.mozilliansorg.values == Some(map[])
  {
  }

  /**
   * `created` becomes `now` when the input attribute has no values or an empty `created`;
   * otherwise it is the input's.
   */
  lemma UpdateGroupsCreatedPolicy(profile: Profile, groups: seq<string>, signer: Signer, now: string)
    requires UpdatedGroups(profile, groups, signer, now).Ok?
    ensures var before := profile.accessInformation.mozilliansorg;
      var after := UpdatedGroups(profile, groups, signer, now).value.accessInformation.mozilliansorg;
      && (before.values.None? || before.metadata.created == "" ==> after.metadata.created == now)
      && (before.values.Some? && before.metadata.created != "" ==> after.metadata.created == before.metadata.created)
  {
  }

  /**
   * `created` is not write-once: with no values present a non-empty `created` is overwritten
   * by a different clock reading.
   */
  lemma CreatedOverwrittenWithoutValues(profile: Profile, groups: seq<string>, signer: Signer, now: string)
    requires profile.accessInformation.mozilliansorg.values.None?
    requires profile.accessInformation.mozilliansorg.metadata.created != now
    requires UpdatedGroups(profile, groups, signer, now).Ok?
    ensures UpdatedGroups(profile, groups, signer, now).value.accessInformation.mozilliansorg.metadata.created
         != profile.accessInformation.mozilliansorg.metadata.created
  {
  }

  /**
   * Every successful update stamps `last_modified` with the one clock reading, sets `verified`
   * and names this service as publisher; whenever `created` is (re)set it equals `last_modified`.
   */
  lemma UpdateGroupsStampsMetadata(profile: Profile, groups: seq<string>, signer: Signer, now: string)
    requires UpdatedGroups(profile, groups, signer, now).Ok?
    ensures var after := UpdatedGroups(profile, groups, signer, now).value.accessInformation.mozilliansorg;
      && after.metadata.lastModified == now
      && after.metadata.verified
      && after.signature.publisher.name == Mozilliansorg
      && (NeedsCreated(profile.accessInformation.mozilliansorg) ==> after.metadata.created == after.metadata.lastModified)
  {
  }

  /**
   * A signer failure aborts the call with the signer's error and no profile; on success the
   * attribute is the one the signer was handed, carrying the signer's signature.
   */
  lemma UpdateGroupsSignerOutcome(profile: Profile, groups: seq<string>, signer: Signer, now: string)
    ensures var attr := MergedAttribute(profile.accessInformation.mozilliansorg, groups, now);
      var r := UpdatedGroups(profile, groups, signer, now);
      && (r.Err? <==> signer.sign(attr).None?)
      && (r.Err? ==> r.error == SigningFailed)
      && (r.Ok? ==> r.value.accessInformation.mozilliansorg
                    == attr.(signature := attr.signature.(publisher := attr.signature.publisher.(value := signer.sign(attr).value))))
  {
  }

  /**
   * Once an update has succeeded with a non-empty clock reading, a later update of its result
   * keeps the first `created`, whatever its groups, signer and clock reading.
   */
  lemma CreatedKeptOnLaterUpdate(profile: Profile, g1: seq<string>, g2: seq<string>,
                                 s1: Signer, s2: Signer, t1: string, t2: string)
    requires t1 != ""
    requires UpdatedGroups(profile, g1, s1, t1).Ok?
    requires UpdatedGroups(UpdatedGroups(profile, g1, s1, t1).value, g2, s2, t2).Ok?
    ensures var first := UpdatedGroups(profile, g1, s1, t1).value;
      var second := UpdatedGroups(first, g2, s2, t2).value;
      second.accessInformation.mozilliansorg.metadata.created == first.accessInformation.mozilliansorg.metadata.created
  {
  }

  /** Two group lists naming the same groups give the same update. */
  lemma UpdateGroupsIgnoresGroupOrder(profile: Profile, g1: seq<string>, g2: seq<string>, signer: Signer, now: string)
    requires forall g :: g in g1 <==> g in g2
    ensures UpdatedGroups(profile, g1, signer, now) == UpdatedGroups(profile, g2, signer, now)
  {
    GroupValuesIgnoreOrder(g1, g2);
  }
}
