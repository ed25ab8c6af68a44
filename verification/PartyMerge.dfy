/** Folding the records of one party into another, row by row. */
module PartyMerge {
  import opened Options
  import PartyContacts
  import PartyPlaces
  import PartyAffiliations

  /** The profile fields of a party, in a fixed order. */
  type Profile = seq<string>

  function FilledProfile(kept: Profile, offered: Profile): (r: Profile)
    requires |kept| == |offered|
    ensures |r| == |kept|
  {
    seq(|kept|, i requires 0 <= i < |kept| => PartyAffiliations.Filled(kept[i], offered[i]))
  }

  function MergeProfile(source: Option<Profile>, target: Option<Profile>): Option<Profile>
    requires source.Some? && target.Some? ==> |source.value| == |target.value|
  {
    if source.None? then target
    else if target.None? then source
    else Some(FilledProfile(target.value, source.value))
  }

  /** How many records of each kind a merge processed. */
  datatype Summary = Summary(roles: nat, contacts: nat, addresses: nat, sources: nat, profiles: nat)

  /** All provenance sources share one slot. */
  ghost predicate SourcesValid(rows: seq<PartyPlaces.Place>) {
    PartyPlaces.PlacesValid(rows) && forall i | 0 <= i < |rows| :: rows[i].slot == ""
  }

  lemma {:induction false} RecordsKept(tidy: string -> string, sourceRoles: seq<PartyContacts.Role>,
      roles: seq<PartyContacts.Role>, sourceContacts: seq<PartyContacts.Contact>, contacts: seq<PartyContacts.Contact>,
      sourceAddresses: seq<PartyPlaces.Place>, addresses: seq<PartyPlaces.Place>, sourceSources: seq<PartyPlaces.Place>,
      sources: seq<PartyPlaces.Place>)
    requires PartyContacts.OnePerRole(sourceRoles) && PartyContacts.OnePerRole(roles)
    requires PartyContacts.ContactsValid(sourceContacts) && PartyContacts.ContactsValid(contacts)
    requires PartyPlaces.PlacesValid(sourceAddresses) && PartyPlaces.PlacesValid(addresses)
    requires SourcesValid(sourceSources) && SourcesValid(sources)
    ensures PartyContacts.OnePerRole(PartyContacts.MergeRoles(sourceRoles, roles, tidy))
    ensures PartyContacts.ContactsValid(PartyContacts.MergeContacts(sourceContacts, contacts))
    ensures PartyPlaces.PlacesValid(PartyPlaces.MovePlaces(sourceAddresses, addresses))
    ensures SourcesValid(PartyPlaces.MovePlaces(sourceSources, sources))
  {
    PartyContacts.MergedRoles(sourceRoles, roles, tidy, "");
    PartyContacts.MergedContacts(sourceContacts, contacts, "");
    PartyPlaces.PlacesKept(sourceAddresses, addresses, "");
    PartyPlaces.PlacesKept(sourceSources, sources, "");
    PartyPlaces.MovedPlaces(sourceSources, sources);
  }

  /** A party with the records that hang on it. */
  class Party {
    const id: nat
    var roles: seq<PartyContacts.Role>
    var contacts: seq<PartyContacts.Contact>
    var addresses: seq<PartyPlaces.Place>
    var sources: seq<PartyPlaces.Place>
    var profile: Option<Profile>

    constructor (id: nat)
      ensures this.id == id && Valid()
      ensures roles == [] && contacts == [] && addresses == [] && sources == [] && profile == None
    {
      this.id := id;
      roles, contacts, addresses, sources, profile := [], [], [], [], None;
    }

    /** Every uniqueness and one-primary constraint of the records. */
    ghost predicate Valid()
      reads this
    {
      && PartyContacts.OnePerRole(roles)
      && PartyContacts.ContactsValid(contacts)
      && PartyPlaces.PlacesValid(addresses)
      && SourcesValid(sources)
    }

    method MergeRoles(source: Party, tidy: string -> string) returns (processed: nat)
      requires source != this
      modifies this`roles, source`roles
      ensures roles == PartyContacts.MergeRoles(old(source.roles), old(roles), tidy)
      ensures source.roles == [] && processed == |old(source.roles)|
    {
      processed := 0;
      while source.roles != []
        invariant processed + |source.roles| == |old(source.roles)|
        invariant PartyContacts.MergeRoles(source.roles, roles, tidy)
            == PartyContacts.MergeRoles(old(source.roles), old(roles), tidy)
        decreases |source.roles|
      {
        var row := source.roles[0];
        var k := PartyContacts.FindRole(roles, row.role);
        if k.None? {
          roles := roles + [row];
        } else {
          var kept := roles[k.value];
          if row.active && !kept.active {
            kept := kept.(active := true, deactivated := false);
          }
          if row.notes != "" && !PartyContacts.Contains(kept.notes, row.notes) {
            kept := kept.(notes := tidy(if kept.notes == "" then row.notes else kept.notes + "\n" + row.notes));
          }
          roles := roles[k.value := kept];
        }
        source.roles := source.roles[1..];
        processed := processed + 1;
      }
    }

    method MergeContacts(source: Party) returns (processed: nat)
      requires source != this
      modifies this`contacts, source`contacts
      ensures contacts == PartyContacts.MergeContacts(old(source.contacts), old(contacts))
      ensures source.contacts == [] && processed == |old(source.contacts)|
    {
      processed := 0;
      while source.contacts != []
        invariant processed + |source.contacts| == |old(source.contacts)|
        invariant PartyContacts.MergeContacts(source.contacts, contacts)
               == PartyContacts.MergeContacts(old(source.contacts), old(contacts))
        decreases |source.contacts|
      {
        var row := source.contacts[0];
        var k := PartyContacts.FindContact(contacts, row.kind, row.value);
        if k.Some? {
          var kept := contacts[k.value];
          kept := kept.(verified := kept.verified || row.verified, active := kept.active || row.active);
          if row.primary && !PartyContacts.HasOtherPrimary(contacts, row.kind, k.value) {
            kept := kept.(primary := true);
          }
          if kept.primary {
            kept := kept.(active := true);
          }
          contacts := contacts[k.value := kept];
        } else {
          if row.primary && PartyContacts.HasPrimary(contacts, row.kind) {
            row := row.(primary := false);
          }
          contacts := contacts + [row];
        }
        source.contacts := source.contacts[1..];
        processed := processed + 1;
      }
    }

    method MergeAddresses(source: Party) returns (processed: nat)
      requires source != this
      modifies this`addresses, source`addresses
      ensures addresses == PartyPlaces.MovePlaces(old(source.addresses), old(addresses))
      ensures source.addresses == [] && processed == |old(source.addresses)|
    {
      processed := 0;
      while source.addresses != []
        invariant processed + |source.addresses| == |old(source.addresses)|
        invariant PartyPlaces.MovePlaces(source.addresses, addresses)
               == PartyPlaces.MovePlaces(old(source.addresses), old(addresses))
        decreases |source.addresses|
      {
        var row := source.addresses[0];
        if row.primary && PartyPlaces.Led(addresses, row.slot) {
          row := row.(primary := false);
        }
        addresses := addresses + [row];
        source.addresses := source.addresses[1..];
        processed := processed + 1;
      }
    }

    /** The loop asks once whether the target has a primary source and keeps a flag after that; it does what
        asking again for every row would do. */
    method MergeSources(source: Party) returns (processed: nat)
      requires source != this && SourcesValid(sources) && SourcesValid(source.sources)
      modifies this`sources, source`sources
      ensures sources == PartyPlaces.MovePlaces(old(source.sources), old(sources))
      ensures source.sources == [] && processed == |old(source.sources)|
    {
      processed := 0;
      var targetHasPrimary := PartyPlaces.Led(sources, "");
      while source.sources != []
        invariant processed + |source.sources| == |old(source.sources)|
        invariant SourcesValid(source.sources)
        invariant targetHasPrimary == PartyPlaces.Led(sources, "")
        invariant PartyPlaces.MovePlaces(source.sources, sources)
               == PartyPlaces.MovePlaces(old(source.sources), old(sources))
        decreases |source.sources|
      {
        var row := source.sources[0];
        PartyPlaces.MovePlaceLeads(sources, row, "");
        if row.primary && targetHasPrimary {
          row := row.(primary := false);
        } else if row.primary {
          targetHasPrimary := true;
        }
        sources := sources + [row];
        source.sources := source.sources[1..];
        processed := processed + 1;
      }
    }

    method MergeProfiles(source: Party) returns (processed: nat)
      requires source != this
      requires source.profile.Some? && profile.Some? ==> |source.profile.value| == |profile.value|
      modifies this`profile, source`profile
      ensures profile == MergeProfile(old(source.profile), old(profile))
      ensures source.profile == None && processed == (if old(source.profile).Some? then 1 else 0)
    {
      if source.profile.None? {
        return 0;
      }
      if profile.None? {
        profile := source.profile;
      } else {
        var kept, offered := profile.value, source.profile.value;
        for i := 0 to |kept|
          invariant |kept| == |old(profile).value|
          invariant forall j | 0 <= j < |kept| ::
              kept[j] == if j < i then PartyAffiliations.Filled(old(profile).value[j], offered[j])
                  else old(profile).value[j]
        {
          if kept[i] == "" && offered[i] != "" {
            kept := kept[i := offered[i]];
          }
        }
        assert kept == FilledProfile(old(profile).value, offered);
        profile := Some(kept);
      }
      source.profile := None;
      return 1;
    }

    /** The whole fold of what hangs on a party. Every constraint of the surviving party holds afterwards and
        the source keeps none of its records. */
    method Absorb(source: Party, tidy: string -> string) returns (summary: Summary)
      requires source != this && Valid() && source.Valid()
      requires source.profile.Some? && profile.Some? ==> |source.profile.value| == |profile.value|
      modifies this, source
      ensures Valid()
      ensures roles == PartyContacts.MergeRoles(old(source.roles), old(roles), tidy)
      ensures contacts == PartyContacts.MergeContacts(old(source.contacts), old(contacts))
      ensures addresses == PartyPlaces.MovePlaces(old(source.addresses), old(addresses))
      ensures sources == PartyPlaces.MovePlaces(old(source.sources), old(sources))
      ensures profile == MergeProfile(old(source.profile), old(profile))
      ensures source.roles == [] && source.contacts == [] && source.addresses == [] && source.sources == []
      ensures source.profile == None
      ensures summary.roles == |old(source.roles)| && summary.contacts == |old(source.contacts)|
      ensures summary.addresses == |old(source.addresses)| && summary.sources == |old(source.sources)|
      ensures summary.profiles == (if old(source.profile).Some? then 1 else 0)
    {
      RecordsKept(tidy, source.roles, roles, source.contacts, contacts, source.addresses, addresses, source.sources,
          sources);
      var roleCount := MergeRoles(source, tidy);
      var contactCount := MergeContacts(source);
      var addressCount := MergeAddresses(source);
      var sourceCount := MergeSources(source);
      var profileCount := MergeProfiles(source);
      summary := Summary(roleCount, contactCount, addressCount, sourceCount, profileCount);
    }
  }
}
