/**
 * The `ldap` relation library: the GLAuth provider publishes its LDAP endpoint in its
 * application bag, and the requirer reads it from the first relation.
 */
module GlauthEndpoint {
  import opened Wrappers
  import opened Relations

  const RelationMissingMessage: string := "Missing glauth ldap relation with kratos"
  const DataMissingMessage: string := "Missing ldap endpoint in glauth ldap relation data"

  /** `LDAPEndpointRelationMissingError` and `LDAPEndpointRelationDataMissingError`, with their messages. */
  datatype EndpointError =
    | RelationMissingError
    | RelationDataMissingError(message: string)
  {
    function Message(): string
    {
      if RelationMissingError? then RelationMissingMessage else message
    }
  }

  /** `{"endpoint": v}`. */
  function EndpointPatch(ldapEndpoint: string): (b: Bag)
    ensures b.Keys == {"endpoint"} && b["endpoint"] == ldapEndpoint
  {
    map["endpoint" := ldapEndpoint]
  }

  /**
   * `get_ldap_endpoint` over the `ldap` relations: the first relation must exist and know
   * its remote application, whose bag must hold `endpoint`; only that key is returned.
   */
  function GetLdapEndpoint(relations: seq<Relation>): (r: Result<Bag, EndpointError>)
    ensures (|relations| == 0 || relations[0].app.None?) <==> r == Failure(RelationMissingError)
    ensures |relations| > 0 && relations[0].app.Some? && "endpoint" !in BagOf(relations[0], relations[0].app.value) ==>
      r == Failure(RelationDataMissingError(DataMissingMessage))
    ensures r.Success? <==>
      |relations| > 0 && relations[0].app.Some? && "endpoint" in BagOf(relations[0], relations[0].app.value)
    ensures r.Success? ==> r.value == EndpointPatch(BagOf(relations[0], relations[0].app.value)["endpoint"])
    ensures r.Failure? ==>
      r.error.Message() == if |relations| == 0 || relations[0].app.None? then RelationMissingMessage else DataMissingMessage
  {
    if |relations| == 0 then Failure(RelationMissingError)
    else if relations[0].app.None? then Failure(RelationMissingError)
    else
      var data := BagOf(relations[0], relations[0].app.value);
      if "endpoint" !in data then Failure(RelationDataMissingError(DataMissingMessage))
      else Success(EndpointPatch(data["endpoint"]))
  }

  /** Only the first relation is read: relations after it do not change the answer. */
  lemma GetLdapEndpointReadsFirstOnly(first: Relation, rest1: seq<Relation>, rest2: seq<Relation>)
    ensures GetLdapEndpoint([first] + rest1) == GetLdapEndpoint([first] + rest2)
  {
    assert ([first] + rest1)[0] == first && ([first] + rest2)[0] == first;
  }

  /**
   * Round trip: after the provider application `app` sent a non-empty `v`, a requirer
   * whose first relation's remote application is `app` reads `{"endpoint": v}`.
   */
  lemma SentEndpointIsRead(relations: seq<Relation>, app: string, v: string)
    requires |relations| > 0 && relations[0].app == Some(app) && v != ""
    ensures GetLdapEndpoint(MergeAppData(relations, app, None, EndpointPatch(v))) == Success(EndpointPatch(v))
  {
    var merged := MergeAppData(relations, app, None, EndpointPatch(v));
    assert merged[0] == UpdateBag(relations[0], app, EndpointPatch(v));
    assert BagOf(merged[0], app)["endpoint"] == v;
  }

  /** Sending an empty endpoint deletes the key, so the requirer reports the data as missing. */
  lemma SentEmptyEndpointIsMissing(relations: seq<Relation>, app: string)
    requires |relations| > 0 && relations[0].app == Some(app)
    ensures GetLdapEndpoint(MergeAppData(relations, app, None, EndpointPatch(""))) ==
      Failure(RelationDataMissingError(DataMissingMessage))
  {
    var merged := MergeAppData(relations, app, None, EndpointPatch(""));
    assert merged[0] == UpdateBag(relations[0], app, EndpointPatch(""));
    assert "endpoint" !in BagOf(merged[0], app);
  }

  /** The provider side: the relations it writes to and how many `ready` events it emitted. */
  class LdapEndpointProvider {
    const app: string
    var relations: seq<Relation>
    var readyEvents: nat

    constructor (app: string, relations: seq<Relation>)
      ensures this.app == app && this.relations == relations && readyEvents == 0
    {
      this.app := app;
      this.relations := relations;
      readyEvents := 0;
    }

    /** `_on_provider_endpoint_relation_created`: emits `ready` on every unit, leader or not. */
    method OnProviderEndpointRelationCreated()
      modifies this
      ensures readyEvents == old(readyEvents) + 1 && relations == old(relations)
    {
      readyEvents := readyEvents + 1;
    }

    /** `send_ldap_endpoint`: on the leader, set `endpoint` in this application's bag on every relation. */
    method SendLdapEndpoint(isLeader: bool, ldapEndpoint: string)
      modifies this
      ensures isLeader ==> relations == MergeAppData(old(relations), app, None, EndpointPatch(ldapEndpoint))
      ensures !isLeader ==> relations == old(relations)
      ensures readyEvents == old(readyEvents)
    {
      if !isLeader {
        return;
      }
      var patch := EndpointPatch(ldapEndpoint);
      ghost var before := relations;
      for i := 0 to |relations|
        invariant |relations| == |before| && readyEvents == old(readyEvents)
        invariant forall j :: 0 <= j < i ==> relations[j] == UpdateBag(before[j], app, patch)
        invariant forall j :: i <= j < |before| ==> relations[j] == before[j]
      {
        relations := relations[i := UpdateBag(relations[i], app, patch)];
      }
      assert relations == MergeAppData(before, app, None, patch);
    }
  }
}
