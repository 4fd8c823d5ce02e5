/**
 * The `glauth-auxiliary` relation library: the provider publishes the database
 * connection details in its application bag; the requirer announces when they are
 * ready or gone and reads them back.
 */
module GlauthAuxiliary {
  import opened Wrappers
  import opened Relations

  /** `AuxiliaryData`: four required string fields. */
  datatype AuxiliaryData = AuxiliaryData(database: string, endpoint: string, username: string, password: string)

  /** `AuxiliaryData.model_dump()`. */
  function ModelDump(d: AuxiliaryData): (b: Bag)
    ensures b.Keys == {"database", "endpoint", "username", "password"}
  {
    map["database" := d.database, "endpoint" := d.endpoint, "username" := d.username, "password" := d.password]
  }

  datatype AuxiliaryError = TooManyRelatedApps | ValidationError

  /** `AuxiliaryData(**bag)`: every field must be present; other keys are ignored. */
  function FromBag(bag: Bag): (r: Result<AuxiliaryData, AuxiliaryError>)
    ensures r.Success? <==> "database" in bag && "endpoint" in bag && "username" in bag && "password" in bag
    ensures r.Failure? ==> r.error == ValidationError
  {
    if "database" in bag && "endpoint" in bag && "username" in bag && "password" in bag then
      Success(AuxiliaryData(bag["database"], bag["endpoint"], bag["username"], bag["password"]))
    else Failure(ValidationError)
  }

  /** A bag holding a dump reads back as the same data, whatever else it holds. */
  lemma FromBagModelDump(d: AuxiliaryData, other: Bag)
    ensures FromBag(other + ModelDump(d)) == Success(d)
  {
  }

  /**
   * `consume_auxiliary_relation_data` over the relations of the `glauth-auxiliary`
   * endpoint: nothing when there is no relation or the remote application's bag is
   * missing or empty; otherwise the data in that bag.
   */
  function ConsumeAuxiliaryRelationData(relations: seq<Relation>, relationId: Option<int>)
    : (r: Result<Option<AuxiliaryData>, AuxiliaryError>)
    ensures GetRelation(relations, relationId).Failure? ==> r == Failure(AuxiliaryError.TooManyRelatedApps)
    ensures GetRelation(relations, relationId) == Success(None) ==> r == Success(None)
    ensures GetRelation(relations, relationId).Success? && GetRelation(relations, relationId).value.Some? ==>
      var bag := RemoteAppBag(GetRelation(relations, relationId).value.value);
      && (bag.None? || |bag.value| == 0 ==> r == Success(None))
      && (bag.Some? && |bag.value| > 0 ==> r == match FromBag(bag.value)
                                                case Success(d) => Success(Some(d))
                                                case Failure(e) => Failure(e))
  {
    match GetRelation(relations, relationId)
    case Failure(_) => Failure(AuxiliaryError.TooManyRelatedApps)
    case Success(None) => Success(None)
    case Success(Some(relation)) =>
      match RemoteAppBag(relation)
      case None => Success(None)
      case Some(bag) =>
        if |bag| == 0 then Success(None)
        else
          match FromBag(bag)
          case Success(d) => Success(Some(d))
          case Failure(e) => Failure(e)
  }

  /** Every field of the data is non-empty, so none of its keys is deleted when it is published. */
  predicate NonEmptyFields(d: AuxiliaryData)
  {
    d.database != "" && d.endpoint != "" && d.username != "" && d.password != ""
  }

  /**
   * Round trip between the two sides: once the provider application `app` has merged a
   * dump of `d`, with no empty field, into the one relation, the requirer, whose remote
   * application is `app`, reads `d` back.
   */
  lemma PublishedDataIsConsumed(r: Relation, app: string, d: AuxiliaryData)
    requires r.app == Some(app) && NonEmptyFields(d)
    ensures ConsumeAuxiliaryRelationData(MergeAppData([r], app, None, ModelDump(d)), None) == Success(Some(d))
  {
    var merged := MergeAppData([r], app, None, ModelDump(d));
    var u := UpdateBag(r, app, ModelDump(d));
    assert merged == [u];
    var bag := u.data[app];
    assert RemoteAppBag(u) == Some(bag);
    assert "database" in bag && "endpoint" in bag && "username" in bag && "password" in bag;
    assert bag["database"] == d.database && bag["endpoint"] == d.endpoint;
    assert bag["username"] == d.username && bag["password"] == d.password;
  }

  /**
   * A field published empty is deleted from the bag: the requirer then finds no data
   * (the bag is empty) or fails validation, and never reads `d` back.
   */
  lemma PublishedEmptyFieldIsLost(r: Relation, app: string, d: AuxiliaryData)
    requires r.app == Some(app) && !NonEmptyFields(d)
    ensures var c := ConsumeAuxiliaryRelationData(MergeAppData([r], app, None, ModelDump(d)), None);
      c == Success(None) || c == Failure(ValidationError)
  {
    var merged := MergeAppData([r], app, None, ModelDump(d));
    var u := UpdateBag(r, app, ModelDump(d));
    assert merged == [u];
    var bag := u.data[app];
    assert RemoteAppBag(u) == Some(bag);
    assert !("database" in bag && "endpoint" in bag && "username" in bag && "password" in bag);
  }

  /** The provider side: the relations it writes to and the `auxiliary_requested` events it emitted. */
  class AuxiliaryProvider {
    const app: string
    var relations: seq<Relation>
    var requested: seq<int>

    constructor (app: string, relations: seq<Relation>)
      ensures this.app == app && this.relations == relations && requested == []
    {
      this.app := app;
      this.relations := relations;
      requested := [];
    }

    /** `_on_relation_created`: the leader emits `auxiliary_requested` for the relation. */
    method OnRelationCreated(isLeader: bool, relation: Relation)
      modifies this
      ensures requested == old(requested) + (if isLeader then [relation.id] else [])
      ensures relations == old(relations)
    {
      if !isLeader {
        return;
      }
      requested := requested + [relation.id];
    }

    /**
     * `update_relation_app_data`: on the leader, merge the dumped data into this
     * application's bag on every relation, or only on `relationId` when given; a
     * non-leader changes nothing.
     */
    method UpdateRelationAppData(isLeader: bool, data: AuxiliaryData, relationId: Option<int>)
      modifies this
      ensures isLeader ==> relations == MergeAppData(old(relations), app, relationId, ModelDump(data))
      ensures !isLeader ==> relations == old(relations)
      ensures requested == old(requested)
    {
      if !isLeader {
        return;
      }
      if |relations| == 0 {
        return;
      }
      var patch := ModelDump(data);
      ghost var before := relations;
      for i := 0 to |relations|
        invariant |relations| == |before| && requested == old(requested)
        invariant forall j :: 0 <= j < i ==>
          relations[j] == if Selected(before[j], relationId) then UpdateBag(before[j], app, patch) else before[j]
        invariant forall j :: i <= j < |before| ==> relations[j] == before[j]
      {
        if Selected(relations[i], relationId) {
          relations := relations[i := UpdateBag(relations[i], app, patch)];
        }
      }
      assert relations == MergeAppData(before, app, relationId, patch);
    }
  }

  /** The events the requirer emits. */
  datatype AuxiliaryEvent = AuxiliaryReady(relationId: int) | AuxiliaryUnavailable(relationId: int)

  /** The requirer side: the events it emitted. */
  class AuxiliaryRequirer {
    var emitted: seq<AuxiliaryEvent>

    constructor ()
      ensures emitted == []
    {
      emitted := [];
    }

    /** `_on_relation_changed`: the leader emits `auxiliary_ready` once the remote application's bag holds data. */
    method OnRelationChanged(isLeader: bool, relation: Relation)
      modifies this
      ensures isLeader && RemoteAppBag(relation).Some? && |RemoteAppBag(relation).value| > 0 ==>
        emitted == old(emitted) + [AuxiliaryReady(relation.id)]
      ensures !(isLeader && RemoteAppBag(relation).Some? && |RemoteAppBag(relation).value| > 0) ==>
        emitted == old(emitted)
    {
      if !isLeader {
        return;
      }
      var bag := RemoteAppBag(relation);
      if bag.None? || |bag.value| == 0 {
        return;
      }
      emitted := emitted + [AuxiliaryReady(relation.id)];
    }

    /** `_on_auxiliary_relation_broken`: always emits `auxiliary_unavailable`, on every unit. */
    method OnAuxiliaryRelationBroken(relation: Relation)
      modifies this
      ensures emitted == old(emitted) + [AuxiliaryUnavailable(relation.id)]
    {
      emitted := emitted + [AuxiliaryUnavailable(relation.id)];
    }
  }
}
