/**
 * The part of the Juju relation model (the `ops` framework) that the charm and its
 * libraries read and write: a relation has an id, a remote application (which may be
 * unknown) and one string-to-string data bag per application or unit.
 */
module Relations {
  import opened Wrappers

  type Bag = map<string, string>

  datatype Relation = Relation(id: int, app: Option<string>, data: map<string, Bag>)

  /** `relation.data[entity]`; the framework keeps a bag for every related entity, read here as empty when absent. */
  function BagOf(r: Relation, entity: string): Bag
  {
    if entity in r.data then r.data[entity] else map[]
  }

  /** `relation.data.get(relation.app)`: the remote application's bag, if the application is known. */
  function RemoteAppBag(r: Relation): (b: Option<Bag>)
    ensures b.Some? <==> r.app.Some? && r.app.value in r.data
    ensures b.Some? ==> b.value == r.data[r.app.value]
  {
    if r.app.Some? && r.app.value in r.data then Some(r.data[r.app.value]) else None
  }

  /**
   * `relation.data[entity].update(patch)`: each key of `patch` is assigned in turn, and
   * the framework's bag treats assigning `""` as deleting the key; keys `patch` does not
   * name stay as they were.
   */
  function UpdateBag(r: Relation, entity: string, patch: Bag): (r': Relation)
    ensures r'.id == r.id && r'.app == r.app
    ensures r'.data.Keys == r.data.Keys + {entity}
    ensures forall e :: e in r.data && e != entity ==> r'.data[e] == r.data[e]
    ensures forall k :: k in r'.data[entity] <==>
      (k in patch && patch[k] != "") || (k in BagOf(r, entity) && k !in patch)
    ensures forall k :: k in patch && patch[k] != "" ==> r'.data[entity][k] == patch[k]
    ensures forall k :: k in BagOf(r, entity) && k !in patch ==> r'.data[entity][k] == BagOf(r, entity)[k]
  {
    r.(data := r.data[entity := Assigned(BagOf(r, entity), patch)])
  }

  /** The bag after assigning every key of `patch`, an empty value deleting its key. */
  function Assigned(bag: Bag, patch: Bag): Bag
  {
    map k | k in bag.Keys + patch.Keys && (k in patch ==> patch[k] != "") ::
      if k in patch then patch[k] else bag[k]
  }

  /** A relation taken by an optional `relation_id` filter (`None` takes every relation). */
  predicate Selected(r: Relation, relationId: Option<int>)
  {
    relationId.None? || r.id == relationId.value
  }

  /**
   * The relations after `relation.data[app].update(patch)` has run on each one the filter
   * selects; the others are returned as they were.
   */
  function MergeAppData(rs: seq<Relation>, app: string, relationId: Option<int>, patch: Bag): (r: seq<Relation>)
    ensures |r| == |rs|
    ensures forall i :: 0 <= i < |rs| ==>
      r[i] == if Selected(rs[i], relationId) then UpdateBag(rs[i], app, patch) else rs[i]
  {
    if |rs| == 0 then []
    else
      [if Selected(rs[0], relationId) then UpdateBag(rs[0], app, patch) else rs[0]]
      + MergeAppData(rs[1..], app, relationId, patch)
  }

  /** Updating a bag with the same patch twice is updating it once. */
  lemma UpdateBagIdempotent(r: Relation, entity: string, patch: Bag)
    ensures UpdateBag(UpdateBag(r, entity, patch), entity, patch) == UpdateBag(r, entity, patch)
  {
    var u := UpdateBag(r, entity, patch);
    assert Assigned(BagOf(u, entity), patch) == BagOf(u, entity);
    assert UpdateBag(u, entity, patch).data == u.data;
  }

  /** Merging the same data a second time changes nothing. */
  lemma MergeAppDataIdempotent(rs: seq<Relation>, app: string, relationId: Option<int>, patch: Bag)
    ensures MergeAppData(MergeAppData(rs, app, relationId, patch), app, relationId, patch)
         == MergeAppData(rs, app, relationId, patch)
  {
    var once := MergeAppData(rs, app, relationId, patch);
    var twice := MergeAppData(once, app, relationId, patch);
    forall i | 0 <= i < |rs| ensures twice[i] == once[i] {
      if Selected(rs[i], relationId) {
        UpdateBagIdempotent(rs[i], app, patch);
      }
    }
  }

  /** Outcome of `model.get_relation(name, relation_id)` over the relations named `name`. */
  datatype RelationLookupError = TooManyRelatedApps

  /**
   * `model.get_relation(name, relation_id)`: with an id, the relation carrying it (if any);
   * without one, no relation, the only relation, or an error when there are several.
   */
  function GetRelation(rs: seq<Relation>, relationId: Option<int>): (r: Result<Option<Relation>, RelationLookupError>)
    ensures relationId.None? ==> (r.Failure? <==> |rs| > 1)
    ensures relationId.None? && |rs| == 0 ==> r == Success(None)
    ensures relationId.None? && |rs| == 1 ==> r == Success(Some(rs[0]))
    ensures relationId.Some? ==> r.Success?
    ensures relationId.Some? && r.value.Some? ==> r.value.value in rs && r.value.value.id == relationId.value
    ensures relationId.Some? && r.value.None? ==> forall i :: 0 <= i < |rs| ==> rs[i].id != relationId.value
  {
    match relationId
    case None =>
      if |rs| == 0 then Success(None)
      else if |rs| == 1 then Success(Some(rs[0]))
      else Failure(TooManyRelatedApps)
    case Some(id) => Success(FindById(rs, id))
  }

  /** The first relation with the given id. */
  function FindById(rs: seq<Relation>, id: int): (r: Option<Relation>)
    ensures r.Some? ==> r.value in rs && r.value.id == id
    ensures r.None? ==> forall i :: 0 <= i < |rs| ==> rs[i].id != id
  {
    if |rs| == 0 then None
    else if rs[0].id == id then Some(rs[0])
    else FindById(rs[1..], id)
  }
}
