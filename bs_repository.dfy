/**
 * The older bs-core base repository. It differs from the smplfy-core one in
 * building its criteria inline with no date handling (every filter,
 * `start_date` included, is an ordinary field clause), in catching a thrown
 * exception in `get_one`, and in having no range query and no count.
 */
module BsCoreRepository {
  import opened Common
  import opened GravityForms
  import opened Entity
  import SmplfyCoreRepository

  /** One clause per filter, each carrying its filter's key and value, in order. */
  function AllFieldFilters(filters: Filters): (r: seq<FieldFilter>)
    ensures |r| == |filters|
    ensures forall i :: 0 <= i < |r| ==> r[i] == FieldFilter(filters[i].0, filters[i].1)
  {
    if filters == [] then []
    else
      var n := |filters| - 1;
      AllFieldFilters(filters[..n]) + [FieldFilter(filters[n].0, filters[n].1)]
  }

  /** The criteria `get` sends: status `active` and every filter as a clause. */
  function BsSearchCriteria(filters: Filters): (r: Criteria)
    ensures r.status == ActiveStatus
    ensures r.startDate.None? && r.endDate.None?
    ensures |r.fieldFilters| == |filters|
  {
    Criteria(ActiveStatus, AllFieldFilters(filters), None, None)
  }

  /** No range bounds are ever sent; without filters the status is the only key. */
  lemma BsCriteriaKeys(filters: Filters)
    ensures BsSearchCriteria(filters).status == ActiveStatus
    ensures BsSearchCriteria(filters).Keys()
            == if filters == [] then {"status"} else {"status", "field_filters"}
  {
  }

  /** A `start_date` filter is sent as an ordinary clause, not as a bound. */
  lemma DateFilterIsOrdinaryClause(filters: Filters, i: int)
    requires 0 <= i < |filters| && filters[i].0 == "start_date"
    ensures FieldFilter("start_date", filters[i].1) in BsSearchCriteria(filters).fieldFilters
    ensures "start_date" !in BsSearchCriteria(filters).Keys()
  {
    assert BsSearchCriteria(filters).fieldFilters[i] == FieldFilter("start_date", filters[i].1);
  }

  /** Without date filters both repositories send the same criteria. */
  lemma {:induction false} AgreesWithSmplfyWithoutDates(filters: Filters)
    requires forall i :: 0 <= i < |filters| ==> !SmplfyCoreRepository.IsDateKey(filters[i].0)
    ensures BsSearchCriteria(filters) == SmplfyCoreRepository.SearchCriteria(filters)
    decreases |filters|
  {
    if filters != [] {
      var n := |filters| - 1;
      assert forall i :: 0 <= i < n ==> filters[..n][i] == filters[i];
      AgreesWithSmplfyWithoutDates(filters[..n]);
      assert !SmplfyCoreRepository.IsDateKey(filters[n].0);
      assert AllFieldFilters(filters) == AllFieldFilters(filters[..n]) + [FieldFilter(filters[n].0, filters[n].1)];
    }
  }

  /** A repository bound to one form and one entity type. */
  class BaseRepository {
    /** The property map of the entity type entries are hydrated into. */
    const entityPropertyMap: map<string, string>
    const formId: int
    const gravityFormsApi: Store

    constructor (gravityFormsApi: Store, formId: int, entityPropertyMap: map<string, string>)
      ensures this.gravityFormsApi == gravityFormsApi && this.formId == formId
      ensures this.entityPropertyMap == entityPropertyMap
    {
      this.gravityFormsApi := gravityFormsApi;
      this.formId := formId;
      this.entityPropertyMap := entityPropertyMap;
    }

    /** Deletion answers exactly what the store answers. */
    function Delete(entryId: Value): (r: WriteResult)
      ensures r == gravityFormsApi.deleteEntry(entryId)
    {
      gravityFormsApi.deleteEntry(entryId)
    }

    /** Update sends the entity's entry as it is and answers what the store answers. */
    function Update(entity: BaseEntity): (r: WriteResult)
      reads entity
      ensures r == gravityFormsApi.updateEntry(entity.formEntry)
    {
      gravityFormsApi.updateEntry(entity.formEntry)
    }

    /** Add sends the entity's entry as it is and answers the new id or the store's error. */
    function Add(entity: BaseEntity): (r: AddResult)
      reads entity
      ensures r == gravityFormsApi.addEntry(entity.formEntry)
    {
      gravityFormsApi.addEntry(entity.formEntry)
    }

    /** The `get_entries` call `get` makes: this form, the filters' criteria, sorted by numeric id. */
    function EntriesRequest(filters: Filters, direction: string, paging: Option<Paging>): (r: EntriesQuery)
      ensures r.formId == formId && r.paging == paging
      ensures r.criteria == BsSearchCriteria(filters)
      ensures r.sorting.key == "id" && r.sorting.direction == direction && r.sorting.isNumeric
    {
      EntriesQuery(formId, BsSearchCriteria(filters), SortById(direction), paging)
    }

    /** Wraps each entry, in order, into a new entity of the repository's type. */
    method MapToEntities(entries: seq<Entry>) returns (entities: seq<BaseEntity>)
      ensures Hydrated(entities, entries, entityPropertyMap)
      ensures forall i :: 0 <= i < |entities| ==> fresh(entities[i])
    {
      entities := [];
      for i := 0 to |entries|
        invariant Hydrated(entities, entries[..i], entityPropertyMap)
        invariant forall j :: 0 <= j < |entities| ==> fresh(entities[j])
      {
        var entity := new BaseEntity(entityPropertyMap, entries[i]);
        entities := entities + [entity];
      }
      assert entries[..|entries|] == entries;
    }

    /**
     * The generic fetch, building its criteria one filter at a time. A
     * `WP_Error` from the store becomes the empty list; an exception from
     * the store leaves it; otherwise every entry returned is hydrated, in
     * the store's order.
     */
    method Get(filters: Filters, direction: string, paging: Option<Paging>) returns (r: Outcome<seq<BaseEntity>>)
      ensures var retrieved := Retrieved(gravityFormsApi.getEntries(EntriesRequest(filters, direction, paging)));
              && (r.Raised? <==> retrieved.Raised?)
              && (r.Normal? ==> Hydrated(r.value, retrieved.value, entityPropertyMap))
              && (r.Normal? ==> forall i :: 0 <= i < |r.value| ==> fresh(r.value[i]))
    {
      var fieldFilters: seq<FieldFilter> := [];
      for i := 0 to |filters|
        invariant fieldFilters == AllFieldFilters(filters[..i])
      {
        assert filters[..i + 1][..i] == filters[..i];
        fieldFilters := fieldFilters + [FieldFilter(filters[i].0, filters[i].1)];
      }
      assert filters[..|filters|] == filters;
      var searchCriteria := Criteria(ActiveStatus, fieldFilters, None, None);
      var sorting := SortById(direction);
      var response := gravityFormsApi.getEntries(EntriesQuery(formId, searchCriteria, sorting, paging));
      match response {
        case Thrown =>
          return Raised;
        case Error(_) =>
          return Normal([]);
        case Entries(entries) =>
          var entities := MapToEntities(entries);
          return Normal(entities);
      }
    }

    /**
     * The first entity fetched with default sorting and no paging, or null
     * when none is fetched or an exception is thrown.
     */
    method GetOne(filters: Filters) returns (r: BaseEntity?)
      ensures var retrieved := Retrieved(gravityFormsApi.getEntries(EntriesRequest(filters, "ASC", None)));
              && (retrieved.Raised? ==> r == null)
              && (retrieved.Normal? ==> FirstOrNull(r, retrieved.value, entityPropertyMap))
              && (r != null ==> fresh(r))
    {
      var fetched := Get(filters, "ASC", None);
      if fetched.Raised? {
        return null;
      }
      if fetched.value != [] {
        r := fetched.value[0];
      } else {
        r := null;
      }
    }

    /** The first entry whose id is the given value. */
    method GetOneById(value: Value) returns (r: BaseEntity?)
      ensures var retrieved := Retrieved(gravityFormsApi.getEntries(EntriesRequest([("id", value)], "ASC", None)));
              && (retrieved.Raised? ==> r == null)
              && (retrieved.Normal? ==> FirstOrNull(r, retrieved.value, entityPropertyMap))
              && (r != null ==> fresh(r))
    {
      r := GetOne([("id", value)]);
    }

    /** The first entry created by the given user. */
    method GetOneForUser(userId: Value) returns (r: BaseEntity?)
      ensures var retrieved := Retrieved(gravityFormsApi.getEntries(EntriesRequest([("created_by", userId)], "ASC", None)));
              && (retrieved.Raised? ==> r == null)
              && (retrieved.Normal? ==> FirstOrNull(r, retrieved.value, entityPropertyMap))
              && (r != null ==> fresh(r))
    {
      r := GetOne([("created_by", userId)]);
    }

    /** Every matching entry: one page starting at 0 as large as the store allows. */
    method GetAll(filters: Filters, direction: string) returns (r: Outcome<seq<BaseEntity>>)
      ensures var retrieved := Retrieved(gravityFormsApi.getEntries(EntriesRequest(filters, direction, Some(AllEntriesPaging))));
              && (r.Raised? <==> retrieved.Raised?)
              && (r.Normal? ==> Hydrated(r.value, retrieved.value, entityPropertyMap))
              && (r.Normal? ==> forall i :: 0 <= i < |r.value| ==> fresh(r.value[i]))
    {
      r := Get(filters, direction, Some(AllEntriesPaging));
    }
  }
}
