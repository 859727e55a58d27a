/**
 * The smplfy-core base repository: CRUD and equality-filtered queries over
 * the entries of one form, hydrated into entities of one type. Filters
 * become search criteria with every non-date filter as a field clause and
 * `start_date` / `end_date` lifted to top-level range bounds.
 */
module SmplfyCoreRepository {
  import opened Common
  import opened GravityForms
  import opened Entity

  /** The two filter keys that become range bounds instead of field clauses. */
  predicate IsDateKey(key: string) {
    key == "start_date" || key == "end_date"
  }

  /** The `field_filters` list: one clause per non-date filter, in the filters' order. */
  function FieldFilters(filters: Filters): (r: seq<FieldFilter>)
    ensures |r| <= |filters|
    ensures forall i :: 0 <= i < |r| ==> !IsDateKey(r[i].key)
  {
    if filters == [] then []
    else
      var n := |filters| - 1;
      FieldFilters(filters[..n]) + (if IsDateKey(filters[n].0) then [] else [FieldFilter(filters[n].0, filters[n].1)])
  }

  /** The criteria `get` and `count_entries` send for the given filters. */
  function SearchCriteria(filters: Filters): (r: Criteria)
    ensures r.status == ActiveStatus
    ensures forall i :: 0 <= i < |r.fieldFilters| ==> !IsDateKey(r.fieldFilters[i].key)
    ensures r.startDate.Some? <==> exists i :: 0 <= i < |filters| && filters[i].0 == "start_date"
    ensures r.endDate.Some? <==> exists i :: 0 <= i < |filters| && filters[i].0 == "end_date"
  {
    Criteria(ActiveStatus, FieldFilters(filters), ValueOf(filters, "start_date"), ValueOf(filters, "end_date"))
  }

  /** A single filter yields one clause, or none when it is a date bound. */
  lemma FieldFiltersOfOne(key: string, value: Value)
    ensures FieldFilters([(key, value)]) == if IsDateKey(key) then [] else [FieldFilter(key, value)]
  {
    assert [(key, value)][..0] == [];
  }

  /**
   * Clauses of consecutive filters are the clauses of each part, one after
   * the other. With FieldFiltersOfOne this determines the list entirely.
   */
  lemma {:induction false} FieldFiltersAppend(first: Filters, second: Filters)
    ensures FieldFilters(first + second) == FieldFilters(first) + FieldFilters(second)
    decreases |second|
  {
    if second == [] {
      assert first + second == first;
    } else {
      var n := |second| - 1;
      var joined := first + second;
      assert joined[..|joined| - 1] == first + second[..n];
      assert joined[|joined| - 1] == second[n];
      FieldFiltersAppend(first, second[..n]);
    }
  }

  /** A clause is sent exactly when its filter was given and is not a date bound. */
  lemma {:induction false} FieldFilterSentIff(filters: Filters, key: string, value: Value)
    ensures FieldFilter(key, value) in FieldFilters(filters) <==> (key, value) in filters && !IsDateKey(key)
    decreases |filters|
  {
    if filters != [] {
      var n := |filters| - 1;
      assert filters == filters[..n] + [filters[n]];
      FieldFilterSentIff(filters[..n], key, value);
    }
  }

  /** The clause of a non-date filter sits right after the clauses of the filters before it. */
  lemma ClauseOfFilter(filters: Filters, i: int)
    requires 0 <= i < |filters| && !IsDateKey(filters[i].0)
    ensures FieldFilters(filters)
            == FieldFilters(filters[..i]) + [FieldFilter(filters[i].0, filters[i].1)] + FieldFilters(filters[i + 1..])
  {
    var before, at, after := filters[..i], [filters[i]], filters[i + 1..];
    assert filters == (before + at) + after;
    FieldFiltersAppend(before + at, after);
    FieldFiltersAppend(before, at);
    FieldFiltersOfOne(filters[i].0, filters[i].1);
  }

  /** Clauses follow the insertion order of their filters. */
  lemma FieldFiltersInOrder(filters: Filters, i: int, j: int)
    requires 0 <= i < j < |filters| && !IsDateKey(filters[i].0) && !IsDateKey(filters[j].0)
    ensures var at, bt := |FieldFilters(filters[..i])|, |FieldFilters(filters[..j])|;
            && at < bt < |FieldFilters(filters)|
            && FieldFilters(filters)[at] == FieldFilter(filters[i].0, filters[i].1)
            && FieldFilters(filters)[bt] == FieldFilter(filters[j].0, filters[j].1)
  {
    ClauseOfFilter(filters, i);
    ClauseOfFilter(filters, j);
    var before := filters[..j];
    assert before[..i] == filters[..i] && before[i] == filters[i];
    ClauseOfFilter(before, i);
  }

  /** Every clause carries the key and value of a filter that was given. */
  lemma {:induction false} ClausesComeFromFilters(filters: Filters)
    ensures forall c :: c in FieldFilters(filters) ==> c.key in KeySet(filters)
    decreases |filters|
  {
    if filters != [] {
      var n := |filters| - 1;
      ClausesComeFromFilters(filters[..n]);
      forall c | c in FieldFilters(filters) ensures c.key in KeySet(filters) {
        if c in FieldFilters(filters[..n]) {
          var k :| 0 <= k < n && filters[..n][k].0 == c.key;
          assert filters[k].0 == c.key;
        } else {
          assert c.key == filters[n].0;
        }
      }
    }
  }

  /** No filter is sent twice: the clauses' keys are pairwise distinct. */
  lemma {:induction false} NoClauseDuplicated(filters: Filters)
    requires DistinctKeys(filters)
    ensures forall a, b :: 0 <= a < b < |FieldFilters(filters)| ==> FieldFilters(filters)[a].key != FieldFilters(filters)[b].key
    decreases |filters|
  {
    if filters != [] {
      var n := |filters| - 1;
      var prefix := filters[..n];
      NoClauseDuplicated(prefix);
      ClausesComeFromFilters(prefix);
      var clauses := FieldFilters(filters);
      var earlier := FieldFilters(prefix);
      assert clauses == earlier + (if IsDateKey(filters[n].0) then [] else [FieldFilter(filters[n].0, filters[n].1)]);
      forall a, b | 0 <= a < b < |clauses| ensures clauses[a].key != clauses[b].key {
        if b < |earlier| {
          assert clauses[a] == earlier[a] && clauses[b] == earlier[b];
          assert earlier[a].key != earlier[b].key;
        } else {
          assert !IsDateKey(filters[n].0) && b == |earlier|;
          assert clauses[b].key == filters[n].0;
          assert clauses[a] == earlier[a];
          assert clauses[a].key in KeySet(prefix);
          var k :| 0 <= k < n && prefix[k].0 == clauses[a].key;
          assert prefix[k] == filters[k];
        }
      }
    }
  }

  /** The criteria hold `field_filters` exactly when some filter is not a date bound. */
  lemma {:induction false} NoFieldFiltersIffOnlyDates(filters: Filters)
    ensures "field_filters" !in SearchCriteria(filters).Keys()
            <==> forall i :: 0 <= i < |filters| ==> IsDateKey(filters[i].0)
    decreases |filters|
  {
    if filters != [] {
      var n := |filters| - 1;
      NoFieldFiltersIffOnlyDates(filters[..n]);
      assert forall i :: 0 <= i < n ==> filters[..n][i] == filters[i];
    }
  }

  /** The status is always `active`; without filters it is the only key. */
  lemma StatusAlwaysActive(filters: Filters)
    ensures SearchCriteria(filters).status == ActiveStatus
    ensures "status" in SearchCriteria(filters).Keys()
    ensures filters == [] ==> SearchCriteria(filters).Keys() == {"status"}
  {
  }

  /** A date filter becomes the top-level bound of the same name. */
  lemma DatesLifted(filters: Filters)
    requires DistinctKeys(filters)
    ensures var criteria := SearchCriteria(filters);
            && ("start_date" in criteria.Keys() <==> "start_date" in KeySet(filters))
            && ("end_date" in criteria.Keys() <==> "end_date" in KeySet(filters))
            && forall i :: 0 <= i < |filters| && IsDateKey(filters[i].0) ==>
                 (if filters[i].0 == "start_date" then criteria.startDate else criteria.endDate) == Some(filters[i].1)
  {
  }

  /** Filters holding only the two dates query exactly `{status, start_date, end_date}`. */
  lemma DateOnlyFilters(startDate: Value, endDate: Value)
    ensures SearchCriteria([("start_date", startDate), ("end_date", endDate)])
            == Criteria(ActiveStatus, [], Some(startDate), Some(endDate))
    ensures SearchCriteria([("start_date", startDate), ("end_date", endDate)]).Keys()
            == {"status", "start_date", "end_date"}
  {
    var filters := [("start_date", startDate), ("end_date", endDate)];
    assert filters[..1] == [("start_date", startDate)];
    FieldFiltersOfOne("start_date", startDate);
  }

  /** Giving a date key a new value in place leaves the field clauses as they were. */
  lemma {:induction false} ReplaceDateKeepsClauses(filters: Filters, key: string, value: Value)
    requires IsDateKey(key)
    ensures FieldFilters(Replace(filters, key, value)) == FieldFilters(filters)
    decreases |filters|
  {
    if filters != [] {
      var n := |filters| - 1;
      var prefix := filters[..n];
      var last := if filters[n].0 == key then (key, value) else filters[n];
      var replaced := Replace(filters, key, value);
      assert replaced == Replace(prefix, key, value) + [last];
      assert filters == prefix + [filters[n]];
      ReplaceDateKeepsClauses(prefix, key, value);
      FieldFiltersAppend(Replace(prefix, key, value), [last]);
      FieldFiltersAppend(prefix, [filters[n]]);
      FieldFiltersOfOne(last.0, last.1);
      FieldFiltersOfOne(filters[n].0, filters[n].1);
    }
  }

  /** Setting a date bound in the filters leaves the field clauses as they were. */
  lemma PutDateKeepsClauses(filters: Filters, key: string, value: Value)
    requires DistinctKeys(filters) && IsDateKey(key)
    ensures FieldFilters(Put(filters, key, value)) == FieldFilters(filters)
  {
    if key in KeySet(filters) {
      ReplaceDateKeepsClauses(filters, key, value);
    } else {
      FieldFiltersAppend(filters, [(key, value)]);
      FieldFiltersOfOne(key, value);
    }
  }

  /**
   * The filters `get_all_between` queries with: the caller's filters with
   * both bounds set, overriding any bounds already there.
   */
  function BetweenFilters(startDate: string, endDate: string, filters: Filters): (r: Filters)
    requires DistinctKeys(filters)
    ensures DistinctKeys(r)
  {
    Put(Put(filters, "start_date", Str(startDate)), "end_date", Str(endDate))
  }

  /** The range query keeps the caller's field clauses and uses the new bounds. */
  lemma BetweenOverridesDates(startDate: string, endDate: string, filters: Filters)
    requires DistinctKeys(filters)
    ensures var criteria := SearchCriteria(BetweenFilters(startDate, endDate, filters));
            && criteria.startDate == Some(Str(startDate))
            && criteria.endDate == Some(Str(endDate))
            && criteria.fieldFilters == FieldFilters(filters)
  {
    var withStart := Put(filters, "start_date", Str(startDate));
    PutDateKeepsClauses(filters, "start_date", Str(startDate));
    PutDateKeepsClauses(withStart, "end_date", Str(endDate));
    PutReadsBack(filters, "start_date", Str(startDate));
    PutReadsBack(withStart, "end_date", Str(endDate));
  }

  /** A repository bound to one form and one entity type. */
  class BaseRepository {
    /** The property map of the entity type entries are hydrated into. */
    const entityPropertyMap: map<string, string>
    const formId: int
    const gravityFormsApi: Store

    constructor (gravityFormsApi: Store, formId: int, entityPropertyMap: map<string, string>)
      ensures this.gravityFormsApi == gravityFormsApi && this.formId == formId
      ensures this.entityPropertyMap == entityPropertyMap
    {
      this.gravityFormsApi := gravityFormsApi;
      this.formId := formId;
      this.entityPropertyMap := entityPropertyMap;
    }

    /** Deletion answers exactly what the store answers. */
    function Delete(entryId: Value): (r: WriteResult)
      ensures r == gravityFormsApi.deleteEntry(entryId)
    {
      gravityFormsApi.deleteEntry(entryId)
    }

    /** Update sends the entity's entry as it is and answers what the store answers. */
    function Update(entity: BaseEntity): (r: WriteResult)
      reads entity
      ensures r == gravityFormsApi.updateEntry(entity.formEntry)
    {
      gravityFormsApi.updateEntry(entity.formEntry)
    }

    /** Add sends the entity's entry as it is and answers the new id or the store's error. */
    function Add(entity: BaseEntity): (r: AddResult)
      reads entity
      ensures r == gravityFormsApi.addEntry(entity.formEntry)
    {
      gravityFormsApi.addEntry(entity.formEntry)
    }

    /** The `get_entries` call `get` makes: this form, the filters' criteria, sorted by numeric id. */
    function EntriesRequest(filters: Filters, direction: string, paging: Option<Paging>): (r: EntriesQuery)
      ensures r.formId == formId && r.paging == paging
      ensures r.criteria == SearchCriteria(filters)
      ensures r.sorting.key == "id" && r.sorting.direction == direction && r.sorting.isNumeric
    {
      EntriesQuery(formId, SearchCriteria(filters), SortById(direction), paging)
    }

    /** Builds the search criteria, one filter at a time. */
    method GetSearchCriteria(filters: Filters) returns (criteria: Criteria)
      ensures criteria == SearchCriteria(filters)
    {
      var fieldFilters: seq<FieldFilter> := [];
      var startDate: Option<Value> := None;
      var endDate: Option<Value> := None;
      for i := 0 to |filters|
        invariant fieldFilters == FieldFilters(filters[..i])
        invariant startDate == ValueOf(filters[..i], "start_date")
        invariant endDate == ValueOf(filters[..i], "end_date")
      {
        var (key, value) := filters[i];
        assert filters[..i + 1][..i] == filters[..i];
        if key == "start_date" {
          startDate := Some(value);
          continue;
        }
        if key == "end_date" {
          endDate := Some(value);
          continue;
        }
        fieldFilters := fieldFilters + [FieldFilter(key, value)];
      }
      assert filters[..|filters|] == filters;
      criteria := Criteria(ActiveStatus, fieldFilters, startDate, endDate);
    }

    /** Wraps each entry, in order, into a new entity of the repository's type. */
    method MapToEntities(entries: seq<Entry>) returns (entities: seq<BaseEntity>)
      ensures Hydrated(entities, entries, entityPropertyMap)
      ensures forall i :: 0 <= i < |entities| ==> fresh(entities[i])
    {
      entities := [];
      for i := 0 to |entries|
        invariant Hydrated(entities, entries[..i], entityPropertyMap)
        invariant forall j :: 0 <= j < |entities| ==> fresh(entities[j])
      {
        var entity := new BaseEntity(entityPropertyMap, entries[i]);
        entities := entities + [entity];
      }
      assert entries[..|entries|] == entries;
    }

    /**
     * The generic fetch. A `WP_Error` from the store becomes the empty list;
     * an exception from the store leaves it; otherwise every entry returned
     * is hydrated, in the store's order.
     */
    method Get(filters: Filters, direction: string, paging: Option<Paging>) returns (r: Outcome<seq<BaseEntity>>)
      ensures var retrieved := Retrieved(gravityFormsApi.getEntries(EntriesRequest(filters, direction, paging)));
              && (r.Raised? <==> retrieved.Raised?)
              && (r.Normal? ==> Hydrated(r.value, retrieved.value, entityPropertyMap))
              && (r.Normal? ==> forall i :: 0 <= i < |r.value| ==> fresh(r.value[i]))
    {
      var criteria := GetSearchCriteria(filters);
      var sorting := SortById(direction);
      var response := gravityFormsApi.getEntries(EntriesQuery(formId, criteria, sorting, paging));
      match response {
        case Thrown =>
          return Raised;
        case Error(_) =>
          return Normal([]);
        case Entries(entries) =>
          var entities := MapToEntities(entries);
          return Normal(entities);
      }
    }

    /**
     * `get_one` as the code is meant to behave: the first entity fetched
     * with default sorting and no paging, or null when none is fetched or
     * the store throws.
     */
    method GetOne(filters: Filters) returns (r: BaseEntity?)
      ensures var retrieved := Retrieved(gravityFormsApi.getEntries(EntriesRequest(filters, "ASC", None)));
              && (retrieved.Raised? ==> r == null)
              && (retrieved.Normal? ==> FirstOrNull(r, retrieved.value, entityPropertyMap))
              && (r != null ==> fresh(r))
    {
      var fetched := Get(filters, "ASC", None);
      if fetched.Raised? {
        return null;
      }
      if fetched.value != [] {
        r := fetched.value[0];
      } else {
        r := null;
      }
    }

    /**
     * `get_one` as written: inside its namespace the `catch (Exception ...)`
     * names a class that does not exist, so an exception from the store is
     * not caught and leaves `get_one`.
     */
    method GetOneAsWritten(filters: Filters) returns (r: Outcome<BaseEntity?>)
      ensures var retrieved := Retrieved(gravityFormsApi.getEntries(EntriesRequest(filters, "ASC", None)));
              && (retrieved.Raised? ==> r == Raised)
              && (retrieved.Normal? ==> r.Normal? && FirstOrNull(r.value, retrieved.value, entityPropertyMap))
              && (r.Normal? && r.value != null ==> fresh(r.value))
    {
      var fetched := Get(filters, "ASC", None);
      if fetched.Raised? {
        return Raised;
      }
      if fetched.value != [] {
        r := Normal(fetched.value[0]);
      } else {
        r := Normal(null);
      }
    }

    /** The first entry whose id is the given value. */
    method GetOneById(value: Value) returns (r: BaseEntity?)
      ensures var retrieved := Retrieved(gravityFormsApi.getEntries(EntriesRequest([("id", value)], "ASC", None)));
              && (retrieved.Raised? ==> r == null)
              && (retrieved.Normal? ==> FirstOrNull(r, retrieved.value, entityPropertyMap))
              && (r != null ==> fresh(r))
    {
      r := GetOne([("id", value)]);
    }

    /** The first entry created by the given user. */
    method GetOneForUser(userId: Value) returns (r: BaseEntity?)
      ensures var retrieved := Retrieved(gravityFormsApi.getEntries(EntriesRequest([("created_by", userId)], "ASC", None)));
              && (retrieved.Raised? ==> r == null)
              && (retrieved.Normal? ==> FirstOrNull(r, retrieved.value, entityPropertyMap))
              && (r != null ==> fresh(r))
    {
      r := GetOne([("created_by", userId)]);
    }

    /** Every matching entry: one page starting at 0 as large as the store allows. */
    method GetAll(filters: Filters, direction: string) returns (r: Outcome<seq<BaseEntity>>)
      ensures var retrieved := Retrieved(gravityFormsApi.getEntries(EntriesRequest(filters, direction, Some(AllEntriesPaging))));
              && (r.Raised? <==> retrieved.Raised?)
              && (r.Normal? ==> Hydrated(r.value, retrieved.value, entityPropertyMap))
              && (r.Normal? ==> forall i :: 0 <= i < |r.value| ==> fresh(r.value[i]))
    {
      r := Get(filters, direction, Some(AllEntriesPaging));
    }

    /** Every matching entry between two dates, the dates overriding any in the filters. */
    method GetAllBetween(startDate: string, endDate: string, filters: Filters, direction: string)
      returns (r: Outcome<seq<BaseEntity>>)
      requires DistinctKeys(filters)
      ensures var request := EntriesRequest(BetweenFilters(startDate, endDate, filters), direction, Some(AllEntriesPaging));
              var retrieved := Retrieved(gravityFormsApi.getEntries(request));
              && request.criteria.startDate == Some(Str(startDate))
              && request.criteria.endDate == Some(Str(endDate))
              && request.criteria.fieldFilters == FieldFilters(filters)
              && (r.Raised? <==> retrieved.Raised?)
              && (r.Normal? ==> Hydrated(r.value, retrieved.value, entityPropertyMap))
              && (r.Normal? ==> forall i :: 0 <= i < |r.value| ==> fresh(r.value[i]))
    {
      var bounded := filters;
      bounded := Put(bounded, "start_date", Str(startDate));
      bounded := Put(bounded, "end_date", Str(endDate));
      BetweenOverridesDates(startDate, endDate, filters);
      r := Get(bounded, direction, Some(AllEntriesPaging));
    }

    /** The store's count for the same criteria `get` would send. */
    method CountEntries(filters: Filters) returns (count: int)
      ensures count == gravityFormsApi.countEntries(formId, SearchCriteria(filters))
    {
      var criteria := GetSearchCriteria(filters);
      count := gravityFormsApi.countEntries(formId, criteria);
    }
  }
}
