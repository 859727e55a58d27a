/**
 * The shapes exchanged with the Gravity Forms API (search criteria, sorting,
 * paging, responses) and the API itself as an oracle: a record of total
 * functions that give the store's answer to each request. Also the
 * ordered filter arrays callers pass to the repositories.
 */
module GravityForms {
  import opened Common

  /** One equality clause of a search, `array('key' => k, 'value' => v)`. */
  datatype FieldFilter = FieldFilter(key: string, value: Value)

  /**
   * Search criteria as sent to the store. The PHP array gets its
   * `field_filters` key only when a first clause is appended, so that key is
   * present exactly when `fieldFilters` is non-empty; `start_date` and
   * `end_date` are present when they hold a value.
   */
  datatype Criteria = Criteria(
    status: string,
    fieldFilters: seq<FieldFilter>,
    startDate: Option<Value>,
    endDate: Option<Value>)
  {
    /** The keys of the criteria array. */
    function Keys(): set<string> {
      {"status"}
      + (if fieldFilters != [] then {"field_filters"} else {})
      + (if startDate.Some? then {"start_date"} else {})
      + (if endDate.Some? then {"end_date"} else {})
    }
  }

  /** Every query is scoped to entries with this status. */
  const ActiveStatus: string := "active"

  /** The sorting record `array('key' => ..., 'direction' => ..., 'is_numeric' => ...)`. */
  datatype Sorting = Sorting(key: string, direction: string, isNumeric: bool)

  /** The paging record `array('offset' => ..., 'page_size' => ...)`. */
  datatype Paging = Paging(offset: int, pageSize: int)

  /** The page the repositories ask for when they want every entry. */
  const AllEntriesPaging: Paging := Paging(0, 999999999999)

  /** Sorting on the numeric entry id, in the given direction. */
  function SortById(direction: string): Sorting {
    Sorting("id", direction, true)
  }

  /** One call of `get_entries`: form id, criteria, sorting and paging (null when None). */
  datatype EntriesQuery = EntriesQuery(formId: int, criteria: Criteria, sorting: Sorting, paging: Option<Paging>)

  /** What `get_entries` can do: return entries, return a `WP_Error`, or throw. */
  datatype EntriesResponse = Entries(entries: seq<Entry>) | Error(error: WpError) | Thrown

  /** The answer of `delete_entry` and `update_entry`: a boolean or a `WP_Error`. */
  datatype WriteResult = Done(success: bool) | WriteError(error: WpError)

  /** The answer of `add_entry`: the new entry id or a `WP_Error`. */
  datatype AddResult = Added(id: int) | AddError(error: WpError)

  /**
   * The Gravity Forms API as the repositories see it. Each field gives the
   * store's answer to one kind of request; nothing about the store's
   * contents is assumed.
   */
  datatype Store = Store(
    getEntries: EntriesQuery -> EntriesResponse,
    countEntries: (int, Criteria) -> int,
    deleteEntry: Value -> WriteResult,
    updateEntry: Entry -> WriteResult,
    addEntry: Entry -> AddResult)

  /**
   * What a fetch hands to hydration: the entries returned, or none at all
   * when the store answered with a `WP_Error`. A thrown exception is not
   * caught here.
   */
  function Retrieved(response: EntriesResponse): (r: Outcome<seq<Entry>>)
    ensures r.Raised? <==> response.Thrown?
    ensures response.Error? ==> r == Normal([])
    ensures response.Entries? ==> r == Normal(response.entries)
  {
    match response
    case Entries(entries) => Normal(entries)
    case Error(_) => Normal([])
    case Thrown => Raised
  }

  /**
   * An ordered PHP array of filters, key to value. A PHP array never holds a
   * key twice; `DistinctKeys` states that where it matters. Where the filter
   * argument defaults to null, null behaves as the empty array and is
   * written `[]`.
   */
  type Filters = seq<(string, Value)>

  predicate DistinctKeys(filters: Filters) {
    forall i, j :: 0 <= i < j < |filters| ==> filters[i].0 != filters[j].0
  }

  /** `$filters[$key]`: the value of the last occurrence of the key, if any. */
  function ValueOf(filters: Filters, key: string): (r: Option<Value>)
    ensures r.Some? <==> exists i :: 0 <= i < |filters| && filters[i].0 == key
    ensures DistinctKeys(filters) ==> forall i :: 0 <= i < |filters| && filters[i].0 == key ==> r == Some(filters[i].1)
  {
    if filters == [] then None
    else if filters[|filters| - 1].0 == key then Some(filters[|filters| - 1].1)
    else ValueOf(filters[..|filters| - 1], key)
  }

  /** The keys the array holds. */
  function KeySet(filters: Filters): set<string> {
    set i | 0 <= i < |filters| :: filters[i].0
  }

  lemma KeySetAppend(filters: Filters, last: (string, Value))
    ensures KeySet(filters + [last]) == KeySet(filters) + {last.0}
  {
    var extended := filters + [last];
    assert extended[|filters|] == last;
    forall k | k in KeySet(extended) ensures k in KeySet(filters) + {last.0} {
      var i :| 0 <= i < |extended| && extended[i].0 == k;
      if i < |filters| { assert filters[i] == extended[i]; }
    }
    forall k | k in KeySet(filters) ensures k in KeySet(extended) {
      var i :| 0 <= i < |filters| && filters[i].0 == k;
      assert extended[i] == filters[i];
    }
  }

  /**
   * The array with every entry under `key` given the new value, in place;
   * the other entries are untouched.
   */
  function Replace(filters: Filters, key: string, value: Value): (r: Filters)
    ensures |r| == |filters|
    ensures forall i :: 0 <= i < |r| ==> r[i] == if filters[i].0 == key then (key, value) else filters[i]
  {
    if filters == [] then []
    else
      var n := |filters| - 1;
      Replace(filters[..n], key, value) + [if filters[n].0 == key then (key, value) else filters[n]]
  }

  /**
   * `$filters[$key] = $value`: an existing key keeps its position and takes
   * the new value; a new key is appended at the end. The array still has
   * distinct keys, and only the key written is added.
   */
  function Put(filters: Filters, key: string, value: Value): (r: Filters)
    requires DistinctKeys(filters)
    ensures DistinctKeys(r)
    ensures KeySet(r) == KeySet(filters) + {key}
  {
    if key in KeySet(filters) then
      var r := Replace(filters, key, value);
      assert forall i :: 0 <= i < |r| ==> r[i].0 == filters[i].0;
      assert KeySet(r) == KeySet(filters);
      r
    else
      KeySetAppend(filters, (key, value));
      filters + [(key, value)]
  }

  /** After `$filters[$key] = $value` the key reads the new value and every other key its old one. */
  lemma PutReadsBack(filters: Filters, key: string, value: Value)
    requires DistinctKeys(filters)
    ensures ValueOf(Put(filters, key, value), key) == Some(value)
    ensures forall k :: k != key ==> ValueOf(Put(filters, key, value), k) == ValueOf(filters, k)
  {
    var r := Put(filters, key, value);
    PutPositions(filters, key, value);
    if key in KeySet(filters) {
      var i :| 0 <= i < |filters| && filters[i].0 == key;
      assert r[i] == (key, value);
    } else {
      assert r[|filters|] == (key, value);
    }
    forall k | k != key ensures ValueOf(r, k) == ValueOf(filters, k) {
      if ValueOf(filters, k).Some? {
        var i :| 0 <= i < |filters| && filters[i].0 == k;
        assert r[i] == filters[i];
      }
    }
  }

  /**
   * Where `$filters[$key] = $value` writes: an existing key keeps its
   * position and takes the new value, with every other entry in place; a
   * new key is appended at the end.
   */
  lemma PutPositions(filters: Filters, key: string, value: Value)
    requires DistinctKeys(filters)
    ensures key !in KeySet(filters) ==> Put(filters, key, value) == filters + [(key, value)]
    ensures key in KeySet(filters) ==> |Put(filters, key, value)| == |filters|
    ensures forall i :: 0 <= i < |filters| && filters[i].0 == key ==> Put(filters, key, value)[i] == (key, value)
    ensures forall i :: 0 <= i < |filters| && filters[i].0 != key ==> Put(filters, key, value)[i] == filters[i]
  {
    if key !in KeySet(filters) {
      forall i | 0 <= i < |filters| ensures filters[i].0 != key {
        assert filters[i].0 in KeySet(filters);
      }
    }
  }
}
