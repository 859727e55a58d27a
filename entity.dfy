/**
 * The generic entity of smplfy-core: a typed view over one Gravity Forms
 * entry. A concrete entity type supplies its own property map (property name
 * to entry key); ten reserved properties are always mapped on top of it.
 */
module Entity {
  import opened Common

  // Stand-ins for the three nested-form meta keys of SMPLFYGravityFormsKeys.
  // Only their being distinct from each other and from the other default
  // targets matters to the model.
  const EntryParentKey: string := "gpnf_entry_parent"
  const EntryParentFormKey: string := "gpnf_entry_parent_form"
  const EntryNestedFormFieldKey: string := "gpnf_entry_nested_form_field"

  /** The ten reserved property names and the entry keys they stand for. */
  const DefaultPropertyMap: map<string, string> := map[
    "id" := "id",
    "formId" := "form_id",
    "createdBy" := "created_by",
    "dateCreated" := "date_created",
    "dateUpdated" := "date_updated",
    "sourceUrl" := "source_url",
    "userAgent" := "user_agent",
    "parentKey" := EntryParentKey,
    "parentFormKey" := EntryParentFormKey,
    "nestedFormFieldKey" := EntryNestedFormFieldKey
  ]

  /**
   * The map every instance read and write goes through: the child's map
   * merged with the defaults. On a name the child also defines, the
   * default's target is kept, so a child cannot redirect a reserved name.
   */
  function AllPropertyMap(childMap: map<string, string>): (merged: map<string, string>)
    ensures merged.Keys == childMap.Keys + DefaultPropertyMap.Keys
    ensures forall p :: p in DefaultPropertyMap ==> merged[p] == DefaultPropertyMap[p]
    ensures forall p :: p in childMap && p !in DefaultPropertyMap ==> merged[p] == childMap[p]
  {
    childMap + DefaultPropertyMap
  }

  /**
   * The static lookup of a property's entry key. It consults the child's
   * map only, so a reserved name the child does not define has no field id.
   */
  function FieldId(childMap: map<string, string>, property: string): (r: Option<string>)
    ensures r.Some? <==> property in childMap
    ensures r.Some? ==> r.value == childMap[property]
  {
    if property in childMap then Some(childMap[property]) else None
  }

  /** A reserved name resolves for instances but has no static field id. */
  lemma FieldIdIgnoresDefaults(childMap: map<string, string>, property: string)
    requires property in DefaultPropertyMap && property !in childMap
    ensures FieldId(childMap, property) == None
    ensures property in AllPropertyMap(childMap)
  {
  }

  /**
   * Reading a property from an entry: the value under the property's
   * resolved key, or null when the property is unmapped or the entry has no
   * such key. Reading never fails.
   */
  function PropertyValue(childMap: map<string, string>, entry: Entry, property: string): (r: Option<Value>)
    ensures property !in AllPropertyMap(childMap) ==> r == None
    ensures r.Some? <==> property in AllPropertyMap(childMap) && AllPropertyMap(childMap)[property] in entry
    ensures r.Some? ==> r.value == entry[AllPropertyMap(childMap)[property]]
  {
    var merged := AllPropertyMap(childMap);
    if property in merged && merged[property] in entry then Some(entry[merged[property]]) else None
  }

  datatype EntityError = UnknownProperty(property: string)

  /**
   * Writing a property into an entry: the entry with the property's resolved
   * key set to the value, or an error naming the property when it is
   * unmapped.
   */
  function AssignProperty(childMap: map<string, string>, entry: Entry, property: string, value: Value)
    : (r: Result<Entry, EntityError>)
    ensures r.Err? <==> property !in AllPropertyMap(childMap)
    ensures r.Err? ==> r.error == UnknownProperty(property)
  {
    var merged := AllPropertyMap(childMap);
    if property in merged then Ok(entry[merged[property] := value]) else Err(UnknownProperty(property))
  }

  /** After a successful write, the property and its key read back the value written. */
  lemma ReadAfterAssign(childMap: map<string, string>, entry: Entry, property: string, value: Value)
    requires property in AllPropertyMap(childMap)
    ensures AssignProperty(childMap, entry, property, value).Ok?
    ensures var updated := AssignProperty(childMap, entry, property, value).value;
            && AllPropertyMap(childMap)[property] in updated
            && updated[AllPropertyMap(childMap)[property]] == value
            && PropertyValue(childMap, updated, property) == Some(value)
  {
  }

  /** A write touches the resolved key only: every other key keeps its presence and value. */
  lemma AssignChangesOnlyResolvedKey(childMap: map<string, string>, entry: Entry, property: string, value: Value)
    requires property in AllPropertyMap(childMap)
    ensures var key := AllPropertyMap(childMap)[property];
            var updated := AssignProperty(childMap, entry, property, value).value;
            && updated.Keys == entry.Keys + {key}
            && forall k :: k in entry && k != key ==> updated[k] == entry[k]
  {
  }

  /**
   * Two properties that resolve to the same key are two names for one
   * field: writing through one is seen through the other.
   */
  lemma AssignSeenThroughAlias(childMap: map<string, string>, entry: Entry, property: string, alias: string, value: Value)
    requires property in AllPropertyMap(childMap) && alias in AllPropertyMap(childMap)
    requires AllPropertyMap(childMap)[property] == AllPropertyMap(childMap)[alias]
    ensures PropertyValue(childMap, AssignProperty(childMap, entry, property, value).value, alias) == Some(value)
  {
  }

  /**
   * One entity: the child's property map (fixed by its type) and the entry
   * it wraps, which property writes update in place.
   */
  class BaseEntity {
    const propertyMap: map<string, string>
    var formEntry: Entry

    /** Stores the given entry unchanged (an empty entry for a new entity). */
    constructor (propertyMap: map<string, string>, formEntry: Entry)
      ensures this.propertyMap == propertyMap && this.formEntry == formEntry
    {
      this.propertyMap := propertyMap;
      this.formEntry := formEntry;
    }

    /**
     * Property read through the merged map: a value exactly when the name is
     * mapped and its key is in the entry; otherwise null.
     */
    function Get(property: string): (r: Option<Value>)
      reads this
      ensures r == PropertyValue(propertyMap, formEntry, property)
    {
      PropertyValue(propertyMap, formEntry, property)
    }

    /**
     * Property write. A mapped property updates its resolved key in place
     * and reads back the value; an unmapped one fails and leaves the entry
     * as it was.
     */
    method Set(property: string, value: Value) returns (r: Result<(), EntityError>)
      modifies this
      ensures r.Ok? <==> property in AllPropertyMap(propertyMap)
      ensures r.Ok? ==> formEntry == AssignProperty(propertyMap, old(formEntry), property, value).value
      ensures r.Ok? ==> Get(property) == Some(value)
      ensures r.Err? ==> r.error == UnknownProperty(property) && formEntry == old(formEntry)
    {
      var merged := AllPropertyMap(propertyMap);
      if property !in merged {
        return Err(UnknownProperty(property));
      }
      formEntry := formEntry[merged[property] := value];
      r := Ok(());
    }
  }

  /** Each entity wraps the entry at the same position, with the given property map. */
  ghost predicate Wraps(entities: seq<BaseEntity>, entries: seq<Entry>, propertyMap: map<string, string>)
    reads entities
  {
    && |entities| == |entries|
    && forall i :: 0 <= i < |entities| ==>
         entities[i].formEntry == entries[i] && entities[i].propertyMap == propertyMap
  }

  /** No entity appears twice. */
  ghost predicate Distinct(entities: seq<BaseEntity>) {
    forall i, j :: 0 <= i < j < |entities| ==> entities[i] != entities[j]
  }

  /**
   * Hydration as the repositories do it: one entity per entry, in the
   * entries' order, each wrapping its entry unchanged, no entity twice.
   * The callers add that every entity is new.
   */
  ghost predicate Hydrated(entities: seq<BaseEntity>, entries: seq<Entry>, propertyMap: map<string, string>)
    reads entities
  {
    Wraps(entities, entries, propertyMap) && Distinct(entities)
  }

  /**
   * The first-or-null answer of `get_one` when fetching went through: null
   * when nothing was retrieved, otherwise an entity wrapping the first entry
   * retrieved. The callers add that the entity is new.
   */
  ghost predicate FirstOrNull(first: BaseEntity?, retrieved: seq<Entry>, propertyMap: map<string, string>)
    reads first
  {
    && (first == null <==> retrieved == [])
    && (first != null ==> first.formEntry == retrieved[0] && first.propertyMap == propertyMap)
  }
}
