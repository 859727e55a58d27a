# smplfy-core entity and repository layer, in Dafny

This project models the mapping layer of the smplfy-core and bs-core
WordPress plugins. It sits between a typed *entity* and a Gravity Forms
*entry*, which is a flat key-to-value record. The model covers four parts:

- **Entity** (`entity.dfy`). A concrete entity type supplies a property map
  (property name to entry key). Ten reserved names (`id`, `formId`,
  `createdBy`, `dateCreated`, `dateUpdated`, `sourceUrl`, `userAgent`,
  `parentKey`, `parentFormKey`, `nestedFormFieldKey`) are merged on top of
  it, and on a collision the reserved target wins. A `BaseEntity` object
  holds the entry in its `formEntry` field. Reads go through the merged map.
  A write to a mapped property updates the entry in place. A write to an
  unmapped property fails. The static field-id lookup consults the child's
  map only.
- **Gravity Forms API shapes** (`gravity_forms.dfy`). These are the search
  criteria, sorting, paging and responses. The API itself is a `Store`: a
  record of total functions that give the store's answer to each request.
  Each repository operation makes one request, so its contract can say
  exactly which request is sent and how the answer is turned into a result.
  The file also holds the filter array, an ordered sequence of key/value
  pairs, with PHP's index read (`ValueOf`) and index assignment (`Put`).
- **smplfy-core repository** (`smplfy_repository.dfy`). Filters become
  criteria: `status` is always `active`; each non-date filter becomes one
  `field_filters` clause, in insertion order; `start_date` and `end_date`
  are lifted to top-level bounds. `get` sorts on the numeric `id` in the
  caller's direction. A `WP_Error` from the store becomes the empty list.
  Returned entries are hydrated one by one, in order, into new entities.
  `get_one` takes the head of that list, `get_all` asks for one huge page,
  `get_all_between` overrides the dates in the filters, and `count_entries`
  sends the same criteria as `get`. Delete, update and add pass through
  to the store.
- **bs-core repository** (`bs_repository.dfy`). This is the older variant.
  It builds its criteria inline with no date handling, and its `get_one`
  catches an exception from the store.
- **User actions** (`user_actions.dfy`). The role test is a key search
  over a user's capabilities. The password-reset link is assembled from the
  site URL, the reset token and the e-mail address.

Modelling choices:

- Entry keys, filter keys and capability keys are strings compared exactly.
- The filter argument of `get`, `get_all`, `get_all_between` and
  `count_entries` defaults to null. Null behaves there like the empty
  array: `$filters != null` is false for both, and assigning an index on
  null creates an array. The model writes it as `[]`. `get_one` declares
  `array $filters` with no default, so it has no null case.
- Default arguments (`'ASC'`, null paging) are passed explicitly.
- An exception thrown by the store is the `Thrown` response. A call that
  lets it through returns `Raised`.
- `start_date` and `end_date` are sent beside any field clauses, not
  instead of them, and the sorting flag is `is_numeric`.

## Model

| member | source | states |
|---|---|---|
| `Entity.AllPropertyMap` | smplfy-core/includes/entities/SMPLFY_BaseEntity.php:107-122 | the merged map has exactly the child's names plus the ten reserved ones; a reserved name always resolves to its default target, even if the child maps it; any other name resolves to the child's target |
| `Entity.FieldId` | smplfy-core/includes/entities/SMPLFY_BaseEntity.php:43-55 | the static lookup returns the child map's target exactly when the child maps the name, and null otherwise |
| `Entity.FieldIdIgnoresDefaults` | smplfy-core/includes/entities/SMPLFY_BaseEntity.php:48-54 | a reserved name that the child does not map has no field id, although instances resolve it |
| `Entity.PropertyValue` | smplfy-core/includes/entities/SMPLFY_BaseEntity.php:71-79 | a read returns a value exactly when the name is mapped and the entry has its resolved key, and the value is the one under that key; an unmapped name reads as null |
| `Entity.AssignProperty` | smplfy-core/includes/entities/SMPLFY_BaseEntity.php:92-100 | a write fails exactly when the name is unmapped, and the error names the property |
| `Entity.ReadAfterAssign` | smplfy-core/includes/entities/SMPLFY_BaseEntity.php:92-96 | after writing v to a mapped property, the resolved key holds v and the property reads back v |
| `Entity.AssignChangesOnlyResolvedKey` | smplfy-core/includes/entities/SMPLFY_BaseEntity.php:96 | a write adds only the resolved key to the entry's keys, and every other key keeps its value |
| `Entity.AssignSeenThroughAlias` | smplfy-core/includes/entities/SMPLFY_BaseEntity.php:71-96 | two names that resolve to the same key are one field: a write through one reads back through the other |
| `Entity.BaseEntity.constructor` | smplfy-core/includes/entities/SMPLFY_BaseEntity.php:32-34 | the entity holds the given entry unchanged |
| `Entity.BaseEntity.Get` | smplfy-core/includes/entities/SMPLFY_BaseEntity.php:71-79 | the read is `PropertyValue` on the current entry: a value exactly when the name is mapped and its key is in the entry, and then that key's value; otherwise null |
| `Entity.BaseEntity.Set` | smplfy-core/includes/entities/SMPLFY_BaseEntity.php:92-100 | it succeeds exactly for mapped names. On success the entry becomes the write's result and the property reads back the value. On failure the error is `UnknownProperty` and the entry is unchanged |
| `GravityForms.Retrieved` | smplfy-core/includes/repositories/SMPLFY_BaseRepository.php:120-126 | a `WP_Error` answer yields no entries, returned entries pass through as they are, and an exception is not caught |
| `GravityForms.ValueOf` | smplfy-core/includes/repositories/SMPLFY_BaseRepository.php:212-221 | the array read finds a value exactly when the key occurs; with distinct keys it is that occurrence's value |
| `GravityForms.Put` | smplfy-core/includes/repositories/SMPLFY_BaseRepository.php:183-184 | index assignment keeps keys distinct and adds only the key written |
| `GravityForms.PutReadsBack` | smplfy-core/includes/repositories/SMPLFY_BaseRepository.php:183-184 | after index assignment the key reads the new value, and every other key reads its old value |
| `GravityForms.Replace` | smplfy-core/includes/repositories/SMPLFY_BaseRepository.php:183-184 | assigning an existing key works in place: same length, every entry under the key takes the new value, every other entry is unchanged |
| `GravityForms.PutPositions` | smplfy-core/includes/repositories/SMPLFY_BaseRepository.php:183-184 | index assignment of a new key appends it at the end; for an existing key the length is unchanged, that key's position takes the new value and every other position is unchanged |
| `SmplfyCoreRepository.FieldFilters` | smplfy-core/includes/repositories/SMPLFY_BaseRepository.php:212-227 | there are no more clauses than filters, and no clause has a date key |
| `SmplfyCoreRepository.SearchCriteria` | smplfy-core/includes/repositories/SMPLFY_BaseRepository.php:207-233 | the criteria `get_search_Criteria` returns. The status is `active`, no clause has a date key, and each bound is present exactly when its date filter is given. `FieldFilterSentIff`, `FieldFiltersInOrder`, `NoClauseDuplicated`, `NoFieldFiltersIffOnlyDates`, `DatesLifted` and `StatusAlwaysActive` describe it in full |
| `SmplfyCoreRepository.FieldFiltersOfOne` | smplfy-core/includes/repositories/SMPLFY_BaseRepository.php:214-226 | a single filter yields one clause with its key and value, or none if it is a date bound |
| `SmplfyCoreRepository.FieldFiltersAppend` | smplfy-core/includes/repositories/SMPLFY_BaseRepository.php:212-227 | the clauses of concatenated filters are the concatenated clauses. With the single-filter case, this fixes the whole list |
| `SmplfyCoreRepository.FieldFilterSentIff` | smplfy-core/includes/repositories/SMPLFY_BaseRepository.php:212-227 | a clause {k, v} is sent if and only if the filter (k, v) was given and k is not a date key |
| `SmplfyCoreRepository.ClauseOfFilter` | smplfy-core/includes/repositories/SMPLFY_BaseRepository.php:223-226 | a non-date filter's clause sits right after the clauses of the filters before it |
| `SmplfyCoreRepository.FieldFiltersInOrder` | smplfy-core/includes/repositories/SMPLFY_BaseRepository.php:212-227 | for two non-date filters, the earlier filter's clause comes first, and each position holds its filter's key and value |
| `SmplfyCoreRepository.ClausesComeFromFilters` | smplfy-core/includes/repositories/SMPLFY_BaseRepository.php:223-226 | every clause's key is the key of a given filter |
| `SmplfyCoreRepository.NoClauseDuplicated` | smplfy-core/includes/repositories/SMPLFY_BaseRepository.php:212-227 | for filters with distinct keys, no key is sent in two clauses |
| `SmplfyCoreRepository.NoFieldFiltersIffOnlyDates` | smplfy-core/includes/repositories/SMPLFY_BaseRepository.php:214-227 | the criteria lack `field_filters` if and only if every filter is a date bound |
| `SmplfyCoreRepository.StatusAlwaysActive` | smplfy-core/includes/repositories/SMPLFY_BaseRepository.php:209-232 | the status is always `active`; with no filters it is the only key |
| `SmplfyCoreRepository.DatesLifted` | smplfy-core/includes/repositories/SMPLFY_BaseRepository.php:214-221 | a top-level date bound is present exactly when that date filter is given, and it carries the filter's value |
| `SmplfyCoreRepository.DateOnlyFilters` | smplfy-core/includes/repositories/SMPLFY_BaseRepository.php:214-232 | filters holding only the two dates give exactly `{status: active, start_date, end_date}` |
| `SmplfyCoreRepository.ReplaceDateKeepsClauses` | smplfy-core/includes/repositories/SMPLFY_BaseRepository.php:183-184 | giving a date key a new value in place leaves the field clauses unchanged |
| `SmplfyCoreRepository.PutDateKeepsClauses` | smplfy-core/includes/repositories/SMPLFY_BaseRepository.php:183-184 | setting a date bound in the filters leaves the field clauses unchanged |
| `SmplfyCoreRepository.BetweenFilters` | smplfy-core/includes/repositories/SMPLFY_BaseRepository.php:183-184 | the range query's filters still have distinct keys |
| `SmplfyCoreRepository.BetweenOverridesDates` | smplfy-core/includes/repositories/SMPLFY_BaseRepository.php:180-187 | the range query's bounds are the given dates, whatever dates the filters held, and its field clauses are the caller's |
| `SmplfyCoreRepository.BaseRepository.constructor` | smplfy-core/includes/repositories/SMPLFY_BaseRepository.php:26-28 | the repository keeps the API it is given, together with its form id and entity type |
| `SmplfyCoreRepository.BaseRepository.Delete` | smplfy-core/includes/repositories/SMPLFY_BaseRepository.php:37-39 | the store's answer is returned unchanged |
| `SmplfyCoreRepository.BaseRepository.Update` | smplfy-core/includes/repositories/SMPLFY_BaseRepository.php:48-50 | exactly the entity's entry is sent, and the store's answer is returned unchanged |
| `SmplfyCoreRepository.BaseRepository.Add` | smplfy-core/includes/repositories/SMPLFY_BaseRepository.php:59-61 | exactly the entity's entry is sent, and the store's new id or error is returned unchanged |
| `SmplfyCoreRepository.BaseRepository.EntriesRequest` | smplfy-core/includes/repositories/SMPLFY_BaseRepository.php:114-120 | the `get_entries` call `get` makes: this form, the filters' search criteria, sorting on key `id` in the given direction with `is_numeric` set, and the given paging |
| `SmplfyCoreRepository.BaseRepository.GetSearchCriteria` | smplfy-core/includes/repositories/SMPLFY_BaseRepository.php:207-233 | the filter-by-filter loop builds exactly the criteria that the lemmas above describe |
| `SmplfyCoreRepository.BaseRepository.MapToEntities` | smplfy-core/includes/repositories/SMPLFY_BaseRepository.php:136-143 | it returns one new, distinct entity per entry, in order, each wrapping its entry with the repository's property map |
| `SmplfyCoreRepository.BaseRepository.Get` | smplfy-core/includes/repositories/SMPLFY_BaseRepository.php:112-127 | it sends this form, the filters' criteria, sorting on numeric `id` in the caller's direction, and the given paging. A store exception escapes; otherwise the entries retrieved are hydrated in order |
| `SmplfyCoreRepository.BaseRepository.GetOne` | smplfy-core/includes/repositories/SMPLFY_BaseRepository.php:88-101 | with ascending order and null paging, it returns null when nothing is retrieved or the store throws; otherwise a new entity wrapping the first entry retrieved |
| `SmplfyCoreRepository.BaseRepository.GetOneAsWritten` | smplfy-core/includes/repositories/SMPLFY_BaseRepository.php:88-101 | as written: a store exception escapes `get_one`, because the catch does not match. Otherwise the result is as in `GetOne` |
| `SmplfyCoreRepository.BaseRepository.GetOneById` | smplfy-core/includes/repositories/SMPLFY_BaseRepository.php:152-154 | it is `get_one` with the single filter `[('id', v)]` |
| `SmplfyCoreRepository.BaseRepository.GetOneForUser` | smplfy-core/includes/repositories/SMPLFY_BaseRepository.php:77-79 | it is `get_one` with the single filter `[('created_by', u)]` |
| `SmplfyCoreRepository.BaseRepository.GetAll` | smplfy-core/includes/repositories/SMPLFY_BaseRepository.php:164-168 | it is `get` with paging offset 0 and page size 999999999999 |
| `SmplfyCoreRepository.BaseRepository.GetAllBetween` | smplfy-core/includes/repositories/SMPLFY_BaseRepository.php:180-187 | it is `get_all` on the filters with both bounds set. The sent criteria carry the given dates and the caller's field clauses |
| `SmplfyCoreRepository.BaseRepository.CountEntries` | smplfy-core/includes/repositories/SMPLFY_BaseRepository.php:195-198 | it returns the store's count for this form and for the same criteria that `get` sends, whatever the direction and paging |
| `BsCoreRepository.AllFieldFilters` | bs-core/includes/repositories/BS_BaseRepository.php:115-122 | there is one clause per filter, and the clause at position i has filter i's key and value |
| `BsCoreRepository.BsSearchCriteria` | bs-core/includes/repositories/BS_BaseRepository.php:113-124 | the criteria `get` builds inline: status `active`, no bounds, one clause per filter. `AllFieldFilters`, `BsCriteriaKeys`, `DateFilterIsOrdinaryClause` and `AgreesWithSmplfyWithoutDates` describe it in full |
| `BsCoreRepository.BsCriteriaKeys` | bs-core/includes/repositories/BS_BaseRepository.php:113-124 | the status is `active` and no date bound is ever sent; the keys are `status` alone without filters, and `status` plus `field_filters` otherwise |
| `BsCoreRepository.DateFilterIsOrdinaryClause` | bs-core/includes/repositories/BS_BaseRepository.php:116-121 | a `start_date` filter is sent as an ordinary clause and never as a bound |
| `BsCoreRepository.AgreesWithSmplfyWithoutDates` | bs-core/includes/repositories/BS_BaseRepository.php:113-124 | without date filters, the two repositories send identical criteria |
| `BsCoreRepository.BaseRepository.constructor` | bs-core/includes/repositories/BS_BaseRepository.php:25-27 | the repository keeps the API it is given, together with its form id and entity type |
| `BsCoreRepository.BaseRepository.Delete` | bs-core/includes/repositories/BS_BaseRepository.php:36-38 | the store's answer is returned unchanged |
| `BsCoreRepository.BaseRepository.Update` | bs-core/includes/repositories/BS_BaseRepository.php:47-49 | exactly the entity's entry is sent, and the store's answer is returned unchanged |
| `BsCoreRepository.BaseRepository.Add` | bs-core/includes/repositories/BS_BaseRepository.php:58-60 | exactly the entity's entry is sent, and the store's new id or error is returned unchanged |
| `BsCoreRepository.BaseRepository.EntriesRequest` | bs-core/includes/repositories/BS_BaseRepository.php:126-132 | the `get_entries` call `get` makes: this form, the inline criteria, sorting on key `id` in the given direction with `is_numeric` set, and the given paging |
| `BsCoreRepository.BaseRepository.MapToEntities` | bs-core/includes/repositories/BS_BaseRepository.php:148-155 | it returns one new, distinct entity per entry, in order, each wrapping its entry |
| `BsCoreRepository.BaseRepository.Get` | bs-core/includes/repositories/BS_BaseRepository.php:112-139 | it sends this form, every filter as a clause with no bounds, and sorting on numeric `id` in the caller's direction. A `WP_Error` gives the empty list; otherwise the entries are hydrated in order |
| `BsCoreRepository.BaseRepository.GetOne` | bs-core/includes/repositories/BS_BaseRepository.php:87-101 | it returns null when nothing is retrieved or the store throws; otherwise a new entity wrapping the first entry retrieved |
| `BsCoreRepository.BaseRepository.GetOneById` | bs-core/includes/repositories/BS_BaseRepository.php:164-166 | it is `get_one` with the single filter `[('id', v)]` |
| `BsCoreRepository.BaseRepository.GetOneForUser` | bs-core/includes/repositories/BS_BaseRepository.php:76-78 | it is `get_one` with the single filter `[('created_by', u)]` |
| `BsCoreRepository.BaseRepository.GetAll` | bs-core/includes/repositories/BS_BaseRepository.php:176-180 | it is `get` with paging offset 0 and page size 999999999999 |
| `UserActions.DoesUserHaveRole` | smplfy-core/includes/wp-api/UserActions.php:25-33 | it is true if and only if the role name is a key of the user's capabilities. The flags are not read, and an empty map gives false |
| `UserActions.PasswordLink` | smplfy-core/includes/wp-api/UserActions.php:15-23 | it is null exactly when the reset token is an error; otherwise it starts with the site URL and the reset path |
| `UserActions.ResetLinkRoundTrip` | smplfy-core/includes/wp-api/UserActions.php:22 | for a token without `&`, the token and the e-mail address can be read back out of the link |

## Findings

| source | as written | input that shows it | evidently intended | confidence | as-written member | corrected member |
|---|---|---|---|---|---|---|
| smplfy-core/includes/repositories/SMPLFY_BaseRepository.php:98 | `catch ( Exception $ex )` inside `namespace SmplfyCore` with no `use Exception` names `SmplfyCore\Exception`. No such class exists, so the clause never matches and an exception from the store leaves `get_one` | a store whose `get_entries` throws `\Exception`. The test at tests/repositories/SMPLFY_BaseRepositoryTest.php:206-215 expects null for this input, but it runs on `TestConcreteRepository`, which extends the bs-core class, so no test runs the smplfy-core `get_one` | `get_one` returns null, as the bs-core twin does | not executed; high | `SmplfyCoreRepository.BaseRepository.GetOneAsWritten` | `SmplfyCoreRepository.BaseRepository.GetOne` |

`GetOneById` and `GetOneForUser` are built on the corrected `GetOne`.

## Left out

- The Gravity Forms API and its wrapper (`SMPLFY_GravityFormsApiWrapper`, `GFAPI`) are foreign code. Their answers are inputs, through the `Store` record. The unused `$total_count` and `$entryId` arguments of the wrapper are not modelled.
- The three `SMPLFYGravityFormsKeys` constants are not part of this model. They are three distinct stand-in strings.
- `get_one_for_current_user` reads the session's user id through `get_current_user_id`. Given that id, it is `GetOneForUser`.
- `generate_password_link` gets the token from `get_password_reset_key`, the e-mail from `get_userdata` and the site from `SITE_URL`. These are WordPress lookups, so all three are inputs. Neither the code nor the model percent-encodes the token or the e-mail.
- PasswordLink: the contract states the null case, the link's prefix, and (in `ResetLinkRoundTrip`) that token and e-mail are recoverable. It does not state the exact concatenation, which is the function's body.
- PHP loose comparison and array quirks are not modelled. Examples are `==` between an integer key and `'start_date'`, integer-like keys, and the renumbering of integer keys by `array_merge`. Keys are strings with exact equality.
- The failing write of an unmapped property only happens in the code if the host turns PHP's undefined-index warning into an exception. A test runner does this, but the plugin's own error handler returns false. Without such a host, PHP would go on and write the value under the empty key. The `catch`/`throw new Exception` in `__set` would not change that: inside the namespace, both name `SmplfyCore\Exception`, which does not exist. The model follows the behaviour the method documents: its `@throws Exception` docblock (SMPLFY_BaseEntity.php:90) and its catch-and-rethrow (lines 95-99) both say that the write fails. In the model the entry is left unchanged. No test runs this method: the entity tests build on the bs-core entity class.
- Reading a mapped property whose key is missing from the entry also raises a PHP warning. The model returns null, as PHP does after the warning.
- Logging and telemetry, the settings pages, the activation hooks, the loader, the bootstrap files and the other WordPress or plugin wrappers are not modelled. These are I/O, UI or foreign calls with no logic of their own.
- Hydration builds the base entity with the repository's property map around each entry. PHP calls `new $this->entityType($entry)`, and the concrete entity class may override the constructor. That each entity wraps its entry unchanged is therefore an assumption about the entity type; the bs-core entity class is not part of this model.
- Entry and filter values are strings, integers or booleans. PHP null and float values, which an entry may hold and `__set` may write, are not modelled.
