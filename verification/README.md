# Posterno field entities in Dafny

This project models the field entities of the Posterno WordPress plugin.

- **Field kinds.** There are three kinds of field: listing, profile and registration. A field's attributes live in WordPress posts, in the post meta that Carbon Fields writes, and in one custom table per kind.
- **Building a field.** The field constructor copies its arguments onto the object. It then runs the kind's `parseSettings`, which:
  - unserializes the stored settings;
  - strips the kind's key prefix with `str_replace`;
  - dispatches each setting through the kind's `switch`;
  - derives the type label, the label, the `multiple` flag and the deletability.

  Only after that does the constructor resolve the title from the post id.
- **Listing and profile operations.** Listing and profile fields also have `create` (with its meta-key uniqueness check) and `delete`; only the listing field has `getFromID`. The profile `delete` cascades one level, to the registration field linked to it.

The project is organised in these modules:

- `Php` (php.dfy): the PHP value semantics the code relies on:
  - `(bool)` and `empty`;
  - string conversion;
  - loose comparison with a string literal;
  - `str_replace`;
  - array lookup;
  - `(int)`, `absint` and `> 0` (with strings read through `(int)`; see "## Left out").
- `WordPress` (wordpress.dfy): the WordPress and plugin helpers, as functions supplied by the caller.
- `FieldAttrs` (field_attrs.dfy): a field's attributes as a record, with:
  - the declared defaults;
  - assignment to a property by name, including dynamic properties;
  - `getSetting`, `isRequired` and the boolean getters.
- `SettingsParser` (settings_parser.dfy): `removeSettingPrefix`, the per-kind dispatch, the pass over the settings, the per-kind derivations and the constructor's ordering, all as functions on that record, with their properties.
- `FieldStore` (field_store.dfy): the stores and the class `Database`. Its methods are `Create`, `Delete` and `GetFromID`. The module also holds `fieldMetaKeyExists` and the cascade.
- `EntityField` (entity_field.dfy): the class `Field`, a PHP field object with one mutable field per property. Its constructor, `ParseSettings` and `SetTitle` change the object in place, and each is proved to leave it in the state that the functions of `SettingsParser` describe. `SetPriority` leaves the object alone and changes only one entry of the post meta store of the `Database`.

Four behaviours of the code are easy to misread; the model follows the code in each:

- `removeSettingPrefix` is documented as removing "a prefix from the field id" (src/AbstractEntityField.php:373), but it is `str_replace`. It removes every occurrence of the prefix, not only a leading one (`SettingsParser.RemoveSettingPrefixInterior`).
- `delete` has no force flag.
- A registration field's `is_required` setting writes the dynamic property `required`. `isRequired()` reads the raw stored setting instead. So the requirement that parsing forces on the built-in email field is invisible to `isRequired()` (`SettingsParser.BuiltInEmailIsRequiredMissesForcedFlag`).
- Registration fields have no `create`, `delete` or lookup of their own in this code.

The WordPress helpers are parameters of every operation that uses them: the `Env` record supplies `maybe_unserialize` on strings, `pno_parse_selectable_options`, the registered field types, the multi-option types, `pno_is_default_field`, `get_the_title`, `sanitize_title` and PHP's `(int)` cast of strings. Every property proved holds for every choice of those helpers that meets the hypotheses the property states; most properties state none. Three more things are parameters:

- the `manage_options` capability check, passed in as `authorized`;
- the answer of `wp_insert_post`, passed in as `insert`;
- the auto-increment id the table gives a new row, passed in as `newEntityId`; `Create` requires that no stored row of its kind already has it, as a primary key guarantees.

## Model

| member | source | states |
|---|---|---|
| FieldAttrs.Defaults | src/AbstractEntityField.php:27-174 | a fresh field has priority 0, can_delete true, readonly, admin_only and multiple false, empty options, null settings, the kind's settings prefix and post type; `profile_field_id` is false for registration fields (src/Field/Registration.php:43) |
| FieldAttrs.FreshFieldFlags | src/AbstractEntityField.php:251-253 | with the defaults, canDelete() is true, isReadOnly(), isAdminOnly(), isMultiple() and isRequired() are false and getOptions() is empty |
| FieldAttrs.AssignSpec | src/Field/Listing.php:102-104 | `$this->{$name} = $v`: afterwards the property of that name reads `v` and every other property reads as before, declared or dynamic |
| FieldAttrs.AssignSlot | src/Field/Listing.php:102-104 | writing a declared property by its PHP name writes exactly that property's slot, and reading it by name reads that slot |
| FieldAttrs.RequiredIsDynamic | src/Field/Listing.php:71-73 | `required` is not a declared property: writing it creates a dynamic property that reads back the value, and every declared property keeps its value |
| FieldAttrs.Assign | src/Field/Listing.php:102-104 | `$this->{$name} = $v`: a declared name writes its slot, any other name the dynamic properties; its properties are AssignSpec, AssignSlot and RequiredIsDynamic |
| FieldAttrs.AssignAll | src/AbstractEntityField.php:183 | the copy of the constructor arguments, one property write per argument in order; its properties are the next two rows |
| FieldAttrs.AssignAllFrame | src/AbstractEntityField.php:183 | copying constructor arguments leaves every property no argument names as it was |
| FieldAttrs.AssignAllLastWins | src/AbstractEntityField.php:183 | a property takes the value of the last constructor argument naming it |
| FieldAttrs.GetSetting | src/AbstractEntityField.php:408-420 | getSetting answers false, or the non-null value stored under `"_" . prefix . name` in the settings array; when such a value is stored it is the answer |
| FieldAttrs.GetSettingWithoutSettings | src/AbstractEntityField.php:408-420 | while the settings are not an array every setting reads as false |
| FieldAttrs.GetSettingFindsEntry | src/AbstractEntityField.php:408-420 | the first entry stored under the prefixed key, when not null, is what getSetting returns |
| FieldAttrs.IsRequired | src/AbstractEntityField.php:427-429 | isRequired is the truthiness of getSetting('is_required'); see IsRequiredReadsOnlySettings |
| FieldAttrs.CanDelete | src/AbstractEntityField.php:251-253 | canDelete is `(bool)` of can_delete |
| FieldAttrs.IsReadOnly | src/AbstractEntityField.php:314-316 | isReadOnly is `(bool)` of readonly |
| FieldAttrs.IsAdminOnly | src/AbstractEntityField.php:323-325 | isAdminOnly is `(bool)` of admin_only |
| FieldAttrs.IsMultiple | src/AbstractEntityField.php:359-361 | isMultiple is `(bool)` of multiple |
| FieldAttrs.IsBranchNodesDisabled | src/Field/Listing.php:129-131 | isBranchNodesDisabled is `(bool)` of disable_branch_nodes |
| FieldAttrs.GetOptions | src/AbstractEntityField.php:341-343 | getOptions returns the stored options, without the filter |
| FieldAttrs.IsRequiredReadsOnlySettings | src/AbstractEntityField.php:427-429 | isRequired depends on the stored settings and the settings prefix only; no parsed attribute changes its answer |
| SettingsParser.RemoveSettingPrefix | src/AbstractEntityField.php:379-381 | removeSettingPrefix as `str_replace` of the prefix by the empty string; its properties are the next four rows |
| SettingsParser.RemoveSettingPrefixSpec | src/AbstractEntityField.php:379-381 | removing the prefix never lengthens a key, leaves a key without the prefix unchanged and turns prefix + name into name when the name does not contain the prefix |
| SettingsParser.RemoveSettingPrefixInterior | src/AbstractEntityField.php:379-381 | the prefix is removed where it occurs further into the key too, not only at the start: x + prefix + y becomes x + (y with the prefix removed) when no character of x can start the prefix |
| SettingsParser.RemoveSettingPrefixMidKey | src/AbstractEntityField.php:379-381 | for example, removing "ab" from "xaby" gives "xy", which a leading-only strip would not |
| SettingsParser.SettingNameCutsInnerPrefix | src/Field/Listing.php:69 | a stored key with the kind's prefix in its middle dispatches on the key with that prefix cut out, when no underscore comes before it and the rest does not contain it |
| SettingsParser.SettingNameOfPrefixedKey | src/Field/Listing.php:69 | a stored key made of `_<kind>_field_` and a name without underscores early enough to start another prefix dispatches on that name |
| SettingsParser.Dispatch | src/Field/Listing.php:70-105 | the per-kind `switch` on the bare setting name (src/Field/Profile.php:52-80, src/Field/Registration.php:69-79); its effects are PerformSpec and the next four rows |
| SettingsParser.PerformSpec | src/Field/Listing.php:70-105 | one `switch` row changes only the properties it writes: a copy row puts the value in its target; selectable_options and taxonomy set the parsed options; taxonomy sets the taxonomy; file_extensions sets the unserialized mime types; the multiple rows compare the current type strictly |
| SettingsParser.ParseOptionsUpdate | src/Field/Listing.php:83-85 | the `selectable_options` row replaces the options by the parsed options and changes nothing else |
| SettingsParser.TaxonomyAndOptionsUpdate | src/Field/Listing.php:89-92 | the listing `taxonomy` row sets the taxonomy and the options parsed from it, and nothing else |
| SettingsParser.MimeTypesUpdate | src/Field/Listing.php:93-95 | the `file_extensions` row sets the allowed mime types to the unserialized value, and nothing else |
| SettingsParser.MultipleIfTypeUpdate | src/Field/Listing.php:96-101 | the `file_is_multiple` and `chain_is_multiple` rows set multiple to whether the current type is strictly their type, and nothing else |
| SettingsParser.Loop | src/Field/Listing.php:68-106 | the foreach over the settings as a left fold of one `switch` row per entry; its properties are the next two rows |
| SettingsParser.LoopFrame | src/Field/Listing.php:68-106 | a property no setting of the pass may write keeps its value through the pass |
| SettingsParser.LoopLastWins | src/Field/Listing.php:68-106 | a property holds the value of the last setting copying into it when no later setting writes it |
| SettingsParser.StepIsDefault | src/Field/Registration.php:73-75 | a registration `is_default` setting sets the meta key and nothing else |
| SettingsParser.StepType | src/Field/Listing.php:102-104 | a `type` setting sets the type and leaves multiple alone |
| SettingsParser.StepFileIsMultiple | src/Field/Listing.php:96-98 | `file_is_multiple` makes the field multiple exactly when its type at that point is `file`, and keeps the type |
| SettingsParser.FileIsMultipleReadsCurrentType | src/Field/Profile.php:74-76 | setting order matters: type then file_is_multiple gives a multiple file field, the reverse order a single-valued one |
| SettingsParser.StepChainIsMultiple | src/Field/Listing.php:99-101 | a listing's `chain_is_multiple` makes the field multiple exactly when its current type is `term-chain-dropdown` |
| SettingsParser.ChainIsMultipleReadsCurrentType | src/Field/Listing.php:99-101 | the same order dependence for the term chain dropdown |
| SettingsParser.ProfileChainIsMultiplePassesThrough | src/Field/Profile.php:77-79 | a profile field has no chain_is_multiple row: the value becomes a dynamic property and multiple is untouched |
| SettingsParser.AfterLoop | src/Field/Listing.php:63-66 | unserialize, and only when the result is an array store it as the settings and run the pass; see ParseNonArray |
| SettingsParser.ListingPost | src/Field/Listing.php:109-120 | the listing derivations; their properties are ParseDerivations and DeriveKeepsMetaKey |
| SettingsParser.ProfilePost | src/Field/Profile.php:84-91 | the profile derivations, without the label default; see ParseDerivations |
| SettingsParser.RegistrationPost | src/Field/Registration.php:83-107 | the registration derivations; see RegistrationDerivations and BuiltInEmailIsRequired |
| SettingsParser.BuiltInType | src/Field/Registration.php:89-98 | the type a built-in registration field takes from its meta key; see BuiltInTypeCases |
| SettingsParser.Parse | src/Field/Listing.php:61-122 | parseSettings as a function: the pass, then the kind's derivations; its properties are the rows from ParseNonArray to RegistrationProfileFieldId |
| SettingsParser.ParseNonArray | src/Field/Listing.php:63-65 | when the unserialized settings are not an array the stored settings stay as they were and only the derivations run |
| SettingsParser.ParseKeepsMultiple | src/Field/Listing.php:116-118 | for a non-multi-option type the parse keeps the multiple flag the pass left |
| SettingsParser.ParseDerivations | src/Field/Listing.php:109-120 | listing and profile: type label = registered label of the final type or false; multi-option types force multiple; can_delete is false exactly for default meta keys; only a listing defaults an empty label to the title (src/Field/Profile.php:84-91); the rest is kept |
| SettingsParser.DeriveKeepsMetaKey | src/Field/Listing.php:109-120 | the derivations of every kind keep the meta key and set can_delete to whether it is not a default field (src/Field/Registration.php:83-107) |
| SettingsParser.DeletableFollowsLastMetaKey | src/Field/Listing.php:74-76 | the parsed meta key is the last value copied into it, and the field is deletable exactly when that value is not a default field, for every kind |
| SettingsParser.BuiltInTypeCases | src/Field/Registration.php:89-98 | the loose `switch` gives password for "password" and true, email for "email", text for everything else |
| SettingsParser.RegistrationDerivations | src/Field/Registration.php:83-107 | can_delete is false exactly for default meta keys; a deletable field keeps everything else; a built-in field gets its type from the meta key, the matching label and, for `email`, `required` = true |
| SettingsParser.BuiltInEmailIsRequired | src/Field/Registration.php:87-106 | a built-in email registration field is of type email, required and not deletable |
| SettingsParser.BuiltInEmailIsRequiredMissesForcedFlag | src/AbstractEntityField.php:427-429 | for a built-in email field stored with only its is_default marker, `required` is true but isRequired() is false |
| SettingsParser.RegistrationWrites | src/Field/Registration.php:69-79 | a registration setting writes `required` for is_required, the meta key for is_default, and otherwise the property of its own name |
| SettingsParser.RegistrationLoopKeepsProfileFieldId | src/Field/Registration.php:67-80 | the registration pass keeps `profile_field_id` unless a setting of that name copies into it |
| SettingsParser.RegistrationProfileFieldId | src/Field/Registration.php:43 | `profile_field_id` stays false unless a setting names it |
| SettingsParser.FreshConstruct | src/AbstractEntityField.php:181-190 | a field built without arguments has the documented defaults, with deletability and multi-option forcing derived from the null meta key and type |
| SettingsParser.Construct | src/AbstractEntityField.php:181-190 | the constructor as a function: copy the arguments, parse the stored settings, then set the title; its properties are the next four rows |
| SettingsParser.ConstructSetsTitleLast | src/AbstractEntityField.php:185-189 | for every kind and every argument list, every property other than the title is as the parse left it, and the title is the post's title when the post id is not empty, the parsed title otherwise |
| SettingsParser.ListingLabelPrecedesTitle | src/AbstractEntityField.php:185-189 | for every argument list that names neither label, title nor settings, a listing keeps a null label, while its title is the post's title whenever the post id is not empty |
| SettingsParser.CopiedHeadingIsDefault | src/AbstractEntityField.php:183 | arguments that name neither the label, the title nor the settings leave all three as they were |
| SettingsParser.AssignKeepsHeading | src/Field/Listing.php:102-104 | writing any other property keeps the label, the title and the settings |
| WordPress.TypeNicename | src/Field/Listing.php:110 | the registered label of the type when there is one, and false otherwise |
| FieldStore.FindBy | src/Field/Listing.php:251 | the query answers the first row whose column holds the value, and nothing exactly when no row holds it |
| FieldStore.RemoveEntity | src/Field/Listing.php:235 | `delete_item` of an entity id never lengthens the table; its properties are the next rows |
| FieldStore.RemoveEntityMembers | src/Field/Listing.php:235 | `delete_item` keeps exactly the rows with another entity id |
| FieldStore.RemoveEntityConcat | src/Field/Listing.php:235 | removing an id from two stretches of rows removes it from each and keeps their order |
| FieldStore.RemoveSingle | src/Field/Listing.php:235 | a row whose id no other row carries is the only row deleting that id removes |
| FieldStore.RemoveEntityRemovesOne | src/Field/Listing.php:235 | while entity ids are unique, deleting the id of row k removes exactly row k and keeps the others in order |
| FieldStore.RemoveEntityKeepsUnique | src/Field/Listing.php:235 | deleting an id keeps the remaining entity ids unique |
| FieldStore.RemoveStoredEntity | src/Field/Listing.php:232-238 | deleting a stored entity shortens its table by exactly one row and keeps the ids unique |
| FieldStore.AppendKeepsUnique | src/Field/Listing.php:172 | adding a row under a fresh entity id keeps the ids unique |
| FieldStore.CascadeKeepsUnique | src/Field/Profile.php:200-208 | the cascade keeps the registration ids unique |
| FieldStore.MetaFor | src/Field/Listing.php:149-153 | the meta key is the given one when not empty; otherwise it is `sanitize_title` of the name with every "-" turned into "_", position by position, so it contains no "-" |
| FieldStore.MetaKeyExists | src/Field/Listing.php:200-214 | fieldMetaKeyExists: the first row holding the meta key has a post id greater than zero |
| FieldStore.MetaKeyFreeWhenAbsent | src/Field/Listing.php:200-214 | a meta key no row holds is never reported as existing |
| FieldStore.PostKeepsIds | src/Field/Listing.php:109-120 | the post-pass derivations never change the entity id or the post id |
| FieldStore.NewRow | src/Field/Listing.php:172 | the entity of a freshly added row is the field constructor applied to its entity id and post id; its properties are the next three rows |
| FieldStore.NewRowIds | src/Field/Listing.php:172 | the entity built for a freshly added row carries its entity id and post id |
| FieldStore.NewRowHasNoMetaKey | src/Field/Listing.php:172-184 | the entity of a freshly added row has no meta key: the key create computed is written to post meta only |
| FieldStore.CreatedRowsNeverClash | src/Field/Listing.php:161-165 | consequently, over rows that create alone added, the duplicate meta key check never fires |
| FieldStore.CreateMeta | src/Field/Listing.php:174-184 | create writes only under the new post, and only the priority, meta key and type entries, each exactly when its value is not empty |
| FieldStore.WithoutPost | src/Field/Listing.php:228 | deleting the post drops exactly that post's meta entries and keeps the rest |
| FieldStore.Removable | src/Field/Listing.php:232-238 | a row is removed exactly when the query finds one under the post id, the id is positive and the entity allows deletion |
| FieldStore.Cascade | src/Field/Profile.php:200-208 | the first registration row linked to the profile post goes when its post id is positive and it allows deletion; otherwise the registration table is untouched |
| FieldStore.ConstructedRowDerived | src/Field/Listing.php:120 | every entity the constructor builds has its deletability derived from its meta key |
| FieldStore.DefaultFieldNotRemovable | src/Field/Profile.php:194-213 | a field keyed by a default field is never removed by delete |
| FieldStore.NewRowFoundByPostId | src/Field/Listing.php:186 | a row appended under a post id no earlier row has is the one the query finds |
| FieldStore.Database.constructor | src/Field/Listing.php:139-192 | the stores start empty, so every row is derived (`RowsDerived`) and no table holds an entity id twice (`IdsUnique`) |
| FieldStore.Database.GetFromID | src/Field/Listing.php:247-253 | the listing field returned holds the post id, and nothing is returned exactly when no listing row holds it |
| FieldStore.Database.Create | src/Field/Listing.php:139-192 | not authorized, missing name, taken meta key and failed insert each leave the stores unchanged; success adds the post, appends the new row, writes the create meta and answers the row found by the new post id, which is the new row when the post id was unused (src/Field/Profile.php:101-154); given the fresh entity id the table assigns, keeps every stored row derived and the ids unique |
| FieldStore.Database.AddField | src/Field/Listing.php:167-186 | the post is stored, the derived row appended, the meta written and the row looked up again; the other tables are untouched; every stored row stays derived and the ids unique |
| FieldStore.Database.AppendRow | src/Field/Listing.php:172 | `add_item` appends the row to its kind's table only, keeping every row derived and the ids unique |
| FieldStore.Database.RemoveRow | src/Field/Listing.php:235 | `delete_item` of a stored row shortens its table by exactly one row and, for a profile field, applies the cascade (src/Field/Profile.php:200-208); every row stays derived and the ids unique |
| FieldStore.Database.Delete | src/Field/Listing.php:222-239 | when authorized the post and its meta go first; the row goes only when Removable finds it; a profile delete also applies the cascade (src/Field/Profile.php:184-215); otherwise every table is unchanged. A successful delete removes exactly one row of the kind's table, and the ids stay unique. While every row is derived, the removed row is never keyed by a default field, and a post whose first row is keyed by one answers cannot-delete with the table unchanged |
| EntityField.Field.constructor | src/AbstractEntityField.php:181-190 | the object ends in the state `Construct` describes: arguments copied, settings parsed, then the title set when the post id is not empty |
| EntityField.Field.SetProperty | src/Field/Listing.php:102-104 | `$this->{$name} = $v` on the object equals `Assign` on its state |
| EntityField.Field.SetSlotInPlace | src/Field/Listing.php:102-104 | overwriting one declared property in place changes exactly that slot |
| EntityField.Field.RunAction | src/Field/Listing.php:70-105 | one `switch` row on the object equals `Perform` on its state |
| EntityField.Field.ParseSettings | src/Field/Listing.php:61-122 | the loop over the unserialized settings and the derivations leave the object in the state `Parse` describes, for every kind (src/Field/Profile.php:43-93, src/Field/Registration.php:60-109) |
| EntityField.Field.ResolveTypeNicename | src/Field/Listing.php:109-110 | only the type label changes, to `TypeNicename` of the current type |
| EntityField.Field.LabelFromTitle | src/Field/Listing.php:112-114 | an empty label becomes the title; otherwise nothing changes |
| EntityField.Field.ForceMultiple | src/Field/Listing.php:116-118 | a multi-option type makes the field multiple; otherwise nothing changes |
| EntityField.Field.ResolveCanDelete | src/Field/Listing.php:120 | only can_delete changes, to whether the meta key is not a default field |
| EntityField.Field.DeriveListing | src/Field/Listing.php:109-120 | the listing derivations on the object equal `ListingPost` |
| EntityField.Field.DeriveProfile | src/Field/Profile.php:84-91 | the profile derivations on the object equal `ProfilePost` |
| EntityField.Field.DeriveRegistration | src/Field/Registration.php:83-107 | the registration derivations on the object equal `RegistrationPost` |
| EntityField.Field.BuiltInFieldType | src/Field/Registration.php:89-106 | a built-in registration field gets the type of its meta key, that type's label and, for email, `required` |
| EntityField.Field.SetTitle | src/AbstractEntityField.php:389-391 | only the title changes, to the post's title |
| EntityField.Field.SetPriority | src/AbstractEntityField.php:437-439 | only the post meta entry `prefix . "priority"` of this post changes, to the non-negative `absint` of the priority |

## Left out

- The constructor calls `parent::__construct($args)` (src/AbstractEntityField.php:183), but no code for that call is shown: src/AbstractEntity.php declares no constructor. The model assumes it copies the arguments as one property write per argument, in order (`AssignAll`).
- The `apply_filters` hook in getOptions is left out: `GetOptions` returns the stored options unfiltered.
- Error messages and the WP_Error and exception objects are left out: outcomes are the constructors of `CreateOutcome` and `DeleteOutcome`. The cannot-delete branch of `delete` names an unqualified `WP_Error` (src/Field/Listing.php:237, src/Field/Profile.php:211), while `create` names `\WP_Error` (src/Field/Listing.php:163, src/Field/Profile.php:125). Inside `namespace PNO\Entities\Field` the unqualified name does not resolve to WordPress's class, so as written that branch stops with an error after the post and its meta have already been deleted. The model answers `CannotDelete` there instead, with the same store changes.
- The database column mapping of the query classes is left out. A table is the sequence of hydrated entities. `fieldMetaKeyExists` looks rows up by their parsed meta key.
- `create` adds a row holding only the post id, as the source does. Its entity is built by the field constructor from the entity id and the post id alone; the meta Carbon Fields writes is not fed back into it. So every row create appends has a null meta key (`NewRowHasNoMetaKey`), and the duplicate meta key check never rejects a key that an earlier create chose: two creates with the same name both succeed in this model (`CreatedRowsNeverClash`).
- The settings that the query classes hydrate from post meta are left out. Rows are whatever attribute records are stored.
- `wp_insert_post` is a parameter (`insert`). A zero post id is not distinguished from a real one.
- Floats and objects among PHP values are left out.
- Php.GreaterThanZero: reads a string through the `(int)` cast parameter, which is PHP 7's rule. PHP 8 agrees for numeric strings with an integer value, but compares a non-numeric string with 0 as two strings, so `"abc" > 0` holds in PHP 8. Rows that `create` adds carry integer post ids, so the difference only reaches rows whose post id is a string.
- Loose equality with a string literal follows PHP 8, including the registration `switch` (`LooseEqualsLiteral`, `BuiltInType`). Under PHP 7, `0 == 'password'` holds, so an integer meta key 0 would be typed as a password field; that reading is not modelled.
- FieldStore.Database.Delete: post ids are integers. A string post id and PHP's loose match of it against the table are not modelled.
- src/Field/Registration.php defines no `create`, `delete` or `getFromID`, and src/Field/Profile.php no `getFromID`, although the base class declares them abstract. The model has no such operations. The profile cascade's call to the registration `delete` is modelled as removing the registration row; the registration post and its meta stay.
- The relationship between registration and profile fields is modelled only through `profile_field_id` and the cascade.
- `isset` on a property of a missing query result (`false` or `null`) is false in PHP, and the model answers false there too.
- `wp_delete_post` removes the post and all its meta, including the meta of other plugins under that post id. The trash, revisions and hooks it also runs are left out.
- `maybe_unserialize` of strings, `sanitize_title`, `get_the_title`, `pno_parse_selectable_options`, `pno_is_default_field`, the registered and multi-option field types, and `(int)` of a string are uninterpreted parameters.
- EntityField.Field.SetSlotInPlace: PHP writes a declared property directly; the Field class routes the write through one of six setters of four properties each. The effect is the same single write.
