/**
 * The attributes of a field entity (the properties declared by
 * AbstractEntityField and its three concrete kinds, plus the properties PHP
 * creates on the fly), their defaults, assignment by name, and the pure
 * lookups of the base class: getSetting, isRequired and the boolean getters.
 */
module FieldAttrs {
  import opened Php

  /** The three concrete field kinds. */
  datatype Kind = Listing | Profile | Registration

  /** The prefix Carbon Fields uses for this kind's settings. */
  function SettingPrefix(kind: Kind): string
  {
    match kind
    case Listing => "listing_field_"
    case Profile => "profile_field_"
    case Registration => "registration_field_"
  }

  /** The post type this kind's fields are stored under. */
  function PostType(kind: Kind): string
  {
    match kind
    case Listing => "pno_listings_fields"
    case Profile => "pno_users_fields"
    case Registration => "pno_signup_fields"
  }

  /**
   * Every attribute of a field. All are PHP values; the slots `taxonomy` and
   * `disableBranchNodes` are declared by Listing only and `profileFieldId`
   * by Registration only (for the other kinds they stay Null, which is what
   * reading an undeclared property gives). `extra` holds the properties PHP
   * creates on assignment, such as `required`.
   */
  datatype Attrs = Attrs(
    id: Value,
    postId: Value,
    objectMetaKey: Value,
    settingPrefix: Value,
    postType: Value,
    priority: Value,
    canDelete: Value,
    fieldType: Value,
    typeNicename: Value,
    title: Value,
    settings: Value,
    fieldLabel: Value,
    description: Value,
    placeholder: Value,
    readonly: Value,
    adminOnly: Value,
    options: Value,
    allowedMimeTypes: Value,
    multiple: Value,
    maxSize: Value,
    value: Value,
    taxonomy: Value,
    disableBranchNodes: Value,
    profileFieldId: Value,
    extra: map<string, Value>
  )

  /** The attributes of a freshly allocated field of the given kind. */
  function Defaults(kind: Kind): (a: Attrs)
    ensures a.priority == Int(0) && a.canDelete == Bool(true)
    ensures a.readonly == Bool(false) && a.adminOnly == Bool(false) && a.multiple == Bool(false)
    ensures a.options == Arr([]) && a.settings == Null
    ensures a.settingPrefix == Str(SettingPrefix(kind)) && a.postType == Str(PostType(kind))
    ensures a.profileFieldId == if kind == Registration then Bool(false) else Null
  {
    Attrs(
      id := Null,
      postId := Int(0),
      objectMetaKey := Null,
      settingPrefix := Str(SettingPrefix(kind)),
      postType := Str(PostType(kind)),
      priority := Int(0),
      canDelete := Bool(true),
      fieldType := Bool(false),
      typeNicename := Null,
      title := Null,
      settings := Null,
      fieldLabel := Null,
      description := Null,
      placeholder := Null,
      readonly := Bool(false),
      adminOnly := Bool(false),
      options := Arr([]),
      allowedMimeTypes := Bool(false),
      multiple := Bool(false),
      maxSize := Null,
      value := Bool(false),
      taxonomy := Null,
      disableBranchNodes := if kind == Listing then Bool(false) else Null,
      profileFieldId := if kind == Registration then Bool(false) else Null,
      extra := map[]
    )
  }

  /** Which slot of `Attrs` a PHP property name denotes. */
  datatype Slot =
    | IdSlot | PostIdSlot | ObjectMetaKeySlot | SettingPrefixSlot | PostTypeSlot
    | PrioritySlot | CanDeleteSlot | TypeSlot | TypeNicenameSlot | TitleSlot
    | SettingsSlot | LabelSlot | DescriptionSlot | PlaceholderSlot | ReadonlySlot
    | AdminOnlySlot | OptionsSlot | AllowedMimeTypesSlot | MultipleSlot | MaxSizeSlot
    | ValueSlot | TaxonomySlot | DisableBranchNodesSlot | ProfileFieldIdSlot
    | ExtraSlot

  /** The PHP name of a declared property. */
  function SlotName(slot: Slot): string
  {
    match slot
    case IdSlot => "id"
    case PostIdSlot => "post_id"
    case ObjectMetaKeySlot => "object_meta_key"
    case SettingPrefixSlot => "field_setting_prefix"
    case PostTypeSlot => "post_type"
    case PrioritySlot => "priority"
    case CanDeleteSlot => "can_delete"
    case TypeSlot => "type"
    case TypeNicenameSlot => "type_nicename"
    case TitleSlot => "title"
    case SettingsSlot => "settings"
    case LabelSlot => "label"
    case DescriptionSlot => "description"
    case PlaceholderSlot => "placeholder"
    case ReadonlySlot => "readonly"
    case AdminOnlySlot => "admin_only"
    case OptionsSlot => "options"
    case AllowedMimeTypesSlot => "allowed_mime_types"
    case MultipleSlot => "multiple"
    case MaxSizeSlot => "maxsize"
    case ValueSlot => "value"
    case TaxonomySlot => "taxonomy"
    case DisableBranchNodesSlot => "disable_branch_nodes"
    case ProfileFieldIdSlot => "profile_field_id"
    case ExtraSlot => ""
  }

  /**
   * The slot a property name denotes; names not declared by any kind are
   * dynamic. The names are grouped by length.
   */
  function SlotOf(name: string): (slot: Slot)
    ensures slot != ExtraSlot ==> SlotName(slot) == name
  {
    match |name|
    case 2 => if name == "id" then IdSlot else ExtraSlot
    case 4 => if name == "type" then TypeSlot else ExtraSlot
    case 5 => if name == "title" then TitleSlot else if name == "label" then LabelSlot else if name == "value" then ValueSlot else ExtraSlot
    case 7 => if name == "post_id" then PostIdSlot else if name == "options" then OptionsSlot else if name == "maxsize" then MaxSizeSlot else ExtraSlot
    case 8 => if name == "priority" then PrioritySlot else if name == "settings" then SettingsSlot else if name == "readonly" then ReadonlySlot else if name == "multiple" then MultipleSlot else if name == "taxonomy" then TaxonomySlot else ExtraSlot
    case 9 => if name == "post_type" then PostTypeSlot else ExtraSlot
    case 10 => if name == "can_delete" then CanDeleteSlot else if name == "admin_only" then AdminOnlySlot else ExtraSlot
    case 11 => if name == "description" then DescriptionSlot else if name == "placeholder" then PlaceholderSlot else ExtraSlot
    case 13 => if name == "type_nicename" then TypeNicenameSlot else ExtraSlot
    case 15 => if name == "object_meta_key" then ObjectMetaKeySlot else ExtraSlot
    case 16 => if name == "profile_field_id" then ProfileFieldIdSlot else ExtraSlot
    case 18 => if name == "allowed_mime_types" then AllowedMimeTypesSlot else ExtraSlot
    case 20 => if name == "field_setting_prefix" then SettingPrefixSlot else if name == "disable_branch_nodes" then DisableBranchNodesSlot else ExtraSlot
    case _ => ExtraSlot
  }

  /** The value held in a declared slot. */
  function SlotValue(a: Attrs, slot: Slot): Value
    requires slot != ExtraSlot
  {
    match slot
    case IdSlot => a.id
    case PostIdSlot => a.postId
    case ObjectMetaKeySlot => a.objectMetaKey
    case SettingPrefixSlot => a.settingPrefix
    case PostTypeSlot => a.postType
    case PrioritySlot => a.priority
    case CanDeleteSlot => a.canDelete
    case TypeSlot => a.fieldType
    case TypeNicenameSlot => a.typeNicename
    case TitleSlot => a.title
    case SettingsSlot => a.settings
    case LabelSlot => a.fieldLabel
    case DescriptionSlot => a.description
    case PlaceholderSlot => a.placeholder
    case ReadonlySlot => a.readonly
    case AdminOnlySlot => a.adminOnly
    case OptionsSlot => a.options
    case AllowedMimeTypesSlot => a.allowedMimeTypes
    case MultipleSlot => a.multiple
    case MaxSizeSlot => a.maxSize
    case ValueSlot => a.value
    case TaxonomySlot => a.taxonomy
    case DisableBranchNodesSlot => a.disableBranchNodes
    case ProfileFieldIdSlot => a.profileFieldId
  }

  /** Overwriting one declared slot: that slot holds `v`, every other slot and the dynamic properties are kept. */
  function SetSlot(a: Attrs, slot: Slot, v: Value): Attrs
    requires slot != ExtraSlot
  {
    match slot
    case IdSlot => a.(id := v)
    case PostIdSlot => a.(postId := v)
    case ObjectMetaKeySlot => a.(objectMetaKey := v)
    case SettingPrefixSlot => a.(settingPrefix := v)
    case PostTypeSlot => a.(postType := v)
    case PrioritySlot => a.(priority := v)
    case CanDeleteSlot => a.(canDelete := v)
    case TypeSlot => a.(fieldType := v)
    case TypeNicenameSlot => a.(typeNicename := v)
    case TitleSlot => a.(title := v)
    case SettingsSlot => a.(settings := v)
    case LabelSlot => a.(fieldLabel := v)
    case DescriptionSlot => a.(description := v)
    case PlaceholderSlot => a.(placeholder := v)
    case ReadonlySlot => a.(readonly := v)
    case AdminOnlySlot => a.(adminOnly := v)
    case OptionsSlot => a.(options := v)
    case AllowedMimeTypesSlot => a.(allowedMimeTypes := v)
    case MultipleSlot => a.(multiple := v)
    case MaxSizeSlot => a.(maxSize := v)
    case ValueSlot => a.(value := v)
    case TaxonomySlot => a.(taxonomy := v)
    case DisableBranchNodesSlot => a.(disableBranchNodes := v)
    case ProfileFieldIdSlot => a.(profileFieldId := v)
  }

  /** Overwriting a slot changes that slot to `v` and keeps every other slot and the dynamic properties. */
  lemma SetSlotFrame(a: Attrs, slot: Slot, v: Value)
    requires slot != ExtraSlot
    ensures SetSlot(a, slot, v).extra == a.extra
    ensures forall s :: s != ExtraSlot ==> SlotValue(SetSlot(a, slot, v), s) == if s == slot then v else SlotValue(a, s)
  {
  }

  // Overwriting a slot is a plain record update, stated four slots at a time.

  lemma IdentitySlotsAreUpdates(a: Attrs, v: Value)
    ensures SetSlot(a, IdSlot, v) == a.(id := v)
    ensures SetSlot(a, PostIdSlot, v) == a.(postId := v)
    ensures SetSlot(a, ObjectMetaKeySlot, v) == a.(objectMetaKey := v)
    ensures SetSlot(a, SettingPrefixSlot, v) == a.(settingPrefix := v)
  { }

  lemma StorageSlotsAreUpdates(a: Attrs, v: Value)
    ensures SetSlot(a, PostTypeSlot, v) == a.(postType := v)
    ensures SetSlot(a, PrioritySlot, v) == a.(priority := v)
    ensures SetSlot(a, CanDeleteSlot, v) == a.(canDelete := v)
    ensures SetSlot(a, TypeSlot, v) == a.(fieldType := v)
  { }

  lemma HeadingSlotsAreUpdates(a: Attrs, v: Value)
    ensures SetSlot(a, TypeNicenameSlot, v) == a.(typeNicename := v)
    ensures SetSlot(a, TitleSlot, v) == a.(title := v)
    ensures SetSlot(a, SettingsSlot, v) == a.(settings := v)
    ensures SetSlot(a, LabelSlot, v) == a.(fieldLabel := v)
  { }

  lemma DisplaySlotsAreUpdates(a: Attrs, v: Value)
    ensures SetSlot(a, DescriptionSlot, v) == a.(description := v)
    ensures SetSlot(a, PlaceholderSlot, v) == a.(placeholder := v)
    ensures SetSlot(a, ReadonlySlot, v) == a.(readonly := v)
    ensures SetSlot(a, AdminOnlySlot, v) == a.(adminOnly := v)
  { }

  lemma ChoiceSlotsAreUpdates(a: Attrs, v: Value)
    ensures SetSlot(a, OptionsSlot, v) == a.(options := v)
    ensures SetSlot(a, AllowedMimeTypesSlot, v) == a.(allowedMimeTypes := v)
    ensures SetSlot(a, MultipleSlot, v) == a.(multiple := v)
    ensures SetSlot(a, MaxSizeSlot, v) == a.(maxSize := v)
  { }

  lemma ContentSlotsAreUpdates(a: Attrs, v: Value)
    ensures SetSlot(a, ValueSlot, v) == a.(value := v)
    ensures SetSlot(a, TaxonomySlot, v) == a.(taxonomy := v)
    ensures SetSlot(a, DisableBranchNodesSlot, v) == a.(disableBranchNodes := v)
    ensures SetSlot(a, ProfileFieldIdSlot, v) == a.(profileFieldId := v)
  { }

  /** Reading `$this->{$name}`; an unset dynamic property reads as null. */
  function Prop(a: Attrs, name: string): Value
  {
    var slot := SlotOf(name);
    if slot != ExtraSlot then SlotValue(a, slot)
    else if name in a.extra then a.extra[name] else Null
  }

  /**
   * `$this->{$name} = $v`: a declared property is overwritten, any other name
   * becomes a dynamic property. Exactly the named property changes.
   */
  function Assign(a: Attrs, name: string, v: Value): Attrs
  {
    var slot := SlotOf(name);
    if slot != ExtraSlot then SetSlot(a, slot, v) else a.(extra := a.extra[name := v])
  }

  /** After `$this->{$name} = $v` the named property reads `v` and every other property reads as before. */
  lemma AssignSpec(a: Attrs, name: string, v: Value)
    ensures Prop(Assign(a, name, v), name) == v
    ensures forall n :: n != name ==> Prop(Assign(a, name, v), n) == Prop(a, n)
  {
    var slot := SlotOf(name);
    if slot != ExtraSlot {
      SetSlotFrame(a, slot, v);
    } else {
      var r := a.(extra := a.extra[name := v]);
      assert forall s :: s != ExtraSlot ==> SlotValue(r, s) == SlotValue(a, s);
    }
  }

  /** Every declared property is found again under its own name. */
  lemma SlotOfSlotName(slot: Slot)
    requires slot != ExtraSlot
    ensures SlotOf(SlotName(slot)) == slot
  {
  }

  /** Writing a declared property by name is writing its slot; reading it is reading the slot. */
  lemma AssignSlot(a: Attrs, slot: Slot, v: Value)
    requires slot != ExtraSlot
    ensures Assign(a, SlotName(slot), v) == SetSlot(a, slot, v)
    ensures Prop(a, SlotName(slot)) == SlotValue(a, slot)
  {
    SlotOfSlotName(slot);
  }

  /** Reading a declared property by its PHP name reads its slot. */
  lemma PropSlot(a: Attrs, slot: Slot)
    requires slot != ExtraSlot
    ensures Prop(a, SlotName(slot)) == SlotValue(a, slot)
  {
    SlotOfSlotName(slot);
  }

  /** Overwriting the title leaves every other property, declared or dynamic, as it was. */
  lemma TitleUpdateFrame(a: Attrs, t: Value)
    ensures forall n :: n != "title" ==> Prop(a.(title := t), n) == Prop(a, n)
  {
    AssignSlot(a, TitleSlot, t);
    HeadingSlotsAreUpdates(a, t);
    AssignSpec(a, "title", t);
  }

  /** Writing an undeclared name adds or replaces a dynamic property and touches nothing else. */
  lemma AssignExtra(a: Attrs, name: string, v: Value)
    requires SlotOf(name) == ExtraSlot
    ensures Assign(a, name, v) == a.(extra := a.extra[name := v])
  {
  }

  /**
   * `required` is not a declared property: writing it creates a dynamic
   * property that reads back the value, and every declared property keeps
   * its value.
   */
  lemma RequiredIsDynamic(a: Attrs, v: Value)
    ensures SlotOf("required") == ExtraSlot
    ensures Prop(Assign(a, "required", v), "required") == v
    ensures forall s :: s != ExtraSlot ==> SlotValue(Assign(a, "required", v), s) == SlotValue(a, s)
  {
    AssignExtra(a, "required", v);
  }

  /** Copying constructor arguments onto the properties, in order. */
  function AssignAll(a: Attrs, args: seq<(string, Value)>): Attrs
    decreases |args|
  {
    if |args| == 0 then a
    else Assign(AssignAll(a, args[..|args| - 1]), args[|args| - 1].0, args[|args| - 1].1)
  }

  /** A property no argument names keeps its value. */
  lemma {:induction false} AssignAllFrame(a: Attrs, args: seq<(string, Value)>, n: string)
    requires forall k :: 0 <= k < |args| ==> args[k].0 != n
    ensures Prop(AssignAll(a, args), n) == Prop(a, n)
    decreases |args|
  {
    if |args| > 0 {
      AssignAllFrame(a, args[..|args| - 1], n);
      AssignSpec(AssignAll(a, args[..|args| - 1]), args[|args| - 1].0, args[|args| - 1].1);
    }
  }

  /** A property takes the value of the last argument that names it. */
  lemma {:induction false} AssignAllLastWins(a: Attrs, args: seq<(string, Value)>, k: nat)
    requires k < |args|
    requires forall j :: k < j < |args| ==> args[j].0 != args[k].0
    ensures Prop(AssignAll(a, args), args[k].0) == args[k].1
    decreases |args|
  {
    AssignSpec(AssignAll(a, args[..|args| - 1]), args[|args| - 1].0, args[|args| - 1].1);
    if k < |args| - 1 {
      AssignAllLastWins(a, args[..|args| - 1], k);
    }
  }

  /** The settings key `getSetting(name)` looks for: `"_" . prefix . name`. */
  function SettingKey(a: Attrs, name: string): string
  {
    "_" + StrOf(a.settingPrefix) + name
  }

  /**
   * getSetting: the value stored under the prefixed key when the parsed
   * settings are an array holding it and it is not null (`isset`), `false`
   * otherwise.
   */
  function GetSetting(a: Attrs, name: string): (r: Value)
    ensures r == Bool(false) ||
            (a.settings.Arr? && Lookup(a.settings.entries, SettingKey(a, name)) == Some(r) && r != Null)
    ensures a.settings.Arr? && Lookup(a.settings.entries, SettingKey(a, name)).Some? &&
            Lookup(a.settings.entries, SettingKey(a, name)).value != Null
            ==> r == Lookup(a.settings.entries, SettingKey(a, name)).value
  {
    if a.settings.Arr? then
      match Lookup(a.settings.entries, SettingKey(a, name))
      case Some(v) => if v != Null then v else Bool(false)
      case None => Bool(false)
    else Bool(false)
  }

  /** While the settings are not an array (null before the first parse), every setting reads as `false`. */
  lemma GetSettingWithoutSettings(a: Attrs, name: string)
    requires !a.settings.Arr?
    ensures GetSetting(a, name) == Bool(false)
  {
  }

  /** A settings entry stored under exactly the prefixed key with a non-null value is what getSetting returns. */
  lemma GetSettingFindsEntry(a: Attrs, name: string, k: nat)
    requires a.settings.Arr? && k < |a.settings.entries|
    requires a.settings.entries[k].0 == SettingKey(a, name) && a.settings.entries[k].1 != Null
    requires forall j :: 0 <= j < k ==> a.settings.entries[j].0 != SettingKey(a, name)
    ensures GetSetting(a, name) == a.settings.entries[k].1
  {
    var es := a.settings.entries;
    var key := SettingKey(a, name);
    var r := Lookup(es, key);
    assert r.Some?;
    var i :| 0 <= i < |es| && es[i] == (key, r.value) && forall j :: 0 <= j < i ==> es[j].0 != key;
    assert i == k;
  }

  /** isRequired: whether the raw `is_required` setting is truthy. */
  predicate IsRequired(a: Attrs)
  {
    Truthy(GetSetting(a, "is_required"))
  }

  /**
   * isRequired reads the raw settings only: neither the `required` property
   * that settings parsing writes nor any other attribute changes its answer.
   */
  lemma IsRequiredReadsOnlySettings(a: Attrs, b: Attrs)
    requires a.settings == b.settings && a.settingPrefix == b.settingPrefix
    ensures IsRequired(a) == IsRequired(b)
  {
  }

  /** canDelete, isReadOnly, isAdminOnly, isMultiple, isBranchNodesDisabled: `(bool)` casts of their attribute. */
  predicate CanDelete(a: Attrs) { Truthy(a.canDelete) }
  predicate IsReadOnly(a: Attrs) { Truthy(a.readonly) }
  predicate IsAdminOnly(a: Attrs) { Truthy(a.adminOnly) }
  predicate IsMultiple(a: Attrs) { Truthy(a.multiple) }
  predicate IsBranchNodesDisabled(a: Attrs) { Truthy(a.disableBranchNodes) }

  /** getOptions without the `apply_filters` hook. */
  function GetOptions(a: Attrs): Value { a.options }

  /** A fresh field reads as deletable, writable, visible to all and single-valued, with no options. */
  lemma FreshFieldFlags(kind: Kind)
    ensures CanDelete(Defaults(kind)) && !IsReadOnly(Defaults(kind))
    ensures !IsAdminOnly(Defaults(kind)) && !IsMultiple(Defaults(kind))
    ensures GetOptions(Defaults(kind)) == Arr([]) && !IsRequired(Defaults(kind))
  {
  }
}
