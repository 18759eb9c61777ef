/**
 * A field entity as the PHP object it is: one mutable field per declared
 * property plus the dynamic properties, changed in place by the
 * constructor, parseSettings, setTitle and setPriority. Each method is
 * proved to leave the object in the state the functions of
 * `SettingsParser` and `FieldAttrs` describe.
 */
module EntityField {
  import opened Php
  import opened WordPress
  import opened FieldAttrs
  import opened SettingsParser
  import opened FieldStore

  class Field {
    /** Which concrete class (Listing, Profile or Registration) the object is. */
    const kind: Kind
    var id: Value
    var postId: Value
    var objectMetaKey: Value
    var settingPrefix: Value
    var postType: Value
    var priority: Value
    var canDelete: Value
    var fieldType: Value
    var typeNicename: Value
    var title: Value
    var settings: Value
    var fieldLabel: Value
    var description: Value
    var placeholder: Value
    var readonly: Value
    var adminOnly: Value
    var options: Value
    var allowedMimeTypes: Value
    var multiple: Value
    var maxSize: Value
    var value: Value
    var taxonomy: Value
    var disableBranchNodes: Value
    var profileFieldId: Value
    /** Properties created by assignment, such as `required`. */
    var extra: map<string, Value>

    /** The object's properties as one record. */
    function State(): Attrs
      reads this
    {
      Attrs(
        id,
        postId,
        objectMetaKey,
        settingPrefix,
        postType,
        priority,
        canDelete,
        fieldType,
        typeNicename,
        title,
        settings,
        fieldLabel,
        description,
        placeholder,
        readonly,
        adminOnly,
        options,
        allowedMimeTypes,
        multiple,
        maxSize,
        value,
        taxonomy,
        disableBranchNodes,
        profileFieldId,
        extra
      )
    }

    /**
     * The constructor: start from the declared defaults, copy the
     * arguments onto the properties, parse the settings now stored, and
     * only then, when the post id is not empty, set the title.
     */
    constructor (kind: Kind, args: seq<(string, Value)>, env: Env)
      ensures this.kind == kind
      ensures State() == Construct(kind, args, env)
    {
      this.kind := kind;
      var d := Defaults(kind);
      id := d.id;
      postId := d.postId;
      objectMetaKey := d.objectMetaKey;
      settingPrefix := d.settingPrefix;
      postType := d.postType;
      priority := d.priority;
      canDelete := d.canDelete;
      fieldType := d.fieldType;
      typeNicename := d.typeNicename;
      title := d.title;
      settings := d.settings;
      fieldLabel := d.fieldLabel;
      description := d.description;
      placeholder := d.placeholder;
      readonly := d.readonly;
      adminOnly := d.adminOnly;
      options := d.options;
      allowedMimeTypes := d.allowedMimeTypes;
      multiple := d.multiple;
      maxSize := d.maxSize;
      value := d.value;
      taxonomy := d.taxonomy;
      disableBranchNodes := d.disableBranchNodes;
      profileFieldId := d.profileFieldId;
      extra := d.extra;
      new;
      var i := 0;
      while i < |args|
        invariant 0 <= i <= |args|
        invariant State() == AssignAll(Defaults(kind), args[..i])
      {
        SetProperty(args[i].0, args[i].1);
        assert args[..i + 1][..i] == args[..i];
        i := i + 1;
      }
      assert args[..|args|] == args;
      ParseSettings(settings, env);
      if Truthy(postId) {
        SetTitle(postId, env);
      }
    }

    /** Overwrite one declared property in place. */
    method SetSlotInPlace(slot: Slot, v: Value)
      requires slot != ExtraSlot
      modifies this
      ensures State() == SetSlot(old(State()), slot, v)
    {
      if slot.IdSlot? || slot.PostIdSlot? || slot.ObjectMetaKeySlot? || slot.SettingPrefixSlot? {
        SetIdentitySlot(slot, v);
      } else if slot.PostTypeSlot? || slot.PrioritySlot? || slot.CanDeleteSlot? || slot.TypeSlot? {
        SetStorageSlot(slot, v);
      } else if slot.TypeNicenameSlot? || slot.TitleSlot? || slot.SettingsSlot? || slot.LabelSlot? {
        SetHeadingSlot(slot, v);
      } else if slot.DescriptionSlot? || slot.PlaceholderSlot? || slot.ReadonlySlot? || slot.AdminOnlySlot? {
        SetDisplaySlot(slot, v);
      } else if slot.OptionsSlot? || slot.AllowedMimeTypesSlot? || slot.MultipleSlot? || slot.MaxSizeSlot? {
        SetChoiceSlot(slot, v);
      } else {
        SetContentSlot(slot, v);
      }
    }

    /** Overwrite one of the identity properties. */
    method SetIdentitySlot(slot: Slot, v: Value)
      requires slot.IdSlot? || slot.PostIdSlot? || slot.ObjectMetaKeySlot? || slot.SettingPrefixSlot?
      modifies this
      ensures State() == SetSlot(old(State()), slot, v)
    {
      IdentitySlotsAreUpdates(old(State()), v);
      match slot
      case IdSlot =>
        id := v;
        assert State() == old(State()).(id := v);
      case PostIdSlot =>
        postId := v;
        assert State() == old(State()).(postId := v);
      case ObjectMetaKeySlot =>
        objectMetaKey := v;
        assert State() == old(State()).(objectMetaKey := v);
      case SettingPrefixSlot =>
        settingPrefix := v;
        assert State() == old(State()).(settingPrefix := v);
    }

    /** Overwrite one of the storage and deletion properties. */
    method SetStorageSlot(slot: Slot, v: Value)
      requires slot.PostTypeSlot? || slot.PrioritySlot? || slot.CanDeleteSlot? || slot.TypeSlot?
      modifies this
      ensures State() == SetSlot(old(State()), slot, v)
    {
      StorageSlotsAreUpdates(old(State()), v);
      match slot
      case PostTypeSlot =>
        postType := v;
        assert State() == old(State()).(postType := v);
      case PrioritySlot =>
        priority := v;
        assert State() == old(State()).(priority := v);
      case CanDeleteSlot =>
        canDelete := v;
        assert State() == old(State()).(canDelete := v);
      case TypeSlot =>
        fieldType := v;
        assert State() == old(State()).(fieldType := v);
    }

    /** Overwrite one of the type label, title, settings and label. */
    method SetHeadingSlot(slot: Slot, v: Value)
      requires slot.TypeNicenameSlot? || slot.TitleSlot? || slot.SettingsSlot? || slot.LabelSlot?
      modifies this
      ensures State() == SetSlot(old(State()), slot, v)
    {
      HeadingSlotsAreUpdates(old(State()), v);
      match slot
      case TypeNicenameSlot =>
        typeNicename := v;
        assert State() == old(State()).(typeNicename := v);
      case TitleSlot =>
        title := v;
        assert State() == old(State()).(title := v);
      case SettingsSlot =>
        settings := v;
        assert State() == old(State()).(settings := v);
      case LabelSlot =>
        fieldLabel := v;
        assert State() == old(State()).(fieldLabel := v);
    }

    /** Overwrite one of the display and access properties. */
    method SetDisplaySlot(slot: Slot, v: Value)
      requires slot.DescriptionSlot? || slot.PlaceholderSlot? || slot.ReadonlySlot? || slot.AdminOnlySlot?
      modifies this
      ensures State() == SetSlot(old(State()), slot, v)
    {
      DisplaySlotsAreUpdates(old(State()), v);
      match slot
      case DescriptionSlot =>
        description := v;
        assert State() == old(State()).(description := v);
      case PlaceholderSlot =>
        placeholder := v;
        assert State() == old(State()).(placeholder := v);
      case ReadonlySlot =>
        readonly := v;
        assert State() == old(State()).(readonly := v);
      case AdminOnlySlot =>
        adminOnly := v;
        assert State() == old(State()).(adminOnly := v);
    }

    /** Overwrite one of the option and file properties. */
    method SetChoiceSlot(slot: Slot, v: Value)
      requires slot.OptionsSlot? || slot.AllowedMimeTypesSlot? || slot.MultipleSlot? || slot.MaxSizeSlot?
      modifies this
      ensures State() == SetSlot(old(State()), slot, v)
    {
      ChoiceSlotsAreUpdates(old(State()), v);
      match slot
      case OptionsSlot =>
        options := v;
        assert State() == old(State()).(options := v);
      case AllowedMimeTypesSlot =>
        allowedMimeTypes := v;
        assert State() == old(State()).(allowedMimeTypes := v);
      case MultipleSlot =>
        multiple := v;
        assert State() == old(State()).(multiple := v);
      case MaxSizeSlot =>
        maxSize := v;
        assert State() == old(State()).(maxSize := v);
    }

    /** Overwrite one of the value, taxonomy and profile link. */
    method SetContentSlot(slot: Slot, v: Value)
      requires slot.ValueSlot? || slot.TaxonomySlot? || slot.DisableBranchNodesSlot? || slot.ProfileFieldIdSlot?
      modifies this
      ensures State() == SetSlot(old(State()), slot, v)
    {
      ContentSlotsAreUpdates(old(State()), v);
      match slot
      case ValueSlot =>
        value := v;
        assert State() == old(State()).(value := v);
      case TaxonomySlot =>
        taxonomy := v;
        assert State() == old(State()).(taxonomy := v);
      case DisableBranchNodesSlot =>
        disableBranchNodes := v;
        assert State() == old(State()).(disableBranchNodes := v);
      case ProfileFieldIdSlot =>
        profileFieldId := v;
        assert State() == old(State()).(profileFieldId := v);
    }

    /** `$this->{$name} = $v`. */
    method SetProperty(name: string, v: Value)
      modifies this
      ensures State() == Assign(old(State()), name, v)
    {
      var slot := SlotOf(name);
      if slot == ExtraSlot {
        extra := extra[name := v];
      } else {
        SetSlotInPlace(slot, v);
      }
    }

    /** One row of the `switch`, carried out on the object. */
    method RunAction(act: Action, v: Value, env: Env)
      modifies this
      ensures State() == Perform(old(State()), act, v, env)
    {
      match act
      case Copy(target) =>
        SetProperty(target, v);
      case ParseOptions =>
        ParseOptionsUpdate(State(), v, env);
        options := env.parseOptions(v);
      case TaxonomyAndOptions =>
        TaxonomyAndOptionsUpdate(State(), v, env);
        taxonomy := v;
        options := env.parseOptions(taxonomy);
      case MimeTypes =>
        MimeTypesUpdate(State(), v, env);
        allowedMimeTypes := Unserialize(env, v);
      case MultipleIfType(t) =>
        MultipleIfTypeUpdate(State(), t, v, env);
        multiple := Bool(fieldType == Str(t));
    }

    /**
     * parseSettings: when the unserialized input is an array, store it and
     * walk its entries in order, stripping the kind's prefix and
     * dispatching; then run the kind's derivations.
     */
    method ParseSettings(input: Value, env: Env)
      modifies this
      ensures State() == Parse(kind, old(State()), input, env)
    {
      var s := Unserialize(env, input);
      if s.Arr? {
        settings := s;
        var i := 0;
        while i < |s.entries|
          invariant 0 <= i <= |s.entries|
          invariant State() == Loop(kind, old(State()).(settings := s), s.entries[..i], env)
        {
          var name := RemoveSettingPrefix(KeyPrefix(kind), s.entries[i].0);
          RunAction(Dispatch(kind, name), s.entries[i].1, env);
          assert s.entries[..i + 1][..i] == s.entries[..i];
          i := i + 1;
        }
        assert s.entries[..i] == s.entries;
      }
      match kind
      case Listing => DeriveListing(env);
      case Profile => DeriveProfile(env);
      case Registration => DeriveRegistration(env);
    }

    /** The listing derivations after the pass. */
    method DeriveListing(env: Env)
      modifies this
      ensures State() == ListingPost(old(State()), env)
    {
      ResolveTypeNicename(env);
      LabelFromTitle();
      ForceMultiple(env);
      ResolveCanDelete(env);
    }

    /** The profile derivations after the pass. */
    method DeriveProfile(env: Env)
      modifies this
      ensures State() == ProfilePost(old(State()), env)
    {
      ResolveTypeNicename(env);
      ForceMultiple(env);
      ResolveCanDelete(env);
    }

    /** The registration derivations after the pass. */
    method DeriveRegistration(env: Env)
      modifies this
      ensures State() == RegistrationPost(old(State()), env)
    {
      ResolveCanDelete(env);
      if !Truthy(canDelete) {
        BuiltInFieldType(env);
      }
    }

    /** The type label registered for the current type, or `false`. */
    method ResolveTypeNicename(env: Env)
      modifies this
      ensures State() == old(State()).(typeNicename := TypeNicename(env, old(fieldType)))
    {
      typeNicename := TypeNicename(env, fieldType);
    }

    /** An empty label is replaced by the title. */
    method LabelFromTitle()
      modifies this
      ensures !Truthy(old(fieldLabel)) ==> State() == old(State()).(fieldLabel := old(title))
      ensures Truthy(old(fieldLabel)) ==> State() == old(State())
    {
      if !Truthy(fieldLabel) {
        fieldLabel := title;
      }
    }

    /** A multi-option type makes the field multiple. */
    method ForceMultiple(env: Env)
      modifies this
      ensures env.isMultiOption(old(fieldType)) ==> State() == old(State()).(multiple := Bool(true))
      ensures !env.isMultiOption(old(fieldType)) ==> State() == old(State())
    {
      if env.isMultiOption(fieldType) {
        multiple := Bool(true);
      }
    }

    /** A field can be deleted exactly when its meta key is not a default one. */
    method ResolveCanDelete(env: Env)
      modifies this
      ensures State() == old(State()).(canDelete := Bool(!env.isDefaultField(old(objectMetaKey))))
    {
      canDelete := Bool(!env.isDefaultField(objectMetaKey));
    }

    /**
     * A built-in registration field: the type follows the meta key (loosely
     * compared with "password", then "email", else "text"), its label is
     * resolved again, and the email field is made required.
     */
    method BuiltInFieldType(env: Env)
      modifies this
      ensures var t := Str(BuiltInType(old(objectMetaKey)));
              var typed := old(State()).(fieldType := t, typeNicename := TypeNicename(env, t));
              State() == if old(objectMetaKey) == Str("email") then Assign(typed, "required", Bool(true)) else typed
    {
      var t := "text";
      if LooseEqualsLiteral(objectMetaKey, "password") {
        t := "password";
      } else if LooseEqualsLiteral(objectMetaKey, "email") {
        t := "email";
      }
      fieldType := Str(t);
      typeNicename := TypeNicename(env, fieldType);
      if objectMetaKey == Str("email") {
        SetProperty("required", Bool(true));
      }
    }

    /** setTitle: the title becomes the post's title; nothing else changes. */
    method SetTitle(postId: Value, env: Env)
      modifies this
      ensures State() == old(State()).(title := env.titleOf(postId))
    {
      title := env.titleOf(postId);
    }

    /**
     * setPriority: store `absint(priority)` under this post and the key
     * prefix + "priority"; no other entry and no other store changes.
     */
    method SetPriority(db: Database, priority: Value, env: Env)
      modifies db`postMeta
      ensures db.postMeta == old(db.postMeta)[(postId, StrOf(settingPrefix) + "priority") := Int(AbsInt(env.intOfString, priority))]
      ensures db.postMeta[(postId, StrOf(settingPrefix) + "priority")].i >= 0
    {
      db.postMeta := db.postMeta[(postId, StrOf(settingPrefix) + "priority") := Int(AbsInt(env.intOfString, priority))];
    }
  }
}
