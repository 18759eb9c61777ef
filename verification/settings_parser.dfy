/**
 * What parseSettings does, as functions on the attribute record: the key
 * normalisation (removeSettingPrefix), the per-kind dispatch table applied to
 * one (key, value) pair, the pass over all pairs in order, the derivations
 * each kind runs after the pass, and the constructor's ordering. The
 * imperative `EntityField.Field` class is proved to follow these functions.
 */
module SettingsParser {
  import opened Php
  import opened WordPress
  import opened FieldAttrs

  /**
   * removeSettingPrefix: `str_replace($prefix, '', $id)`, which removes every
   * non-overlapping occurrence of the prefix, not only a leading one.
   */
  function RemoveSettingPrefix(prefix: string, key: string): string
  {
    StrReplace(prefix, "", key)
  }

  /**
   * removeSettingPrefix never lengthens a key, leaves a key without the
   * prefix alone, and turns prefix + name into name when the name does not
   * contain the prefix again.
   */
  lemma RemoveSettingPrefixSpec(prefix: string, key: string)
    ensures |RemoveSettingPrefix(prefix, key)| <= |key|
    ensures !Contains(key, prefix) ==> RemoveSettingPrefix(prefix, key) == key
    ensures forall rest :: |prefix| > 0 && key == prefix + rest && !Contains(rest, prefix) ==>
              RemoveSettingPrefix(prefix, key) == rest
  {
    StrRemoveShortens(prefix, key);
    if !Contains(key, prefix) {
      StrReplaceAbsent(prefix, "", key);
    }
    forall rest | |prefix| > 0 && key == prefix + rest && !Contains(rest, prefix)
      ensures StrReplace(prefix, "", key) == rest
    {
      StrRemoveLeadingPrefix(prefix, rest);
    }
  }

  /**
   * removeSettingPrefix is not a leading strip: an occurrence of the prefix
   * further into the key is removed as well, as long as nothing before it
   * can start the prefix.
   */
  lemma RemoveSettingPrefixInterior(prefix: string, x: string, y: string)
    requires |prefix| > 0 && forall i :: 0 <= i < |x| ==> x[i] != prefix[0]
    ensures RemoveSettingPrefix(prefix, x + prefix + y) == x + RemoveSettingPrefix(prefix, y)
  {
    StrReplaceInterior(prefix, "", x, y);
    assert x + "" == x;
  }

  /** For example, "ab" is cut out of the middle of "xaby". */
  lemma RemoveSettingPrefixMidKey()
    ensures RemoveSettingPrefix("ab", "xaby") == "xy"
  {
    RemoveSettingPrefixInterior("ab", "x", "y");
    assert "x" + "ab" + "y" == "xaby";
    RemoveSettingPrefixSpec("ab", "y");
    assert !Contains("y", "ab") by {
      forall k | 0 <= k <= 1 ensures !OccursAt("y", "ab", k) { }
    }
  }

  /** The literal each kind strips from its settings keys, e.g. `_listing_field_`. */
  function KeyPrefix(kind: Kind): string
  {
    "_" + SettingPrefix(kind)
  }

  /** The bare setting name a stored key dispatches on. */
  function SettingName(kind: Kind, key: string): string
  {
    RemoveSettingPrefix(KeyPrefix(kind), key)
  }

  /**
   * A stored key with the kind's prefix in its middle dispatches on the key
   * with that prefix cut out, when no underscore comes before it and the
   * rest does not contain it again.
   */
  lemma SettingNameCutsInnerPrefix(kind: Kind, a: string, b: string)
    requires forall i :: 0 <= i < |a| ==> a[i] != '_'
    requires !Contains(b, KeyPrefix(kind))
    ensures SettingName(kind, a + KeyPrefix(kind) + b) == a + b
  {
    var p := KeyPrefix(kind);
    assert p[0] == '_';
    RemoveSettingPrefixInterior(p, a, b);
    RemoveSettingPrefixSpec(p, b);
  }

  /** What one row of the `switch` in parseSettings does with the value. */
  datatype Action =
    | Copy(target: string)           // store the value as is in property `target`
    | ParseOptions                   // options := pno_parse_selectable_options(value)
    | TaxonomyAndOptions             // taxonomy := value; options := pno_parse_selectable_options(value)
    | MimeTypes                      // allowed_mime_types := maybe_unserialize(value)
    | MultipleIfType(fieldType: string)  // multiple := (the current type === fieldType)

  /**
   * The dispatch table of each kind, keyed by the bare setting name; a name
   * without a row falls to the default branch, which copies the value into
   * the property of that name.
   */
  function Dispatch(kind: Kind, name: string): Action
  {
    if name == "is_required" then Copy("required")
    else if kind == Registration then
      if name == "is_default" then Copy("object_meta_key") else Copy(name)
    else if name == "meta_key" then Copy("object_meta_key")
    else if name == "is_read_only" then Copy("readonly")
    else if name == "is_admin_only" then Copy("admin_only")
    else if name == "selectable_options" then ParseOptions
    else if name == "file_max_size" then Copy("maxsize")
    else if name == "taxonomy" && kind == Listing then TaxonomyAndOptions
    else if name == "file_extensions" then MimeTypes
    else if name == "file_is_multiple" then MultipleIfType("file")
    else if name == "chain_is_multiple" && kind == Listing then MultipleIfType("term-chain-dropdown")
    else Copy(name)
  }

  /** Every property an action may change. */
  function Writes(act: Action): set<string>
  {
    match act
    case Copy(target) => {target}
    case ParseOptions => {"options"}
    case TaxonomyAndOptions => {"taxonomy", "options"}
    case MimeTypes => {"allowed_mime_types"}
    case MultipleIfType(_) => {"multiple"}
  }

  /**
   * Carry out one action. The `MultipleIfType` rows read the type the field
   * has at this point of the pass.
   */
  function Perform(a: Attrs, act: Action, v: Value, env: Env): Attrs
  {
    match act
    case Copy(target) => Assign(a, target, v)
    case ParseOptions => Assign(a, "options", env.parseOptions(v))
    case TaxonomyAndOptions => Assign(Assign(a, "taxonomy", v), "options", env.parseOptions(v))
    case MimeTypes => Assign(a, "allowed_mime_types", Unserialize(env, v))
    case MultipleIfType(t) => Assign(a, "multiple", Bool(a.fieldType == Str(t)))
  }

  /**
   * One action changes only the properties it writes: a copy puts the value
   * in its target; the option rows store the parsed options (the taxonomy
   * row also the taxonomy); the extension row stores the unserialized mime
   * types; the multiple rows compare the type the field has at this point
   * strictly with their type.
   */
  lemma PerformSpec(a: Attrs, act: Action, v: Value, env: Env)
    ensures var r := Perform(a, act, v, env);
            && (forall n :: n !in Writes(act) ==> Prop(r, n) == Prop(a, n))
            && (act.Copy? ==> Prop(r, act.target) == v)
            && (act.ParseOptions? || act.TaxonomyAndOptions? ==> Prop(r, "options") == env.parseOptions(v))
            && (act.TaxonomyAndOptions? ==> Prop(r, "taxonomy") == v)
            && (act.MimeTypes? ==> Prop(r, "allowed_mime_types") == Unserialize(env, v))
            && (act.MultipleIfType? ==> Prop(r, "multiple") == Bool(a.fieldType == Str(act.fieldType)))
  {
    match act
    case Copy(target) =>
      AssignSpec(a, target, v);
    case ParseOptions =>
      AssignSpec(a, "options", env.parseOptions(v));
    case TaxonomyAndOptions =>
      AssignSpec(a, "taxonomy", v);
      AssignSpec(Assign(a, "taxonomy", v), "options", env.parseOptions(v));
    case MimeTypes =>
      AssignSpec(a, "allowed_mime_types", Unserialize(env, v));
    case MultipleIfType(t) =>
      AssignSpec(a, "multiple", Bool(a.fieldType == Str(t)));
  }

  // The rows that do more than copy the value, each as an update of the declared properties it writes.

  lemma ParseOptionsUpdate(a: Attrs, v: Value, env: Env)
    ensures Perform(a, ParseOptions, v, env) == a.(options := env.parseOptions(v))
  {
    AssignSlot(a, OptionsSlot, env.parseOptions(v));
  }

  lemma TaxonomyAndOptionsUpdate(a: Attrs, v: Value, env: Env)
    ensures Perform(a, TaxonomyAndOptions, v, env) == a.(taxonomy := v, options := env.parseOptions(v))
  {
    AssignSlot(a, TaxonomySlot, v);
    AssignSlot(a.(taxonomy := v), OptionsSlot, env.parseOptions(v));
  }

  lemma MimeTypesUpdate(a: Attrs, v: Value, env: Env)
    ensures Perform(a, MimeTypes, v, env) == a.(allowedMimeTypes := Unserialize(env, v))
  {
    AssignSlot(a, AllowedMimeTypesSlot, Unserialize(env, v));
  }

  lemma MultipleIfTypeUpdate(a: Attrs, t: string, v: Value, env: Env)
    ensures Perform(a, MultipleIfType(t), v, env) == a.(multiple := Bool(a.fieldType == Str(t)))
  {
    AssignSlot(a, MultipleSlot, Bool(a.fieldType == Str(t)));
  }

  /** One step of the `switch` in parseSettings, for a bare setting name. */
  function ApplySetting(kind: Kind, a: Attrs, name: string, v: Value, env: Env): Attrs
  {
    Perform(a, Dispatch(kind, name), v, env)
  }

  /** The action a stored settings key leads to. */
  function KeyAction(kind: Kind, key: string): Action
  {
    Dispatch(kind, SettingName(kind, key))
  }

  /** One iteration of the `foreach`: strip the kind's prefix, then dispatch. */
  function Step(kind: Kind, a: Attrs, entry: (string, Value), env: Env): Attrs
  {
    ApplySetting(kind, a, SettingName(kind, entry.0), entry.1, env)
  }

  /** The whole `foreach` over the settings entries, in their order. */
  function Loop(kind: Kind, a: Attrs, es: seq<(string, Value)>, env: Env): Attrs
    decreases |es|
  {
    if |es| == 0 then a
    else Step(kind, Loop(kind, a, es[..|es| - 1], env), es[|es| - 1], env)
  }

  /** Listing: type label, label defaulting to the title, multi-option forcing, and can_delete last. */
  function ListingPost(a: Attrs, env: Env): Attrs
  {
    var named := a.(typeNicename := TypeNicename(env, a.fieldType));
    var labelled := if !Truthy(named.fieldLabel) then named.(fieldLabel := named.title) else named;
    var forced := if env.isMultiOption(labelled.fieldType) then labelled.(multiple := Bool(true)) else labelled;
    forced.(canDelete := Bool(!env.isDefaultField(forced.objectMetaKey)))
  }

  /** Profile: type label, multi-option forcing, and can_delete last; the label is left alone. */
  function ProfilePost(a: Attrs, env: Env): Attrs
  {
    var named := a.(typeNicename := TypeNicename(env, a.fieldType));
    var forced := if env.isMultiOption(named.fieldType) then named.(multiple := Bool(true)) else named;
    forced.(canDelete := Bool(!env.isDefaultField(forced.objectMetaKey)))
  }

  /**
   * The type a built-in registration field gets from its meta key: the
   * `switch` compares loosely, in the order password, email.
   */
  function BuiltInType(metaKey: Value): string
  {
    if LooseEqualsLiteral(metaKey, "password") then "password"
    else if LooseEqualsLiteral(metaKey, "email") then "email"
    else "text"
  }

  /**
   * Registration: can_delete right after the pass; a built-in (not
   * deletable) field then gets its type from the meta key, the type label is
   * resolved again, and the email field is made required.
   */
  function RegistrationPost(a: Attrs, env: Env): Attrs
  {
    var checked := a.(canDelete := Bool(!env.isDefaultField(a.objectMetaKey)));
    if Truthy(checked.canDelete) then checked
    else
      var t := Str(BuiltInType(checked.objectMetaKey));
      var typed := checked.(fieldType := t, typeNicename := TypeNicename(env, t));
      if typed.objectMetaKey == Str("email") then Assign(typed, "required", Bool(true)) else typed
  }

  /** The derivations that follow the pass, per kind. */
  function Derive(kind: Kind, a: Attrs, env: Env): Attrs
  {
    match kind
    case Listing => ListingPost(a, env)
    case Profile => ProfilePost(a, env)
    case Registration => RegistrationPost(a, env)
  }

  /**
   * The attributes after the pass and before the derivations: when the
   * unserialized input is an array it is stored as the settings and walked;
   * otherwise nothing changes.
   */
  function AfterLoop(kind: Kind, a: Attrs, input: Value, env: Env): Attrs
  {
    var s := Unserialize(env, input);
    if s.Arr? then Loop(kind, a.(settings := s), s.entries, env) else a
  }

  /** parseSettings. */
  function Parse(kind: Kind, a: Attrs, input: Value, env: Env): Attrs
  {
    Derive(kind, AfterLoop(kind, a, input, env), env)
  }

  /**
   * The constructor: copy the arguments, parse the settings that are now
   * stored, and only then, when the post id is not empty, resolve the title.
   */
  function Construct(kind: Kind, args: seq<(string, Value)>, env: Env): Attrs
  {
    var copied := AssignAll(Defaults(kind), args);
    var parsed := Parse(kind, copied, copied.settings, env);
    if Truthy(parsed.postId) then parsed.(title := env.titleOf(parsed.postId)) else parsed
  }

  // ---------------------------------------------------------------------------
  // The pass over the settings

  /**
   * A stored key made of the kind's prefix and a name dispatches on that
   * name, when no underscore in the name could start another copy of the
   * prefix.
   */
  lemma SettingNameOfPrefixedKey(kind: Kind, name: string)
    requires forall k :: 0 <= k && k + |KeyPrefix(kind)| <= |name| ==> name[k] != '_'
    ensures SettingName(kind, KeyPrefix(kind) + name) == name
  {
    var p := KeyPrefix(kind);
    assert !Contains(name, p) by {
      forall k | 0 <= k <= |name| ensures !OccursAt(name, p, k) {
        if k + |p| <= |name| {
          assert name[k..k + |p|][0] == name[k] != '_';
        }
      }
    }
    RemoveSettingPrefixSpec(p, p + name);
  }

  /** A property no setting of the pass may write keeps its value through the pass. */
  lemma {:induction false} LoopFrame(kind: Kind, a: Attrs, es: seq<(string, Value)>, env: Env, n: string)
    requires forall k :: 0 <= k < |es| ==> n !in Writes(KeyAction(kind, es[k].0))
    ensures Prop(Loop(kind, a, es, env), n) == Prop(a, n)
    decreases |es|
  {
    if |es| > 0 {
      LoopFrame(kind, a, es[..|es| - 1], env, n);
      PerformSpec(Loop(kind, a, es[..|es| - 1], env), KeyAction(kind, es[|es| - 1].0), es[|es| - 1].1, env);
    }
  }

  /**
   * Last write wins: a property holds the value of the last setting that
   * copies into it, when no later setting may write it.
   */
  lemma {:induction false} LoopLastWins(kind: Kind, a: Attrs, es: seq<(string, Value)>, env: Env, k: nat)
    requires k < |es| && KeyAction(kind, es[k].0).Copy?
    requires forall j :: k < j < |es| ==> KeyAction(kind, es[k].0).target !in Writes(KeyAction(kind, es[j].0))
    ensures Prop(Loop(kind, a, es, env), KeyAction(kind, es[k].0).target) == es[k].1
    decreases |es|
  {
    PerformSpec(Loop(kind, a, es[..|es| - 1], env), KeyAction(kind, es[|es| - 1].0), es[|es| - 1].1, env);
    if k < |es| - 1 {
      LoopLastWins(kind, a, es[..|es| - 1], env, k);
    }
  }

  /** A pass over two settings is two steps, in order. */
  lemma LoopTwo(kind: Kind, a: Attrs, e0: (string, Value), e1: (string, Value), env: Env)
    ensures Loop(kind, a, [e0, e1], env) == Step(kind, Step(kind, a, e0, env), e1, env)
  {
    var es := [e0, e1];
    assert es[..|es| - 1] == [e0] && [e0][..0] == [];
    assert Loop(kind, a, [e0], env) == Step(kind, Loop(kind, a, [], env), e0, env);
    assert Loop(kind, a, es, env) == Step(kind, Loop(kind, a, [e0], env), e1, env);
  }

  /** A pass over one setting is one step. */
  lemma LoopOne(kind: Kind, a: Attrs, e: (string, Value), env: Env)
    ensures Loop(kind, a, [e], env) == Step(kind, a, e, env)
  {
    assert [e][..0] == [];
  }

  /** A registration `is_default` setting sets the meta key and nothing else. */
  lemma StepIsDefault(a: Attrs, v: Value, env: Env)
    ensures Step(Registration, a, (KeyPrefix(Registration) + "is_default", v), env) == a.(objectMetaKey := v)
  {
    SettingNameOfPrefixedKey(Registration, "is_default");
    assert KeyAction(Registration, KeyPrefix(Registration) + "is_default") == Copy("object_meta_key");
    AssignSlot(a, ObjectMetaKeySlot, v);
  }

  /** After a parse, a field whose type is not multi-option keeps the `multiple` the pass left. */
  lemma ParseKeepsMultiple(kind: Kind, a: Attrs, es: seq<(string, Value)>, env: Env)
    requires kind != Registration
    requires !env.isMultiOption(Loop(kind, a.(settings := Arr(es)), es, env).fieldType)
    ensures Parse(kind, a, Arr(es), env).multiple == Loop(kind, a.(settings := Arr(es)), es, env).multiple
  {
  }

  /** A `type` setting sets the type and leaves `multiple` alone. */
  lemma StepType(kind: Kind, a: Attrs, v: Value, env: Env)
    ensures Step(kind, a, (KeyPrefix(kind) + "type", v), env).fieldType == v
    ensures Step(kind, a, (KeyPrefix(kind) + "type", v), env).multiple == a.multiple
  {
    SettingNameOfPrefixedKey(kind, "type");
    assert KeyAction(kind, KeyPrefix(kind) + "type") == Copy("type");
    AssignSlot(a, TypeSlot, v);
  }

  /** A `file_is_multiple` setting makes the field multiple exactly when its current type is `file`. */
  lemma StepFileIsMultiple(kind: Kind, a: Attrs, v: Value, env: Env)
    requires kind != Registration
    ensures Step(kind, a, (KeyPrefix(kind) + "file_is_multiple", v), env).multiple == Bool(a.fieldType == Str("file"))
    ensures Step(kind, a, (KeyPrefix(kind) + "file_is_multiple", v), env).fieldType == a.fieldType
  {
    SettingNameOfPrefixedKey(kind, "file_is_multiple");
    assert KeyAction(kind, KeyPrefix(kind) + "file_is_multiple") == MultipleIfType("file");
    MultipleIfTypeUpdate(a, "file", v, env);
  }

  /**
   * Iteration order matters: `file_is_multiple` reads the type as it stands
   * when the flag is met. Met after the type, it makes the field multiple;
   * met before it, the same two settings leave the field single-valued.
   */
  lemma FileIsMultipleReadsCurrentType(kind: Kind, env: Env)
    requires kind != Registration && !env.isMultiOption(Str("file"))
    ensures Parse(kind, Defaults(kind), Arr([(KeyPrefix(kind) + "type", Str("file")),
                                             (KeyPrefix(kind) + "file_is_multiple", Str("yes"))]), env).multiple
            == Bool(true)
    ensures Parse(kind, Defaults(kind), Arr([(KeyPrefix(kind) + "file_is_multiple", Str("yes")),
                                             (KeyPrefix(kind) + "type", Str("file"))]), env).multiple
            == Bool(false)
  {
    var typeEntry, flagEntry := (KeyPrefix(kind) + "type", Str("file")), (KeyPrefix(kind) + "file_is_multiple", Str("yes"));
    var a := Defaults(kind).(settings := Arr([typeEntry, flagEntry]));
    StepType(kind, a, Str("file"), env);
    StepFileIsMultiple(kind, Step(kind, a, typeEntry, env), Str("yes"), env);
    LoopTwo(kind, a, typeEntry, flagEntry, env);
    ParseKeepsMultiple(kind, Defaults(kind), [typeEntry, flagEntry], env);
    var b := Defaults(kind).(settings := Arr([flagEntry, typeEntry]));
    StepFileIsMultiple(kind, b, Str("yes"), env);
    StepType(kind, Step(kind, b, flagEntry, env), Str("file"), env);
    LoopTwo(kind, b, flagEntry, typeEntry, env);
    ParseKeepsMultiple(kind, Defaults(kind), [flagEntry, typeEntry], env);
  }

  /** A listing's `chain_is_multiple` setting makes the field multiple exactly when its current type is `term-chain-dropdown`. */
  lemma StepChainIsMultiple(a: Attrs, v: Value, env: Env)
    ensures Step(Listing, a, (KeyPrefix(Listing) + "chain_is_multiple", v), env).multiple
            == Bool(a.fieldType == Str("term-chain-dropdown"))
    ensures Step(Listing, a, (KeyPrefix(Listing) + "chain_is_multiple", v), env).fieldType == a.fieldType
  {
    SettingNameOfPrefixedKey(Listing, "chain_is_multiple");
    assert KeyAction(Listing, KeyPrefix(Listing) + "chain_is_multiple") == MultipleIfType("term-chain-dropdown");
    MultipleIfTypeUpdate(a, "term-chain-dropdown", v, env);
  }

  /** The same order dependence for a listing's `chain_is_multiple` and the term-chain-dropdown type. */
  lemma ChainIsMultipleReadsCurrentType(env: Env)
    requires !env.isMultiOption(Str("term-chain-dropdown"))
    ensures Parse(Listing, Defaults(Listing), Arr([(KeyPrefix(Listing) + "type", Str("term-chain-dropdown")),
                                                   (KeyPrefix(Listing) + "chain_is_multiple", Bool(true))]), env).multiple
            == Bool(true)
    ensures Parse(Listing, Defaults(Listing), Arr([(KeyPrefix(Listing) + "chain_is_multiple", Bool(true)),
                                                   (KeyPrefix(Listing) + "type", Str("term-chain-dropdown"))]), env).multiple
            == Bool(false)
  {
    var typeEntry := (KeyPrefix(Listing) + "type", Str("term-chain-dropdown"));
    var flagEntry := (KeyPrefix(Listing) + "chain_is_multiple", Bool(true));
    var a := Defaults(Listing).(settings := Arr([typeEntry, flagEntry]));
    StepType(Listing, a, typeEntry.1, env);
    StepChainIsMultiple(Step(Listing, a, typeEntry, env), flagEntry.1, env);
    LoopTwo(Listing, a, typeEntry, flagEntry, env);
    ParseKeepsMultiple(Listing, Defaults(Listing), [typeEntry, flagEntry], env);
    var b := Defaults(Listing).(settings := Arr([flagEntry, typeEntry]));
    StepChainIsMultiple(b, flagEntry.1, env);
    StepType(Listing, Step(Listing, b, flagEntry, env), typeEntry.1, env);
    LoopTwo(Listing, b, flagEntry, typeEntry, env);
    ParseKeepsMultiple(Listing, Defaults(Listing), [flagEntry, typeEntry], env);
  }

  /**
   * A profile field has no `chain_is_multiple` row: the setting becomes a
   * dynamic property of that name and `multiple` is untouched.
   */
  lemma ProfileChainIsMultiplePassesThrough(a: Attrs, v: Value, env: Env)
    ensures Prop(Step(Profile, a, (KeyPrefix(Profile) + "chain_is_multiple", v), env), "chain_is_multiple") == v
    ensures Step(Profile, a, (KeyPrefix(Profile) + "chain_is_multiple", v), env).multiple == a.multiple
  {
    SettingNameOfPrefixedKey(Profile, "chain_is_multiple");
    assert KeyAction(Profile, KeyPrefix(Profile) + "chain_is_multiple") == Copy("chain_is_multiple");
    AssignExtra(a, "chain_is_multiple", v);
  }

  // ---------------------------------------------------------------------------
  // The whole parse

  /** When the unserialized input is not an array, the settings are left as they were and only the derivations run. */
  lemma ParseNonArray(kind: Kind, a: Attrs, input: Value, env: Env)
    requires !Unserialize(env, input).Arr?
    ensures Parse(kind, a, input, env) == Derive(kind, a, env)
    ensures Parse(kind, a, input, env).settings == a.settings
  {
  }

  /**
   * Listing and Profile derivations: the type label is the registered label
   * of the final type (or false), a multi-option type forces `multiple`, and
   * can_delete, computed last, is false exactly for default meta keys,
   * whatever a `can_delete` setting said. Only a listing defaults an empty
   * label to the title.
   */
  lemma ParseDerivations(kind: Kind, a: Attrs, input: Value, env: Env)
    requires kind != Registration
    ensures var b := AfterLoop(kind, a, input, env);
            var r := Parse(kind, a, input, env);
            && r.fieldType == b.fieldType && r.objectMetaKey == b.objectMetaKey && r.title == b.title
            && r.typeNicename == TypeNicename(env, r.fieldType)
            && (env.isMultiOption(r.fieldType) ==> r.multiple == Bool(true))
            && (!env.isMultiOption(r.fieldType) ==> r.multiple == b.multiple)
            && (CanDelete(r) <==> !env.isDefaultField(r.objectMetaKey))
            && r.canDelete == Bool(!env.isDefaultField(r.objectMetaKey))
            && (kind == Listing ==> r.fieldLabel == if Truthy(b.fieldLabel) then b.fieldLabel else b.title)
            && (kind == Profile ==> r.fieldLabel == b.fieldLabel)
            && r.settings == b.settings && r.options == b.options && r.extra == b.extra
            && r == b.(typeNicename := r.typeNicename, fieldLabel := r.fieldLabel,
                       multiple := r.multiple, canDelete := r.canDelete)
  {
  }

  /**
   * The meta key a parsed field ends with: the value of the last setting
   * that copies into `object_meta_key`; so a field is deletable exactly when
   * that value is not a default field, for all three kinds.
   */
  lemma DeletableFollowsLastMetaKey(kind: Kind, a: Attrs, es: seq<(string, Value)>, env: Env, k: nat)
    requires k < |es| && KeyAction(kind, es[k].0) == Copy("object_meta_key")
    requires forall j :: k < j < |es| ==> "object_meta_key" !in Writes(KeyAction(kind, es[j].0))
    ensures Parse(kind, a, Arr(es), env).objectMetaKey == es[k].1
    ensures CanDelete(Parse(kind, a, Arr(es), env)) <==> !env.isDefaultField(es[k].1)
  {
    LoopLastWins(kind, a.(settings := Arr(es)), es, env, k);
    var b := Loop(kind, a.(settings := Arr(es)), es, env);
    AssignSlot(b, ObjectMetaKeySlot, b.objectMetaKey);
    DeriveKeepsMetaKey(kind, b, env);
  }

  /** The derivations keep the meta key and compute can_delete from it. */
  lemma DeriveKeepsMetaKey(kind: Kind, b: Attrs, env: Env)
    ensures Derive(kind, b, env).objectMetaKey == b.objectMetaKey
    ensures Derive(kind, b, env).canDelete == Bool(!env.isDefaultField(b.objectMetaKey))
  {
    if kind == Registration && env.isDefaultField(b.objectMetaKey) && b.objectMetaKey == Str("email") {
      var t := Str(BuiltInType(b.objectMetaKey));
      var checked := b.(canDelete := Bool(false));
      var typed := checked.(fieldType := t, typeNicename := TypeNicename(env, t));
      assert SlotOf("required") == ExtraSlot;
      AssignExtra(typed, "required", Bool(true));
    }
  }

  /** The type a built-in registration field gets: loose comparison lets `true` through as password. */
  lemma BuiltInTypeCases(metaKey: Value)
    ensures BuiltInType(metaKey) == "password" <==> metaKey == Str("password") || metaKey == Bool(true)
    ensures BuiltInType(metaKey) == "email" <==> metaKey == Str("email")
    ensures BuiltInType(metaKey) == "text" <==>
              metaKey != Str("password") && metaKey != Bool(true) && metaKey != Str("email")
  {
    LooseEqualsWord(metaKey, "password");
    LooseEqualsWord(metaKey, "email");
  }

  /**
   * Registration derivations. can_delete is false exactly for default meta
   * keys. A built-in field's type comes from its meta key, its label is
   * resolved again and the email field is required. A deletable field keeps
   * every parsed attribute except can_delete.
   */
  lemma RegistrationDerivations(a: Attrs, input: Value, env: Env)
    ensures var b := AfterLoop(Registration, a, input, env);
            var r := Parse(Registration, a, input, env);
            && r.objectMetaKey == b.objectMetaKey && r.settings == b.settings && r.settingPrefix == b.settingPrefix
            && r.profileFieldId == b.profileFieldId
            && r.canDelete == Bool(!env.isDefaultField(r.objectMetaKey))
            && (!env.isDefaultField(b.objectMetaKey) ==> r == b.(canDelete := Bool(true)))
            && (env.isDefaultField(b.objectMetaKey) ==>
                  && r.fieldType == Str(BuiltInType(b.objectMetaKey))
                  && r.typeNicename == TypeNicename(env, r.fieldType)
                  && r.multiple == b.multiple
                  && Prop(r, "required") == if b.objectMetaKey == Str("email") then Bool(true) else Prop(b, "required"))
  {
    var b := AfterLoop(Registration, a, input, env);
    if env.isDefaultField(b.objectMetaKey) {
      var checked := b.(canDelete := Bool(false));
      var t := Str(BuiltInType(checked.objectMetaKey));
      var typed := checked.(fieldType := t, typeNicename := TypeNicename(env, t));
      assert SlotOf("required") == ExtraSlot;
      AssignExtra(typed, "required", Bool(true));
      assert Prop(typed, "required") == Prop(b, "required");
    }
  }

  /** A built-in registration field keyed `email` is an email field and required, whatever its settings say. */
  lemma BuiltInEmailIsRequired(a: Attrs, input: Value, env: Env)
    requires AfterLoop(Registration, a, input, env).objectMetaKey == Str("email")
    requires env.isDefaultField(Str("email"))
    ensures Parse(Registration, a, input, env).fieldType == Str("email")
    ensures Prop(Parse(Registration, a, input, env), "required") == Bool(true)
    ensures !CanDelete(Parse(Registration, a, input, env))
  {
    RegistrationDerivations(a, input, env);
    BuiltInTypeCases(Str("email"));
  }

  /**
   * isRequired does not see the requirement parsing forces: a built-in email
   * registration field whose settings hold only its `is_default` marker has
   * `required` set to true, yet isRequired() answers false.
   */
  lemma BuiltInEmailIsRequiredMissesForcedFlag(env: Env)
    requires env.isDefaultField(Str("email"))
    ensures var r := Parse(Registration, Defaults(Registration), Arr([(KeyPrefix(Registration) + "is_default", Str("email"))]), env);
            Prop(r, "required") == Bool(true) && !IsRequired(r)
  {
    var entry := (KeyPrefix(Registration) + "is_default", Str("email"));
    var a := Defaults(Registration).(settings := Arr([entry]));
    LoopOne(Registration, a, entry, env);
    StepIsDefault(a, Str("email"), env);
    var b := AfterLoop(Registration, Defaults(Registration), Arr([entry]), env);
    assert b == a.(objectMetaKey := Str("email"));
    BuiltInEmailIsRequired(Defaults(Registration), Arr([entry]), env);
    RegistrationDerivations(Defaults(Registration), Arr([entry]), env);
    var r := Parse(Registration, Defaults(Registration), Arr([entry]), env);
    IsRequiredReadsOnlySettings(r, b);
    assert SettingKey(b, "is_required") == KeyPrefix(Registration) + "is_required";
    assert Lookup([entry], SettingKey(b, "is_required")) == None by {
      assert entry.0[|KeyPrefix(Registration)|] == 'i' && entry.0[|KeyPrefix(Registration)| + 3] == 'd';
      assert SettingKey(b, "is_required")[|KeyPrefix(Registration)| + 3] == 'r';
    }
  }

  /** A registration setting writes only `required`, the meta key, or the property of its own name. */
  lemma RegistrationWrites(name: string)
    ensures Writes(Dispatch(Registration, name)) ==
              {if name == "is_required" then "required" else if name == "is_default" then "object_meta_key" else name}
  {
  }

  /**
   * `profile_field_id` starts as false and only a setting that copies into
   * that property (the default branch) changes it.
   */
  lemma RegistrationProfileFieldId(es: seq<(string, Value)>, env: Env)
    requires forall k :: 0 <= k < |es| ==> SettingName(Registration, es[k].0) != "profile_field_id"
    ensures Parse(Registration, Defaults(Registration), Arr(es), env).profileFieldId == Bool(false)
  {
    var a := Defaults(Registration);
    RegistrationLoopKeepsProfileFieldId(a.(settings := Arr(es)), es, env);
    RegistrationDerivations(a, Arr(es), env);
  }

  /** The registration pass leaves `profile_field_id` alone unless a setting of that name copies into it. */
  lemma RegistrationLoopKeepsProfileFieldId(a: Attrs, es: seq<(string, Value)>, env: Env)
    requires forall k :: 0 <= k < |es| ==> SettingName(Registration, es[k].0) != "profile_field_id"
    ensures Loop(Registration, a, es, env).profileFieldId == a.profileFieldId
  {
    NoRegistrationSettingWrites(es, "profile_field_id");
    LoopFrame(Registration, a, es, env, "profile_field_id");
    PropProfileFieldId(Loop(Registration, a, es, env));
    PropProfileFieldId(a);
  }

  /** No registration setting writes a property other than `required` and the meta key unless it is named after it. */
  lemma NoRegistrationSettingWrites(es: seq<(string, Value)>, n: string)
    requires n != "required" && n != "object_meta_key"
    requires forall k :: 0 <= k < |es| ==> SettingName(Registration, es[k].0) != n
    ensures forall k :: 0 <= k < |es| ==> n !in Writes(KeyAction(Registration, es[k].0))
  {
    forall k | 0 <= k < |es|
      ensures n !in Writes(KeyAction(Registration, es[k].0))
    {
      RegistrationWrites(SettingName(Registration, es[k].0));
    }
  }

  /** `profile_field_id` is a declared property. */
  lemma PropProfileFieldId(b: Attrs)
    ensures Prop(b, "profile_field_id") == b.profileFieldId
  {
    AssignSlot(b, ProfileFieldIdSlot, Null);
  }

  // ---------------------------------------------------------------------------
  // Construction

  /**
   * A field built without arguments has the documented defaults; its
   * deletability and (for Listing and Profile) multi-option forcing are
   * already derived from the default meta key and type.
   */
  lemma FreshConstruct(kind: Kind, env: Env)
    ensures var r := Construct(kind, [], env);
            && r.priority == Int(0) && r.readonly == Bool(false) && r.adminOnly == Bool(false)
            && r.options == Arr([]) && r.settings == Null && r.title == Null
            && r.objectMetaKey == Null && r.canDelete == Bool(!env.isDefaultField(Null))
            && (kind != Registration ==> r.multiple == Bool(env.isMultiOption(Bool(false))))
            && (kind == Registration && env.isDefaultField(Null) ==> r.fieldType == Str("text"))
            && (kind == Registration && !env.isDefaultField(Null) ==> r.fieldType == Bool(false))
  {
    BuiltInTypeCases(Null);
  }

  /**
   * The constructor sets the title last: every other property is as the
   * parse of the copied arguments left it, and the title is the post's
   * title when the post id is not empty, the parsed title otherwise.
   */
  lemma ConstructSetsTitleLast(kind: Kind, args: seq<(string, Value)>, env: Env)
    ensures var copied := AssignAll(Defaults(kind), args);
            var parsed := Parse(kind, copied, copied.settings, env);
            var r := Construct(kind, args, env);
            && (forall n :: n != "title" ==> Prop(r, n) == Prop(parsed, n))
            && r.title == (if Truthy(parsed.postId) then env.titleOf(parsed.postId) else parsed.title)
  {
    var copied := AssignAll(Defaults(kind), args);
    var parsed := Parse(kind, copied, copied.settings, env);
    if Truthy(parsed.postId) {
      TitleUpdateFrame(parsed, env.titleOf(parsed.postId));
    }
  }

  /**
   * Because the constructor parses before it sets the title, a listing
   * built from arguments that name neither its label, its title nor its
   * settings keeps a null label, even when the title is then the post's.
   */
  lemma ListingLabelPrecedesTitle(args: seq<(string, Value)>, env: Env)
    requires forall k :: 0 <= k < |args| ==>
               args[k].0 != "label" && args[k].0 != "title" && args[k].0 != "settings"
    ensures var r := Construct(Listing, args, env);
            && r.fieldLabel == Null
            && r.title == if Truthy(r.postId) then env.titleOf(r.postId) else Null
  {
    var copied := AssignAll(Defaults(Listing), args);
    CopiedHeadingIsDefault(Defaults(Listing), args);
    ParseNonArray(Listing, copied, copied.settings, env);
  }

  /** Arguments that name neither the label, the title nor the settings leave all three as they were. */
  lemma {:induction false} CopiedHeadingIsDefault(a: Attrs, args: seq<(string, Value)>)
    requires forall k :: 0 <= k < |args| ==>
               args[k].0 != "label" && args[k].0 != "title" && args[k].0 != "settings"
    ensures var copied := AssignAll(a, args);
            copied.fieldLabel == a.fieldLabel && copied.title == a.title && copied.settings == a.settings
    decreases |args|
  {
    if |args| > 0 {
      var last := args[|args| - 1];
      CopiedHeadingIsDefault(a, args[..|args| - 1]);
      AssignKeepsHeading(AssignAll(a, args[..|args| - 1]), last.0, last.1);
    }
  }

  /** Writing a property other than the label, the title or the settings keeps those three. */
  lemma AssignKeepsHeading(a: Attrs, name: string, v: Value)
    requires name != "label" && name != "title" && name != "settings"
    ensures Assign(a, name, v).fieldLabel == a.fieldLabel
    ensures Assign(a, name, v).title == a.title
    ensures Assign(a, name, v).settings == a.settings
  {
    var slot := SlotOf(name);
    if slot != ExtraSlot {
      assert slot != LabelSlot && slot != TitleSlot && slot != SettingsSlot;
      SetSlotFrame(a, slot, v);
      assert SlotValue(SetSlot(a, slot, v), LabelSlot) == a.fieldLabel;
      assert SlotValue(SetSlot(a, slot, v), TitleSlot) == a.title;
      assert SlotValue(SetSlot(a, slot, v), SettingsSlot) == a.settings;
    }
  }
}
