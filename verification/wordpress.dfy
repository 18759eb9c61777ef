/**
 * The WordPress and plugin helpers the field entities call but whose code is
 * not part of this model. Each one is a function supplied by the caller, so
 * every property proved here holds for every choice of those helpers that
 * meets the hypotheses the property itself states.
 */
module WordPress {
  import opened Php

  datatype Env = Env(
    /** `maybe_unserialize` applied to a string (a non-serialized string should come back as itself). */
    unserializeString: string -> Value,
    /** `pno_parse_selectable_options`. */
    parseOptions: Value -> Value,
    /** `pno_get_registered_field_types()[t]`, or Null when that entry is not set. */
    typeLabel: Value -> Value,
    /** `in_array(t, pno_get_multi_options_field_types())`. */
    isMultiOption: Value -> bool,
    /** `pno_is_default_field`, one predicate shared by every field kind. */
    isDefaultField: Value -> bool,
    /** `get_the_title`. */
    titleOf: Value -> Value,
    /** `sanitize_title`. */
    slugify: Value -> string,
    /** PHP's `(int)` cast of a string. */
    intOfString: string -> int
  )

  /** `maybe_unserialize`: only strings can hold serialized data; anything else comes back as is. */
  function Unserialize(env: Env, v: Value): (r: Value)
    ensures !v.Str? ==> r == v
  {
    if v.Str? then env.unserializeString(v.s) else v
  }

  /**
   * `isset($types[$t]) ? $types[$t] : false`: the label registered for type
   * `t`, or `false` when none is registered.
   */
  function TypeNicename(env: Env, t: Value): (r: Value)
    ensures env.typeLabel(t) != Null ==> r == env.typeLabel(t)
    ensures env.typeLabel(t) == Null ==> r == Bool(false)
  {
    var registered := env.typeLabel(t);
    if registered != Null then registered else Bool(false)
  }
}
