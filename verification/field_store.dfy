/**
 * The stores behind `create`, `delete`, `fieldMetaKeyExists` and
 * `getFromID` of the listing and profile fields: WordPress posts, the post
 * meta Carbon Fields writes, and one table of field rows per kind. A table
 * is modelled as the sequence of entities its query class hands back, each
 * an attribute record built by the field constructor.
 */
module FieldStore {
  import opened Php
  import opened WordPress
  import opened FieldAttrs
  import opened SettingsParser

  /** A WordPress post as `wp_insert_post` stores it. */
  datatype Post = Post(postType: string, title: Value, status: string)

  /** The columns the queries look rows up by. */
  datatype Column =
    | PostIdColumn        // 'post_id'
    | MetaKeyColumn       // 'listing_meta_key' / 'user_meta_key': the field's meta key
    | ProfileFieldIdColumn  // 'profile_field_id' of a registration field

  function ColumnValue(row: Attrs, c: Column): Value
  {
    match c
    case PostIdColumn => row.postId
    case MetaKeyColumn => row.objectMetaKey
    case ProfileFieldIdColumn => row.profileFieldId
  }

  /** `get_item_by(column, v)`: the first row whose column holds `v`, if any. */
  function FindBy(rows: seq<Attrs>, c: Column, v: Value): (r: Option<Attrs>)
    ensures r.Some? ==> r.value in rows && ColumnValue(r.value, c) == v
    ensures r.None? <==> forall k :: 0 <= k < |rows| ==> ColumnValue(rows[k], c) != v
    ensures r.Some? ==> exists k :: 0 <= k < |rows| && rows[k] == r.value &&
                                    forall j :: 0 <= j < k ==> ColumnValue(rows[j], c) != v
  {
    if |rows| == 0 then None
    else if ColumnValue(rows[0], c) == v then Some(rows[0])
    else
      var r := FindBy(rows[1..], c, v);
      assert forall k :: 1 <= k < |rows| ==> rows[k] == rows[1..][k - 1];
      r
  }

  /** `delete_item(id)`: drop the rows with that entity id, keeping the others in order. */
  function RemoveEntity(rows: seq<Attrs>, id: Value): (r: seq<Attrs>)
    ensures |r| <= |rows|
  {
    if |rows| == 0 then []
    else
      var rest := RemoveEntity(rows[1..], id);
      if rows[0].id == id then rest else [rows[0]] + rest
  }

  /** `delete_item` keeps exactly the rows with another entity id. */
  lemma {:induction false} RemoveEntityMembers(rows: seq<Attrs>, id: Value)
    ensures forall x :: x in RemoveEntity(rows, id) <==> x in rows && x.id != id
    decreases |rows|
  {
    if |rows| > 0 {
      RemoveEntityMembers(rows[1..], id);
      assert forall x :: x in rows <==> x == rows[0] || x in rows[1..];
    }
  }

  /** No two rows of a table share an entity id, as the table's auto-increment primary key ensures. */
  predicate UniqueIds(rows: seq<Attrs>)
  {
    forall i, j :: 0 <= i < j < |rows| ==> rows[i].id != rows[j].id
  }

  /** Removing an id no row carries leaves the table as it is. */
  lemma {:induction false} RemoveAbsentEntity(rows: seq<Attrs>, id: Value)
    requires forall x :: x in rows ==> x.id != id
    ensures RemoveEntity(rows, id) == rows
    decreases |rows|
  {
    if |rows| > 0 {
      assert rows[0] in rows;
      RemoveAbsentEntity(rows[1..], id);
      assert [rows[0]] + rows[1..] == rows;
    }
  }

  /** Removing an id keeps the remaining ids unique. */
  lemma {:induction false} RemoveEntityKeepsUnique(rows: seq<Attrs>, id: Value)
    requires UniqueIds(rows)
    ensures UniqueIds(RemoveEntity(rows, id))
    decreases |rows|
  {
    if |rows| > 0 {
      var tail := rows[1..];
      assert forall j :: 0 <= j < |tail| ==> tail[j] == rows[j + 1];
      RemoveEntityKeepsUnique(tail, id);
      RemoveEntityMembers(tail, id);
      var rest := RemoveEntity(tail, id);
      if rows[0].id != id {
        forall x | x in rest ensures x.id != rows[0].id {
          var j :| 0 <= j < |tail| && tail[j] == x;
        }
        var r := [rows[0]] + rest;
        forall i, j | 0 <= i < j < |r| ensures r[i].id != r[j].id {
          assert r[j] == rest[j - 1] && r[j] in rest;
          if i > 0 { assert r[i] == rest[i - 1]; }
        }
      }
    }
  }

  /**
   * With unique ids, `delete_item` of the id of row `k` removes exactly that
   * row and keeps the others in order.
   */
  lemma RemoveEntityRemovesOne(rows: seq<Attrs>, k: int)
    requires UniqueIds(rows) && 0 <= k < |rows|
    ensures RemoveEntity(rows, rows[k].id) == rows[..k] + rows[k + 1..]
  {
    OthersHaveOtherIds(rows, k);
    SplitAt(rows, k);
    RemoveSingle(rows[..k], rows[k], rows[k + 1..]);
  }

  /** A row whose id no other row carries is the only one `delete_item` of that id removes. */
  lemma RemoveSingle(before: seq<Attrs>, x: Attrs, after: seq<Attrs>)
    requires forall y :: y in before ==> y.id != x.id
    requires forall y :: y in after ==> y.id != x.id
    ensures RemoveEntity(before + ([x] + after), x.id) == before + after
  {
    RemoveEntityConcat(before, [x] + after, x.id);
    RemoveEntityConcat([x], after, x.id);
    assert RemoveEntity([x], x.id) == [];
    RemoveAbsentEntity(before, x.id);
    RemoveAbsentEntity(after, x.id);
  }

  /** With unique ids, no row before or after row `k` carries its id. */
  lemma OthersHaveOtherIds(rows: seq<Attrs>, k: int)
    requires UniqueIds(rows) && 0 <= k < |rows|
    ensures forall y :: y in rows[..k] ==> y.id != rows[k].id
    ensures forall y :: y in rows[k + 1..] ==> y.id != rows[k].id
  {
    var id, before, after := rows[k].id, rows[..k], rows[k + 1..];
    forall y | y in before ensures y.id != id {
      var j :| 0 <= j < |before| && before[j] == y;
      assert y == rows[j];
    }
    forall y | y in after ensures y.id != id {
      var j :| 0 <= j < |after| && after[j] == y;
      assert y == rows[k + 1 + j];
    }
  }

  /** A table is the rows before row `k`, row `k`, and the rows after it. */
  lemma SplitAt(rows: seq<Attrs>, k: int)
    requires 0 <= k < |rows|
    ensures rows == rows[..k] + ([rows[k]] + rows[k + 1..])
  {
    assert rows == rows[..k] + rows[k..];
    assert rows[k..] == [rows[k]] + rows[k + 1..];
  }

  /** `delete_item` works row by row: on two stretches of rows it removes from each. */
  lemma {:induction false} RemoveEntityConcat(a: seq<Attrs>, b: seq<Attrs>, id: Value)
    ensures RemoveEntity(a + b, id) == RemoveEntity(a, id) + RemoveEntity(b, id)
    decreases |a|
  {
    if |a| == 0 {
      assert a + b == b;
    } else {
      assert (a + b)[0] == a[0] && (a + b)[1..] == a[1..] + b;
      RemoveEntityConcat(a[1..], b, id);
    }
  }

  /** So deleting a stored entity removes one row, and the ids stay unique. */
  lemma RemoveStoredEntity(rows: seq<Attrs>, x: Attrs)
    requires UniqueIds(rows) && x in rows
    ensures UniqueIds(RemoveEntity(rows, x.id))
    ensures |RemoveEntity(rows, x.id)| == |rows| - 1
  {
    var k :| 0 <= k < |rows| && rows[k] == x;
    RemoveEntityRemovesOne(rows, k);
    RemoveEntityKeepsUnique(rows, x.id);
  }

  /** Appending a row under a fresh id keeps the ids unique. */
  lemma AppendKeepsUnique(rows: seq<Attrs>, row: Attrs)
    requires UniqueIds(rows)
    requires forall x :: x in rows ==> x.id != row.id
    ensures UniqueIds(rows + [row])
  {
    var all := rows + [row];
    forall i, j | 0 <= i < j < |all| ensures all[i].id != all[j].id {
      assert all[i] == rows[i];
      if j < |rows| { assert all[j] == rows[j]; } else { assert rows[i] in rows; }
    }
  }

  /** The argument under `key`, or null when it is not given (as reading a missing array key does). */
  function Arg(args: map<string, Value>, key: string): Value
  {
    if key in args then args[key] else Null
  }

  /**
   * The meta key `create` uses: the given one when not empty, otherwise the
   * slug of the name with every "-" turned into "_".
   */
  function MetaFor(args: map<string, Value>, env: Env): (meta: Value)
    ensures Truthy(Arg(args, "meta")) ==> meta == Arg(args, "meta")
    ensures !Truthy(Arg(args, "meta")) ==>
              var slug := env.slugify(Arg(args, "name"));
              && meta.Str? && |meta.s| == |slug| && !Contains(meta.s, "-")
              && forall i :: 0 <= i < |slug| ==> meta.s[i] == if slug[i] == '-' then '_' else slug[i]
  {
    if Truthy(Arg(args, "meta")) then Arg(args, "meta")
    else
      var slug := env.slugify(Arg(args, "name"));
      assert !Contains("_", "-") by {
        forall k | 0 <= k <= 1 ensures !OccursAt("_", "-", k) {
          if k == 0 { assert "_"[0..1][0] == '_'; }
        }
      }
      StrReplaceCharRemovesAll('-', "_", slug);
      StrReplaceCharMap('-', '_', slug);
      Str(StrReplace("-", "_", slug))
  }

  /**
   * fieldMetaKeyExists: the first row holding the meta key has a post id
   * greater than zero.
   */
  predicate MetaKeyExists(rows: seq<Attrs>, meta: Value, env: Env)
  {
    var q := FindBy(rows, MetaKeyColumn, meta);
    q.Some? && GreaterThanZero(env.intOfString, q.value.postId)
  }

  /** A meta key no row holds is free. */
  lemma MetaKeyFreeWhenAbsent(rows: seq<Attrs>, meta: Value, env: Env)
    requires forall x :: x in rows ==> x.objectMetaKey != meta
    ensures !MetaKeyExists(rows, meta, env)
  {
  }

  /**
   * The entity the query returns for a freshly added row, which holds only
   * its auto-increment id and the post id.
   */
  function NewRow(kind: Kind, entityId: int, postId: int, env: Env): Attrs
  {
    Construct(kind, [("id", Int(entityId)), ("post_id", Int(postId))], env)
  }

  /** The derivations after the pass never touch the entity id or the post id. */
  lemma PostKeepsIds(kind: Kind, a: Attrs, env: Env)
    ensures Derive(kind, a, env).id == a.id && Derive(kind, a, env).postId == a.postId
  {
    if kind == Registration {
      var checked := a.(canDelete := Bool(!env.isDefaultField(a.objectMetaKey)));
      var t := Str(BuiltInType(checked.objectMetaKey));
      var typed := checked.(fieldType := t, typeNicename := TypeNicename(env, t));
      assert SlotOf("required") == ExtraSlot;
      AssignExtra(typed, "required", Bool(true));
    }
  }

  /** The arguments the new row is built from are copied as two record updates. */
  lemma NewRowCopied(kind: Kind, entityId: int, postId: int)
    ensures AssignAll(Defaults(kind), [("id", Int(entityId)), ("post_id", Int(postId))])
            == Defaults(kind).(id := Int(entityId), postId := Int(postId))
  {
    var args := [("id", Int(entityId)), ("post_id", Int(postId))];
    assert args[..|args| - 1] == [args[0]] && [args[0]][..0] == [];
    var d := Defaults(kind);
    AssignSlot(d, IdSlot, Int(entityId));
    IdentitySlotsAreUpdates(d, Int(entityId));
    var a1 := d.(id := Int(entityId));
    assert AssignAll(d, [args[0]]) == a1;
    AssignSlot(a1, PostIdSlot, Int(postId));
    IdentitySlotsAreUpdates(a1, Int(postId));
  }

  /** The new row's entity carries the ids it was added with. */
  lemma NewRowIds(kind: Kind, entityId: int, postId: int, env: Env)
    ensures NewRow(kind, entityId, postId, env).id == Int(entityId)
    ensures NewRow(kind, entityId, postId, env).postId == Int(postId)
  {
    NewRowCopied(kind, entityId, postId);
    var copied := Defaults(kind).(id := Int(entityId), postId := Int(postId));
    ParseNonArray(kind, copied, copied.settings, env);
    PostKeepsIds(kind, copied, env);
  }

  /**
   * The entity of a freshly added row has no meta key: the key `create`
   * computed is written to post meta only, not to the row.
   */
  lemma NewRowHasNoMetaKey(kind: Kind, entityId: int, postId: int, env: Env)
    ensures NewRow(kind, entityId, postId, env).objectMetaKey == Null
  {
    NewRowCopied(kind, entityId, postId);
    var copied := Defaults(kind).(id := Int(entityId), postId := Int(postId));
    ParseNonArray(kind, copied, copied.settings, env);
    DeriveKeepsMetaKey(kind, copied, env);
  }

  /**
   * So, in this model, a table filled by `create` alone never reports a
   * non-empty meta key as taken: a second create under the same name is
   * not stopped by the duplicate check.
   */
  lemma CreatedRowsNeverClash(rows: seq<Attrs>, meta: Value, env: Env)
    requires forall x :: x in rows ==> x.objectMetaKey == Null
    requires Truthy(meta)
    ensures !MetaKeyExists(rows, meta, env)
  {
    MetaKeyFreeWhenAbsent(rows, meta, env);
  }

  /** Entry `k` of post meta `m` is still present in `r`, with the same value, or absent from both. */
  predicate Keeps(m: map<(Value, string), Value>, r: map<(Value, string), Value>, k: (Value, string))
  {
    (k in r <==> k in m) && (k in m ==> r[k] == m[k])
  }

  /**
   * The Carbon Fields writes of a successful `create`: under this post only,
   * priority, meta key and type, each only when not empty.
   */
  function CreateMeta(m: map<(Value, string), Value>, kind: Kind, postId: int, args: map<string, Value>, meta: Value)
    : (r: map<(Value, string), Value>)
    ensures forall k: (Value, string) :: k.0 != Int(postId) ==> Keeps(m, r, k)
    ensures forall k: (Value, string) ::
              (k.1 != SettingPrefix(kind) + "priority" && k.1 != SettingPrefix(kind) + "meta_key" &&
               k.1 != SettingPrefix(kind) + "type") ==> Keeps(m, r, k)
    ensures var k := (Int(postId), SettingPrefix(kind) + "priority");
            if Truthy(Arg(args, "priority")) then k in r && r[k] == Arg(args, "priority") else Keeps(m, r, k)
    ensures var k := (Int(postId), SettingPrefix(kind) + "meta_key");
            if Truthy(meta) then k in r && r[k] == meta else Keeps(m, r, k)
    ensures var k := (Int(postId), SettingPrefix(kind) + "type");
            if Truthy(Arg(args, "type")) then k in r && r[k] == Arg(args, "type") else Keeps(m, r, k)
  {
    var prefix := SettingPrefix(kind);
    var priorityKey, metaKey, typeKey := prefix + "priority", prefix + "meta_key", prefix + "type";
    assert priorityKey[|prefix|] == 'p' && metaKey[|prefix|] == 'm' && |typeKey| < |metaKey| == |priorityKey|;
    var p := if Truthy(Arg(args, "priority")) then m[(Int(postId), priorityKey) := Arg(args, "priority")] else m;
    var q := if Truthy(meta) then p[(Int(postId), metaKey) := meta] else p;
    if Truthy(Arg(args, "type")) then q[(Int(postId), typeKey) := Arg(args, "type")] else q
  }

  /** Post meta with every entry of one post dropped, as `wp_delete_post` leaves it. */
  function WithoutPost(m: map<(Value, string), Value>, postId: Value): (r: map<(Value, string), Value>)
    ensures forall k :: k in r <==> k in m && k.0 != postId
    ensures forall k :: k in r ==> r[k] == m[k]
  {
    map k | k in m && k.0 != postId :: m[k]
  }

  /**
   * The row `delete` removes, if any: the first row with the post id, when
   * that id is greater than zero and the row's entity allows deletion.
   */
  function Removable(rows: seq<Attrs>, postId: int): (r: Option<Attrs>)
    ensures r.Some? <==> FindBy(rows, PostIdColumn, Int(postId)).Some? && postId > 0 &&
                         CanDelete(FindBy(rows, PostIdColumn, Int(postId)).value)
    ensures r.Some? ==> r == FindBy(rows, PostIdColumn, Int(postId))
  {
    var found := FindBy(rows, PostIdColumn, Int(postId));
    if found.Some? && found.value.postId == Int(postId) && postId > 0 && CanDelete(found.value) then found else None
  }

  /**
   * The profile delete's cascade: the first registration row linked to the
   * deleted profile post goes too, when its post id is greater than zero and
   * it allows deletion. One level only: nothing linked to that row is looked at.
   */
  function Cascade(regRows: seq<Attrs>, postId: int, env: Env): (r: seq<Attrs>)
    ensures var attached := FindBy(regRows, ProfileFieldIdColumn, Int(postId));
            if attached.Some? && GreaterThanZero(env.intOfString, attached.value.postId) && CanDelete(attached.value)
            then forall x :: x in r <==> x in regRows && x.id != attached.value.id
            else r == regRows
  {
    var attached := FindBy(regRows, ProfileFieldIdColumn, Int(postId));
    if attached.Some? && GreaterThanZero(env.intOfString, attached.value.postId) && CanDelete(attached.value)
    then RemoveEntityMembers(regRows, attached.value.id); RemoveEntity(regRows, attached.value.id)
    else regRows
  }

  /** The cascade keeps the registration ids unique. */
  lemma CascadeKeepsUnique(regRows: seq<Attrs>, postId: int, env: Env)
    requires UniqueIds(regRows)
    ensures UniqueIds(Cascade(regRows, postId, env))
  {
    var attached := FindBy(regRows, ProfileFieldIdColumn, Int(postId));
    if attached.Some? && GreaterThanZero(env.intOfString, attached.value.postId) && CanDelete(attached.value) {
      RemoveEntityKeepsUnique(regRows, attached.value.id);
    }
  }

  /** What `create` answers. */
  datatype CreateOutcome =
    | NotAllowed                    // the user may not manage options: nothing is returned
    | InvalidName                   // no name given: InvalidArgumentException
    | MetaKeyTaken                  // WP_Error 'field-meta-exists'
    | InsertFailed                  // wp_insert_post answered with an error: false
    | Created(field: Option<Attrs>) // the row the query finds under the new post id

  /** What `delete` answers. */
  datatype DeleteOutcome =
    | DeleteNotAllowed              // the user may not manage options: nothing is returned
    | Deleted                       // the row was removed: nothing is returned
    | CannotDelete                  // WP_Error 'cannot_delete'

  /**
   * A row whose deletability was derived the way parseSettings derives it;
   * every entity the field constructor builds is one (`ConstructedRowDerived`).
   */
  predicate Derived(row: Attrs, env: Env)
  {
    row.canDelete == Bool(!env.isDefaultField(row.objectMetaKey))
  }

  /** Every field the constructor builds has its deletability derived from its meta key. */
  lemma ConstructedRowDerived(kind: Kind, args: seq<(string, Value)>, env: Env)
    ensures Derived(Construct(kind, args, env), env)
  {
    var copied := AssignAll(Defaults(kind), args);
    if kind == Registration {
      RegistrationDerivations(copied, copied.settings, env);
    } else {
      ParseDerivations(kind, copied, copied.settings, env);
    }
  }

  /** A derived row keyed by a default field is never removed by `delete`. */
  lemma DefaultFieldNotRemovable(rows: seq<Attrs>, postId: int, env: Env)
    requires forall x :: x in rows ==> Derived(x, env)
    requires FindBy(rows, PostIdColumn, Int(postId)).Some?
    requires env.isDefaultField(FindBy(rows, PostIdColumn, Int(postId)).value.objectMetaKey)
    ensures Removable(rows, postId).None?
  {
  }

  /**
   * The post store, the Carbon Fields post meta and the three field tables.
   */
  class Database {
    var posts: map<int, Post>
    var postMeta: map<(Value, string), Value>
    var listingRows: seq<Attrs>
    var profileRows: seq<Attrs>
    var registrationRows: seq<Attrs>

    /** The table of one kind. */
    function Rows(kind: Kind): seq<Attrs>
      reads this
    {
      match kind
      case Listing => listingRows
      case Profile => profileRows
      case Registration => registrationRows
    }

    /**
     * Every stored row has its deletability derived from its meta key, as
     * the field constructor leaves every entity it builds.
     */
    predicate RowsDerived(env: Env)
      reads this
    {
      && (forall x :: x in listingRows ==> Derived(x, env))
      && (forall x :: x in profileRows ==> Derived(x, env))
      && (forall x :: x in registrationRows ==> Derived(x, env))
    }

    /** No table holds two rows with the same entity id. */
    predicate IdsUnique()
      reads this
    {
      UniqueIds(listingRows) && UniqueIds(profileRows) && UniqueIds(registrationRows)
    }

    constructor ()
      ensures posts == map[] && postMeta == map[]
      ensures listingRows == [] && profileRows == [] && registrationRows == []
      ensures forall env :: RowsDerived(env)
      ensures IdsUnique()
    {
      posts := map[];
      postMeta := map[];
      listingRows := [];
      profileRows := [];
      registrationRows := [];
    }

    /** Listing::getFromID: the listing field stored under this post id, if any. */
    function GetFromID(postId: Value): (r: Option<Attrs>)
      reads this
      ensures r.Some? ==> r.value in listingRows && r.value.postId == postId
      ensures r.None? <==> forall x :: x in listingRows ==> x.postId != postId
    {
      FindBy(listingRows, PostIdColumn, postId)
    }

    /**
     * create for Listing and Profile. `insert` is what `wp_insert_post`
     * answers (a post id, or None for an error) and `newEntityId` the id the
     * table gives the new row, one no stored row holds.
     */
    method Create(kind: Kind, authorized: bool, args: map<string, Value>, env: Env, insert: Option<int>, newEntityId: int)
      returns (outcome: CreateOutcome)
      requires kind != Registration
      requires RowsDerived(env) && IdsUnique()
      requires forall x :: x in Rows(kind) ==> x.id != Int(newEntityId)
      modifies this
      ensures RowsDerived(env) && IdsUnique()
      ensures !authorized ==> outcome == NotAllowed && unchanged(this)
      ensures authorized && !Truthy(Arg(args, "name")) ==> outcome == InvalidName && unchanged(this)
      ensures (authorized && Truthy(Arg(args, "name")) && Truthy(MetaFor(args, env)) &&
               MetaKeyExists(old(Rows(kind)), MetaFor(args, env), env)) ==> outcome == MetaKeyTaken && unchanged(this)
      ensures outcome == MetaKeyTaken ==> Truthy(MetaFor(args, env)) && MetaKeyExists(old(Rows(kind)), MetaFor(args, env), env)
      ensures outcome == InsertFailed <==> authorized && Truthy(Arg(args, "name")) && insert.None? &&
                                           !(Truthy(MetaFor(args, env)) && MetaKeyExists(old(Rows(kind)), MetaFor(args, env), env))
      ensures outcome == InsertFailed ==> unchanged(this)
      ensures outcome.Created? <==> authorized && Truthy(Arg(args, "name")) && insert.Some? &&
                                    !(Truthy(MetaFor(args, env)) && MetaKeyExists(old(Rows(kind)), MetaFor(args, env), env))
      ensures outcome.Created? ==>
                && posts == old(posts)[insert.value := Post(PostType(kind), Arg(args, "name"), "publish")]
                && Rows(kind) == old(Rows(kind)) + [NewRow(kind, newEntityId, insert.value, env)]
                && (kind == Listing ==> profileRows == old(profileRows))
                && (kind == Profile ==> listingRows == old(listingRows))
                && registrationRows == old(registrationRows)
                && postMeta == CreateMeta(old(postMeta), kind, insert.value, args, MetaFor(args, env))
                && outcome.field == FindBy(Rows(kind), PostIdColumn, Int(insert.value))
      ensures outcome.Created? && (forall x :: x in old(Rows(kind)) ==> x.postId != Int(insert.value)) ==>
                outcome.field == Some(NewRow(kind, newEntityId, insert.value, env))
    {
      if !authorized {
        return NotAllowed;
      }
      var name := Arg(args, "name");
      if !Truthy(name) {
        return InvalidName;
      }
      var meta := MetaFor(args, env);
      if Truthy(meta) && MetaKeyExists(Rows(kind), meta, env) {
        return MetaKeyTaken;
      }
      if insert.None? {
        return InsertFailed;
      }
      NewRowIds(kind, newEntityId, insert.value, env);
      ConstructedRowDerived(kind, [("id", Int(newEntityId)), ("post_id", Int(insert.value))], env);
      outcome := AddField(kind, insert.value, args, env, NewRow(kind, newEntityId, insert.value, env));
    }

    /**
     * The successful tail of `create`: insert the post, add the row, write
     * the non-empty settings, and look the row up again by its post id.
     */
    method AddField(kind: Kind, postId: int, args: map<string, Value>, env: Env, row: Attrs)
      returns (outcome: CreateOutcome)
      requires kind != Registration && row.postId == Int(postId)
      requires RowsDerived(env) && Derived(row, env)
      requires IdsUnique() && forall x :: x in Rows(kind) ==> x.id != row.id
      modifies this
      ensures RowsDerived(env) && IdsUnique()
      ensures posts == old(posts)[postId := Post(PostType(kind), Arg(args, "name"), "publish")]
      ensures Rows(kind) == old(Rows(kind)) + [row]
      ensures kind == Listing ==> profileRows == old(profileRows)
      ensures kind == Profile ==> listingRows == old(listingRows)
      ensures registrationRows == old(registrationRows)
      ensures postMeta == CreateMeta(old(postMeta), kind, postId, args, MetaFor(args, env))
      ensures outcome == Created(FindBy(Rows(kind), PostIdColumn, Int(postId)))
      ensures (forall x :: x in old(Rows(kind)) ==> x.postId != Int(postId)) ==>
                outcome == Created(Some(row))
    {
      var before := Rows(kind);
      NewRowFoundByPostId(before, row, postId);
      posts := posts[postId := Post(PostType(kind), Arg(args, "name"), "publish")];
      AppendRow(kind, row, env);
      postMeta := CreateMeta(postMeta, kind, postId, args, MetaFor(args, env));
      return Created(FindBy(before + [row], PostIdColumn, Int(postId)));
    }

    /** `add_item`: the row goes at the end of its kind's table; both invariants are kept. */
    method AppendRow(kind: Kind, row: Attrs, env: Env)
      requires kind != Registration
      requires RowsDerived(env) && Derived(row, env)
      requires IdsUnique() && forall x :: x in Rows(kind) ==> x.id != row.id
      modifies this`listingRows, this`profileRows
      ensures RowsDerived(env) && IdsUnique()
      ensures Rows(kind) == old(Rows(kind)) + [row]
      ensures kind == Listing ==> profileRows == old(profileRows)
      ensures kind == Profile ==> listingRows == old(listingRows)
    {
      AppendKeepsDerived(Rows(kind), row, env);
      AppendKeepsUnique(Rows(kind), row);
      if kind == Listing {
        listingRows := listingRows + [row];
      } else {
        profileRows := profileRows + [row];
      }
    }

    /**
     * delete for Listing and Profile: the post (and its meta) goes first,
     * whatever happens next; then the row goes only when `Removable`
     * finds it; for a profile field a successful delete cascades to the
     * linked registration row.
     */
    method Delete(kind: Kind, authorized: bool, postId: int, env: Env) returns (outcome: DeleteOutcome)
      requires kind != Registration
      requires RowsDerived(env) && IdsUnique()
      modifies this
      ensures RowsDerived(env) && IdsUnique()
      ensures outcome == Deleted ==> |Rows(kind)| == |old(Rows(kind))| - 1
      ensures outcome == Deleted ==> Removable(old(Rows(kind)), postId).Some? &&
                                     !env.isDefaultField(Removable(old(Rows(kind)), postId).value.objectMetaKey)
      ensures authorized && FindBy(old(Rows(kind)), PostIdColumn, Int(postId)).Some? &&
              env.isDefaultField(FindBy(old(Rows(kind)), PostIdColumn, Int(postId)).value.objectMetaKey) ==>
                outcome == CannotDelete && Rows(kind) == old(Rows(kind))
      ensures !authorized ==> outcome == DeleteNotAllowed && unchanged(this)
      ensures authorized ==>
                && posts == old(posts) - {postId}
                && postMeta == WithoutPost(old(postMeta), Int(postId))
                && outcome == (if Removable(old(Rows(kind)), postId).Some? then Deleted else CannotDelete)
      ensures outcome == Deleted ==>
                && Rows(kind) == RemoveEntity(old(Rows(kind)), Removable(old(Rows(kind)), postId).value.id)
                && registrationRows == (if kind == Profile then Cascade(old(registrationRows), postId, env)
                                        else old(registrationRows))
                && (kind == Listing ==> profileRows == old(profileRows))
                && (kind == Profile ==> listingRows == old(listingRows))
      ensures outcome != Deleted ==>
                listingRows == old(listingRows) && profileRows == old(profileRows) &&
                registrationRows == old(registrationRows)
    {
      if !authorized {
        return DeleteNotAllowed;
      }
      posts := posts - {postId};
      postMeta := WithoutPost(postMeta, Int(postId));
      var found := Removable(Rows(kind), postId);
      if FindBy(Rows(kind), PostIdColumn, Int(postId)).Some? &&
         env.isDefaultField(FindBy(Rows(kind), PostIdColumn, Int(postId)).value.objectMetaKey) {
        DefaultFieldNotRemovable(Rows(kind), postId, env);
      }
      if found.None? {
        return CannotDelete;
      }
      RemoveRow(kind, found.value, postId, env);
      return Deleted;
    }

    /**
     * `delete_item` of a stored row and, for a profile field, the cascade;
     * both invariants are kept.
     */
    method RemoveRow(kind: Kind, x: Attrs, postId: int, env: Env)
      requires kind != Registration && x in Rows(kind)
      requires RowsDerived(env) && IdsUnique()
      modifies this`listingRows, this`profileRows, this`registrationRows
      ensures RowsDerived(env) && IdsUnique()
      ensures Rows(kind) == RemoveEntity(old(Rows(kind)), x.id)
      ensures |Rows(kind)| == |old(Rows(kind))| - 1
      ensures registrationRows == (if kind == Profile then Cascade(old(registrationRows), postId, env)
                                   else old(registrationRows))
      ensures kind == Listing ==> profileRows == old(profileRows)
      ensures kind == Profile ==> listingRows == old(listingRows)
    {
      RemoveStoredEntity(Rows(kind), x);
      RemoveEntityMembers(Rows(kind), x.id);
      if kind == Listing {
        listingRows := RemoveEntity(listingRows, x.id);
      } else {
        CascadeKeepsUnique(registrationRows, postId, env);
        profileRows := RemoveEntity(profileRows, x.id);
        registrationRows := Cascade(registrationRows, postId, env);
      }
    }
  }

  /** Appending a derived row to a table of derived rows keeps every row derived. */
  lemma AppendKeepsDerived(rows: seq<Attrs>, row: Attrs, env: Env)
    requires forall x :: x in rows ==> Derived(x, env)
    requires Derived(row, env)
    ensures forall x :: x in rows + [row] ==> Derived(x, env)
  {
  }

  /** A row appended under a post id no earlier row has is the one the query finds for it. */
  lemma NewRowFoundByPostId(rows: seq<Attrs>, row: Attrs, postId: int)
    requires row.postId == Int(postId)
    ensures (forall x :: x in rows ==> x.postId != Int(postId)) ==>
              FindBy(rows + [row], PostIdColumn, Int(postId)) == Some(row)
  {
    if forall x :: x in rows ==> x.postId != Int(postId) {
      var all := rows + [row];
      assert all[|rows|] == row;
      assert forall k :: 0 <= k < |rows| ==> all[k] == rows[k];
    }
  }
}
