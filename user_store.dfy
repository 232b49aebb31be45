/**
 * The `users` table and the search preferences attached to its rows, with the
 * part of Sequelize's `create` that the User model configures: validation,
 * the `beforeCreate` hook, the unique constraint on `email` checked by the
 * insert, and the `afterCreate` hook that writes the default preference.
 */
module UserStore {
  import opened Wrappers
  import opened Ascii
  import opened UserModel

  /** A stored user: the id the insert assigned and the persisted attributes. */
  datatype Row = Row(id: nat, values: UserValues)

  /** A stored search preference and the id of the user it belongs to. */
  datatype PrefRow = PrefRow(user_id: nat, pref: SearchPreference)

  /** Why `User.create` was rejected. */
  datatype CreateError = ValidationError | UniqueConstraintError

  /** The `name` of the error Sequelize rejects with. */
  function ErrorName(e: CreateError): (name: string)
    ensures name == "SequelizeValidationError" || name == "SequelizeUniqueConstraintError"
  {
    match e
    case ValidationError => "SequelizeValidationError"
    case UniqueConstraintError => "SequelizeUniqueConstraintError"
  }

  /** The two rejections carry different names. */
  lemma ErrorNameInjective(a: CreateError, b: CreateError)
    ensures ErrorName(a) == ErrorName(b) ==> a == b
  {
  }

  /** What the insert writes: every attribute except the virtual password. */
  function Persisted(v: UserValues): (w: UserValues)
    ensures w.password.None? && w.(password := v.password) == v
  {
    v.(password := None)
  }

  /** `User.findOne({ where: { email } })`: some row whose email is exactly `email`, if any. */
  function FindByEmail(rows: seq<Row>, email: Option<string>): (r: Option<Row>)
    ensures r.Some? <==> exists i :: 0 <= i < |rows| && rows[i].values.email == email
    ensures r.Some? ==> r.value in rows && r.value.values.email == email
  {
    if rows == [] then None
    else if rows[0].values.email == email then Some(rows[0])
    else FindByEmail(rows[1..], email)
  }

  /** The ids of the stored users. */
  function Ids(rows: seq<Row>): set<nat>
  {
    set i | 0 <= i < |rows| :: rows[i].id
  }

  /** Appending a row adds exactly its id. */
  lemma IdsAppend(rows: seq<Row>, row: Row)
    ensures Ids(rows + [row]) == Ids(rows) + {row.id}
  {
    var s := rows + [row];
    forall x | x in Ids(s) ensures x in Ids(rows) + {row.id} {
      var i :| 0 <= i < |s| && s[i].id == x;
      if i < |rows| { assert rows[i] == s[i]; }
    }
    forall x | x in Ids(rows) + {row.id} ensures x in Ids(s) {
      if x == row.id {
        assert s[|rows|].id == x;
      } else {
        var i :| 0 <= i < |rows| && rows[i].id == x;
        assert s[i].id == x;
      }
    }
  }

  /** The preferences stored for user `id`, in insertion order. */
  function PrefsOf(prefs: seq<PrefRow>, id: nat): (r: seq<SearchPreference>)
    ensures |r| <= |prefs|
    ensures r == [] <==> forall k :: 0 <= k < |prefs| ==> prefs[k].user_id != id
    ensures forall p :: p in r <==> PrefRow(id, p) in prefs
  {
    if prefs == [] then []
    else (if prefs[0].user_id == id then [prefs[0].pref] else []) + PrefsOf(prefs[1..], id)
  }

  /** The preferences of a user in two stretches of the table are those of each stretch. */
  lemma {:induction false} PrefsOfAppend(a: seq<PrefRow>, b: seq<PrefRow>, id: nat)
    ensures PrefsOf(a + b, id) == PrefsOf(a, id) + PrefsOf(b, id)
  {
    if a == [] {
      assert a + b == b;
    } else {
      assert (a + b)[1..] == a[1..] + b;
      PrefsOfAppend(a[1..], b, id);
    }
  }

  /** A user owning exactly one row of a stretch of the table has exactly that row's preference. */
  lemma {:induction false} PrefsOfOnlyRow(prefs: seq<PrefRow>, i: nat, id: nat)
    requires i < |prefs| && prefs[i].user_id == id
    requires forall j :: 0 <= j < |prefs| && j != i ==> prefs[j].user_id != id
    ensures PrefsOf(prefs, id) == [prefs[i].pref]
  {
    if i == 0 {
      assert forall k :: 0 <= k < |prefs[1..]| ==> prefs[1..][k].user_id != id by {
        forall k | 0 <= k < |prefs[1..]| ensures prefs[1..][k].user_id != id {
          assert prefs[1..][k] == prefs[k + 1];
        }
      }
    } else {
      forall j | 0 <= j < |prefs[1..]| && j != i - 1 ensures prefs[1..][j].user_id != id {
        assert prefs[1..][j] == prefs[j + 1];
      }
      PrefsOfOnlyRow(prefs[1..], i - 1, id);
    }
  }

  /**
   * Since stored emails are lower-cased, an exact-match lookup never finds an
   * email holding an upper-case letter.
   */
  lemma MixedCaseEmailNotFound(rows: seq<Row>, email: string)
    requires forall i :: 0 <= i < |rows| ==> rows[i].values.email.Some? && IsLowerCase(rows[i].values.email.value)
    requires !IsLowerCase(email)
    ensures FindByEmail(rows, Some(email)).None?
  {
  }

  /** The users table and the search preference table. */
  class Database {
    var rows: seq<Row>
    var prefs: seq<PrefRow>
    var nextId: nat

    /**
     * The table invariant: ids are distinct and below the next id to assign,
     * every stored email is present, lower-cased and unique, no password is
     * stored, and every preference belongs to a stored user.
     */
    ghost predicate Valid()
      reads this
    {
      && (forall i :: 0 <= i < |rows| ==> rows[i].id < nextId)
      && (forall i, j :: 0 <= i < j < |rows| ==> rows[i].id != rows[j].id)
      && (forall i :: 0 <= i < |rows| ==>
            rows[i].values.email.Some? && IsLowerCase(rows[i].values.email.value) && rows[i].values.password.None?)
      && (forall i, j :: 0 <= i < j < |rows| ==> rows[i].values.email != rows[j].values.email)
      && (forall k :: 0 <= k < |prefs| ==> prefs[k].user_id in Ids(rows))
    }

    constructor ()
      ensures Valid() && rows == [] && prefs == [] && nextId == 1
    {
      rows, prefs, nextId := [], [], 1;
    }

    /**
     * The `afterCreate` hook: `user.createSearchPreference(user.defaultPreference())`.
     * The hook does not wait for the write; the write itself is modelled as
     * completing.
     */
    method AfterCreate(user: User, now: int)
      requires Valid()
      requires user.id.Some? && user.id.value in Ids(rows)
      modifies this
      ensures Valid()
      ensures rows == old(rows) && nextId == old(nextId)
      ensures prefs == old(prefs) + [PrefRow(user.id.value, DefaultPreference(user.values, now))]
    {
      var pref := DefaultPreference(user.values, now);
      prefs := prefs + [PrefRow(user.id.value, pref)];
    }

    /**
     * The `afterBulkCreate` hook: the same write for every user of the array,
     * in order; a user listed twice gets two preferences.
     */
    method AfterBulkCreate(users: seq<User>, now: int)
      requires Valid()
      requires forall i :: 0 <= i < |users| ==> users[i].id.Some? && users[i].id.value in Ids(rows)
      modifies this
      ensures Valid()
      ensures rows == old(rows) && nextId == old(nextId)
      ensures |prefs| == |old(prefs)| + |users| && prefs[..|old(prefs)|] == old(prefs)
      ensures forall i :: 0 <= i < |users| ==>
        prefs[|old(prefs)| + i] == PrefRow(users[i].id.value, DefaultPreference(users[i].values, now))
      ensures forall i :: (0 <= i < |users| && PrefsOf(old(prefs), users[i].id.value) == []
                           && (forall j :: 0 <= j < |users| && j != i ==> users[j].id != users[i].id)) ==>
        PrefsOf(prefs, users[i].id.value) == [DefaultPreference(users[i].values, now)]
    {
      var k := 0;
      while k < |users|
        invariant 0 <= k <= |users|
        invariant Valid()
        invariant rows == old(rows) && nextId == old(nextId)
        invariant |prefs| == |old(prefs)| + k && prefs[..|old(prefs)|] == old(prefs)
        invariant forall i :: 0 <= i < k ==>
          prefs[|old(prefs)| + i] == PrefRow(users[i].id.value, DefaultPreference(users[i].values, now))
      {
        AfterCreate(users[k], now);
        k := k + 1;
      }
      var added := prefs[|old(prefs)|..];
      assert prefs == old(prefs) + added;
      forall i | 0 <= i < |users| && PrefsOf(old(prefs), users[i].id.value) == []
          && (forall j :: 0 <= j < |users| && j != i ==> users[j].id != users[i].id)
        ensures PrefsOf(prefs, users[i].id.value) == [DefaultPreference(users[i].values, now)]
      {
        var id := users[i].id.value;
        assert added[i] == PrefRow(id, DefaultPreference(users[i].values, now));
        forall j | 0 <= j < |added| && j != i ensures added[j].user_id != id {
          assert added[j].user_id == users[j].id.value;
        }
        PrefsOfOnlyRow(added, i, id);
        PrefsOfAppend(old(prefs), added, id);
      }
    }

    /**
     * The INSERT: the row gets the next id; the caller has checked the unique
     * constraint on the email.
     */
    method Insert(values: UserValues) returns (id: nat)
      requires Valid()
      requires values.email.Some? && IsLowerCase(values.email.value) && values.password.None?
      requires FindByEmail(rows, values.email).None?
      modifies this
      ensures Valid()
      ensures id == old(nextId) && nextId == old(nextId) + 1
      ensures rows == old(rows) + [Row(id, values)] && prefs == old(prefs)
      ensures id in Ids(rows) && forall k :: 0 <= k < |prefs| ==> prefs[k].user_id != id
    {
      id := nextId;
      rows := rows + [Row(id, values)];
      nextId := nextId + 1;
      IdsAppend(old(rows), Row(id, values));
    }

    /**
     * `User.create(attrs)`: build the instance, validate it, run `beforeCreate`,
     * insert it (the unique constraint on the lower-cased email may reject the
     * insert), then run `afterCreate`. On success the result is the new id.
     */
    method Create(attrs: UserValues, now: int, hash: string -> string, isEmail: string -> bool)
      returns (r: Result<nat, CreateError>)
      requires Valid()
      modifies this
      ensures Valid()
      ensures var built := WithDefaults(attrs, now);
        !PassesValidation(built, isEmail) ==>
          r == Err(ValidationError) && rows == old(rows) && prefs == old(prefs) && nextId == old(nextId)
      ensures var built := WithDefaults(attrs, now);
        PassesValidation(built, isEmail) && FindByEmail(old(rows), Normalize(built, hash).email).Some? ==>
          r == Err(UniqueConstraintError) && rows == old(rows) && prefs == old(prefs) && nextId == old(nextId)
      ensures var built := WithDefaults(attrs, now);
        PassesValidation(built, isEmail) && FindByEmail(old(rows), Normalize(built, hash).email).None? ==>
          && r == Ok(old(nextId))
          && rows == old(rows) + [Row(old(nextId), Persisted(Normalize(built, hash)))]
          && nextId == old(nextId) + 1
          && prefs == old(prefs) + [PrefRow(old(nextId), DefaultPreference(Normalize(built, hash), now))]
          && PrefsOf(prefs, old(nextId)) == [DefaultPreference(Normalize(built, hash), now)]
    {
      var user := new User(attrs, now);
      if !PassesValidation(user.values, isEmail) {
        return Err(ValidationError);
      }
      user.BeforeCreate(hash);
      if FindByEmail(rows, user.values.email).Some? {
        return Err(UniqueConstraintError);
      }
      ghost var before := prefs;
      var id := Insert(Persisted(user.values));
      user.id := Some(id);
      assert PrefsOf(before, id) == [];
      AfterCreate(user, now);
      PrefsOfAppend(before, [PrefRow(id, DefaultPreference(user.values, now))], id);
      r := Ok(id);
    }
  }
}
