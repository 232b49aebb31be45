/**
 * The `User` model: its attributes and their constraints, the `age` getter,
 * the default search preference derived from a user, and the create hooks that
 * normalise a user before it is inserted.
 *
 * Clocks and libraries are parameters: `now` is the current time in
 * milliseconds since the epoch, `hash` stands for bcrypt's `hashSync`, and
 * `isEmail` for the `isEmail` validator Sequelize applies to the email column.
 */
module UserModel {
  import opened Wrappers
  import opened Ascii

  /** The attribute values of a User instance (its `dataValues`). */
  datatype UserValues = UserValues(
    username: Option<string>,
    email: Option<string>,
    province: Option<string>,
    city: Option<string>,
    dob: Option<int>,              // milliseconds since the epoch
    height: Option<int>,
    gender: Option<string>,
    looking_for: Option<string>,
    firstname: Option<string>,
    lastname: Option<string>,
    avatar_url: Option<string>,
    avatar_uploaded: Option<bool>,
    last_online: Option<int>,      // milliseconds since the epoch
    password_digest: Option<string>,
    password: Option<string>       // VIRTUAL: validated, never persisted
  )

  const DefaultAvatarUrl: string := "images/default-user.png"

  /** The milliseconds in a 365-day year; the getter makes no leap-year correction. */
  const MsPerYear: int := 31536000000

  lemma MsPerYearIs365Days()
    ensures MsPerYear == 365 * 24 * 60 * 60 * 1000
  {
  }

  // ---------------------------------------------------------------------------
  // Building and validating an instance
  // ---------------------------------------------------------------------------

  /**
   * `User.build`: the attributes with a `defaultValue` are filled in when they
   * were not given; every other attribute is kept as given.
   */
  function WithDefaults(v: UserValues, now: int): (w: UserValues)
    ensures w.avatar_url == (if v.avatar_url.Some? then v.avatar_url else Some(DefaultAvatarUrl))
    ensures w.avatar_uploaded == (if v.avatar_uploaded.Some? then v.avatar_uploaded else Some(false))
    ensures w.last_online == (if v.last_online.Some? then v.last_online else Some(now))
    ensures w.(avatar_url := v.avatar_url, avatar_uploaded := v.avatar_uploaded, last_online := v.last_online) == v
  {
    v.(avatar_url := if v.avatar_url.Some? then v.avatar_url else Some(DefaultAvatarUrl),
       avatar_uploaded := if v.avatar_uploaded.Some? then v.avatar_uploaded else Some(false),
       last_online := if v.last_online.Some? then v.last_online else Some(now))
  }

  /** `allowNull: false`: the attribute must be present. */
  predicate Present<T>(o: Option<T>) { o.Some? }

  /**
   * A character JavaScript's `\s` matches: the ASCII spaces and line breaks,
   * the no-break and Unicode spaces, the line and paragraph separators and the
   * byte-order mark.
   */
  predicate IsJsWhitespace(c: char)
  {
    || c == ' ' || c == '\t' || c == '\n' || c == '\r' || c == '\U{000B}' || c == '\U{000C}'
    || c == '\U{00A0}' || c == '\U{1680}' || ('\U{2000}' <= c <= '\U{200A}')
    || c == '\U{2028}' || c == '\U{2029}' || c == '\U{202F}' || c == '\U{205F}'
    || c == '\U{3000}' || c == '\U{FEFF}'
  }

  /** Sequelize's `notEmpty`: the string is not made of whitespace alone (the empty string included). */
  predicate NotBlank(s: string) { exists i :: 0 <= i < |s| && !IsJsWhitespace(s[i]) }

  /** `notEmpty`, which Sequelize only applies to a value that is present. */
  predicate NotEmptyIfPresent(o: Option<string>) { o.Some? ==> NotBlank(o.value) }

  /**
   * The attribute validations Sequelize runs before the create hooks: the
   * non-null attributes, `isEmail` on the email, `notEmpty` on the digest, and
   * `notEmpty` and `len: [3, Infinity]` on the virtual password.
   */
  predicate PassesValidation(v: UserValues, isEmail: string -> bool)
  {
    && Present(v.username)
    && Present(v.email) && isEmail(v.email.value)
    && Present(v.province)
    && Present(v.city)
    && Present(v.dob)
    && Present(v.gender)
    && Present(v.looking_for)
    && Present(v.avatar_uploaded)
    && Present(v.last_online)
    && NotEmptyIfPresent(v.password_digest)
    && Present(v.password) && NotBlank(v.password.value) && |v.password.value| >= 3
  }

  /** Every non-null attribute is needed: leaving one out can never validate. */
  lemma MissingRequiredFails(v: UserValues, isEmail: string -> bool)
    requires v.username.None? || v.email.None? || v.province.None? || v.city.None?
          || v.dob.None? || v.gender.None? || v.looking_for.None? || v.password.None?
    ensures !PassesValidation(v, isEmail)
  {
  }

  /** A password of whitespace alone, however long, never validates. */
  lemma BlankPasswordFails(v: UserValues, isEmail: string -> bool)
    requires v.password.Some? && forall i :: 0 <= i < |v.password.value| ==> IsJsWhitespace(v.password.value[i])
    ensures !PassesValidation(v, isEmail)
  {
  }

  /** A password shorter than three characters never validates. */
  lemma ShortPasswordFails(v: UserValues, isEmail: string -> bool)
    requires v.password.Some? && |v.password.value| < 3
    ensures !PassesValidation(v, isEmail)
  {
  }

  // ---------------------------------------------------------------------------
  // The age getter
  // ---------------------------------------------------------------------------

  /**
   * `this.dob` as a number. `None` stands for `null` here: in JavaScript
   * `new Date() - null` is `new Date() - 0`. (An `undefined` date of birth
   * would make the age NaN; the create path never reaches it, since `dob` does
   * not allow null.)
   */
  function DobMillis(v: UserValues): int
  {
    match v.dob
    case Some(d) => d
    case None => 0
  }

  /**
   * `Math.floor((new Date() - this.dob) / 31536000000)`: the whole number of
   * 365-day years since the date of birth, rounded down, so negative for a
   * date of birth in the future.
   */
  function Age(v: UserValues, now: int): (a: int)
    ensures a * MsPerYear <= now - DobMillis(v) < a * MsPerYear + MsPerYear
  {
    (now - DobMillis(v)) / MsPerYear
  }

  /** A date of birth after `now` gives a negative age. */
  lemma FutureDobGivesNegativeAge(v: UserValues, now: int)
    requires DobMillis(v) > now
    ensures Age(v, now) < 0
  {
  }

  /** Exactly `n` 365-day years (and less than one more) after birth, the age is `n`. */
  lemma AgeAfterWholeYears(v: UserValues, n: int, rest: int)
    requires 0 <= rest < MsPerYear
    ensures Age(v, DobMillis(v) + n * MsPerYear + rest) == n
  {
  }

  // ---------------------------------------------------------------------------
  // The default search preference
  // ---------------------------------------------------------------------------

  /** The `{ age_low, age_high }` object returned by `defaultAge`. */
  datatype AgeBand = AgeBand(age_low: int, age_high: int)

  /** `x < 18 ? 18 : x`: the larger of `x` and 18. */
  function AtLeast18(x: int): (r: int)
    ensures r >= 18 && r >= x
    ensures r == x || r == 18
  {
    if x < 18 then 18 else x
  }

  /**
   * How far below and above the user's own age the default band reaches:
   * 5 below and 10 above for a user looking for "male", 10 below and 5 above
   * for any other value.
   */
  function BandReach(looking_for: Option<string>): (reach: (int, int))
  {
    if looking_for == Some("male") then (5, 10) else (10, 5)
  }

  /** `defaultAge`: an age band around the user's age, each bound clamped below at 18. */
  function DefaultAge(v: UserValues, now: int): (b: AgeBand)
    ensures 18 <= b.age_low <= b.age_high
    ensures b.age_low == AtLeast18(Age(v, now) - BandReach(v.looking_for).0)
    ensures b.age_high == AtLeast18(Age(v, now) + BandReach(v.looking_for).1)
  {
    var age := Age(v, now);
    if v.looking_for == Some("male") then
      AgeBand(AtLeast18(age - 5), AtLeast18(age + 10))
    else
      AgeBand(AtLeast18(age - 10), AtLeast18(age + 5))
  }

  /** At age 30 the band is 25..40 when looking for "male" and 20..35 otherwise. */
  lemma DefaultAgeAtThirty(v: UserValues, now: int)
    requires Age(v, now) == 30
    ensures v.looking_for == Some("male") ==> DefaultAge(v, now) == AgeBand(25, 40)
    ensures v.looking_for != Some("male") ==> DefaultAge(v, now) == AgeBand(20, 35)
  {
  }

  /** An adult user's own age lies inside the user's default band. */
  lemma DefaultAgeContainsOwnAge(v: UserValues, now: int)
    requires Age(v, now) >= 18
    ensures DefaultAge(v, now).age_low <= Age(v, now) <= DefaultAge(v, now).age_high
  {
  }

  /** The search preference a user gets at creation (the `SearchPreference` attributes). */
  datatype SearchPreference = SearchPreference(
    gender: Option<string>,
    looking_for: Option<string>,
    province: Option<string>,
    city: Option<string>,
    age_low: int,
    age_high: int,
    height_low: int,
    height_high: int
  )

  /**
   * `defaultPreference`: search for the gender the user is looking for, in the
   * user's own province and city, in the user's default age band, with a height
   * range from a two-entry table (150..180 for "female", 160..190 otherwise).
   */
  function DefaultPreference(v: UserValues, now: int): (p: SearchPreference)
    ensures p.gender == v.looking_for && p.looking_for.None?
    ensures p.province == v.province && p.city == v.city
    ensures AgeBand(p.age_low, p.age_high) == DefaultAge(v, now)
    ensures (p.height_low == 150 && p.height_high == 180) <==> v.looking_for == Some("female")
    ensures v.looking_for != Some("female") ==> p.height_low == 160 && p.height_high == 190
    ensures 18 <= p.age_low <= p.age_high && p.height_low < p.height_high
  {
    var age := DefaultAge(v, now);
    var height_low := if v.looking_for == Some("female") then 150 else 160;
    var height_high := if v.looking_for == Some("female") then 180 else 190;
    SearchPreference(v.looking_for, None, v.province, v.city,
                     age.age_low, age.age_high, height_low, height_high)
  }

  /**
   * A `looking_for` that is neither "male" nor "female" gets the age band used
   * for "female" but the height range used for "male".
   */
  lemma OtherLookingForIsMixed(v: UserValues, w: UserValues, now: int)
    requires v.looking_for != Some("male") && v.looking_for != Some("female")
    requires w.looking_for == Some("female") && DobMillis(w) == DobMillis(v)
    ensures DefaultPreference(v, now).age_low == DefaultPreference(w, now).age_low
    ensures DefaultPreference(v, now).age_high == DefaultPreference(w, now).age_high
    ensures DefaultPreference(v, now).height_low == 160 && DefaultPreference(v, now).height_high == 190
  {
  }

  /** `oppositeGender`: "female" for "male" and "male" for any other string. */
  function OppositeGender(gender: string): (r: string)
    ensures r == "male" || r == "female"
    ensures r == "female" <==> gender == "male"
  {
    if gender == "male" then "female" else "male"
  }

  /** On the two values it produces, `oppositeGender` swaps and undoes itself. */
  lemma OppositeGenderInvolution(gender: string)
    requires gender == "male" || gender == "female"
    ensures OppositeGender(gender) != gender
    ensures OppositeGender(OppositeGender(gender)) == gender
  {
  }

  // ---------------------------------------------------------------------------
  // The create hooks
  // ---------------------------------------------------------------------------

  /**
   * What `beforeCreate` does to one user: the email is lower-cased, the digest
   * is the hash of the password, and nothing else changes.
   */
  function Normalize(v: UserValues, hash: string -> string): (w: UserValues)
    requires v.email.Some? && v.password.Some?
    ensures w.email == Some(Lower(v.email.value)) && IsLowerCase(w.email.value)
    ensures w.password_digest == Some(hash(v.password.value))
    ensures w.(email := v.email, password_digest := v.password_digest) == v
  {
    v.(email := Some(Lower(v.email.value)), password_digest := Some(hash(v.password.value)))
  }

  /** Running the hook twice on one user has the effect of running it once. */
  lemma NormalizeIdempotent(v: UserValues, hash: string -> string)
    requires v.email.Some? && v.password.Some?
    ensures Normalize(Normalize(v, hash), hash) == Normalize(v, hash)
  {
    LowerIdempotent(v.email.value);
  }

  /** A User instance: its attribute values and the id the insert assigns. */
  class User {
    var id: Option<nat>
    var values: UserValues

    /** `User.build(attrs)`: defaults filled in, no id yet. */
    constructor (attrs: UserValues, now: int)
      ensures id.None? && values == WithDefaults(attrs, now)
    {
      id := None;
      values := WithDefaults(attrs, now);
    }

    /** The `beforeCreate` hook: lower-case the email and store only a hash of the password. */
    method BeforeCreate(hash: string -> string)
      requires values.email.Some? && values.password.Some?
      modifies this
      ensures id == old(id)
      ensures values == Normalize(old(values), hash)
    {
      values := values.(email := Some(Lower(values.email.value)));
      values := values.(password_digest := Some(hash(values.password.value)));
    }

    /** The `beforeUpdate` hook does nothing: no re-lower-casing, no re-hashing. */
    method BeforeUpdate()
      ensures unchanged(this)
    {
    }
  }

  /**
   * The `beforeBulkCreate` hook: the `beforeCreate` transformation applied to
   * every user of the array. A user listed twice ends up the same as a user
   * listed once, because the transformation is idempotent.
   */
  method BeforeBulkCreate(users: seq<User>, hash: string -> string)
    requires forall i :: 0 <= i < |users| ==> users[i].values.email.Some? && users[i].values.password.Some?
    modifies set i | 0 <= i < |users| :: users[i]
    ensures forall i :: 0 <= i < |users| ==>
      users[i].id == old(users[i].id) && users[i].values == Normalize(old(users[i].values), hash)
  {
    var k := 0;
    while k < |users|
      invariant 0 <= k <= |users|
      invariant forall i :: 0 <= i < |users| ==> users[i].id == old(users[i].id)
      invariant forall i :: 0 <= i < |users| ==> old(users[i].values).email.Some? && old(users[i].values).password.Some?
      invariant forall i :: 0 <= i < k ==> users[i].values == Normalize(old(users[i].values), hash)
      invariant forall i :: k <= i < |users| ==>
        users[i].values == old(users[i].values) || users[i].values == Normalize(old(users[i].values), hash)
    {
      NormalizeIdempotent(old(users[k].values), hash);
      users[k].BeforeCreate(hash);
      k := k + 1;
    }
  }
}
