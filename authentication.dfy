/**
 * The registration endpoint: look the submitted email up, answer 422 when a
 * user already has it, and otherwise create the user and answer with a token
 * for the new id, or with 500 and the name of the error `create` rejected with.
 *
 * The clock (`new Date().getTime()`) is the parameter `now`, in milliseconds;
 * the JWT encoder, with its secret, is the parameter `encode`; bcrypt is the
 * parameter `hash` and the model's `isEmail` validator the parameter `isEmail`.
 */
module Authentication {
  import opened Wrappers
  import opened Ascii
  import opened UserModel
  import opened UserStore

  /** The request body of a signup. */
  datatype SignupParams = SignupParams(
    dob: Option<int>,
    email: Option<string>,
    password: Option<string>,
    sex: Option<string>,
    lookingFor: Option<string>,
    province: Option<string>,
    city: Option<string>
  )

  /** The payload of a token: the user id and the time it was issued. */
  datatype Claims = Claims(sub: nat, iat: int)

  /** What the endpoint sends: a token, or a status code with an error text. */
  datatype Response = Token(token: string) | Failure(status: int, error: string)

  /** `tokenForUser`: the encoded claims of user `id`, issued at `now`. */
  function TokenForUser(id: nat, now: int, encode: Claims -> string): string
  {
    encode(Claims(id, now))
  }

  /** Whoever can decode a token reads back the user id as the subject. */
  lemma TokenCarriesId(id: nat, now: int, encode: Claims -> string, decode: string -> Claims)
    requires forall c :: decode(encode(c)) == c
    ensures decode(TokenForUser(id, now, encode)).sub == id
    ensures decode(TokenForUser(id, now, encode)).iat == now
  {
  }

  /**
   * The attributes handed to `User.create`. `sex` is not an attribute of the
   * model, so Sequelize drops it; `username` and `gender` are never set.
   */
  function SignupAttributes(p: SignupParams): (v: UserValues)
    ensures v.username.None? && v.gender.None?
    ensures v.dob == p.dob && v.email == p.email && v.password == p.password
    ensures v.looking_for == p.lookingFor && v.province == p.province && v.city == p.city
    ensures v.avatar_url.None? && v.avatar_uploaded.None? && v.last_online.None? && v.password_digest.None?
  {
    UserValues(
      username := None, email := p.email, province := p.province, city := p.city,
      dob := p.dob, height := None, gender := None, looking_for := p.lookingFor,
      firstname := None, lastname := None, avatar_url := None, avatar_uploaded := None,
      last_online := None, password_digest := None, password := p.password)
  }

  /**
   * The attributes of a signup never validate, whatever the request holds:
   * `username` and `gender` do not allow null and are left unset, and filling
   * in the defaults does not set them.
   */
  lemma SignupAttributesNeverValid(p: SignupParams, now: int, isEmail: string -> bool)
    ensures !PassesValidation(WithDefaults(SignupAttributes(p), now), isEmail)
  {
    var built := WithDefaults(SignupAttributes(p), now);
    assert built.username.None?;
    MissingRequiredFails(built, isEmail);
  }

  /**
   * An email that differs from a stored one only in case escapes the exact
   * lookup, while the email `beforeCreate` gives an instance `built` holding
   * it collides with the stored one. Only attributes that validate reach that
   * collision (the third case of `SignupWith`); those `signup` passes do not.
   */
  lemma MixedCaseDuplicateReachesCreate(rows: seq<Row>, email: string, i: nat,
                                        built: UserValues, hash: string -> string)
    requires forall k :: 0 <= k < |rows| ==> rows[k].values.email.Some? && IsLowerCase(rows[k].values.email.value)
    requires i < |rows| && rows[i].values.email == Some(Lower(email))
    requires !IsLowerCase(email)
    requires built.email == Some(email) && built.password.Some?
    ensures FindByEmail(rows, Some(email)).None?
    ensures FindByEmail(rows, Some(Lower(email))).Some?
    ensures FindByEmail(rows, Normalize(built, hash).email).Some?
  {
    MixedCaseEmailNotFound(rows, email);
  }

  /**
   * The flow of `signup` for the attributes `attrs` it hands to `User.create`:
   * the duplicate check on the exact submitted email `attrs.email`, then the
   * create, then the response.
   */
  method SignupWith(db: Database, attrs: UserValues, now: int,
                    hash: string -> string, isEmail: string -> bool, encode: Claims -> string)
    returns (resp: Response)
    requires db.Valid()
    modifies db
    ensures db.Valid()
    ensures FindByEmail(old(db.rows), attrs.email).Some? ==>
      resp == Failure(422, "Email is in use")
      && db.rows == old(db.rows) && db.prefs == old(db.prefs) && db.nextId == old(db.nextId)
    ensures var built := WithDefaults(attrs, now);
      FindByEmail(old(db.rows), attrs.email).None? && !PassesValidation(built, isEmail) ==>
        resp == Failure(500, "SequelizeValidationError")
        && db.rows == old(db.rows) && db.prefs == old(db.prefs) && db.nextId == old(db.nextId)
    ensures var built := WithDefaults(attrs, now);
      FindByEmail(old(db.rows), attrs.email).None? && PassesValidation(built, isEmail)
      && FindByEmail(old(db.rows), Normalize(built, hash).email).Some? ==>
        resp == Failure(500, "SequelizeUniqueConstraintError")
        && db.rows == old(db.rows) && db.prefs == old(db.prefs) && db.nextId == old(db.nextId)
    ensures var built := WithDefaults(attrs, now);
      FindByEmail(old(db.rows), attrs.email).None? && PassesValidation(built, isEmail)
      && FindByEmail(old(db.rows), Normalize(built, hash).email).None? ==>
        resp == Token(TokenForUser(old(db.nextId), now, encode))
        && db.rows == old(db.rows) + [Row(old(db.nextId), Persisted(Normalize(built, hash)))]
        && db.nextId == old(db.nextId) + 1
        && db.prefs == old(db.prefs) + [PrefRow(old(db.nextId), DefaultPreference(Normalize(built, hash), now))]
        && PrefsOf(db.prefs, old(db.nextId)) == [DefaultPreference(Normalize(built, hash), now)]
  {
    if FindByEmail(db.rows, attrs.email).Some? {
      return Failure(422, "Email is in use");
    }
    var r := db.Create(attrs, now, hash, isEmail);
    match r
    case Ok(id) =>
      resp := Token(TokenForUser(id, now, encode));
    case Err(e) =>
      resp := Failure(500, ErrorName(e));
  }

  /**
   * `signup` as written: since its attributes never validate, every request
   * is answered with 422 when the exact email is taken and with 500
   * "SequelizeValidationError" otherwise, and no user is ever added.
   */
  method Signup(db: Database, p: SignupParams, now: int,
                hash: string -> string, isEmail: string -> bool, encode: Claims -> string)
    returns (resp: Response)
    requires db.Valid()
    modifies db
    ensures db.Valid()
    ensures db.rows == old(db.rows) && db.prefs == old(db.prefs) && db.nextId == old(db.nextId)
    ensures FindByEmail(old(db.rows), p.email).Some? ==> resp == Failure(422, "Email is in use")
    ensures FindByEmail(old(db.rows), p.email).None? ==> resp == Failure(500, "SequelizeValidationError")
  {
    SignupAttributesNeverValid(p, now, isEmail);
    resp := SignupWith(db, SignupAttributes(p), now, hash, isEmail, encode);
  }
}
