/**
 * `load_config`: assembles the typed configuration objects from the parsed
 * document, section by section, into one dictionary. LoadSpec states the
 * outcome as a function of the document; LoadConfig is the procedure of the
 * source (a dictionary filled in place, a validator object that issuers are
 * added to in a loop, a methods list built by appending), proved to produce
 * exactly that outcome.
 */
module LoadConfig {
  import opened Wrappers
  import opened Document
  import opened Secrets

  /** A member of the `SignMethod` enumeration, known by its name. */
  datatype SignMethod = SignMethod(name: string)

  /** `Issuer(name, secret, methods)`: a trusted token issuer. */
  datatype Issuer = Issuer(name: Json, secret: Secret, methods: seq<SignMethod>)

  /** `JWTEncoder(issuer, sign_method, secret)`: the signing identity. */
  datatype JwtEncoder = JwtEncoder(issuer: Json, signMethod: SignMethod, secret: Secret)

  /**
   * What the loader takes from libraries outside the model: the member names
   * of the `SignMethod` enumeration and the key file reader.
   */
  datatype Env = Env(signMethodNames: set<string>, readKeyFile: KeyFileReader)

  /** The four settings classes built by keyword unpacking: LDAPConfig, DBConfig, AppConfig, AMQPConfig. */
  datatype SettingsKind = Ldap | Db | App | Amqp

  function SectionName(kind: SettingsKind): string {
    match kind
    case Ldap => "ldap_settings"
    case Db => "db_settings"
    case App => "app_config"
    case Amqp => "amqp_settings"
  }

  function OutputKey(kind: SettingsKind): string {
    match kind
    case Ldap => "ldap_config"
    case Db => "db_config"
    case App => "app_config"
    case Amqp => "amqp_config"
  }

  /**
   * A value of the output dictionary. The validator slot holds the validator
   * object in LoadConfig's result and its list of issuers in LoadSpec's. A
   * settings object keeps the sub-document it was built from.
   */
  datatype Entry<V> =
    | ValidatorEntry(validator: V)
    | EncoderEntry(encoder: JwtEncoder)
    | SettingsEntry(kind: SettingsKind, fields: seq<(string, Json)>)

  /** Each optional top-level section and the output key it gives. */
  const Outputs: seq<(string, string)> := [
    ("jwt_validation", "jwt_validator"),
    ("jwt_creation", "jwt_encoder"),
    ("ldap_settings", "ldap_config"),
    ("db_settings", "db_config"),
    ("app_config", "app_config"),
    ("amqp_settings", "amqp_config")
  ]

  /** `JWTValidator`: a list of issuers that `add_issuer` appends to. */
  class JwtValidator {
    var issuers: seq<Issuer>

    constructor ()
      ensures issuers == []
    {
      issuers := [];
    }

    method AddIssuer(issuer: Issuer)
      modifies this
      ensures issuers == old(issuers) + [issuer]
    {
      issuers := issuers + [issuer];
    }
  }

  // ---------------------------------------------------------------------
  // Specification

  /**
   * Applies f to every element in order, stopping at the first error as a
   * Python loop stops at the first exception.
   */
  function MapAll<A, B>(xs: seq<A>, f: A -> Result<B, LoadError>): (r: Result<seq<B>, LoadError>)
    ensures r.Ok? <==> forall i :: 0 <= i < |xs| ==> f(xs[i]).Ok?
    ensures r.Ok? ==> |r.value| == |xs| && forall i :: 0 <= i < |xs| ==> f(xs[i]) == Ok(r.value[i])
    ensures r.Err? ==> exists k :: (0 <= k < |xs| && f(xs[k]) == Err(r.error) &&
                                    forall i :: 0 <= i < k ==> f(xs[i]).Ok?)
  {
    if |xs| == 0 then Ok([])
    else
      var init := xs[..|xs| - 1];
      assert forall i :: 0 <= i < |xs| - 1 ==> init[i] == xs[i];
      var front :- MapAll(init, f);
      var last :- f(xs[|xs| - 1]);
      Ok(front + [last])
  }

  /** MapAll succeeds with ys when f maps each element to the element of ys at the same place. */
  lemma MapAllOk<A, B>(xs: seq<A>, f: A -> Result<B, LoadError>, ys: seq<B>)
    requires |ys| == |xs| && forall i :: 0 <= i < |xs| ==> f(xs[i]) == Ok(ys[i])
    ensures MapAll(xs, f) == Ok(ys)
  {
    var r := MapAll(xs, f);
    assert forall i :: 0 <= i < |xs| ==> f(xs[i]).Ok?;
    assert |r.value| == |ys| && forall i :: 0 <= i < |xs| ==> r.value[i] == ys[i];
    assert r.value == ys;
  }

  /** MapAll fails with the error of the first element that fails. */
  lemma MapAllFirstErr<A, B>(xs: seq<A>, f: A -> Result<B, LoadError>, k: nat)
    requires k < |xs| && f(xs[k]).Err?
    requires forall i :: 0 <= i < k ==> f(xs[i]).Ok?
    ensures MapAll(xs, f) == Err(f(xs[k]).error)
  {
    var r := MapAll(xs, f);
    var k' :| 0 <= k' < |xs| && f(xs[k']) == Err(r.error) && forall i :: 0 <= i < k' ==> f(xs[i]).Ok?;
    assert k' == k;
  }

  /** When a prefix succeeds and the next element fails, MapAll fails with that element's error. */
  lemma MapAllPrefixErr<A, B>(xs: seq<A>, f: A -> Result<B, LoadError>, i: nat, ys: seq<B>)
    requires i < |xs| && MapAll(xs[..i], f) == Ok(ys) && f(xs[i]).Err?
    ensures MapAll(xs, f) == Err(f(xs[i]).error)
  {
    assert forall j :: 0 <= j < i ==> xs[..i][j] == xs[j];
    MapAllFirstErr(xs, f, i);
  }

  /** Extending the input by one element: MapAll runs on until the first error. */
  lemma MapAllSnoc<A, B>(xs: seq<A>, f: A -> Result<B, LoadError>, i: nat, ys: seq<B>, y: B)
    requires i < |xs| && MapAll(xs[..i], f) == Ok(ys) && f(xs[i]) == Ok(y)
    ensures MapAll(xs[..i + 1], f) == Ok(ys + [y])
  {
    assert xs[..i + 1][..i] == xs[..i];
  }

  /** `SignMethod[name]`: enumeration lookup by member name. */
  function LookupSignMethod(name: Json, known: set<string>): (r: Result<SignMethod, LoadError>)
    ensures r.Ok? <==> name.JString? && name.s in known
    ensures r.Ok? ==> r.value.name == name.s
    ensures r.Err? && (name.JArray? || name.JObject?) ==> r.error == UnhashableSignMethod
    ensures r.Err? && !(name.JArray? || name.JObject?) ==> r.error == UnknownSignMethod(name)
  {
    match name
    case JString(s) => if s in known then Ok(SignMethod(s)) else Err(UnknownSignMethod(name))
    case JArray(_) => Err(UnhashableSignMethod)
    case JObject(_) => Err(UnhashableSignMethod)
    case _ => Err(UnknownSignMethod(name))
  }

  /** The `methods` list of one issuer, built from its names. */
  function MethodsOf(names: seq<Json>, known: set<string>): Result<seq<SignMethod>, LoadError> {
    MapAll(names, (n: Json) => LookupSignMethod(n, known))
  }

  /** One entry of `jwt_validation`: methods, then key type and value, then decoding, then name. */
  function IssuerOf(item: Json, env: Env): (r: Result<Issuer, LoadError>)
    ensures !item.JObject? ==> r == Err(NotSubscriptable("methods"))
    ensures Index(item, "methods").Err? ==> r == Err(Index(item, "methods").error)
    ensures r.Ok? ==> Index(item, "name") == Ok(r.value.name)
    ensures r.Ok? ==> forall i :: 0 <= i < |r.value.methods| ==> r.value.methods[i].name in env.signMethodNames
  {
    var methodNames :- Index(item, "methods");
    var names :- Iterate(methodNames);
    var methods :- MethodsOf(names, env.signMethodNames);
    var secretSpec :- Index(item, "secret");
    var keyType :- Index(secretSpec, "type");
    var value :- Index(secretSpec, "value");
    var scheme :- CheckKeyType(keyType);
    var secret :- Resolve(scheme, value, None, env.readKeyFile);
    var name :- Index(item, "name");
    Ok(Issuer(name, secret, methods))
  }

  function IssuersOf(items: seq<Json>, env: Env): Result<seq<Issuer>, LoadError> {
    MapAll(items, (item: Json) => IssuerOf(item, env))
  }

  /** The `jwt_creation` section: key type checked, secret decoded, then sign method, then issuer. */
  function EncoderOf(section: Json, env: Env): (r: Result<JwtEncoder, LoadError>)
    ensures !section.JObject? ==> r == Err(NotSubscriptable("secret"))
    ensures Index(section, "secret").Err? ==> r == Err(Index(section, "secret").error)
    ensures r.Ok? ==> Index(section, "issuer") == Ok(r.value.issuer)
    ensures r.Ok? ==> r.value.signMethod.name in env.signMethodNames
  {
    var secretSpec :- Index(section, "secret");
    var keyType :- Index(secretSpec, "type");
    var value :- Index(secretSpec, "value");
    var extra := Present(secretSpec.fields, "secret");
    var scheme :- CheckKeyType(keyType);
    var secret :- Resolve(scheme, value, extra, env.readKeyFile);
    var methodName :- Index(section, "signmethod");
    var signMethod :- LookupSignMethod(methodName, env.signMethodNames);
    var issuer :- Index(section, "issuer");
    Ok(JwtEncoder(issuer, signMethod, secret))
  }

  /** The issuers of a present `jwt_validation` section, in the order `for` visits them. */
  function ValidationOf(section: Option<Json>, env: Env): Result<Option<seq<Issuer>>, LoadError> {
    match section
    case None => Ok(None)
    case Some(s) =>
      var items :- Iterate(s);
      var issuers :- IssuersOf(items, env);
      Ok(Some(issuers))
  }

  function CreationOf(section: Option<Json>, env: Env): Result<Option<JwtEncoder>, LoadError> {
    match section
    case None => Ok(None)
    case Some(s) =>
      var encoder :- EncoderOf(s, env);
      Ok(Some(encoder))
  }

  /** `Config(**section)`: only a dict can be unpacked into keyword arguments. */
  function SettingsOf(section: Option<Json>, kind: SettingsKind): Result<Option<seq<(string, Json)>>, LoadError> {
    match section
    case None => Ok(None)
    case Some(JObject(fields)) => Ok(Some(fields))
    case Some(_) => Err(NotAMapping(SectionName(kind)))
  }

  /** `d[key] = value` when there is a value. */
  function Put<V>(d: map<string, Entry<V>>, key: string, value: Option<Entry<V>>): map<string, Entry<V>> {
    if value.Some? then d[key := value.value] else d
  }

  function SettingsEntryOf<V>(kind: SettingsKind, fields: Option<seq<(string, Json)>>): Option<Entry<V>> {
    if fields.Some? then Some(SettingsEntry(kind, fields.value)) else None
  }

  /** The dictionary holding exactly the outputs that were built. */
  function Assemble<V>(validator: Option<V>, encoder: Option<JwtEncoder>,
                       ldap: Option<seq<(string, Json)>>, db: Option<seq<(string, Json)>>,
                       app: Option<seq<(string, Json)>>, amqp: Option<seq<(string, Json)>>): map<string, Entry<V>>
  {
    var m1 := Put(map[], "jwt_validator", if validator.Some? then Some(ValidatorEntry(validator.value)) else None);
    var m2 := Put(m1, "jwt_encoder", if encoder.Some? then Some(EncoderEntry(encoder.value)) else None);
    var m3 := Put(m2, OutputKey(Ldap), SettingsEntryOf(Ldap, ldap));
    var m4 := Put(m3, OutputKey(Db), SettingsEntryOf(Db, db));
    var m5 := Put(m4, OutputKey(App), SettingsEntryOf(App, app));
    Put(m5, OutputKey(Amqp), SettingsEntryOf(Amqp, amqp))
  }

  /** The dictionary from the six section outcomes, or the first error in processing order. */
  function Combine<V>(validator: Result<Option<V>, LoadError>, encoder: Result<Option<JwtEncoder>, LoadError>,
                      ldap: Result<Option<seq<(string, Json)>>, LoadError>,
                      db: Result<Option<seq<(string, Json)>>, LoadError>,
                      app: Result<Option<seq<(string, Json)>>, LoadError>,
                      amqp: Result<Option<seq<(string, Json)>>, LoadError>): Result<map<string, Entry<V>>, LoadError>
  {
    var v :- validator;
    var e :- encoder;
    var l :- ldap;
    var d :- db;
    var a :- app;
    var q :- amqp;
    Ok(Assemble(v, e, l, d, a, q))
  }

  /** The outcome of `load_config` on a parsed document: the dictionary, or the first exception raised. */
  function LoadSpec(doc: Json, env: Env): (r: Result<map<string, Entry<seq<Issuer>>>, LoadError>)
    ensures !doc.JObject? ==> r == Err(TopLevelNotObject)
    ensures doc.JObject? && ValidationOf(Present(doc.fields, "jwt_validation"), env).Err? ==>
      r == Err(ValidationOf(Present(doc.fields, "jwt_validation"), env).error)
    ensures r.Ok? ==> doc.JObject? && ValidationOf(Present(doc.fields, "jwt_validation"), env).Ok? &&
                      CreationOf(Present(doc.fields, "jwt_creation"), env).Ok?
  {
    if !doc.JObject? then Err(TopLevelNotObject)
    else
      Combine(ValidationOf(Present(doc.fields, "jwt_validation"), env),
              CreationOf(Present(doc.fields, "jwt_creation"), env),
              SettingsOf(Present(doc.fields, SectionName(Ldap)), Ldap),
              SettingsOf(Present(doc.fields, SectionName(Db)), Db),
              SettingsOf(Present(doc.fields, SectionName(App)), App),
              SettingsOf(Present(doc.fields, SectionName(Amqp)), Amqp))
  }

  /** The value view of a dictionary entry: a validator object read as its issuers. */
  function Freeze(e: Entry<JwtValidator>): Entry<seq<Issuer>>
    reads if e.ValidatorEntry? then {e.validator} else {}
  {
    match e
    case ValidatorEntry(v) => ValidatorEntry(v.issuers)
    case EncoderEntry(x) => EncoderEntry(x)
    case SettingsEntry(kind, f) => SettingsEntry(kind, f)
  }

  function Snapshot(d: map<string, Entry<JwtValidator>>): map<string, Entry<seq<Issuer>>>
    reads set k | k in d && d[k].ValidatorEntry? :: d[k].validator
  {
    map k | k in d :: Freeze(d[k])
  }

  lemma SnapshotPut(d: map<string, Entry<JwtValidator>>, k: string, e: Option<Entry<JwtValidator>>)
    ensures Snapshot(Put(d, k, e)) == Put(Snapshot(d), k, if e.Some? then Some(Freeze(e.value)) else None)
  {
  }

  /** The value view of an assembled dictionary is the dictionary assembled from the validator's issuers. */
  lemma SnapshotAssemble(validator: Option<JwtValidator>, encoder: Option<JwtEncoder>,
                         ldap: Option<seq<(string, Json)>>, db: Option<seq<(string, Json)>>,
                         app: Option<seq<(string, Json)>>, amqp: Option<seq<(string, Json)>>)
    ensures Snapshot(Assemble(validator, encoder, ldap, db, app, amqp)) ==
            Assemble(if validator.Some? then Some(validator.value.issuers) else None, encoder, ldap, db, app, amqp)
  {
    var v := if validator.Some? then Some(ValidatorEntry(validator.value)) else None;
    var m1 := Put(map[], "jwt_validator", v);
    SnapshotPut(map[], "jwt_validator", v);
    var m2 := Put(m1, "jwt_encoder", if encoder.Some? then Some(EncoderEntry(encoder.value)) else None);
    SnapshotPut(m1, "jwt_encoder", if encoder.Some? then Some(EncoderEntry(encoder.value)) else None);
    var m3 := Put(m2, OutputKey(Ldap), SettingsEntryOf(Ldap, ldap));
    SnapshotPut(m2, OutputKey(Ldap), SettingsEntryOf(Ldap, ldap));
    var m4 := Put(m3, OutputKey(Db), SettingsEntryOf(Db, db));
    SnapshotPut(m3, OutputKey(Db), SettingsEntryOf(Db, db));
    var m5 := Put(m4, OutputKey(App), SettingsEntryOf(App, app));
    SnapshotPut(m4, OutputKey(App), SettingsEntryOf(App, app));
    SnapshotPut(m5, OutputKey(Amqp), SettingsEntryOf(Amqp, amqp));
  }

  /** Only the validator section writes the `jwt_validator` key. */
  lemma AssembleValidator<V>(validator: Option<V>, encoder: Option<JwtEncoder>,
                             ldap: Option<seq<(string, Json)>>, db: Option<seq<(string, Json)>>,
                             app: Option<seq<(string, Json)>>, amqp: Option<seq<(string, Json)>>)
    ensures "jwt_validator" in Assemble(validator, encoder, ldap, db, app, amqp) <==> validator.Some?
    ensures validator.Some? ==> Assemble(validator, encoder, ldap, db, app, amqp)["jwt_validator"] == ValidatorEntry(validator.value)
  {
  }

  // ---------------------------------------------------------------------
  // The procedure

  /** The inner loop: `methods.append(SignMethod[method])` for each name. */
  method TranslateMethods(names: seq<Json>, known: set<string>) returns (r: Result<seq<SignMethod>, LoadError>)
    ensures r == MethodsOf(names, known)
  {
    var methods: seq<SignMethod> := [];
    var i := 0;
    while i < |names|
      invariant 0 <= i <= |names|
      invariant |methods| == i
      invariant forall j :: 0 <= j < i ==> LookupSignMethod(names[j], known) == Ok(methods[j])
    {
      var lookup := LookupSignMethod(names[i], known);
      if lookup.Err? {
        MapAllFirstErr(names, (n: Json) => LookupSignMethod(n, known), i);
        return Err(lookup.error);
      }
      methods := methods + [lookup.value];
      i := i + 1;
    }
    MapAllOk(names, (n: Json) => LookupSignMethod(n, known), methods);
    return Ok(methods);
  }

  /**
   * The body of `for issuer in jwt_validation` up to `Issuer(...)`, without
   * the `add_issuer` call: IssuerOf computed the way the loop body does it,
   * with the methods list built by the appending loop.
   */
  method BuildIssuer(item: Json, env: Env) returns (r: Result<Issuer, LoadError>)
    ensures r == IssuerOf(item, env)
  {
    var methodNames :- Index(item, "methods");
    var names :- Iterate(methodNames);
    var methods :- TranslateMethods(names, env.signMethodNames);
    var secretSpec :- Index(item, "secret");
    var keyType :- Index(secretSpec, "type");
    var value :- Index(secretSpec, "value");
    var scheme :- CheckKeyType(keyType);
    var secret :- Resolve(scheme, value, None, env.readKeyFile);
    var name :- Index(item, "name");
    return Ok(Issuer(name, secret, methods));
  }

  /** The `jwt_validation` loop: one validator, each issuer added in document order. */
  method LoadValidator(items: seq<Json>, env: Env) returns (r: Result<JwtValidator, LoadError>)
    ensures r.Ok? ==> fresh(r.value) && IssuersOf(items, env) == Ok(r.value.issuers)
    ensures r.Err? ==> IssuersOf(items, env) == Err(r.error)
  {
    var validator := new JwtValidator();
    var i := 0;
    while i < |items|
      invariant 0 <= i <= |items|
      invariant fresh(validator)
      invariant IssuersOf(items[..i], env) == Ok(validator.issuers)
    {
      var issuer := BuildIssuer(items[i], env);
      if issuer.Err? {
        MapAllPrefixErr(items, (item: Json) => IssuerOf(item, env), i, validator.issuers);
        return Err(issuer.error);
      }
      MapAllSnoc(items, (item: Json) => IssuerOf(item, env), i, validator.issuers, issuer.value);
      validator.AddIssuer(issuer.value);
      i := i + 1;
    }
    assert items[..i] == items;
    return Ok(validator);
  }

  /** `config_dict[key] = Config(**settings)` when the section is present. */
  method PutSettings(configDict: map<string, Entry<JwtValidator>>, settings: Option<Json>, kind: SettingsKind)
    returns (r: Result<map<string, Entry<JwtValidator>>, LoadError>)
    ensures r.Err? ==> SettingsOf(settings, kind) == Err(r.error)
    ensures r.Ok? ==> (SettingsOf(settings, kind).Ok? &&
                       r.value == Put(configDict, OutputKey(kind), SettingsEntryOf(kind, SettingsOf(settings, kind).value)))
  {
    if settings.None? {
      return Ok(configDict);
    }
    if !settings.value.JObject? {
      return Err(NotAMapping(SectionName(kind)));
    }
    return Ok(configDict[OutputKey(kind) := SettingsEntry(kind, settings.value.fields)]);
  }

  /** The `if jwt_validation is not None` block: the validator built from a present section. */
  method LoadValidation(section: Option<Json>, env: Env) returns (r: Result<Option<JwtValidator>, LoadError>)
    ensures r.Err? ==> ValidationOf(section, env) == Err(r.error)
    ensures r.Ok? ==> (r.value.Some? <==> section.Some?)
    ensures r.Ok? && r.value.None? ==> ValidationOf(section, env) == Ok(None)
    ensures r.Ok? && r.value.Some? ==>
      fresh(r.value.value) && ValidationOf(section, env) == Ok(Some(r.value.value.issuers))
  {
    if section.None? {
      return Ok(None);
    }
    var items :- Iterate(section.value);
    var validator :- LoadValidator(items, env);
    return Ok(Some(validator));
  }

  /** `load_config` after `json.loads`: fills the dictionary section by section. */
  method LoadConfig(doc: Json, env: Env) returns (r: Result<map<string, Entry<JwtValidator>>, LoadError>)
    ensures r.Err? ==> LoadSpec(doc, env) == Err(r.error)
    ensures r.Ok? ==> LoadSpec(doc, env) == Ok(Snapshot(r.value))
    ensures r.Ok? && "jwt_validator" in r.value ==>
      r.value["jwt_validator"].ValidatorEntry? && fresh(r.value["jwt_validator"].validator)
  {
    if !doc.JObject? {
      return Err(TopLevelNotObject);
    }
    var jwtValidation := Present(doc.fields, "jwt_validation");
    var jwtCreation := Present(doc.fields, "jwt_creation");
    var ldapSettings := Present(doc.fields, "ldap_settings");
    var dbSettings := Present(doc.fields, "db_settings");
    var amqpSettings := Present(doc.fields, "amqp_settings");
    var appConfig := Present(doc.fields, "app_config");
    // The outcome of each section, as LoadSpec combines them.
    ghost var v, c := ValidationOf(jwtValidation, env), CreationOf(jwtCreation, env);
    ghost var l, d := SettingsOf(ldapSettings, Ldap), SettingsOf(dbSettings, Db);
    ghost var a, q := SettingsOf(appConfig, App), SettingsOf(amqpSettings, Amqp);
    assert LoadSpec(doc, env) == Combine(v, c, l, d, a, q);

    var configDict: map<string, Entry<JwtValidator>> := map[];
    var validator := LoadValidation(jwtValidation, env);
    if validator.Err? {
      return Err(validator.error);
    }
    if validator.value.Some? {
      configDict := configDict["jwt_validator" := ValidatorEntry(validator.value.value)];
    }

    ghost var encoderSpec: Option<JwtEncoder> := None;
    if jwtCreation.Some? {
      // The `jwt_creation` block has no loop and no state of its own: it is EncoderOf.
      var encoder := EncoderOf(jwtCreation.value, env);
      if encoder.Err? {
        assert c == Err(encoder.error);
        return Err(encoder.error);
      }
      configDict := configDict["jwt_encoder" := EncoderEntry(encoder.value)];
      encoderSpec := Some(encoder.value);
    }
    assert c == Ok(encoderSpec);

    configDict :- PutSettings(configDict, ldapSettings, Ldap);
    configDict :- PutSettings(configDict, dbSettings, Db);
    configDict :- PutSettings(configDict, appConfig, App);
    configDict :- PutSettings(configDict, amqpSettings, Amqp);

    assert configDict == Assemble(validator.value, encoderSpec, l.value, d.value, a.value, q.value);
    SnapshotAssemble(validator.value, encoderSpec, l.value, d.value, a.value, q.value);
    AssembleValidator(validator.value, encoderSpec, l.value, d.value, a.value, q.value);
    return Ok(configDict);
  }
}
