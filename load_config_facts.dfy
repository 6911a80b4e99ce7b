/**
 * What `load_config` promises about its result, stated over LoadSpec (and so,
 * through LoadConfig's postcondition, about the procedure): which keys the
 * dictionary holds, the order issuers and sign methods keep, which check
 * fails first in each section, and what the encoder is built from.
 */
module LoadConfigFacts {
  import opened Wrappers
  import opened Document
  import opened Secrets
  import opened LoadConfig

  // ---------------------------------------------------------------------
  // The shape of the dictionary

  /** The key of each output is there exactly when its outcome is, and no other key is. */
  lemma AssembleKeys<V>(validator: Option<V>, encoder: Option<JwtEncoder>,
                        ldap: Option<seq<(string, Json)>>, db: Option<seq<(string, Json)>>,
                        app: Option<seq<(string, Json)>>, amqp: Option<seq<(string, Json)>>)
    ensures var m := Assemble(validator, encoder, ldap, db, app, amqp);
      ("jwt_validator" in m <==> validator.Some?) &&
      ("jwt_encoder" in m <==> encoder.Some?) &&
      ("ldap_config" in m <==> ldap.Some?) &&
      ("db_config" in m <==> db.Some?) &&
      ("app_config" in m <==> app.Some?) &&
      ("amqp_config" in m <==> amqp.Some?) &&
      m.Keys <= {"jwt_validator", "jwt_encoder", "ldap_config", "db_config", "app_config", "amqp_config"}
    ensures var m := Assemble(validator, encoder, ldap, db, app, amqp);
      (validator.Some? ==> m["jwt_validator"] == ValidatorEntry(validator.value)) &&
      (encoder.Some? ==> m["jwt_encoder"] == EncoderEntry(encoder.value)) &&
      (ldap.Some? ==> m["ldap_config"] == SettingsEntry(Ldap, ldap.value)) &&
      (db.Some? ==> m["db_config"] == SettingsEntry(Db, db.value)) &&
      (app.Some? ==> m["app_config"] == SettingsEntry(App, app.value)) &&
      (amqp.Some? ==> m["amqp_config"] == SettingsEntry(Amqp, amqp.value))
  {
    AssembleValidator(validator, encoder, ldap, db, app, amqp);
  }

  /** A successful load is the dictionary assembled from the six section outcomes, each of them a success. */
  lemma LoadSpecAssembles(doc: Json, env: Env)
    requires LoadSpec(doc, env).Ok?
    ensures doc.JObject?
    ensures var v := ValidationOf(Present(doc.fields, "jwt_validation"), env);
            var c := CreationOf(Present(doc.fields, "jwt_creation"), env);
            var l := SettingsOf(Present(doc.fields, SectionName(Ldap)), Ldap);
            var d := SettingsOf(Present(doc.fields, SectionName(Db)), Db);
            var a := SettingsOf(Present(doc.fields, SectionName(App)), App);
            var q := SettingsOf(Present(doc.fields, SectionName(Amqp)), Amqp);
      v.Ok? && c.Ok? && l.Ok? && d.Ok? && a.Ok? && q.Ok? &&
      LoadSpec(doc, env).value == Assemble(v.value, c.value, l.value, d.value, a.value, q.value)
  {
  }

  /** A section that was read yields an outcome exactly when it is present (and every outcome succeeded). */
  lemma SectionOutcomes(doc: Json, env: Env)
    requires LoadSpec(doc, env).Ok?
    ensures doc.JObject?
    ensures ValidationOf(Present(doc.fields, "jwt_validation"), env).Ok?
    ensures ValidationOf(Present(doc.fields, "jwt_validation"), env).value.Some? <==>
            Present(doc.fields, "jwt_validation").Some?
    ensures CreationOf(Present(doc.fields, "jwt_creation"), env).Ok?
    ensures CreationOf(Present(doc.fields, "jwt_creation"), env).value.Some? <==>
            Present(doc.fields, "jwt_creation").Some?
    ensures forall kind: SettingsKind ::
      SettingsOf(Present(doc.fields, SectionName(kind)), kind).Ok? &&
      (SettingsOf(Present(doc.fields, SectionName(kind)), kind).value.Some? <==>
       Present(doc.fields, SectionName(kind)).Some?)
  {
    LoadSpecAssembles(doc, env);
    forall kind: SettingsKind
      ensures SettingsOf(Present(doc.fields, SectionName(kind)), kind).Ok?
    {
      match kind
      case Ldap =>
      case Db =>
      case App =>
      case Amqp =>
    }
  }

  /** The keys of an assembled dictionary, against the table of outputs. */
  lemma AssembledPresence<V>(validator: Option<V>, encoder: Option<JwtEncoder>,
                             ldap: Option<seq<(string, Json)>>, db: Option<seq<(string, Json)>>,
                             app: Option<seq<(string, Json)>>, amqp: Option<seq<(string, Json)>>,
                             present: seq<bool>)
    requires |present| == |Outputs|
    requires present[0] == validator.Some? && present[1] == encoder.Some? && present[2] == ldap.Some?
    requires present[3] == db.Some? && present[4] == app.Some? && present[5] == amqp.Some?
    ensures forall k :: 0 <= k < |Outputs| ==>
      (Outputs[k].1 in Assemble(validator, encoder, ldap, db, app, amqp) <==> present[k])
    ensures forall key :: key in Assemble(validator, encoder, ldap, db, app, amqp) ==>
      exists k :: 0 <= k < |Outputs| && Outputs[k].1 == key
  {
    var m := Assemble(validator, encoder, ldap, db, app, amqp);
    AssembleKeys(validator, encoder, ldap, db, app, amqp);
    forall key | key in m
      ensures exists k :: 0 <= k < |Outputs| && Outputs[k].1 == key
    {
      if key == "jwt_validator" {
        assert Outputs[0].1 == key;
      } else if key == "jwt_encoder" {
        assert Outputs[1].1 == key;
      } else if key == "ldap_config" {
        assert Outputs[2].1 == key;
      } else if key == "db_config" {
        assert Outputs[3].1 == key;
      } else if key == "app_config" {
        assert Outputs[4].1 == key;
      } else {
        assert Outputs[5].1 == key;
      }
    }
  }

  /**
   * Each output key is in the dictionary exactly when its top-level section
   * is present and not null, and the dictionary holds no other key.
   */
  lemma PresenceExact(doc: Json, env: Env)
    requires LoadSpec(doc, env).Ok?
    ensures doc.JObject?
    ensures forall k :: 0 <= k < |Outputs| ==>
      (Outputs[k].1 in LoadSpec(doc, env).value <==> Present(doc.fields, Outputs[k].0).Some?)
    ensures forall key :: key in LoadSpec(doc, env).value ==>
      exists k :: 0 <= k < |Outputs| && Outputs[k].1 == key
  {
    LoadSpecAssembles(doc, env);
    SectionOutcomes(doc, env);
    var v := ValidationOf(Present(doc.fields, "jwt_validation"), env);
    var c := CreationOf(Present(doc.fields, "jwt_creation"), env);
    var l := SettingsOf(Present(doc.fields, SectionName(Ldap)), Ldap);
    var d := SettingsOf(Present(doc.fields, SectionName(Db)), Db);
    var a := SettingsOf(Present(doc.fields, SectionName(App)), App);
    var q := SettingsOf(Present(doc.fields, SectionName(Amqp)), Amqp);
    var present := seq(|Outputs|, k requires 0 <= k < |Outputs| => Present(doc.fields, Outputs[k].0).Some?);
    AssembledPresence(v.value, c.value, l.value, d.value, a.value, q.value, present);
  }

  /** A document in which none of the six sections is present (or all are null) loads to the empty dictionary. */
  lemma NoSectionsEmpty(doc: Json, env: Env)
    requires doc.JObject?
    requires forall k :: 0 <= k < |Outputs| ==> Present(doc.fields, Outputs[k].0).None?
    ensures LoadSpec(doc, env) == Ok(map[])
  {
    assert Present(doc.fields, Outputs[0].0).None? && Present(doc.fields, Outputs[1].0).None?;
    assert Present(doc.fields, Outputs[2].0).None? && Present(doc.fields, Outputs[3].0).None?;
    assert Present(doc.fields, Outputs[4].0).None? && Present(doc.fields, Outputs[5].0).None?;
  }

  /** `{}` loads to `{}`. */
  lemma EmptyDocument(env: Env)
    ensures LoadSpec(JObject([]), env) == Ok(map[])
  {
    NoSectionsEmpty(JObject([]), env);
  }

  /** A present settings section must be a mapping, and the output keeps it as it was. */
  lemma SettingsKept(doc: Json, env: Env, kind: SettingsKind, section: Json)
    requires LoadSpec(doc, env).Ok? && doc.JObject? && Present(doc.fields, SectionName(kind)) == Some(section)
    ensures section.JObject?
    ensures OutputKey(kind) in LoadSpec(doc, env).value
    ensures LoadSpec(doc, env).value[OutputKey(kind)] == SettingsEntry(kind, section.fields)
  {
    LoadSpecAssembles(doc, env);
    var v := ValidationOf(Present(doc.fields, "jwt_validation"), env);
    var c := CreationOf(Present(doc.fields, "jwt_creation"), env);
    var l := SettingsOf(Present(doc.fields, SectionName(Ldap)), Ldap);
    var d := SettingsOf(Present(doc.fields, SectionName(Db)), Db);
    var a := SettingsOf(Present(doc.fields, SectionName(App)), App);
    var q := SettingsOf(Present(doc.fields, SectionName(Amqp)), Amqp);
    AssembleKeys(v.value, c.value, l.value, d.value, a.value, q.value);
    match kind
    case Ldap =>
    case Db =>
    case App =>
    case Amqp =>
  }

  /** A present settings section that is not a mapping makes the whole load fail. */
  lemma SettingsNotMapping(doc: Json, env: Env, kind: SettingsKind, section: Json)
    requires doc.JObject? && Present(doc.fields, SectionName(kind)) == Some(section) && !section.JObject?
    ensures LoadSpec(doc, env).Err?
  {
    if LoadSpec(doc, env).Ok? {
      SettingsKept(doc, env, kind, section);
    }
  }

  // ---------------------------------------------------------------------
  // jwt_validation

  /**
   * Issuers are added to the one validator in the order the section lists
   * them: the i-th issuer is built from the i-th item and no item is skipped.
   */
  lemma ValidatorKeepsDocumentOrder(doc: Json, env: Env, section: Json)
    requires LoadSpec(doc, env).Ok? && doc.JObject? && Present(doc.fields, "jwt_validation") == Some(section)
    ensures Iterate(section).Ok?
    ensures "jwt_validator" in LoadSpec(doc, env).value
    ensures var entry := LoadSpec(doc, env).value["jwt_validator"];
            var items := Iterate(section).value;
      entry.ValidatorEntry? && |entry.validator| == |items| &&
      forall i :: 0 <= i < |items| ==> IssuerOf(items[i], env) == Ok(entry.validator[i])
  {
    LoadSpecAssembles(doc, env);
    var v := ValidationOf(Present(doc.fields, "jwt_validation"), env);
    var c := CreationOf(Present(doc.fields, "jwt_creation"), env);
    var l := SettingsOf(Present(doc.fields, SectionName(Ldap)), Ldap);
    var d := SettingsOf(Present(doc.fields, SectionName(Db)), Db);
    var a := SettingsOf(Present(doc.fields, SectionName(App)), App);
    var q := SettingsOf(Present(doc.fields, SectionName(Amqp)), Amqp);
    AssembleValidator(v.value, c.value, l.value, d.value, a.value, q.value);
    var items := Iterate(section).value;
    var issuers := IssuersOf(items, env);
    assert v == Ok(Some(issuers.value));
  }

  /**
   * An issuer's methods list has one sign method per name, in the order of
   * the names, each the enumeration member of that name.
   */
  lemma IssuerMethodsInOrder(item: Json, env: Env)
    requires IssuerOf(item, env).Ok?
    ensures Index(item, "methods").Ok? && Iterate(Index(item, "methods").value).Ok?
    ensures var names := Iterate(Index(item, "methods").value).value;
            var methods := IssuerOf(item, env).value.methods;
      |methods| == |names| &&
      forall i :: 0 <= i < |names| ==>
        names[i] == JString(methods[i].name) && methods[i].name in env.signMethodNames
  {
    var names := Iterate(Index(item, "methods").value).value;
    var known := env.signMethodNames;
    var ms := MethodsOf(names, known);
    assert ms.Ok?;
    assert IssuerOf(item, env).value.methods == ms.value;
    forall i | 0 <= i < |names|
      ensures names[i] == JString(ms.value[i].name) && ms.value[i].name in known
    {
      assert LookupSignMethod(names[i], known) == Ok(ms.value[i]);
    }
  }

  /**
   * Within one issuer the sign methods are translated before the secret is
   * looked at: the first bad method name is the error, whatever the secret,
   * its key type and the name hold.
   */
  lemma MethodsBeforeKeyType(item: Json, env: Env, names: seq<Json>, j: nat)
    requires Index(item, "methods").Ok? && Iterate(Index(item, "methods").value) == Ok(names)
    requires j < |names| && LookupSignMethod(names[j], env.signMethodNames).Err?
    requires forall i :: 0 <= i < j ==> LookupSignMethod(names[i], env.signMethodNames).Ok?
    ensures IssuerOf(item, env) == Err(LookupSignMethod(names[j], env.signMethodNames).error)
  {
    MapAllFirstErr(names, (n: Json) => LookupSignMethod(n, env.signMethodNames), j);
  }

  /**
   * The first issuer that cannot be built aborts the load with its error:
   * no dictionary, partial or not, is returned.
   */
  lemma ValidationFirstError(doc: Json, env: Env, items: seq<Json>, k: nat)
    requires doc.JObject? && Present(doc.fields, "jwt_validation").Some?
    requires Iterate(Present(doc.fields, "jwt_validation").value) == Ok(items)
    requires k < |items| && IssuerOf(items[k], env).Err?
    requires forall i :: 0 <= i < k ==> IssuerOf(items[i], env).Ok?
    ensures LoadSpec(doc, env) == Err(IssuerOf(items[k], env).error)
  {
    MapAllFirstErr(items, (item: Json) => IssuerOf(item, env), k);
  }

  /**
   * An unknown sign-method name in an issuer aborts the whole load with
   * `KeyError`, provided nothing failed before it.
   */
  lemma UnknownSignMethodAborts(doc: Json, env: Env, items: seq<Json>, k: nat, names: seq<Json>, j: nat)
    requires doc.JObject? && Present(doc.fields, "jwt_validation").Some?
    requires Iterate(Present(doc.fields, "jwt_validation").value) == Ok(items)
    requires k < |items| && forall i :: 0 <= i < k ==> IssuerOf(items[i], env).Ok?
    requires Index(items[k], "methods").Ok? && Iterate(Index(items[k], "methods").value) == Ok(names)
    requires j < |names| && names[j].JString? && names[j].s !in env.signMethodNames
    requires forall i :: 0 <= i < j ==> LookupSignMethod(names[i], env.signMethodNames).Ok?
    ensures LoadSpec(doc, env) == Err(UnknownSignMethod(names[j]))
  {
    MethodsBeforeKeyType(items[k], env, names, j);
    ValidationFirstError(doc, env, items, k);
  }

  /**
   * An issuer carries the entry's `name` and the secret decoded by the scheme
   * of `type` from `value`, with no second argument to the decoder.
   */
  lemma IssuerCarriesItem(item: Json, env: Env)
    requires IssuerOf(item, env).Ok?
    ensures Index(item, "secret").Ok? && Index(item, "name").Ok?
    ensures var i := IssuerOf(item, env).value;
            var spec := Index(item, "secret").value;
      Index(spec, "type").Ok? && Index(spec, "value").Ok? &&
      CheckKeyType(Index(spec, "type").value).Ok? &&
      i.name == Index(item, "name").value &&
      Resolve(CheckKeyType(Index(spec, "type").value).value, Index(spec, "value").value,
              None, env.readKeyFile) == Ok(i.secret)
  {
  }

  /**
   * An issuer whose key type is not one of the four schemes fails with
   * `ValueError` once its methods are translated; no decoder, and so no key
   * file reader, is involved.
   */
  lemma UnsupportedKeyTypeInIssuer(item: Json, env: Env, keyType: Json)
    requires Index(item, "methods").Ok? && Iterate(Index(item, "methods").value).Ok?
    requires MethodsOf(Iterate(Index(item, "methods").value).value, env.signMethodNames).Ok?
    requires Index(item, "secret").Ok? && Index(Index(item, "secret").value, "type") == Ok(keyType)
    requires Index(Index(item, "secret").value, "value").Ok?
    requires CheckKeyType(keyType).Err?
    ensures IssuerOf(item, env) == Err(UnsupportedKeyType(keyType))
  {
  }

  // ---------------------------------------------------------------------
  // jwt_creation

  /**
   * In `jwt_creation` the key type is checked before the sign method: an
   * unsupported key type is the error whatever the sign method and issuer
   * hold, and whatever the key file reader would do.
   */
  lemma KeyTypeBeforeSignMethod(section: Json, env: Env, keyType: Json)
    requires Index(section, "secret").Ok? && Index(Index(section, "secret").value, "type") == Ok(keyType)
    requires Index(Index(section, "secret").value, "value").Ok?
    requires CheckKeyType(keyType).Err?
    ensures EncoderOf(section, env) == Err(UnsupportedKeyType(keyType))
  {
  }

  /**
   * The secret is decoded before the sign method is looked up: a bad sign
   * method name is reported only when the secret decoded.
   */
  lemma SignMethodAfterSecret(section: Json, env: Env, name: Json)
    requires Index(section, "secret").Ok?
    requires var spec := Index(section, "secret").value;
      Index(spec, "type").Ok? && Index(spec, "value").Ok? && CheckKeyType(Index(spec, "type").value).Ok? &&
      Resolve(CheckKeyType(Index(spec, "type").value).value, Index(spec, "value").value,
              Present(spec.fields, "secret"), env.readKeyFile).Ok?
    requires Index(section, "signmethod") == Ok(name) && LookupSignMethod(name, env.signMethodNames).Err?
    ensures EncoderOf(section, env) == Err(LookupSignMethod(name, env.signMethodNames).error)
  {
  }

  /**
   * A secret that cannot be decoded is the error of the section whatever
   * `signmethod` and `issuer` hold, so a bad sign method is reported only once
   * the secret has been decoded.
   */
  lemma DecoderBeforeSignMethod(section: Json, env: Env)
    requires Index(section, "secret").Ok?
    requires var spec := Index(section, "secret").value;
      Index(spec, "type").Ok? && Index(spec, "value").Ok? && CheckKeyType(Index(spec, "type").value).Ok? &&
      Resolve(CheckKeyType(Index(spec, "type").value).value, Index(spec, "value").value,
              Present(spec.fields, "secret"), env.readKeyFile).Err?
    ensures var spec := Index(section, "secret").value;
      EncoderOf(section, env) ==
      Err(Resolve(CheckKeyType(Index(spec, "type").value).value, Index(spec, "value").value,
                  Present(spec.fields, "secret"), env.readKeyFile).error)
  {
  }

  /**
   * The encoder carries the section's `issuer`, the enumeration member named
   * by `signmethod`, and the secret decoded by the scheme of `type` from
   * `value`, with the optional `secret` sub-key passed on exactly when it is
   * present and not null.
   */
  lemma EncoderCarriesSection(section: Json, env: Env)
    requires EncoderOf(section, env).Ok?
    ensures section.JObject? && Index(section, "secret").Ok?
    ensures Index(section, "issuer").Ok? && Index(section, "signmethod").Ok?
    ensures var e := EncoderOf(section, env).value;
            var spec := Index(section, "secret").value;
      spec.JObject? && Index(spec, "type").Ok? && Index(spec, "value").Ok? &&
      CheckKeyType(Index(spec, "type").value).Ok? &&
      e.issuer == Index(section, "issuer").value &&
      Index(section, "signmethod").value == JString(e.signMethod.name) &&
      e.signMethod.name in env.signMethodNames &&
      Resolve(CheckKeyType(Index(spec, "type").value).value, Index(spec, "value").value,
              Present(spec.fields, "secret"), env.readKeyFile) == Ok(e.secret)
  {
    var spec := Index(section, "secret").value;
    var name := Index(section, "signmethod").value;
    assert LookupSignMethod(name, env.signMethodNames).Ok?;
  }

  /**
   * A `secret` sub-key given to the one-argument `plain` or `base64plain`
   * decoder is one argument too many: the section fails with `TypeError`.
   */
  lemma ExtraArgumentRejected(section: Json, env: Env, spec: Json, extra: Json)
    requires Index(section, "secret") == Ok(spec) && Index(spec, "value").Ok?
    requires Index(spec, "type") == Ok(JString("plain")) || Index(spec, "type") == Ok(JString("base64plain"))
    requires Present(spec.fields, "secret") == Some(extra)
    ensures EncoderOf(section, env) == Err(ExtraArgument)
  {
  }

  /**
   * With no `secret` sub-key the encoder's secret is the one an issuer with
   * the same `type` and `value` would get.
   */
  lemma EncoderSecretWithoutExtra(section: Json, env: Env, item: Json)
    requires EncoderOf(section, env).Ok? && IssuerOf(item, env).Ok?
    requires Index(section, "secret").Ok? && Index(item, "secret").Ok?
    requires Index(Index(section, "secret").value, "type") == Index(Index(item, "secret").value, "type")
    requires Index(Index(section, "secret").value, "value") == Index(Index(item, "secret").value, "value")
    requires Present(Index(section, "secret").value.fields, "secret").None?
    ensures EncoderOf(section, env).value.secret == IssuerOf(item, env).value.secret
  {
    EncoderCarriesSection(section, env);
    IssuerCarriesItem(item, env);
  }

  /** A jwt_creation section that cannot be built aborts the load once validation succeeded. */
  lemma CreationError(doc: Json, env: Env, section: Json)
    requires doc.JObject? && Present(doc.fields, "jwt_creation") == Some(section)
    requires ValidationOf(Present(doc.fields, "jwt_validation"), env).Ok?
    requires EncoderOf(section, env).Err?
    ensures LoadSpec(doc, env) == Err(EncoderOf(section, env).error)
  {
  }
}
