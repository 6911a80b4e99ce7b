# load_config: the configuration assembler of py_auth_amqp_wrapper

`load_config` reads the service's JSON configuration and returns a dictionary
of typed configuration objects:

- a `JWTValidator` holding the trusted issuers of `jwt_validation`;
- a `JWTEncoder` built from `jwt_creation`;
- one settings object each for `ldap_settings`, `db_settings`, `app_config` and
  `amqp_settings`.

Each issuer's and the encoder's secret goes through one of four decoders, named
by its `type` (the `SECRET_METHODS` table):
- `plain`: the value unchanged;
- `base64plain`: base64, then UTF-8 text;
- `base64key`: base64, giving raw bytes;
- `keyfile`: a key file read from disk.

This project models that function in Dafny, starting from the parsed document.

- `document.dfy` (module `Document`): the parsed JSON value. Also the three
  Python operations the loader applies to it, each returning the exception
  Python would raise as an error value:
  - `obj[key]`;
  - `d.get(key, None) is not None`;
  - `for x in obj`.
- `base64.dfy` (module `Base64`): the base64 alphabet and padding of section 4
  of RFC 4648. An encoder, and the decoder that `base64.b64decode` runs with
  `validate=False`: optional `altchars` translation, removal of bytes outside
  the alphabet, then a padded decode.
- `utf8.dfy` (module `Utf8`): UTF-8 as in RFC 3629. `str.encode("utf-8")`, and
  the strict `bytes.decode("utf8")`.
- `secrets.dfy` (module `Secrets`): the key-type check and the four decoders.
  `jwt_creation` can pass an optional second argument to a decoder; this module
  models exactly what each decoder does with it.
- `load_config.dfy` (module `LoadConfig`):
  - `LoadSpec`, the outcome of `load_config` as a function of the document: the
    dictionary, or the first exception raised.
  - The procedure `LoadConfig`, written the way the source works: a dictionary
    filled in place, a `JwtValidator` object that a loop adds issuers to, a
    methods list built by appending. It is proved to produce exactly
    `LoadSpec`'s outcome.
- `load_config_facts.dfy` (module `LoadConfigFacts`): what `load_config`
  promises about its result, proved over `LoadSpec`:
  - which keys the dictionary holds;
  - the order of issuers and of sign methods;
  - which check fails first in each section;
  - what the encoder carries.

Libraries outside this repository become parameters. `Env` carries them: the
member names of the `SignMethod` enumeration, and `load_key_from_disk` as a
function from the value (and the optional extra argument) to the file's bytes,
or `None` when it raises.

The model follows the code in these places:
- An unsupported key type raises `ValueError`, the exception the code raises
  (lines 41-47, 61-67).
- Only the six sections the code reads exist.
- The `secret` sub-key of `jwt_creation` is passed as a second argument to
  every decoder, as lines 69-70 do:
  - the one-argument `plain` and `base64plain` lambdas fail with `TypeError`;
  - `base64key` receives it as `altchars`;
  - `keyfile` hands it to the reader.

## Model

| member | source | states |
|---|---|---|
| Document.Lookup | py_auth_amqp_wrapper/_load_config.py:18 | a key's value is found exactly when some member has that key, and it is the value of the last member with that key |
| Document.Index | py_auth_amqp_wrapper/_load_config.py:38-39 | `obj[key]` succeeds exactly on a dict holding key and yields its value; otherwise KeyError on a dict and TypeError on anything else |
| Document.Present | py_auth_amqp_wrapper/_load_config.py:20-25 | `.get(key, None) is not None` holds exactly when the key is bound to a value other than null, and yields that value |
| Document.Keys | py_auth_amqp_wrapper/_load_config.py:32 | iterating a dict visits each key that occurs in it once and no other |
| Document.KeysInOrder | py_auth_amqp_wrapper/_load_config.py:32 | iterating a dict visits its keys in the order of their first occurrence |
| Document.Iterate | py_auth_amqp_wrapper/_load_config.py:32-35 | `for` visits a list's items, a string's characters as one-character strings, or a dict's keys; null, booleans and numbers raise TypeError |
| Secrets.CheckKeyType | py_auth_amqp_wrapper/_load_config.py:41-47 | a key type passes exactly when it is one of the strings keyfile, base64plain, base64key, plain; the scheme it passes as carries that name; anything else raises ValueError naming the key type |
| Secrets.DecodeData | py_auth_amqp_wrapper/_load_config.py:12 | b64decode accepts a str exactly when it is ASCII, and then works on its ASCII bytes; a non-ASCII str raises ValueError and any other value TypeError |
| Secrets.AltChars | py_auth_amqp_wrapper/_load_config.py:70 | the `altchars` argument is accepted exactly when it is an ASCII str of length 2, and yields its two bytes in order; otherwise it raises the data check's error, or AssertionError for a wrong length |
| Secrets.KeyData | py_auth_amqp_wrapper/_load_config.py:70 | the bytes b64decode decodes exist exactly when the data is accepted and, if given, so is altchars; they are the data's bytes, with the altchars pair translated to '+' and '/' when given; otherwise the error of the data, or else of altchars |
| Secrets.DecodeBase64Key | py_auth_amqp_wrapper/_load_config.py:12 | `base64key` succeeds exactly when the data (and altchars) are accepted and the lenient decode of those bytes succeeds, giving the decoded bytes; a refused data or altchars argument raises that error, and a failed decode raises binascii's error |
| Secrets.DecodeBase64Plain | py_auth_amqp_wrapper/_load_config.py:11 | `base64plain` succeeds exactly on a str whose UTF-8 bytes base64-decode to valid UTF-8, and gives the text whose UTF-8 bytes are those decoded bytes; a non-str raises AttributeError, a failed base64 decode binascii's error, and invalid UTF-8 UnicodeDecodeError |
| Secrets.Resolve | py_auth_amqp_wrapper/_load_config.py:69-72 | with no second argument `plain` returns the value itself and `base64plain` is its decoder; a second argument to `plain` or `base64plain` raises TypeError; `base64key` gets the second argument as altchars; `keyfile` returns exactly the reader's bytes for the value and the second argument, and fails when the reader fails |
| Secrets.PlainIsIdentity | py_auth_amqp_wrapper/_load_config.py:10 | the `plain` decoder returns the configured value unchanged, whatever its JSON type |
| Secrets.ReaderOnlyForKeyFile | py_auth_amqp_wrapper/_load_config.py:9-14 | the decoders other than `keyfile` give the same outcome whatever the key file reader does |
| Secrets.Base64PlainRoundTrip | py_auth_amqp_wrapper/_load_config.py:11 | for any text, the base64 encoding of its UTF-8 bytes decodes under `base64plain` to that text |
| Secrets.Base64KeyRoundTrip | py_auth_amqp_wrapper/_load_config.py:12 | for any bytes, their base64 encoding decodes under `base64key` to those bytes |
| Secrets.Base64KeyUrlSafe | py_auth_amqp_wrapper/_load_config.py:70 | with `"secret": "-_"` passed as `altchars`, any key written in the URL-safe alphabet decodes under `base64key` to itself |
| Secrets.Base64KeyStandardAltChars | py_auth_amqp_wrapper/_load_config.py:70 | with `"secret": "+/"` passed as `altchars`, the `base64key` round trip still holds |
| Base64.DecodeEncode | py_auth_amqp_wrapper/_load_config.py:12 | the padded decoder inverts the RFC 4648 encoder on every byte sequence |
| Base64.UrlSafeTranslate | py_auth_amqp_wrapper/_load_config.py:12 | translating '-' and '_' back to '+' and '/' undoes the URL-safe spelling of any encoding |
| Base64.FilterKeepsAlphabet | py_auth_amqp_wrapper/_load_config.py:12 | discarding non-alphabet bytes leaves a sequence of symbols and padding unchanged |
| Base64.LenientDecodeEncode | py_auth_amqp_wrapper/_load_config.py:12 | b64decode with `validate=False` inverts the encoder on every byte sequence |
| Utf8.DecodeEncode | py_auth_amqp_wrapper/_load_config.py:11 | strict UTF-8 decoding of the encoding of any text gives the text back |
| Utf8.EncodeDecode | py_auth_amqp_wrapper/_load_config.py:11 | bytes that decode strictly to a text are exactly that text's encoding, so a decoder never accepts two byte forms for one text |
| Utf8.EncodeAscii | py_auth_amqp_wrapper/_load_config.py:11 | on ASCII text, UTF-8 encoding agrees with the ASCII bytes |
| LoadConfig.JwtValidator.constructor | py_auth_amqp_wrapper/_load_config.py:30 | a new validator holds no issuers |
| LoadConfig.JwtValidator.AddIssuer | py_auth_amqp_wrapper/_load_config.py:50 | `add_issuer` appends the issuer after the ones already held |
| LoadConfig.MapAll | py_auth_amqp_wrapper/_load_config.py:32-36 | a loop over items succeeds exactly when every item succeeds, then with one result per item in order; otherwise it raises the error of the first failing item, all items before it having succeeded |
| LoadConfig.LookupSignMethod | py_auth_amqp_wrapper/_load_config.py:36 | `SignMethod[name]` succeeds exactly for a string naming a member and yields that member; lists and dicts raise TypeError, every other value KeyError |
| LoadConfig.IssuerOf | py_auth_amqp_wrapper/_load_config.py:33-50 | an entry that is not a dict, or lacks `methods`, fails on `methods` before anything else is read; a built issuer carries the entry's `name`, and each of its methods names a member of the enumeration |
| LoadConfig.EncoderOf | py_auth_amqp_wrapper/_load_config.py:54-80 | a `jwt_creation` section that is not a dict, or lacks `secret`, fails on `secret` before anything else is read; a built encoder carries the section's `issuer` and a sign method that is a member of the enumeration |
| LoadConfig.LoadSpec | py_auth_amqp_wrapper/_load_config.py:17-94 | a document that is not a dict raises AttributeError; a failing `jwt_validation` section decides the error before any other section is looked at; a successful load had both JWT sections succeed |
| LoadConfig.TranslateMethods | py_auth_amqp_wrapper/_load_config.py:34-36 | the appending loop computes the methods list of the names, or the error of the first unknown name |
| LoadConfig.BuildIssuer | py_auth_amqp_wrapper/_load_config.py:33-50 | one pass of the issuer loop builds the issuer of the entry or raises its first error |
| LoadConfig.LoadValidator | py_auth_amqp_wrapper/_load_config.py:30-51 | the loop leaves a new validator holding exactly the issuers of the entries in order, or raises the first entry's error |
| LoadConfig.LoadValidation | py_auth_amqp_wrapper/_load_config.py:29-52 | a validator is built exactly when `jwt_validation` is present, holding the issuers of its entries |
| LoadConfig.PutSettings | py_auth_amqp_wrapper/_load_config.py:82-92 | a present section is stored under its output key and must be a mapping; an absent one leaves the dictionary as it was |
| LoadConfig.LoadConfig | py_auth_amqp_wrapper/_load_config.py:17-94 | the procedure raises exactly the error of the specification or returns a dictionary whose view is the specified one, with a newly created validator under `jwt_validator` |
| LoadConfigFacts.AssembleKeys | py_auth_amqp_wrapper/_load_config.py:27-94 | the dictionary holds each output key exactly when that output was built, under it the built object, and no other key |
| LoadConfigFacts.PresenceExact | py_auth_amqp_wrapper/_load_config.py:20-94 | in a successful load each of the six output keys is present exactly when its top-level section is present and not null, and there is no other key |
| LoadConfigFacts.NoSectionsEmpty | py_auth_amqp_wrapper/_load_config.py:20-94 | a document with none of the six sections (or only nulls) yields the empty dictionary |
| LoadConfigFacts.EmptyDocument | py_auth_amqp_wrapper/_load_config.py:20-27 | `{}` yields `{}` |
| LoadConfigFacts.SettingsKept | py_auth_amqp_wrapper/_load_config.py:82-92 | in a successful load a present settings section is a mapping and its output holds that sub-document |
| LoadConfigFacts.SettingsNotMapping | py_auth_amqp_wrapper/_load_config.py:82-92 | a present settings section that is not a mapping makes the load fail |
| LoadConfigFacts.ValidatorKeepsDocumentOrder | py_auth_amqp_wrapper/_load_config.py:30-52 | the validator holds one issuer per entry of `jwt_validation`, the i-th built from the i-th entry |
| LoadConfigFacts.IssuerMethodsInOrder | py_auth_amqp_wrapper/_load_config.py:34-36 | an issuer's methods list has one member per name, in the order of the names, each the member of that name |
| LoadConfigFacts.MethodsBeforeKeyType | py_auth_amqp_wrapper/_load_config.py:35-48 | within an issuer the first unknown sign method is the error, whatever the secret, its key type and the name hold |
| LoadConfigFacts.ValidationFirstError | py_auth_amqp_wrapper/_load_config.py:32-50 | the first entry of `jwt_validation` that cannot be built aborts the load with its error; no dictionary is returned |
| LoadConfigFacts.UnknownSignMethodAborts | py_auth_amqp_wrapper/_load_config.py:36 | an unknown sign-method name aborts the whole load with KeyError for that name when nothing failed before it |
| LoadConfigFacts.IssuerCarriesItem | py_auth_amqp_wrapper/_load_config.py:38-50 | an issuer carries the entry's name and the secret that the scheme of `type` decodes from `value` with no second argument |
| LoadConfigFacts.UnsupportedKeyTypeInIssuer | py_auth_amqp_wrapper/_load_config.py:41-48 | an unsupported key type in an issuer raises ValueError before any decoder or the key file reader runs |
| LoadConfigFacts.KeyTypeBeforeSignMethod | py_auth_amqp_wrapper/_load_config.py:61-75 | in `jwt_creation` an unsupported key type raises ValueError whatever the sign method, the issuer and the key file reader |
| LoadConfigFacts.SignMethodAfterSecret | py_auth_amqp_wrapper/_load_config.py:69-75 | in `jwt_creation`, once the secret has been decoded, a bad sign method is the section's error |
| LoadConfigFacts.DecoderBeforeSignMethod | py_auth_amqp_wrapper/_load_config.py:69-75 | in `jwt_creation` a secret that cannot be decoded is the section's error whatever `signmethod` and `issuer` hold |
| LoadConfigFacts.EncoderCarriesSection | py_auth_amqp_wrapper/_load_config.py:57-80 | the encoder carries the section's issuer, the member named by `signmethod`, and the secret decoded from `value`, with the `secret` sub-key passed exactly when present and not null |
| LoadConfigFacts.ExtraArgumentRejected | py_auth_amqp_wrapper/_load_config.py:69-70 | a `secret` sub-key with the `plain` or `base64plain` type raises TypeError |
| LoadConfigFacts.EncoderSecretWithoutExtra | py_auth_amqp_wrapper/_load_config.py:69-72 | without the `secret` sub-key, the encoder's secret is the one an issuer gets whose `secret` object has the same `type` and `value`, whatever the order of its members and any other keys it holds |
| LoadConfigFacts.CreationError | py_auth_amqp_wrapper/_load_config.py:54-80 | a `jwt_creation` section that cannot be built aborts the load once validation succeeded |

## Left out

- Reading the file and parsing it (`Path.read_text`, `json.loads`, line 18): the model starts from the parsed document. JSON numbers are integers in the model: the loader passes numbers on as values (into settings objects, `plain` secrets, issuer names and the encoder's `issuer`) but never computes with one or compares one with anything a number could equal. A document holding a non-integer number anywhere, such as a fractional timeout inside `amqp_settings`, cannot be written in the model. Duplicate keys keep the last binding for lookups, as `json.loads` does.
- Document.Json: an object keeps every member, including ones a later member with the same key shadows. `json.loads` keeps only the last. So a settings entry, a `plain` secret or an issuer name holding such an object can tell apart two documents that `json.loads` makes equal. Lookups, iteration and every outcome other than those held values agree with Python.
- `load_key_from_disk` (line 13) is library code doing disk I/O. It is a parameter of the model, with `None` standing for any exception it raises.
- The `SignMethod` enumeration is library code. Its member names are a parameter.
- The internals of `JWTValidator`, `JWTEncoder`, `Issuer`, `LDAPConfig`, `DBConfig`, `AppConfig` and `AMQPConfig` are library code. These include any checks they make on their fields or on duplicate issuers. The validator is a list of issuers that `add_issuer` appends to. The encoder and the issuer are records of their arguments. A settings object is the sub-document it was built from.
- Secrets.Secret: each decoded secret is tagged with the decoder that produced it, while Python's values carry no tag. `plain` with the str "abc" and `base64plain` with "YWJj" both give the str "abc"; `base64key` and a `keyfile` reader returning bytes both give bytes. So two issuers or encoders that Python would hold as equal objects can differ in the model. Whether a load fails, and with which error, is unaffected.
- Base64.Decode: binascii's non-strict mode accepts some malformed padding that this decoder rejects, such as data after the padding or excess padding characters. On every encoder output the two agree (Base64.LenientDecodeEncode).
- Text with lone surrogates cannot be written: a Dafny `char` is a Unicode scalar value. Python's `str.encode("utf-8")` raises on such text.
- The exception values carry a cause, not Python's messages.
- `_runner.py` (database, AMQP connection, queue registration, serve loop), `__main__.py` (command line, exit codes) and `_getlogger.py` (logging setup) are process and network plumbing around the loader.
