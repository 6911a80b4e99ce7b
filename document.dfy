/**
 * The parsed configuration document (the value `json.loads` returns) and the
 * Python operations the loader applies to it: subscripting, `dict.get`,
 * iteration with `for`. Each operation returns the exception Python would
 * raise as an error value.
 */
module Document {
  import opened Wrappers

  /** A JSON value. An object keeps its members in document order. */
  datatype Json =
    | JNull
    | JBool(b: bool)
    | JNumber(n: int)
    | JString(s: string)
    | JArray(items: seq<Json>)
    | JObject(fields: seq<(string, Json)>)

  /** The exceptions `load_config` can raise, named after their cause. */
  datatype LoadError =
    | TopLevelNotObject               // AttributeError: `.get` on a document that is not a dict
    | MissingKey(key: string)         // KeyError: `obj[key]` on a dict without key
    | NotSubscriptable(key: string)   // TypeError: `x[key]` on something that is not a dict
    | NotIterable                     // TypeError: `for` over null, a boolean or a number
    | UnknownSignMethod(name: Json)   // KeyError: `SignMethod[name]` for a name that is no member
    | UnhashableSignMethod            // TypeError: `SignMethod[name]` for a list or dict
    | UnsupportedKeyType(keyType: Json) // ValueError: "keytype ... not supported"
    | ExtraArgument                   // TypeError: a one-argument decoder called with two
    | NoEncode                        // AttributeError: `.encode` on a value that is not a string
    | NotAscii                        // ValueError: b64decode of a string with non-ASCII characters
    | NotBytesLike                    // TypeError: b64decode of a value that is neither str nor bytes
    | AltCharsLength                  // AssertionError: altchars is not of length 2
    | InvalidBase64                   // binascii.Error: bad padding or length
    | InvalidUtf8                     // UnicodeDecodeError
    | KeyFileUnreadable(path: Json)   // whatever `load_key_from_disk` raises
    | NotAMapping(section: string)    // TypeError: `Config(**x)` where x is not a dict

  /** The value bound to key in a dict; of repeated keys the last binding wins, as in `json.loads`. */
  function Lookup(fields: seq<(string, Json)>, key: string): (r: Option<Json>)
    ensures r.None? <==> forall i :: 0 <= i < |fields| ==> fields[i].0 != key
    ensures r.Some? ==> exists i :: (0 <= i < |fields| && fields[i] == (key, r.value) &&
                                     forall j :: i < j < |fields| ==> fields[j].0 != key)
  {
    if |fields| == 0 then None
    else if fields[|fields| - 1].0 == key then Some(fields[|fields| - 1].1)
    else Lookup(fields[..|fields| - 1], key)
  }

  /** `j[key]`, which only a dict supports. */
  function Index(j: Json, key: string): (r: Result<Json, LoadError>)
    ensures r.Ok? <==> j.JObject? && Lookup(j.fields, key).Some?
    ensures r.Ok? ==> r.value == Lookup(j.fields, key).value
    ensures r.Err? ==> r.error == (if j.JObject? then MissingKey(key) else NotSubscriptable(key))
  {
    match j
    case JObject(fields) =>
      (match Lookup(fields, key)
       case Some(v) => Ok(v)
       case None => Err(MissingKey(key)))
    case _ => Err(NotSubscriptable(key))
  }

  /** `d.get(key, None)` followed by `is not None`: a missing key and an explicit null read alike. */
  function Present(fields: seq<(string, Json)>, key: string): (r: Option<Json>)
    ensures r.Some? <==> Lookup(fields, key).Some? && Lookup(fields, key).value != JNull
    ensures r.Some? ==> r.value == Lookup(fields, key).value
  {
    match Lookup(fields, key)
    case Some(v) => if v == JNull then None else Some(v)
    case None => None
  }

  /** The distinct keys of a dict in first-insertion order, the order `for k in d` visits them. */
  function Keys(fields: seq<(string, Json)>): (r: seq<string>)
    ensures forall i, j :: 0 <= i < j < |r| ==> r[i] != r[j]
    ensures forall k :: k in r <==> exists i :: 0 <= i < |fields| && fields[i].0 == k
  {
    if |fields| == 0 then []
    else
      var front := Keys(fields[..|fields| - 1]);
      var k := fields[|fields| - 1].0;
      assert forall i :: 0 <= i < |fields| - 1 ==> fields[..|fields| - 1][i] == fields[i];
      if k in front then front else front + [k]
  }

  /** Key x occurs in fields before key y first does. */
  predicate OccursBefore(fields: seq<(string, Json)>, x: string, y: string) {
    exists p :: 0 <= p < |fields| && fields[p].0 == x && forall q :: 0 <= q <= p ==> fields[q].0 != y
  }

  /** For any two keys of ks, the earlier one occurs in fields before the later one first does. */
  predicate FirstOccurrenceOrder(fields: seq<(string, Json)>, ks: seq<string>) {
    forall a, b :: 0 <= a < b < |ks| ==> OccursBefore(fields, ks[a], ks[b])
  }

  /**
   * Keys come in the order of their first occurrence: for any two keys, the
   * earlier one occurs in the members before the later one first does.
   */
  lemma {:induction false} KeysInOrder(fields: seq<(string, Json)>)
    ensures FirstOccurrenceOrder(fields, Keys(fields))
  {
    if |fields| > 0 {
      var init := fields[..|fields| - 1];
      var front := Keys(init);
      var k := fields[|fields| - 1].0;
      KeysInOrder(init);
      assert FirstOccurrenceOrder(init, front);
      var r := Keys(fields);
      assert r == if k in front then front else front + [k];
      forall a, b | 0 <= a < b < |r|
        ensures OccursBefore(fields, r[a], r[b])
      {
        if b < |front| {
          assert r[a] == front[a] && r[b] == front[b];
          assert OccursBefore(init, front[a], front[b]);
          var p :| 0 <= p < |init| && init[p].0 == front[a] && forall q :: 0 <= q <= p ==> init[q].0 != front[b];
          assert fields[p] == init[p];
          assert forall q :: 0 <= q <= p ==> fields[q] == init[q];
          assert OccursBefore(fields, r[a], r[b]);
        } else {
          assert r[b] == k && k !in front && r[a] == front[a];
          assert front[a] in front;
          var p :| 0 <= p < |init| && init[p].0 == front[a];
          forall q | 0 <= q <= p
            ensures fields[q].0 != k
          {
            assert fields[q] == init[q];
          }
          assert fields[p] == init[p];
          assert OccursBefore(fields, r[a], r[b]);
        }
      }
      assert FirstOccurrenceOrder(fields, r);
    } else {
      assert Keys(fields) == [];
    }
  }

  /** The items `for x in j` visits: list items, one-character strings, or dict keys. */
  function Iterate(j: Json): (r: Result<seq<Json>, LoadError>)
    ensures r.Ok? <==> j.JArray? || j.JString? || j.JObject?
    ensures j.JArray? ==> r == Ok(j.items)
    ensures j.JString? ==> (r.Ok? && |r.value| == |j.s| &&
                            forall i :: 0 <= i < |j.s| ==> r.value[i] == JString([j.s[i]]))
    ensures j.JObject? ==> (r.Ok? && |r.value| == |Keys(j.fields)| &&
                            forall i :: 0 <= i < |r.value| ==> r.value[i] == JString(Keys(j.fields)[i]))
    ensures r.Err? ==> r.error == NotIterable
  {
    match j
    case JArray(items) => Ok(items)
    case JString(s) => Ok(seq(|s|, i requires 0 <= i < |s| => JString([s[i]])))
    case JObject(fields) =>
      var ks := Keys(fields);
      Ok(seq(|ks|, i requires 0 <= i < |ks| => JString(ks[i])))
    case _ => Err(NotIterable)
  }
}
