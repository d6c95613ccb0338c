/** JavaScript values as the core sees them: the JSON data types plus
    `undefined`, with the few language rules the core depends on —
    truthiness, `||`, property reads, object spread and template-literal
    text. */
module JsonValues {
  import opened Wrappers
  import opened Text

  /** `JUndef` is a present value `undefined`; an absent key is a key that
      is not in the `JObj` map. Numbers are modelled as integers. */
  datatype Json =
    | JUndef
    | JNull
    | JBool(b: bool)
    | JNum(n: int)
    | JStr(s: string)
    | JArr(items: seq<Json>)
    | JObj(fields: map<string, Json>)

  /** Outcome of `JSON.parse`: a value, or the message of the SyntaxError. */
  datatype Parsed = Parsed(value: Json) | SyntaxError(message: string)

  /** `JSON.parse`, left abstract: the grammar is not part of the model. */
  type Parser = string -> Parsed

  const EmptyObject: Json := JObj(map[])

  /** JavaScript truthiness. */
  predicate Truthy(v: Json) {
    match v
    case JUndef => false
    case JNull => false
    case JBool(b) => b
    case JNum(n) => n != 0
    case JStr(s) => s != ""
    case _ => true
  }

  /** The falsy values are exactly `undefined`, `null`, `false`, `0` and
      the empty string (`NaN` and `-0` do not arise with integers). */
  lemma FalsyValues(v: Json)
    ensures !Truthy(v) <==> v == JUndef || v == JNull || v == JBool(false) || v == JNum(0) || v == JStr("")
  {
  }

  /** `typeof v === 'object' && v !== null`: arrays are objects too. */
  predicate IsObjectLike(v: Json) {
    v.JArr? || v.JObj?
  }

  predicate IsNullish(v: Json) {
    v.JUndef? || v.JNull?
  }

  /** `obj[k]` on an object: `undefined` when the key is absent. */
  function Get(m: map<string, Json>, k: string): Json {
    if k in m then m[k] else JUndef
  }

  /** `a || b` */
  function Or(a: Json, b: Json): (r: Json)
    ensures Truthy(a) ==> r == a
    ensures !Truthy(a) ==> r == b
  {
    if Truthy(a) then a else b
  }

  /** `v.key`, which throws a TypeError on `null` and `undefined`. For the
      property names the core reads (none of which a prototype of a
      primitive or of an array defines) any other non-object gives
      `undefined`. */
  function Prop(v: Json, key: string): (r: Result<Json, string>)
    ensures r.Failure? <==> IsNullish(v)
    ensures v.JObj? ==> r == Success(Get(v.fields, key))
  {
    match v
    case JUndef => Failure("Cannot read properties of undefined (reading '" + key + "')")
    case JNull => Failure("Cannot read properties of null (reading '" + key + "')")
    case JObj(m) => Success(Get(m, key))
    case _ => Success(JUndef)
  }

  /** `v?.key`: `undefined` instead of a TypeError on `null`/`undefined`. */
  function OptProp(v: Json, key: string): Json {
    match v
    case JObj(m) => Get(m, key)
    case _ => JUndef
  }

  /** The own properties of an array, `{"0": items[0], "1": items[1], …}`. */
  function IndexedEntries(items: seq<Json>): (r: map<string, Json>)
    ensures forall k :: k in r ==> |k| >= 1 && '0' <= k[0] <= '9'
  {
    if items == [] then map[]
    else IndexedEntries(items[..|items| - 1])[NatToString(|items| - 1) := items[|items| - 1]]
  }

  /** The decimal renderings of the indices below `n`. */
  function IndexKeys(n: nat): (r: set<string>)
    ensures forall i :: 0 <= i < n ==> NatToString(i) in r
  {
    if n == 0 then {} else IndexKeys(n - 1) + {NatToString(n - 1)}
  }

  /** The keys of the spread array are exactly its indices. */
  lemma {:induction false} IndexedEntriesKeys(items: seq<Json>)
    ensures IndexedEntries(items).Keys == IndexKeys(|items|)
  {
    if items != [] {
      IndexedEntriesKeys(items[..|items| - 1]);
    }
  }

  /** Each index of the spread array holds its element. */
  lemma {:induction false} IndexedEntriesValues(items: seq<Json>)
    ensures forall i :: 0 <= i < |items| ==>
              NatToString(i) in IndexedEntries(items) && IndexedEntries(items)[NatToString(i)] == items[i]
  {
    if items != [] {
      var n := |items| - 1;
      var prefix := items[..n];
      IndexedEntriesValues(prefix);
      IndexKeysFresh(n);
      var r := IndexedEntries(items);
      assert r == IndexedEntries(prefix)[NatToString(n) := items[n]];
      forall i | 0 <= i < n ensures NatToString(i) in r && r[NatToString(i)] == items[i] {
        assert prefix[i] == items[i];
      }
    }
  }

  /** The index written last is not among the earlier ones. */
  lemma IndexKeysFresh(n: nat)
    ensures forall i :: 0 <= i < n ==> NatToString(i) != NatToString(n)
  {
    forall i | 0 <= i < n ensures NatToString(i) != NatToString(n) {
      if NatToString(i) == NatToString(n) {
        NatToStringInjective(i, n);
      }
    }
  }

  /** The properties `{...v}` copies: an object's own keys, an array's or a
      string's indices, nothing for other values. */
  function Spread(v: Json): (r: map<string, Json>)
    ensures v.JObj? ==> r == v.fields
    ensures !IsObjectLike(v) && !v.JStr? ==> r == map[]
    ensures v.JArr? ==> forall i :: 0 <= i < |v.items| ==> NatToString(i) in r && r[NatToString(i)] == v.items[i]
    ensures v.JArr? ==> r.Keys == IndexKeys(|v.items|)
    ensures v.JStr? ==> forall i :: 0 <= i < |v.s| ==> NatToString(i) in r && r[NatToString(i)] == JStr([v.s[i]])
  {
    match v
    case JObj(m) => m
    case JArr(items) => IndexedEntriesKeys(items); IndexedEntriesValues(items); IndexedEntries(items)
    case JStr(s) =>
      var chars := seq(|s|, i requires 0 <= i < |s| => JStr([s[i]]));
      IndexedEntriesValues(chars); IndexedEntries(chars)
    case _ => map[]
  }

  /** No array or string index is a word key such as "value" or "id". */
  lemma IndexKeysAreNotWords(items: seq<Json>, k: string)
    requires k != [] && !('0' <= k[0] <= '9')
    ensures k !in IndexedEntries(items)
  {
  }

  /** `String(v)`, the text a template literal `${v}` inserts. */
  function ToText(v: Json): (r: string)
    ensures v.JStr? ==> r == v.s
    ensures v.JUndef? ==> r == "undefined"
    ensures v.JNull? ==> r == "null"
    ensures v.JObj? ==> r == "[object Object]"
    ensures v.JArr? && v.items == [] ==> r == ""
    ensures v.JArr? && |v.items| == 1 ==> r == (if IsNullish(v.items[0]) then "" else ToText(v.items[0]))
  {
    match v
    case JUndef => "undefined"
    case JNull => "null"
    case JBool(b) => if b then "true" else "false"
    case JNum(n) => IntToString(n)
    case JStr(s) => s
    case JArr(items) => JoinElements(items)
    case JObj(_) => "[object Object]"
  }

  /** `items.join(",")`: `null` and `undefined` elements become "". */
  function JoinElements(items: seq<Json>): string
    decreases items
  {
    if items == [] then ""
    else
      var head := if IsNullish(items[0]) then "" else ToText(items[0]);
      if |items| == 1 then head else head + "," + JoinElements(items[1..])
  }

  /** Distinct numbers give distinct text, so ids interpolated into a URL
      address distinct records. */
  lemma NumberTextInjective(a: int, b: int)
    requires ToText(JNum(a)) == ToText(JNum(b))
    ensures a == b
  {
    IntToStringInjective(a, b);
  }
}
