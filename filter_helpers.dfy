/** The filter compiler: comparator aliases, relation-value coercion, the
    normaliser over a duck-typed filter tree and the merger of the basic
    and the advanced filter. */
module FilterHelpers {
  import opened Wrappers
  import opened Text
  import opened JsonValues

  /** COMPARATOR_TO_BACKEND: the UI comparator tokens, exactly these ten
      keys, and the backend symbols they stand for. */
  function ComparatorToBackend(key: string): (r: Option<string>)
    ensures r.Some? ==> IsBackendSymbol(r.value)
  {
    match key
    case "eq" => Some("=")
    case "equals" => Some("=")
    case "==" => Some("=")
    case "neq" => Some("!=")
    case "!==" => Some("!=")
    case "<>" => Some("!=")
    case "gt" => Some(">")
    case "gte" => Some(">=")
    case "lt" => Some("<")
    case "lte" => Some("<=")
    case _ => None
  }

  /** The symbols the backend understands. */
  predicate IsBackendSymbol(c: string) {
    c == "=" || c == "!=" || c == ">" || c == ">=" || c == "<" || c == "<="
  }

  /** A comparator that the alias table no longer rewrites. */
  predicate CanonicalComparator(c: string) {
    ComparatorToBackend(Lower(Trim(c))).None?
  }

  /** normalizeComparatorToBackend: `None` (undefined) for a non-string; the
      backend symbol for a known alias, looked up after trimming and
      lower-casing; otherwise the raw string exactly as given. */
  function NormalizeComparator(raw: Json): (r: Option<string>)
    ensures r.Some? <==> raw.JStr?
    ensures r.Some? ==> IsBackendSymbol(r.value) || r.value == raw.s
    ensures r.Some? && r.value != raw.s ==> !CanonicalComparator(raw.s)
  {
    match raw
    case JStr(s) =>
      var symbol := ComparatorToBackend(Lower(Trim(s)));
      if symbol.Some? then symbol else Some(s)
    case _ => None
  }

  /** Lower-casing leaves a string without ASCII capitals unchanged. */
  lemma LowerOfLower(s: string)
    requires forall i :: 0 <= i < |s| ==> !('A' <= s[i] <= 'Z')
    ensures Lower(s) == s
  {
  }

  predicate ComparisonChars(c: string) {
    |c| >= 1 && forall i :: 0 <= i < |c| ==> c[i] in {'=', '!', '<', '>'}
  }

  lemma ComparisonCharsTrimmed(c: string)
    requires ComparisonChars(c)
    ensures Trim(c) == c
  {
    assert Trimmed(c);
    TrimOfTrimmed(c);
  }

  lemma ComparisonCharsLower(c: string)
    requires ComparisonChars(c)
    ensures Lower(c) == c
  {
    LowerOfLower(c);
  }

  /** A string of comparison characters only is its own lookup key. */
  lemma SymbolIsOwnKey(c: string)
    requires ComparisonChars(c)
    ensures Trimmed(c) && Lower(Trim(c)) == c
  {
    ComparisonCharsTrimmed(c);
    ComparisonCharsLower(c);
  }

  lemma SymbolCanonical(c: string)
    requires ComparisonChars(c) && ComparatorToBackend(c).None?
    ensures CanonicalComparator(c) && Trimmed(c)
  {
    SymbolIsOwnKey(c);
  }

  /** Every backend symbol is canonical: no alias key is a symbol. */
  lemma BackendSymbolsCanonical(c: string)
    requires IsBackendSymbol(c)
    ensures CanonicalComparator(c) && Trimmed(c)
  {
    if c == "=" {
      SymbolCanonical("=");
    } else if c == "!=" {
      SymbolCanonical("!=");
    } else if c == ">" {
      SymbolCanonical(">");
    } else if c == ">=" {
      SymbolCanonical(">=");
    } else if c == "<" {
      SymbolCanonical("<");
    } else {
      SymbolCanonical("<=");
    }
  }

  /** A comparator's normal form is canonical, and normalising it again
      gives it back unchanged. */
  lemma NormalizeComparatorIdempotent(raw: Json)
    requires raw.JStr?
    ensures CanonicalComparator(NormalizeComparator(raw).value)
    ensures NormalizeComparator(JStr(NormalizeComparator(raw).value)) == NormalizeComparator(raw)
  {
    var c := NormalizeComparator(raw).value;
    if IsBackendSymbol(c) {
      BackendSymbolsCanonical(c);
    }
  }

  /** Each alias, in any letter case and with surrounding whitespace, maps to
      its backend symbol. */
  lemma ComparatorAliases(s: string)
    ensures Lower(Trim(s)) in {"eq", "equals", "=="} ==> NormalizeComparator(JStr(s)) == Some("=")
    ensures Lower(Trim(s)) in {"neq", "!==", "<>"} ==> NormalizeComparator(JStr(s)) == Some("!=")
    ensures Lower(Trim(s)) == "gt" ==> NormalizeComparator(JStr(s)) == Some(">")
    ensures Lower(Trim(s)) == "gte" ==> NormalizeComparator(JStr(s)) == Some(">=")
    ensures Lower(Trim(s)) == "lt" ==> NormalizeComparator(JStr(s)) == Some("<")
    ensures Lower(Trim(s)) == "lte" ==> NormalizeComparator(JStr(s)) == Some("<=")
  {
    var key := Lower(Trim(s));
    AliasLookup(key);
    NormalizeComparatorByKey(s);
  }

  /** The alias table, key by key. */
  lemma AliasLookup(key: string)
    ensures key in {"eq", "equals", "=="} ==> ComparatorToBackend(key) == Some("=")
    ensures key in {"neq", "!==", "<>"} ==> ComparatorToBackend(key) == Some("!=")
    ensures key == "gt" ==> ComparatorToBackend(key) == Some(">")
    ensures key == "gte" ==> ComparatorToBackend(key) == Some(">=")
    ensures key == "lt" ==> ComparatorToBackend(key) == Some("<")
    ensures key == "lte" ==> ComparatorToBackend(key) == Some("<=")
  {
  }

  /** normalizeComparatorToBackend on a string, through its lookup key. */
  lemma NormalizeComparatorByKey(s: string)
    ensures var found := ComparatorToBackend(Lower(Trim(s)));
            NormalizeComparator(JStr(s)) == if found.Some? then found else Some(s)
  {
  }

  /** An unknown token, a backend symbol among them, comes back exactly as
      given, untrimmed and in its own letter case. */
  lemma ComparatorPassThrough(s: string)
    requires CanonicalComparator(s)
    ensures NormalizeComparator(JStr(s)) == Some(s)
  {
  }

  // The text steps of the two examples below, one lemma each: every step
  // unfolds the recursive Text functions on a literal, and separate
  // lemmas keep each of those proofs small.

  lemma TrimStartGte()
    ensures TrimStart(" GTE ") == "GTE "
  {
    assert " GTE "[1..] == "GTE ";
    assert TrimStart("GTE ") == "GTE " by {
      assert "GTE "[0] == 'G';
    }
  }

  lemma TrimEndGte()
    ensures TrimEnd("GTE ") == "GTE"
  {
    assert "GTE "[..3] == "GTE";
    assert TrimEnd("GTE") == "GTE" by {
      assert "GTE"[2] == 'E';
    }
  }

  lemma LowerGte()
    ensures Lower("GTE") == "gte"
  {
  }

  lemma TrimStartLike()
    ensures TrimStart(" like ") == "like "
  {
    assert " like "[1..] == "like ";
    assert TrimStart("like ") == "like " by {
      assert "like "[0] == 'l';
    }
  }

  lemma TrimEndLike()
    ensures TrimEnd("like ") == "like"
  {
    assert "like "[..4] == "like";
    assert TrimEnd("like") == "like" by {
      assert "like"[3] == 'e';
    }
  }

  lemma LowerLike()
    ensures Lower("like") == "like"
  {
  }

  /** A padded upper-case alias is recognised. */
  lemma ComparatorExampleAlias()
    ensures NormalizeComparator(JStr(" GTE ")) == Some(">=")
  {
    TrimStartGte();
    TrimEndGte();
    LowerGte();
    AliasLookup("gte");
    NormalizeComparatorByKey(" GTE ");
  }

  /** A padded unknown token is kept with its padding. */
  lemma ComparatorExampleUnknown()
    ensures NormalizeComparator(JStr(" like ")) == Some(" like ")
  {
    TrimStartLike();
    TrimEndLike();
    LowerLike();
    assert ComparatorToBackend("like").None?;
    NormalizeComparatorByKey(" like ");
  }

  /** What `obj['value']` reads on a non-null object: the `value` key of a
      plain object, `undefined` on an array. */
  function ValueProp(v: Json): Json {
    match v
    case JObj(m) => Get(m, "value")
    case _ => JUndef
  }

  /** prepareValueFiltersSuppa: a non-null object (arrays included) becomes a
      shallow copy of its own properties with `id` set to its `value`; every
      other value is returned unchanged. It does not recurse. */
  function PrepareValue(v: Json): (r: Json)
    ensures !IsObjectLike(v) ==> r == v
    ensures IsObjectLike(v) ==> r.JObj? && r.fields == Spread(v)["id" := ValueProp(v)]
  {
    if IsObjectLike(v) then JObj(Spread(v)["id" := ValueProp(v)]) else v
  }

  /** A value in its coerced form: not an object, or a plain object whose
      `id` mirrors its `value`. */
  predicate Coerced(v: Json) {
    !IsObjectLike(v) || (v.JObj? && "id" in v.fields && v.fields["id"] == Get(v.fields, "value"))
  }

  /** Coercion yields coerced values, and coerced values are its fixed
      points; so coercing twice is coercing once. */
  lemma PrepareValueCanonical(v: Json)
    ensures Coerced(PrepareValue(v))
    ensures Coerced(v) ==> PrepareValue(v) == v
    ensures PrepareValue(PrepareValue(v)) == PrepareValue(v)
  {
    if v.JArr? {
      IndexKeysAreNotWords(v.items, "value");
    }
  }

  predicate IsCondition(m: map<string, Json>) {
    Get(m, "type") == JStr("condition")
  }

  /** The coerced `value` of a condition: an array is coerced element by
      element (one level only), anything else is coerced as a whole. */
  function CoerceConditionValue(v: Json): (r: Json)
    ensures v.JArr? <==> r.JArr?
    ensures v.JArr? ==> |r.items| == |v.items|
    ensures v.JArr? ==> forall i :: 0 <= i < |v.items| ==> r.items[i] == PrepareValue(v.items[i])
    ensures !v.JArr? ==> r == PrepareValue(v)
  {
    if v.JArr? then JArr(seq(|v.items|, i requires 0 <= i < |v.items| => PrepareValue(v.items[i])))
    else PrepareValue(v)
  }

  /** The condition node after normalisation: the comparator is rewritten
      only when the normalised token is a non-empty string, and the `value`
      key is always written, `undefined` when it was absent. */
  function NormalizeCondition(m: map<string, Json>): (r: map<string, Json>)
    ensures r.Keys == m.Keys + {"value"}
    ensures forall k :: k in m && k != "comparator" && k != "value" ==> r[k] == m[k]
    ensures r["value"] == CoerceConditionValue(Get(m, "value"))
    ensures Get(r, "comparator") == Get(RewriteComparator(m), "comparator")
  {
    RewriteComparator(m)["value" := CoerceConditionValue(Get(m, "value"))]
  }

  /** The comparator step: rewritten only when the normalised token is a
      non-empty string; no other key changes. */
  function RewriteComparator(m: map<string, Json>): (r: map<string, Json>)
    ensures r.Keys == m.Keys
    ensures forall k :: k in m && k != "comparator" ==> r[k] == m[k]
  {
    match NormalizeComparator(Get(m, "comparator"))
    case Some(c) => if c != "" then m["comparator" := JStr(c)] else m
    case None => m
  }

  /** prepareFiltersSuppa, as the tree it leaves behind: arrays and the
      `conditions` list of a non-condition object are normalised element by
      element at any depth, condition nodes are rewritten by
      NormalizeCondition, and every other value is left unchanged. */
  function NormalizeFilter(f: Json): (r: Json)
    ensures !IsObjectLike(f) ==> r == f
    ensures f.JArr? <==> r.JArr?
    ensures f.JArr? ==> |r.items| == |f.items|
    ensures f.JObj? ==> r.JObj? && Get(r.fields, "type") == Get(f.fields, "type")
    ensures f.JArr? ==> forall i :: 0 <= i < |f.items| ==> r.items[i] == NormalizeFilter(f.items[i])
    ensures f.JObj? && IsCondition(f.fields) ==> r == JObj(NormalizeCondition(f.fields))
    ensures f.JObj? && !IsCondition(f.fields) && "conditions" in f.fields && f.fields["conditions"].JArr? ==>
              && r.fields.Keys == f.fields.Keys
              && (forall k :: k in f.fields && k != "conditions" ==> r.fields[k] == f.fields[k])
              && r.fields["conditions"].JArr?
              && |r.fields["conditions"].items| == |f.fields["conditions"].items|
              && forall i :: 0 <= i < |f.fields["conditions"].items| ==>
                   r.fields["conditions"].items[i] == NormalizeFilter(f.fields["conditions"].items[i])
    ensures f.JObj? && !IsCondition(f.fields) && !("conditions" in f.fields && f.fields["conditions"].JArr?) ==>
              r == f
  {
    match f
    case JArr(items) => JArr(NormalizeEach(items))
    case JObj(m) =>
      if IsCondition(m) then JObj(NormalizeCondition(m))
      else if "conditions" in m && m["conditions"].JArr? then
        JObj(m["conditions" := JArr(NormalizeEach(m["conditions"].items))])
      else f
    case _ => f
  }

  function NormalizeEach(items: seq<Json>): (r: seq<Json>)
    ensures |r| == |items|
    ensures forall i :: 0 <= i < |items| ==> r[i] == NormalizeFilter(items[i])
    decreases items, 0
  {
    seq(|items|, i requires 0 <= i < |items| => NormalizeFilter(items[i]))
  }

  /** A condition's `value` in coerced form: element-wise for an array. */
  predicate ValueCoerced(v: Json) {
    if v.JArr? then forall i :: 0 <= i < |v.items| ==> Coerced(v.items[i]) else Coerced(v)
  }

  /** A filter tree in normal form: every condition reachable through arrays
      and `conditions` lists has a canonical comparator (or a non-string
      one), carries a `value` key, and that value is coerced (element-wise
      when it is an array). */
  predicate Normalized(f: Json) {
    match f
    case JArr(items) => forall i :: 0 <= i < |items| ==> Normalized(items[i])
    case JObj(m) =>
      if IsCondition(m) then
        && "value" in m
        && ValueCoerced(m["value"])
        && (Get(m, "comparator").JStr? ==> CanonicalComparator(Get(m, "comparator").s))
      else if "conditions" in m && m["conditions"].JArr? then
        forall i :: 0 <= i < |m["conditions"].items| ==> Normalized(m["conditions"].items[i])
      else true
    case _ => true
  }

  /** The coerced `value` is in coerced form, and a value in coerced form
      is not changed by coercion. */
  lemma CoerceConditionValueCoerced(v: Json)
    ensures ValueCoerced(CoerceConditionValue(v))
    ensures ValueCoerced(v) ==> CoerceConditionValue(v) == v
  {
    if v.JArr? {
      var r := CoerceConditionValue(v);
      forall i | 0 <= i < |v.items| ensures Coerced(r.items[i]) {
        PrepareValueCanonical(v.items[i]);
      }
      if ValueCoerced(v) {
        forall i | 0 <= i < |v.items| ensures r.items[i] == v.items[i] {
          PrepareValueCanonical(v.items[i]);
        }
      }
    } else {
      PrepareValueCanonical(v);
    }
  }

  /** After the comparator step a string comparator is canonical. */
  lemma NormalizedComparatorCanonical(m: map<string, Json>)
    ensures var c := Get(RewriteComparator(m), "comparator");
            c.JStr? ==> CanonicalComparator(c.s)
  {
    var c := Get(m, "comparator");
    if c.JStr? {
      NormalizeComparatorIdempotent(c);
      if NormalizeComparator(c).value != "" {
        ComparatorRewritten(m);
      } else {
        EmptyComparatorKept(m);
      }
    } else {
      NonStringComparatorKept(m);
    }
  }

  lemma ComparatorRewritten(m: map<string, Json>)
    requires Get(m, "comparator").JStr? && NormalizeComparator(Get(m, "comparator")).value != ""
    ensures Get(RewriteComparator(m), "comparator") == JStr(NormalizeComparator(Get(m, "comparator")).value)
  {
  }

  /** An empty comparator normalises to itself and is kept. */
  lemma EmptyComparatorKept(m: map<string, Json>)
    requires Get(m, "comparator").JStr? && NormalizeComparator(Get(m, "comparator")).value == ""
    ensures Get(m, "comparator") == JStr("")
    ensures RewriteComparator(m) == m
  {
    assert !IsBackendSymbol("");
  }

  lemma NonStringComparatorKept(m: map<string, Json>)
    requires !Get(m, "comparator").JStr?
    ensures RewriteComparator(m) == m
  {
  }

  lemma NormalizeConditionNormalized(m: map<string, Json>)
    requires IsCondition(m)
    ensures IsCondition(NormalizeCondition(m)) && Normalized(JObj(NormalizeCondition(m)))
  {
    CoerceConditionValueCoerced(Get(m, "value"));
    NormalizedComparatorCanonical(m);
    assert Get(NormalizeCondition(m), "comparator") == Get(RewriteComparator(m), "comparator");
  }

  lemma NormalizedConditionFixed(m: map<string, Json>)
    requires IsCondition(m) && Normalized(JObj(m))
    ensures NormalizeCondition(m) == m
  {
    CoerceConditionValueCoerced(m["value"]);
  }

  /** Normalisation always yields a tree in normal form. */
  lemma {:induction false} NormalizeFilterNormalized(f: Json)
    ensures Normalized(NormalizeFilter(f))
  {
    match f
    case JArr(items) =>
      forall i | 0 <= i < |items| ensures Normalized(NormalizeEach(items)[i]) {
        NormalizeFilterNormalized(items[i]);
      }
    case JObj(m) =>
      if IsCondition(m) {
        NormalizeConditionNormalized(m);
      } else if "conditions" in m && m["conditions"].JArr? {
        var items := m["conditions"].items;
        forall i | 0 <= i < |items| ensures Normalized(NormalizeEach(items)[i]) {
          NormalizeFilterNormalized(items[i]);
        }
      }
    case _ =>
  }

  /** A tree in normal form is left unchanged by normalisation. */
  lemma {:induction false} NormalizedIsFixed(f: Json)
    requires Normalized(f)
    ensures NormalizeFilter(f) == f
  {
    match f
    case JArr(items) =>
      forall i | 0 <= i < |items| ensures NormalizeEach(items)[i] == items[i] {
        NormalizedIsFixed(items[i]);
      }
    case JObj(m) =>
      if IsCondition(m) {
        NormalizedConditionFixed(m);
      } else if "conditions" in m && m["conditions"].JArr? {
        var items := m["conditions"].items;
        forall i | 0 <= i < |items| ensures NormalizeEach(items)[i] == items[i] {
          NormalizedIsFixed(items[i]);
        }
        assert NormalizeEach(items) == items;
        assert m["conditions" := JArr(items)] == m;
      }
    case _ =>
  }

  /** prepareFiltersSuppa is idempotent; its fixed points are exactly the
      trees in normal form. */
  lemma NormalizeFilterIdempotent(f: Json)
    ensures NormalizeFilter(NormalizeFilter(f)) == NormalizeFilter(f)
    ensures NormalizeFilter(f) == f <==> Normalized(f)
  {
    NormalizeFilterNormalized(f);
    NormalizedIsFixed(NormalizeFilter(f));
    if Normalized(f) {
      NormalizedIsFixed(f);
    }
  }

  /** prepareFiltersSuppa, walking the tree the way the source does: arrays
      and `conditions` lists element by element, conditions rewritten by
      PrepareCondition, every other value left alone. */
  method PrepareFilters(f: Json) returns (r: Json)
    ensures r == NormalizeFilter(f)
    decreases f, 1
  {
    if !Truthy(f) {
      return f;
    }
    if f.JArr? {
      var items := PrepareEach(f.items);
      return JArr(items);
    }
    if !f.JObj? {
      return f;
    }
    if IsCondition(f.fields) {
      var m := PrepareCondition(f.fields);
      return JObj(m);
    }
    if "conditions" in f.fields && f.fields["conditions"].JArr? {
      var conditions := PrepareEach(f.fields["conditions"].items);
      return JObj(f.fields["conditions" := JArr(conditions)]);
    }
    return f;
  }

  /** The `for … of` loop over an array or a `conditions` list. */
  method PrepareEach(items: seq<Json>) returns (out: seq<Json>)
    ensures out == NormalizeEach(items)
    decreases items, 2
  {
    out := [];
    for i := 0 to |items|
      invariant out == NormalizeEach(items)[..i]
    {
      assert items[i] in items;
      var item := PrepareFilters(items[i]);
      out := out + [item];
    }
  }

  /** The rewrite of one condition node: `comparator` only when the
      normalised token is truthy, `value` always. */
  method PrepareCondition(fields: map<string, Json>) returns (r: map<string, Json>)
    ensures r == NormalizeCondition(fields)
  {
    r := PrepareComparator(fields);
    var v := Get(fields, "value");
    var coerced: Json;
    if v.JArr? {
      var mapped := PrepareValues(v.items);
      coerced := JArr(mapped);
    } else {
      coerced := PrepareValue(v);
    }
    r := r["value" := coerced];
  }

  /** The comparator assignment of a condition node. */
  method PrepareComparator(fields: map<string, Json>) returns (r: map<string, Json>)
    ensures r == RewriteComparator(fields)
  {
    r := fields;
    var normalized := NormalizeComparator(Get(fields, "comparator"));
    if normalized.Some? && normalized.value != "" {
      r := r["comparator" := JStr(normalized.value)];
    }
  }

  /** `value.map(prepareValueFiltersSuppa)` on a condition's array value. */
  method PrepareValues(items: seq<Json>) returns (mapped: seq<Json>)
    ensures JArr(mapped) == CoerceConditionValue(JArr(items))
  {
    mapped := [];
    for i := 0 to |items|
      invariant |mapped| == i
      invariant forall k :: 0 <= k < i ==> mapped[k] == PrepareValue(items[k])
    {
      mapped := mapped + [PrepareValue(items[i])];
    }
  }

  /** The `conditions` array of a filter object, or [] when it is absent or
      not an array. */
  function ConditionList(m: map<string, Json>): seq<Json> {
    if "conditions" in m && m["conditions"].JArr? then m["conditions"].items else []
  }

  /** The conditions and the remaining keys the merger takes from `basic`:
      a non-object or an array counts as {}. */
  function BasicParts(basic: Json): (seq<Json>, map<string, Json>) {
    if basic.JObj? then (ConditionList(basic.fields), basic.fields - {"conditions"})
    else ([], map[])
  }

  /** The conditions and remaining keys taken from `advanced`: an array is
      a bare list of conditions, an object is split like `basic`, anything
      else contributes nothing. */
  function AdvancedParts(advanced: Json): (seq<Json>, map<string, Json>) {
    match advanced
    case JArr(items) => (items, map[])
    case JObj(m) => (ConditionList(m), m - {"conditions"})
    case _ => ([], map[])
  }

  /** compareFiltersSuppa: basic conditions then advanced ones, none
      dropped, under a `conditions` key that exists only when the list is
      non-empty; every other key of either side, the advanced side winning
      on a collision. */
  function MergeFilters(basic: Json, advanced: Json): (r: map<string, Json>)
    ensures "conditions" in r <==> BasicParts(basic).0 + AdvancedParts(advanced).0 != []
    ensures "conditions" in r ==> r["conditions"] == JArr(BasicParts(basic).0 + AdvancedParts(advanced).0)
    ensures forall k :: k != "conditions" ==>
              (k in r <==> k in BasicParts(basic).1 || k in AdvancedParts(advanced).1)
    ensures forall k :: k in AdvancedParts(advanced).1 ==> r[k] == AdvancedParts(advanced).1[k]
    ensures forall k :: k in BasicParts(basic).1 && k !in AdvancedParts(advanced).1 ==>
              r[k] == BasicParts(basic).1[k]
  {
    var (basicConditions, basicRest) := BasicParts(basic);
    var (advancedConditions, advancedRest) := AdvancedParts(advanced);
    var rest := basicRest + advancedRest;
    var merged := basicConditions + advancedConditions;
    if |merged| > 0 then rest["conditions" := JArr(merged)] else rest
  }

  /** Merging two empty filters gives the empty filter, with no
      `conditions` key; so does merging values that are not objects. */
  lemma MergeEmpty(basic: Json, advanced: Json)
    requires basic == EmptyObject || !basic.JObj?
    requires advanced == EmptyObject || !IsObjectLike(advanced)
    ensures MergeFilters(basic, advanced) == map[]
  {
  }

  /** A bare array as the advanced filter is the same as an advanced object
      holding only that `conditions` array. */
  lemma MergeAdvancedArray(basic: Json, conditions: seq<Json>)
    ensures MergeFilters(basic, JArr(conditions))
         == MergeFilters(basic, JObj(map["conditions" := JArr(conditions)]))
  {
    var a := MergeFilters(basic, JArr(conditions));
    var b := MergeFilters(basic, JObj(map["conditions" := JArr(conditions)]));
    assert map["conditions" := JArr(conditions)] - {"conditions"} == map[];
    assert a.Keys == b.Keys;
  }

  /** An empty advanced filter leaves a basic filter object as it is, as
      long as its `conditions` is absent or a non-empty array. */
  lemma MergeRightIdentity(m: map<string, Json>)
    requires "conditions" in m ==> m["conditions"].JArr? && m["conditions"].items != []
    ensures MergeFilters(JObj(m), EmptyObject) == m
  {
    var r := MergeFilters(JObj(m), EmptyObject);
    assert r.Keys == m.Keys;
    forall k | k in m ensures r[k] == m[k] {
      if k == "conditions" {
        assert r[k] == JArr(m["conditions"].items);
      }
    }
  }

  /** Merging never loses a condition: the merged list holds exactly the
      basic conditions followed by the advanced ones. */
  lemma MergeKeepsConditions(basic: Json, advanced: Json)
    ensures var r := MergeFilters(basic, advanced);
            var merged := if "conditions" in r then r["conditions"].items else [];
            && |merged| == |BasicParts(basic).0| + |AdvancedParts(advanced).0|
            && merged[..|BasicParts(basic).0|] == BasicParts(basic).0
            && merged[|BasicParts(basic).0|..] == AdvancedParts(advanced).0
            && multiset(merged) == multiset(BasicParts(basic).0) + multiset(AdvancedParts(advanced).0)
  {
  }
}
