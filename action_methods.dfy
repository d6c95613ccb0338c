/** SuppaActionMethods: the request each record action sends, built from the
    node parameters of one item. The HTTP call itself is not modelled; each
    action is the request it would send, or the error it fails with first. */
module ActionMethods {
  import opened Wrappers
  import opened Text
  import opened JsonValues
  import opened FilterHelpers
  import opened Http

  /** Why an action fails before any request is sent. */
  datatype ActionError =
    | ConfirmationRequired
    | MalformedStaticData(syntaxMessage: string)

  const ConfirmationMessage: string :=
    "Підтвердіть видалення запису, встановивши прапорець \"Підтвердження\""

  /** The `message` of the error the action throws. */
  function ErrorMessage(e: ActionError): (m: string)
    ensures e.ConfirmationRequired? ==> m == ConfirmationMessage
    ensures e.MalformedStaticData? ==> m == e.syntaxMessage
  {
    match e
    case ConfirmationRequired => ConfirmationMessage
    case MalformedStaticData(message) => message
  }

  // ---------------------------------------------------------------------
  // formatValue

  /** A trimmed text that formatValue hands to JSON.parse. */
  predicate LooksLikeJson(t: string) {
    |t| > 0 && (t[0] == '{' || t[0] == '[')
  }

  /** formatValue: a string is trimmed, and replaced by its parse when the
      trimmed text starts with `{` or `[` and parses (a SyntaxError is
      swallowed); an array is mapped element by element, at any depth; a
      plain object gets `id` mirroring its `value` (or `undefined`); any
      other value is returned unchanged. It never fails. */
  function FormatValue(v: Json, parse: Parser): (r: Json)
    ensures v.JStr? ==>
              || r == JStr(Trim(v.s))
              || (LooksLikeJson(Trim(v.s)) && parse(Trim(v.s)) == Parsed(r))
    ensures v.JStr? && (!LooksLikeJson(Trim(v.s)) || parse(Trim(v.s)).SyntaxError?) ==>
              r == JStr(Trim(v.s))
    ensures v.JStr? && LooksLikeJson(Trim(v.s)) && parse(Trim(v.s)).Parsed? ==>
              r == parse(Trim(v.s)).value
    ensures v.JArr? ==> r.JArr? && |r.items| == |v.items|
    ensures v.JArr? ==> forall i :: 0 <= i < |v.items| ==> r.items[i] == FormatValue(v.items[i], parse)
    ensures v.JObj? ==>
              && r.JObj?
              && r.fields.Keys == v.fields.Keys + {"id"}
              && r.fields["id"] == Get(v.fields, "value")
              && (forall k :: k in v.fields && k != "id" ==> r.fields[k] == v.fields[k])
    ensures !v.JStr? && !IsObjectLike(v) ==> r == v
  {
    match v
    case JStr(s) =>
      var trimmed := Trim(s);
      if LooksLikeJson(trimmed) then
        match parse(trimmed)
        case Parsed(value) => value
        case SyntaxError(_) => JStr(trimmed)
      else JStr(trimmed)
    case JArr(items) => JArr(FormatEach(items, parse))
    case JObj(m) => JObj(m["id" := Get(m, "value")])
    case _ => v
  }

  function FormatEach(items: seq<Json>, parse: Parser): (r: seq<Json>)
    ensures |r| == |items|
    ensures forall i :: 0 <= i < |items| ==> r[i] == FormatValue(items[i], parse)
    decreases items, 0
  {
    seq(|items|, i requires 0 <= i < |items| => FormatValue(items[i], parse))
  }

  /** formatValue and prepareValueFiltersSuppa are two definitions of the
      same rule for a plain object: copy it and mirror `value` into `id`. */
  lemma FormatValueAgreesOnObjects(m: map<string, Json>, parse: Parser)
    ensures FormatValue(JObj(m), parse) == PrepareValue(JObj(m))
  {
  }

  /** A value none of whose strings, at any array depth, formatValue would
      parse. Objects are not looked into, as formatValue does not. */
  predicate NoJsonText(v: Json) {
    match v
    case JStr(s) => !LooksLikeJson(Trim(s))
    case JArr(items) => forall i :: 0 <= i < |items| ==> NoJsonText(items[i])
    case _ => true
  }

  /** Formatting twice is formatting once, for values whose strings are not
      parsed: strings are already trimmed and objects already carry `id`. */
  lemma {:induction false} FormatValueIdempotent(v: Json, parse: Parser)
    requires NoJsonText(v)
    ensures NoJsonText(FormatValue(v, parse))
    ensures FormatValue(FormatValue(v, parse), parse) == FormatValue(v, parse)
  {
    match v
    case JStr(s) =>
      TrimIdempotent(s);
    case JArr(items) =>
      var once := FormatEach(items, parse);
      forall i | 0 <= i < |items|
        ensures NoJsonText(once[i]) && FormatValue(once[i], parse) == once[i]
      {
        FormatValueIdempotent(items[i], parse);
      }
      assert FormatEach(once, parse) == once;
    case JObj(m) =>
      assert m["id" := Get(m, "value")]["id" := Get(m, "value")] == m["id" := Get(m, "value")];
    case _ =>
  }

  // ---------------------------------------------------------------------
  // The field-entry payload

  /** The field an entry of `data` sets and the raw value it sets it to:
      only an object with a non-empty string `field` sets anything. */
  function EntryField(entry: Json): Option<(string, Json)> {
    match entry
    case JObj(m) =>
      if "field" in m && m["field"].JStr? && m["field"].s != "" then
        Some((m["field"].s, Get(m, "value")))
      else None
    case _ => None
  }

  predicate Sets(entry: Json, f: string) {
    EntryField(entry).Some? && EntryField(entry).value.0 == f
  }

  /** Entry `i` is the last of `entries` that sets field `f`. */
  predicate SetsLast(entries: seq<Json>, f: string, i: int) {
    && 0 <= i < |entries|
    && Sets(entries[i], f)
    && forall j :: i < j < |entries| ==> !Sets(entries[j], f)
  }

  /** The payload the entries build, entry after entry. */
  function Payload(entries: seq<Json>, parse: Parser): (r: map<string, Json>)
    ensures forall f :: f in r ==> f != ""
  {
    if entries == [] then map[]
    else
      var earlier := Payload(entries[..|entries| - 1], parse);
      match EntryField(entries[|entries| - 1])
      case Some(e) => earlier[e.0 := FormatValue(e.1, parse)]
      case None => earlier
  }

  /** The payload of the `data` parameter: nothing unless it is an array. */
  function PayloadOf(data: Json, parse: Parser): (r: map<string, Json>)
    ensures !data.JArr? ==> r == map[]
    ensures forall f :: f in r ==> data.JArr? && f != ""
  {
    if data.JArr? then Payload(data.items, parse) else map[]
  }

  /** One more entry adds at most its own field to the payload's keys. */
  lemma PayloadKeysStep(entries: seq<Json>, parse: Parser)
    requires entries != []
    ensures var last := EntryField(entries[|entries| - 1]);
            Payload(entries, parse).Keys
            == Payload(entries[..|entries| - 1], parse).Keys + (if last.Some? then {last.value.0} else {})
  {
  }

  /** A field is in the payload exactly when some entry sets it. */
  lemma {:induction false} PayloadFields(entries: seq<Json>, parse: Parser, f: string)
    ensures f in Payload(entries, parse) <==> exists i :: 0 <= i < |entries| && Sets(entries[i], f)
  {
    if entries != [] {
      var n := |entries| - 1;
      var prefix := entries[..n];
      PayloadFields(prefix, parse, f);
      PayloadKeysStep(entries, parse);
      if Sets(entries[n], f) {
        assert 0 <= n < |entries| && Sets(entries[n], f);
      } else {
        assert f in Payload(entries, parse) <==> f in Payload(prefix, parse);
        assert (exists i :: 0 <= i < |entries| && Sets(entries[i], f))
           <==> (exists i :: 0 <= i < |prefix| && Sets(prefix[i], f)) by {
          forall i | 0 <= i < |prefix| ensures prefix[i] == entries[i] { }
        }
      }
    }
  }

  /** One more entry that does not set `f` leaves `f`'s value as it was. */
  lemma PayloadValueStep(entries: seq<Json>, parse: Parser, f: string)
    requires entries != [] && !Sets(entries[|entries| - 1], f)
    requires f in Payload(entries[..|entries| - 1], parse)
    ensures f in Payload(entries, parse)
    ensures Payload(entries, parse)[f] == Payload(entries[..|entries| - 1], parse)[f]
  {
  }

  /** The payload holds the formatted value of the last entry that sets a
      field. */
  lemma {:induction false} PayloadLastValue(entries: seq<Json>, parse: Parser, f: string, i: int)
    requires SetsLast(entries, f, i)
    ensures f in Payload(entries, parse)
    ensures Payload(entries, parse)[f] == FormatValue(EntryField(entries[i]).value.1, parse)
  {
    var n := |entries| - 1;
    if i < n {
      var prefix := entries[..n];
      assert prefix[i] == entries[i];
      assert SetsLast(prefix, f, i);
      PayloadLastValue(prefix, parse, f, i);
      PayloadValueStep(entries, parse, f);
    }
  }

  /** A field is in the payload exactly when some entry sets it, and its
      value is the formatted value of the last entry that does. */
  lemma PayloadLastWriteWins(entries: seq<Json>, parse: Parser, f: string)
    ensures f in Payload(entries, parse) <==> exists i :: 0 <= i < |entries| && Sets(entries[i], f)
    ensures forall i :: SetsLast(entries, f, i) ==>
              f in Payload(entries, parse)
              && Payload(entries, parse)[f] == FormatValue(EntryField(entries[i]).value.1, parse)
  {
    PayloadFields(entries, parse, f);
    forall i | SetsLast(entries, f, i)
      ensures f in Payload(entries, parse)
      ensures Payload(entries, parse)[f] == FormatValue(EntryField(entries[i]).value.1, parse)
    {
      PayloadLastValue(entries, parse, f, i);
    }
  }

  /** Entries that set no field leave the payload as it is. */
  lemma {:induction false} PayloadSkipsNonEntries(entries: seq<Json>, parse: Parser)
    requires forall i :: 0 <= i < |entries| ==> EntryField(entries[i]).None?
    ensures Payload(entries, parse) == map[]
  {
    if entries != [] {
      PayloadSkipsNonEntries(entries[..|entries| - 1], parse);
    }
  }

  /** The payload loop of executeCreateAction and executeUpdateByIdAction:
      each entry with a non-empty string `field` writes its formatted value
      under that field, in order. */
  method BuildPayload(data: Json, parse: Parser) returns (payload: map<string, Json>)
    ensures payload == PayloadOf(data, parse)
  {
    payload := map[];
    if data.JArr? {
      var entries := data.items;
      for i := 0 to |entries|
        invariant payload == Payload(entries[..i], parse)
      {
        assert entries[..i + 1][..i] == entries[..i];
        var entry := entries[i];
        if entry.JObj? && "field" in entry.fields {
          var field := entry.fields["field"];
          var value := Get(entry.fields, "value");
          if field.JStr? && |field.s| > 0 {
            payload := payload[field.s := FormatValue(value, parse)];
          }
        }
      }
      assert entries[..|entries|] == entries;
    }
  }

  // ---------------------------------------------------------------------
  // Requests

  /** The address of one record: `baseUrl + "api/instance/" + table + "/" + id`. */
  function RecordUrl(creds: Credentials, table: string, recordId: string): string {
    creds.baseUrl + "api/instance/" + table + "/" + recordId
  }

  /** The properties `staticData` adds to the create body: none when it is
      empty, the spread of its parse otherwise; a SyntaxError propagates. */
  function StaticOverlay(staticData: string, parse: Parser): (r: Result<map<string, Json>, ActionError>)
    ensures r.Failure? <==> staticData != "" && parse(staticData).SyntaxError?
    ensures r.Failure? ==> r.error == MalformedStaticData(parse(staticData).message)
    ensures staticData == "" ==> r == Success(map[])
    ensures staticData != "" && parse(staticData).Parsed? ==> r == Success(Spread(parse(staticData).value))
  {
    if staticData == "" then Success(map[])
    else
      match parse(staticData)
      case Parsed(value) => Success(Spread(value))
      case SyntaxError(message) => Failure(MalformedStaticData(message))
  }

  /** executeCreateAction: a POST of the payload overlaid by `staticData`. */
  function CreateRequest(creds: Credentials, table: string, data: Json, staticData: string, parse: Parser)
    : (r: Result<Request, ActionError>)
    ensures r.Failure? <==> StaticOverlay(staticData, parse).Failure?
    ensures r.Failure? ==> r.error == StaticOverlay(staticData, parse).error
    ensures r.Success? ==>
              && r.value.verb == POST
              && r.value.url == creds.baseUrl + "api/instance/" + table + "/"
              && r.value.headers == JsonHeaders(creds)
              && r.value.body.JsonBody? && r.value.body.value.JObj?
  {
    match StaticOverlay(staticData, parse)
    case Failure(e) => Failure(e)
    case Success(overlay) =>
      Success(Request(POST, creds.baseUrl + "api/instance/" + table + "/", JsonHeaders(creds),
                      JsonBody(JObj(PayloadOf(data, parse) + overlay))))
  }

  /** The create body holds every payload field and every `staticData`
      property, `staticData` winning on a collision; an empty `staticData`
      sends exactly the payload. */
  lemma CreateBody(creds: Credentials, table: string, data: Json, staticData: string, parse: Parser)
    requires CreateRequest(creds, table, data, staticData, parse).Success?
    ensures var body := CreateRequest(creds, table, data, staticData, parse).value.body.value.fields;
            var payload := PayloadOf(data, parse);
            var overlay := StaticOverlay(staticData, parse).value;
            && body.Keys == payload.Keys + overlay.Keys
            && (forall k :: k in overlay ==> body[k] == overlay[k])
            && (forall k :: k in payload && k !in overlay ==> body[k] == payload[k])
            && (staticData == "" ==> body == payload)
  {
  }

  /** executeGetByIdAction: a GET of the record, authorised, without body. */
  function GetByIdRequest(creds: Credentials, table: string, recordId: string): (r: Request)
    ensures r.verb == GET && r.body.NoBody?
    ensures r.url == RecordUrl(creds, table, recordId)
    ensures r.headers == AuthHeaders(creds)
  {
    Request(GET, creds.baseUrl + "api/instance/" + table + "/" + recordId, AuthHeaders(creds), NoBody)
  }

  /** executeUpdateByIdAction: a PUT of exactly the payload; `staticData`
      is not an input. */
  function UpdateRequest(creds: Credentials, table: string, recordId: string, data: Json, parse: Parser)
    : (r: Request)
    ensures r.verb == PUT
    ensures r.url == RecordUrl(creds, table, recordId)
    ensures r.headers == JsonHeaders(creds)
    ensures r.body == JsonBody(JObj(PayloadOf(data, parse)))
  {
    Request(PUT, creds.baseUrl + "api/instance/" + table + "/" + recordId, JsonHeaders(creds),
            JsonBody(JObj(PayloadOf(data, parse))))
  }

  /** executeDeleteByIdAction: refused unless `confirm` is truthy, then a
      DELETE of the record with only the Authorization header. */
  function DeleteRequest(creds: Credentials, table: string, recordId: string, confirm: Json)
    : (r: Result<Request, ActionError>)
    ensures r.Failure? <==> !Truthy(confirm)
    ensures r.Failure? ==> r.error == ConfirmationRequired
    ensures r.Success? ==>
              && r.value.verb == DELETE && r.value.body.NoBody?
              && r.value.url == RecordUrl(creds, table, recordId)
              && r.value.headers == AuthHeaders(creds)
  {
    if !Truthy(confirm) then Failure(ConfirmationRequired)
    else Success(Request(DELETE, creds.baseUrl + "api/instance/" + table + "/" + recordId,
                         AuthHeaders(creds), NoBody))
  }

  /** getById, updateById and deleteById address the same record, create
      posts to that address with an empty id, and update sends the body
      create sends when `staticData` is empty. */
  lemma RecordActionsAgree(creds: Credentials, table: string, recordId: string, data: Json,
                           confirm: Json, parse: Parser)
    requires Truthy(confirm)
    ensures UpdateRequest(creds, table, recordId, data, parse).url == GetByIdRequest(creds, table, recordId).url
    ensures DeleteRequest(creds, table, recordId, confirm).value.url == GetByIdRequest(creds, table, recordId).url
    ensures CreateRequest(creds, table, data, "", parse).value.url == RecordUrl(creds, table, "")
    ensures CreateRequest(creds, table, data, "", parse).value.body
         == UpdateRequest(creds, table, recordId, data, parse).body
  {
    assert PayloadOf(data, parse) + map[] == PayloadOf(data, parse);
  }

  // ---------------------------------------------------------------------
  // getByFilter

  /** The advanced filter: a string is parsed (the empty string as "{}"),
      falling back to {} on a SyntaxError; an object or array is used as it
      is; anything else becomes {}. */
  function AdvancedFilter(filtersAdvanced: Json, parse: Parser): (r: Json)
    ensures IsObjectLike(filtersAdvanced) ==> r == filtersAdvanced
    ensures !filtersAdvanced.JStr? && !IsObjectLike(filtersAdvanced) ==> r == EmptyObject
    ensures filtersAdvanced.JStr? ==>
              var text := if filtersAdvanced.s == "" then "{}" else filtersAdvanced.s;
              r == (if parse(text).Parsed? then parse(text).value else EmptyObject)
  {
    match filtersAdvanced
    case JStr(s) =>
      (match parse(if s == "" then "{}" else s)
       case Parsed(value) => value
       case SyntaxError(_) => EmptyObject)
    case JArr(_) => filtersAdvanced
    case JObj(_) => filtersAdvanced
    case _ => EmptyObject
  }

  /** Both filters normalised, then merged. */
  function CombinedFilter(filters: Json, filtersAdvanced: Json, parse: Parser): (r: map<string, Json>)
    ensures var conditions := BasicParts(NormalizeFilter(filters)).0
                              + AdvancedParts(NormalizeFilter(AdvancedFilter(filtersAdvanced, parse))).0;
            && ("conditions" in r <==> conditions != [])
            && ("conditions" in r ==> r["conditions"] == JArr(conditions))
    ensures var basic := BasicParts(NormalizeFilter(filters)).1;
            var advanced := AdvancedParts(NormalizeFilter(AdvancedFilter(filtersAdvanced, parse))).1;
            && (forall k :: k != "conditions" ==> (k in r <==> k in basic || k in advanced))
            && (forall k :: k in advanced ==> r[k] == advanced[k])
            && (forall k :: k in basic && k !in advanced ==> r[k] == basic[k])
  {
    MergeFilters(NormalizeFilter(filters), NormalizeFilter(AdvancedFilter(filtersAdvanced, parse)))
  }

  /** `fields.reduce(...)`: every listed field name mapped to {}. */
  function FieldMarkers(fields: seq<string>): (r: map<string, Json>)
    ensures r.Keys == set f | f in fields
    ensures forall f :: f in r ==> r[f] == EmptyObject
  {
    map f | f in fields :: EmptyObject
  }

  const SearchKeys: set<string> := {"limit", "offset", "filter", "fields", "sort"}

  /** The body of the search request. */
  function SearchBody(filters: Json, filtersAdvanced: Json, fields: seq<string>, limit: Json,
                      offset: Json, sort: map<string, Json>, parse: Parser): (body: map<string, Json>)
    ensures body.Keys <= SearchKeys
    ensures "limit" in body && body["limit"] == limit
    ensures "offset" in body && body["offset"] == offset
    ensures "filter" in body <==> CombinedFilter(filters, filtersAdvanced, parse) != map[]
    ensures "filter" in body ==> body["filter"] == JObj(CombinedFilter(filters, filtersAdvanced, parse))
    ensures "fields" in body <==> fields != []
    ensures "fields" in body ==>
              && body["fields"].JObj?
              && body["fields"].fields.Keys == (set f | f in fields)
              && forall f :: f in body["fields"].fields ==> body["fields"].fields[f] == EmptyObject
    ensures "sort" in body <==> sort != map[]
    ensures "sort" in body ==> body["sort"] == JObj(sort)
  {
    var combined := CombinedFilter(filters, filtersAdvanced, parse);
    var body := map["limit" := limit, "offset" := offset];
    var body := if combined != map[] then body["filter" := JObj(combined)] else body;
    var body := if fields != [] then body["fields" := JObj(FieldMarkers(fields))] else body;
    if sort != map[] then body["sort" := JObj(sort)] else body
  }

  /** executeGetByFilterAction: a POST of the search body. */
  function GetByFilterRequest(creds: Credentials, table: string, filters: Json, filtersAdvanced: Json,
                              fields: seq<string>, limit: Json, offset: Json, sort: map<string, Json>,
                              parse: Parser): (r: Request)
    ensures r.verb == POST
    ensures r.url == creds.baseUrl + "api/instances/search/" + table
    ensures r.headers == JsonHeaders(creds)
    ensures r.body == JsonBody(JObj(SearchBody(filters, filtersAdvanced, fields, limit, offset, sort, parse)))
  {
    Request(POST, creds.baseUrl + "api/instances/search/" + table, JsonHeaders(creds),
            JsonBody(JObj(SearchBody(filters, filtersAdvanced, fields, limit, offset, sort, parse))))
  }

  /** With the parameters' defaults (no filters, an advanced filter of
      "{}" that parses to {}, no fields, no sort) the body is exactly
      `{limit, offset}`. */
  lemma SearchDefaults(limit: Json, offset: Json, parse: Parser)
    requires parse("{}") == Parsed(EmptyObject)
    ensures SearchBody(EmptyObject, JStr("{}"), [], limit, offset, map[], parse)
         == map["limit" := limit, "offset" := offset]
  {
    MergeEmpty(EmptyObject, EmptyObject);
  }

  /** Every condition sent in the search filter is in normal form, unless
      one of the two filters is itself a condition node (whose own
      `conditions` the normaliser does not visit). */
  lemma SearchConditionsNormalized(filters: Json, filtersAdvanced: Json, parse: Parser)
    requires !(filters.JObj? && IsCondition(filters.fields))
    requires var a := AdvancedFilter(filtersAdvanced, parse); !(a.JObj? && IsCondition(a.fields))
    ensures var combined := CombinedFilter(filters, filtersAdvanced, parse);
            "conditions" in combined ==>
              forall i :: 0 <= i < |combined["conditions"].items| ==> Normalized(combined["conditions"].items[i])
  {
    var basic := NormalizeFilter(filters);
    var advanced := NormalizeFilter(AdvancedFilter(filtersAdvanced, parse));
    NormalizeFilterNormalized(filters);
    NormalizeFilterNormalized(AdvancedFilter(filtersAdvanced, parse));
    var conditions := BasicParts(basic).0 + AdvancedParts(advanced).0;
    forall c | c in conditions ensures Normalized(c) {
      if c in BasicParts(basic).0 {
        var i :| 0 <= i < |BasicParts(basic).0| && BasicParts(basic).0[i] == c;
      } else {
        var i :| 0 <= i < |AdvancedParts(advanced).0| && AdvancedParts(advanced).0[i] == c;
      }
    }
  }
}
