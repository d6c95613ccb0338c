/** The SUPPA node: the batch loop of `execute` with its action switch, the
    `getTableFields` option projection, and the per-action property list. */
module SuppaNode {
  import opened Wrappers
  import opened JsonValues
  import opened Http
  import opened ActionMethods

  // ---------------------------------------------------------------------
  // execute

  /** The node parameters of one input item, as `getNodeParameter` returns
      them (defaults already applied). */
  datatype ItemParams = ItemParams(
    action: string,
    table: string,
    recordId: string,
    data: Json,
    staticData: string,
    confirm: Json,
    filters: Json,
    filtersAdvanced: Json,
    fields: seq<string>,
    limit: Json,
    offset: Json,
    sort: map<string, Json>)

  /** What an item can fail with: its action throws before a request, the
      action is unknown, or the transport rejects; and what the `catch`
      block itself can throw: the TypeError of reading `message` on a
      nullish thrown value. */
  datatype ItemError =
    | ActionFailed(cause: ActionError)
    | UnknownAction(action: string)
    | TransportFailed(reason: Thrown)
    | CatchFailed(typeError: string)

  /** A rejection with `null` or `undefined`, whose `message` cannot be read. */
  predicate NullishRejection(e: ItemError) {
    e.TransportFailed? && e.reason.NonError? && IsNullish(e.reason.value)
  }

  /** `error.message` in the `catch` block: the message of an Error, the
      `message` property of any other object (undefined when it has none),
      and a TypeError on `null` and `undefined`. */
  function Message(e: ItemError): (m: Result<Json, string>)
    ensures m.Failure? <==> NullishRejection(e)
    ensures e.UnknownAction? ==> m == Success(JStr("Невідома дія: " + e.action))
    ensures e.ActionFailed? ==> m == Success(JStr(ErrorMessage(e.cause)))
    ensures e.TransportFailed? && e.reason.ErrorObject? ==> m == Success(JStr(e.reason.message))
    ensures e.TransportFailed? && e.reason.NonError? && e.reason.value.JObj? ==>
              m == Success(Get(e.reason.value.fields, "message"))
    ensures e.TransportFailed? && e.reason.NonError? && !e.reason.value.JObj? && m.Success? ==> m.value == JUndef
  {
    match e
    case ActionFailed(cause) => Success(JStr(ErrorMessage(cause)))
    case UnknownAction(action) => Success(JStr("Невідома дія: " + action))
    case TransportFailed(ErrorObject(message)) => Success(JStr(message))
    case TransportFailed(NonError(value)) => Prop(value, "message")
    case CatchFailed(typeError) => Success(JStr(typeError))
  }

  predicate KnownAction(action: string) {
    action == "create" || action == "getById" || action == "getByFilter"
    || action == "updateById" || action == "deleteById"
  }

  /** The action switch: each known action builds its own request; any
      other action fails. Only create (malformed `staticData`) and
      deleteById (no confirmation) can fail among the known ones. */
  function ActionRequest(creds: Credentials, p: ItemParams, parse: Parser): (r: Result<Request, ItemError>)
    ensures !KnownAction(p.action) ==> r == Failure(UnknownAction(p.action))
    ensures KnownAction(p.action) ==>
              (r.Failure? <==>
                 || (p.action == "create" && StaticOverlay(p.staticData, parse).Failure?)
                 || (p.action == "deleteById" && !Truthy(p.confirm)))
    ensures r.Failure? && p.action == "create" ==> r.error == ActionFailed(StaticOverlay(p.staticData, parse).error)
    ensures r.Failure? && p.action == "deleteById" ==> r.error == ActionFailed(ConfirmationRequired)
    ensures r.Success? && (p.action == "create" || p.action == "getByFilter") ==> r.value.verb == POST
    ensures r.Success? && p.action == "getById" ==> r.value.verb == GET
    ensures r.Success? && p.action == "updateById" ==> r.value.verb == PUT
    ensures r.Success? && p.action == "deleteById" ==> r.value.verb == DELETE
    ensures r.Success? && p.action == "create" ==>
              r.value == CreateRequest(creds, p.table, p.data, p.staticData, parse).value
    ensures r.Success? && p.action == "getById" ==> r.value == GetByIdRequest(creds, p.table, p.recordId)
    ensures r.Success? && p.action == "getByFilter" ==>
              r.value == GetByFilterRequest(creds, p.table, p.filters, p.filtersAdvanced, p.fields,
                                            p.limit, p.offset, p.sort, parse)
    ensures r.Success? && p.action == "updateById" ==>
              r.value == UpdateRequest(creds, p.table, p.recordId, p.data, parse)
    ensures r.Success? && p.action == "deleteById" ==>
              r.value == DeleteRequest(creds, p.table, p.recordId, p.confirm).value
  {
    match p.action
    case "create" =>
      (match CreateRequest(creds, p.table, p.data, p.staticData, parse)
       case Success(req) => Success(req)
       case Failure(e) => Failure(ActionFailed(e)))
    case "getById" => Success(GetByIdRequest(creds, p.table, p.recordId))
    case "getByFilter" =>
      Success(GetByFilterRequest(creds, p.table, p.filters, p.filtersAdvanced, p.fields,
                                 p.limit, p.offset, p.sort, parse))
    case "updateById" => Success(UpdateRequest(creds, p.table, p.recordId, p.data, parse))
    case "deleteById" =>
      (match DeleteRequest(creds, p.table, p.recordId, p.confirm)
       case Success(req) => Success(req)
       case Failure(e) => Failure(ActionFailed(e)))
    case _ => Failure(UnknownAction(p.action))
  }

  /** The transport as the node sees it: the outcome of the request sent
      while processing item `i`. */
  type Transport = (nat, Request) -> Response

  /** The `try` block for item `i`: the action's result, or what it threw. */
  function RunItem(creds: Credentials, p: ItemParams, i: nat, parse: Parser, transport: Transport)
    : (r: Result<Json, ItemError>)
    ensures ActionRequest(creds, p, parse).Failure? ==> r == Failure(ActionRequest(creds, p, parse).error)
    ensures ActionRequest(creds, p, parse).Success? && transport(i, ActionRequest(creds, p, parse).value).Resolved? ==>
              r == Success(transport(i, ActionRequest(creds, p, parse).value).value)
    ensures ActionRequest(creds, p, parse).Success? && transport(i, ActionRequest(creds, p, parse).value).Rejected? ==>
              r == Failure(TransportFailed(transport(i, ActionRequest(creds, p, parse).value).reason))
  {
    match ActionRequest(creds, p, parse)
    case Failure(e) => Failure(e)
    case Success(req) =>
      match transport(i, req)
      case Resolved(value) => Success(value)
      case Rejected(reason) => Failure(TransportFailed(reason))
  }

  /** An unknown action fails before anything is sent, whatever the
      transport would have answered. */
  lemma UnknownActionSendsNothing(creds: Credentials, p: ItemParams, i: nat, parse: Parser,
                                  t1: Transport, t2: Transport)
    requires !KnownAction(p.action)
    ensures RunItem(creds, p, i, parse, t1) == RunItem(creds, p, i, parse, t2)
    ensures RunItem(creds, p, i, parse, t1) == Failure(UnknownAction(p.action))
    ensures Message(UnknownAction(p.action)) == Success(JStr("Невідома дія: " + p.action))
  {
  }

  /** One entry of the output list. */
  datatype OutputItem = OutputItem(json: Json, pairedItem: nat)

  /** The entries a successful item contributes: one per element of an
      array result, otherwise one. */
  function ResultOutputs(result: Json, i: nat): (out: seq<OutputItem>)
    ensures result.JArr? ==> |out| == |result.items|
    ensures result.JArr? ==> forall k :: 0 <= k < |out| ==> out[k].json == result.items[k]
    ensures !result.JArr? ==> out == [OutputItem(result, i)]
    ensures forall k :: 0 <= k < |out| ==> out[k].pairedItem == i
  {
    if result.JArr? then seq(|result.items|, k requires 0 <= k < |result.items| => OutputItem(result.items[k], i))
    else [OutputItem(result, i)]
  }

  /** One pass of the loop body of execute, given what processing item `i`
      gave: the entries it pushes, or what escapes the `catch` block. A
      failure is rethrown without continue-on-fail; with it the item pushes
      `{error: error.message}`, and reading that message can itself throw. */
  function ItemOutcome(r: Result<Json, ItemError>, i: nat, continueOnFail: bool)
    : (o: Result<seq<OutputItem>, ItemError>)
    ensures r.Success? ==> o == Success(ResultOutputs(r.value, i))
    ensures o.Failure? <==> r.Failure? && (!continueOnFail || NullishRejection(r.error))
    ensures o.Failure? && !continueOnFail ==> o.error == r.error
    ensures o.Failure? && continueOnFail ==> o.error == CatchFailed(Message(r.error).error)
    ensures r.Failure? && continueOnFail && !NullishRejection(r.error) ==>
              o == Success([OutputItem(JObj(map["error" := Message(r.error).value]), i)])
    ensures o.Success? ==> |o.value| == (if r.Success? && r.value.JArr? then |r.value.items| else 1)
    ensures o.Success? ==> forall k :: 0 <= k < |o.value| ==> o.value[k].pairedItem == i
  {
    match r
    case Success(result) => Success(ResultOutputs(result, i))
    case Failure(e) =>
      if !continueOnFail then Failure(e)
      else
        match Message(e)
        case Failure(typeError) => Failure(CatchFailed(typeError))
        case Success(message) => Success([OutputItem(JObj(map["error" := message]), i)])
  }

  /** What processing one item gives: the item's result or what it threw. */
  type Runner = (nat, ItemParams) -> Result<Json, ItemError>

  /** The node's runner: RunItem with the node's credentials and transport. */
  function NodeRunner(creds: Credentials, parse: Parser, transport: Transport): Runner {
    (i: nat, p: ItemParams) => RunItem(creds, p, i, parse, transport)
  }

  /** The loop over the first `n` items: their entries in order, or the
      first thing that escapes an iteration. */
  function Batch(items: seq<ItemParams>, n: nat, continueOnFail: bool, run: Runner)
    : (r: Result<seq<OutputItem>, ItemError>)
    requires n <= |items|
    ensures r.Failure? ==>
              exists i :: 0 <= i < n && ItemOutcome(run(i, items[i]), i, continueOnFail) == Failure(r.error)
  {
    if n == 0 then Success([])
    else
      match Batch(items, n - 1, continueOnFail, run)
      case Failure(e) => Failure(e)
      case Success(out) =>
        match ItemOutcome(run(n - 1, items[n - 1]), n - 1, continueOnFail)
        case Failure(e) => Failure(e)
        case Success(entries) => Success(out + entries)
  }

  /** execute: processes the items in index order, pushing each result's
      entries tagged with the item index; a failing item pushes its
      `{error}` entry under continue-on-fail and is rethrown otherwise, and
      a `null`/`undefined` rejection makes the `catch` block throw. */
  method Execute(creds: Credentials, items: seq<ItemParams>, continueOnFail: bool,
                 parse: Parser, transport: Transport) returns (r: Result<seq<OutputItem>, ItemError>)
    ensures r == Batch(items, |items|, continueOnFail, NodeRunner(creds, parse, transport))
  {
    r := RunBatch(items, continueOnFail, NodeRunner(creds, parse, transport));
  }

  /** The loop of execute, for any way of processing one item. */
  method RunBatch(items: seq<ItemParams>, continueOnFail: bool, run: Runner)
    returns (r: Result<seq<OutputItem>, ItemError>)
    ensures r == Batch(items, |items|, continueOnFail, run)
  {
    var returnData: seq<OutputItem> := [];
    for i := 0 to |items|
      invariant Batch(items, i, continueOnFail, run) == Success(returnData)
    {
      BatchNext(items, i + 1, continueOnFail, run);
      match run(i, items[i])
      case Success(value) =>
        returnData := PushResult(returnData, value, i);
      case Failure(e) =>
        var caught := Catch(e, i, continueOnFail);
        if caught.Failure? {
          BatchFailurePersists(items, i + 1, |items|, continueOnFail, run);
          return caught;
        }
        returnData := returnData + caught.value;
    }
    return Success(returnData);
  }

  /** The `catch` block for item `i`: pushes `{error: error.message}` under
      continue-on-fail and rethrows otherwise; reading the message of a
      `null` or `undefined` rejection throws a TypeError instead. */
  method Catch(e: ItemError, i: nat, continueOnFail: bool) returns (o: Result<seq<OutputItem>, ItemError>)
    ensures o == ItemOutcome(Failure(e), i, continueOnFail)
  {
    if continueOnFail {
      var message := Message(e);
      if message.Failure? {
        return Failure(CatchFailed(message.error));
      }
      return Success([OutputItem(JObj(map["error" := message.value]), i)]);
    }
    return Failure(e);
  }

  /** The batch of `n` items is the batch of `n - 1` items followed by
      what item `n - 1` gives. */
  lemma BatchNext(items: seq<ItemParams>, n: nat, continueOnFail: bool, run: Runner)
    requires 0 < n <= |items|
    requires Batch(items, n - 1, continueOnFail, run).Success?
    ensures var o := ItemOutcome(run(n - 1, items[n - 1]), n - 1, continueOnFail);
            Batch(items, n, continueOnFail, run)
            == if o.Failure? then o else Success(Batch(items, n - 1, continueOnFail, run).value + o.value)
  {
  }

  /** A successful batch of `n` items extends the batch of `n - 1` items by
      the entries of item `n - 1`. */
  lemma BatchStep(items: seq<ItemParams>, n: nat, continueOnFail: bool, run: Runner)
    requires 0 < n <= |items|
    requires Batch(items, n, continueOnFail, run).Success?
    ensures Batch(items, n - 1, continueOnFail, run).Success?
    ensures ItemOutcome(run(n - 1, items[n - 1]), n - 1, continueOnFail).Success?
    ensures Batch(items, n, continueOnFail, run).value
         == Batch(items, n - 1, continueOnFail, run).value
            + ItemOutcome(run(n - 1, items[n - 1]), n - 1, continueOnFail).value
  {
  }

  /** Once the loop has thrown, later items change nothing. */
  lemma {:induction false} BatchFailurePersists(items: seq<ItemParams>, m: nat, n: nat,
                                                continueOnFail: bool, run: Runner)
    requires m <= n <= |items|
    requires Batch(items, m, continueOnFail, run).Failure?
    ensures Batch(items, n, continueOnFail, run) == Batch(items, m, continueOnFail, run)
    decreases n - m
  {
    if m < n {
      BatchFailurePersists(items, m, n - 1, continueOnFail, run);
    }
  }

  /** Pushes the entries of a successful result: each element of an array
      result, otherwise the result itself. */
  method PushResult(returnData: seq<OutputItem>, value: Json, i: nat) returns (out: seq<OutputItem>)
    ensures out == returnData + ResultOutputs(value, i)
  {
    out := returnData;
    if value.JArr? {
      for k := 0 to |value.items|
        invariant out == returnData + ResultOutputs(value, i)[..k]
      {
        out := out + [OutputItem(value.items[k], i)];
      }
      assert ResultOutputs(value, i)[..|value.items|] == ResultOutputs(value, i);
    } else {
      out := out + [OutputItem(value, i)];
    }
  }

  /** Every entry is tagged with an index below `n`, and the tags never
      decrease along the list. */
  predicate TaggedInOrder(out: seq<OutputItem>, n: nat) {
    && (forall k :: 0 <= k < |out| ==> out[k].pairedItem < n)
    && (forall j, k :: 0 <= j < k < |out| ==> out[j].pairedItem <= out[k].pairedItem)
  }

  /** Every entry is tagged with the index of an item that was processed,
      and the tags never decrease: items are processed in order. */
  lemma {:induction false} BatchPairedItems(items: seq<ItemParams>, n: nat, continueOnFail: bool, run: Runner)
    requires n <= |items|
    ensures Batch(items, n, continueOnFail, run).Success? ==>
              TaggedInOrder(Batch(items, n, continueOnFail, run).value, n)
  {
    if n > 0 && Batch(items, n, continueOnFail, run).Success? {
      BatchStep(items, n, continueOnFail, run);
      BatchPairedItems(items, n - 1, continueOnFail, run);
      var entries := ItemOutcome(run(n - 1, items[n - 1]), n - 1, continueOnFail).value;
      TaggedAppend(Batch(items, n - 1, continueOnFail, run).value, entries, n - 1);
    }
  }

  /** Appending entries all tagged `t` to a list tagged in order below `t`
      keeps it in order, below `t + 1`. */
  lemma TaggedAppend(out: seq<OutputItem>, entries: seq<OutputItem>, t: nat)
    requires TaggedInOrder(out, t)
    requires forall k :: 0 <= k < |entries| ==> entries[k].pairedItem == t
    ensures TaggedInOrder(out + entries, t + 1)
  {
    var all := out + entries;
    forall k | 0 <= k < |all| ensures all[k].pairedItem <= t {
      if k < |out| {
        assert all[k] == out[k];
      } else {
        assert all[k] == entries[k - |out|];
      }
    }
    forall j, k | 0 <= j < k < |all| ensures all[j].pairedItem <= all[k].pairedItem {
      if k < |out| {
        assert all[j] == out[j] && all[k] == out[k];
      } else {
        assert all[k] == entries[k - |out|];
      }
    }
  }

  /** Item `i` is the first of the first `n` items that fails. */
  predicate FirstFailure(items: seq<ItemParams>, n: nat, i: nat, run: Runner)
    requires n <= |items|
  {
    && i < n
    && run(i, items[i]).Failure?
    && forall j :: 0 <= j < i ==> run(j, items[j]).Success?
  }

  /** Without continue-on-fail the batch fails exactly when some item
      fails, and then with the error of the first failing item. */
  lemma {:induction false} BatchStopsAtFirstFailure(items: seq<ItemParams>, n: nat, run: Runner)
    requires n <= |items|
    ensures var b := Batch(items, n, false, run);
            && (b.Success? <==> forall j :: 0 <= j < n ==> run(j, items[j]).Success?)
            && (b.Failure? ==> exists i: nat :: FirstFailure(items, n, i, run)
                                               && b.error == run(i, items[i]).error)
  {
    if n > 0 {
      BatchStopsAtFirstFailure(items, n - 1, run);
      var prev := Batch(items, n - 1, false, run);
      if prev.Failure? {
        var i: nat :| FirstFailure(items, n - 1, i, run) && prev.error == run(i, items[i]).error;
        assert FirstFailure(items, n, i, run);
      } else if run(n - 1, items[n - 1]).Failure? {
        assert FirstFailure(items, n, n - 1, run);
      }
    }
  }

  /** Processing the item was rejected with `null` or `undefined`. */
  predicate RejectedNullish(r: Result<Json, ItemError>) {
    r.Failure? && NullishRejection(r.error)
  }

  /** Item `i` is the first of the first `n` items rejected with a nullish
      value. */
  predicate FirstNullishRejection(items: seq<ItemParams>, n: nat, i: nat, run: Runner)
    requires n <= |items|
  {
    && i < n
    && RejectedNullish(run(i, items[i]))
    && forall j :: 0 <= j < i ==> !RejectedNullish(run(j, items[j]))
  }

  /** One step of the batch under continue-on-fail. */
  lemma ContinueOnFailStep(items: seq<ItemParams>, n: nat, run: Runner)
    requires 0 < n <= |items|
    ensures Batch(items, n - 1, true, run).Failure? ==> Batch(items, n, true, run) == Batch(items, n - 1, true, run)
    ensures Batch(items, n - 1, true, run).Success? && RejectedNullish(run(n - 1, items[n - 1])) ==>
              Batch(items, n, true, run) == Failure(CatchFailed(Message(run(n - 1, items[n - 1]).error).error))
    ensures Batch(items, n - 1, true, run).Success? && !RejectedNullish(run(n - 1, items[n - 1])) ==>
              Batch(items, n, true, run).Success?
  {
  }

  /** With continue-on-fail the batch fails exactly when some item is
      rejected with `null` or `undefined`, and then with the TypeError of
      reading `message` on the first such rejection. */
  lemma {:induction false} ContinueOnFailStopsAtNullish(items: seq<ItemParams>, n: nat, run: Runner)
    requires n <= |items|
    ensures var b := Batch(items, n, true, run);
            && (b.Success? <==> forall j :: 0 <= j < n ==> !RejectedNullish(run(j, items[j])))
            && (b.Failure? ==> exists i: nat :: FirstNullishRejection(items, n, i, run)
                                               && b.error == CatchFailed(Message(run(i, items[i]).error).error))
  {
    if n > 0 {
      ContinueOnFailStopsAtNullish(items, n - 1, run);
      ContinueOnFailStep(items, n, run);
      var prev := Batch(items, n - 1, true, run);
      if prev.Failure? {
        var i: nat :| FirstNullishRejection(items, n - 1, i, run)
                      && prev.error == CatchFailed(Message(run(i, items[i]).error).error);
        assert FirstNullishRejection(items, n, i, run);
      } else if RejectedNullish(run(n - 1, items[n - 1])) {
        assert FirstNullishRejection(items, n, n - 1, run);
      }
    }
  }

  /** In the node, a request the transport rejects is rethrown without
      continue-on-fail; with it, an Error rejection pushes `{error:
      message}`, and a `null`/`undefined` rejection makes the `catch` block
      throw. */
  lemma NodeTransportRejection(creds: Credentials, parse: Parser, transport: Transport, p: ItemParams,
                               i: nat, e: Thrown, continueOnFail: bool)
    requires ActionRequest(creds, p, parse).Success?
    requires transport(i, ActionRequest(creds, p, parse).value) == Rejected(e)
    ensures var o := ItemOutcome(NodeRunner(creds, parse, transport)(i, p), i, continueOnFail);
            && (!continueOnFail ==> o == Failure(TransportFailed(e)))
            && (continueOnFail && e.ErrorObject? ==>
                  o == Success([OutputItem(JObj(map["error" := JStr(e.message)]), i)]))
            && (continueOnFail && e.NonError? && IsNullish(e.value) ==>
                  o == Failure(CatchFailed(Message(TransportFailed(e)).error)))
  {
  }

  /** The number of entries tagged with item `i`. */
  function CountFor(out: seq<OutputItem>, i: nat): (c: nat)
    ensures c <= |out|
  {
    if out == [] then 0
    else CountFor(out[..|out| - 1], i) + (if out[|out| - 1].pairedItem == i then 1 else 0)
  }

  lemma {:induction false} CountForAppend(a: seq<OutputItem>, b: seq<OutputItem>, i: nat)
    ensures CountFor(a + b, i) == CountFor(a, i) + CountFor(b, i)
    decreases |b|
  {
    if b != [] {
      assert (a + b)[..|a + b| - 1] == a + b[..|b| - 1];
      CountForAppend(a, b[..|b| - 1], i);
    } else {
      assert a + b == a;
    }
  }

  lemma {:induction false} CountForUniform(out: seq<OutputItem>, i: nat, tag: nat)
    requires forall k :: 0 <= k < |out| ==> out[k].pairedItem == tag
    ensures CountFor(out, i) == (if i == tag then |out| else 0)
  {
    if out != [] {
      CountForUniform(out[..|out| - 1], i, tag);
    }
  }

  /** Each processed item contributes exactly its own entries: as many as
      its array result has elements (none for an empty array), one for any
      other result, and one `{error}` entry when it failed. */
  lemma {:induction false} BatchCounts(items: seq<ItemParams>, n: nat, continueOnFail: bool, run: Runner, i: nat)
    requires n <= |items|
    requires Batch(items, n, continueOnFail, run).Success?
    ensures CountFor(Batch(items, n, continueOnFail, run).value, i)
         == (if i >= n then 0
             else if run(i, items[i]).Success? && run(i, items[i]).value.JArr? then |run(i, items[i]).value.items|
             else 1)
  {
    if n > 0 {
      BatchCounts(items, n - 1, continueOnFail, run, i);
      var prev := Batch(items, n - 1, continueOnFail, run).value;
      BatchStep(items, n, continueOnFail, run);
      var entries := ItemOutcome(run(n - 1, items[n - 1]), n - 1, continueOnFail).value;
      CountForAppend(prev, entries, i);
      CountForUniform(entries, i, n - 1);
    }
  }

  // ---------------------------------------------------------------------
  // getTableFields

  /** One entry of a field's `options`. */
  datatype Choice = Choice(name: Json, value: Json)

  /** One option `getTableFields` returns for a table field. */
  datatype FieldOption = FieldOption(
    name: Json,
    fieldType: Json,
    entityId: Json,
    enumId: Json,
    options: seq<Choice>,
    value: Json,
    multiple: Json)

  /** `field.a.b`, failing on a nullish `field` or `field.a`. */
  function Prop2(v: Json, a: string, b: string): Result<Json, string> {
    match Prop(v, a)
    case Failure(e) => Failure(e)
    case Success(inner) => Prop(inner, b)
  }

  /** `field?.items || field?.relation?.items || []` */
  function OptionsSource(field: Json): Json {
    Or(OptProp(field, "items"), Or(OptProp(OptProp(field, "relation"), "items"), JArr([])))
  }

  /** `options.map(o => ({name: o.name, value: o.id}))`: `None` when an
      option is nullish (the TypeError). */
  function ProjectChoices(options: seq<Json>): (r: Option<seq<Choice>>)
    ensures r.Some? <==> forall k :: 0 <= k < |options| ==> !IsNullish(options[k])
    ensures r.Some? ==> |r.value| == |options|
    ensures r.Some? ==> forall k :: 0 <= k < |options| ==>
              r.value[k] == Choice(OptProp(options[k], "name"), OptProp(options[k], "id"))
  {
    if options == [] then Some([])
    else if IsNullish(options[0]) then None
    else
      match ProjectChoices(options[1..])
      case None => None
      case Some(rest) => Some([Choice(OptProp(options[0], "name"), OptProp(options[0], "id"))] + rest)
  }

  /** The projection of one kept field; `None` when it throws a TypeError:
      reading through a missing `relation` or `custom_enum`, an options
      value that is not an array, or a nullish option. */
  function ProjectField(field: Json): (r: Option<FieldOption>)
    ensures IsNullish(field) ==> r.None?
    ensures r.Some? ==>
              && r.value.value == OptProp(field, "id")
              && r.value.name == Or(OptProp(field, "title"), OptProp(field, "name"))
              && r.value.fieldType == OptProp(field, "type")
              && (OptProp(field, "type") != JStr("relation") ==> r.value.entityId == JUndef)
              && (OptProp(field, "type") != JStr("custom_enum") ==> r.value.enumId == JUndef)
              && (Truthy(OptProp(field, "multiple")) ==> r.value.multiple == OptProp(field, "multiple"))
              && (!Truthy(OptProp(field, "multiple")) ==> r.value.multiple == JBool(false))
    ensures (!IsNullish(field) && OptProp(field, "type") == JStr("relation")
             && IsNullish(OptProp(field, "relation"))) ==> r.None?
    ensures !IsNullish(field) && !OptionsSource(field).JArr? ==> r.None?
    ensures r.Some? <==>
              && !IsNullish(field)
              && (OptProp(field, "type") == JStr("relation") ==>
                    Prop2(field, "relation", "relation_target_entity_id").Success?)
              && (OptProp(field, "type") == JStr("custom_enum") ==> Prop2(field, "custom_enum", "enum_id").Success?)
              && OptionsSource(field).JArr?
              && ProjectChoices(OptionsSource(field).items).Some?
    ensures r.Some? ==> r.value.options == ProjectChoices(OptionsSource(field).items).value
    ensures r.Some? && OptProp(field, "type") == JStr("relation") ==>
              r.value.entityId == Prop2(field, "relation", "relation_target_entity_id").value
    ensures r.Some? && OptProp(field, "type") == JStr("custom_enum") ==>
              r.value.enumId == Prop2(field, "custom_enum", "enum_id").value
  {
    if IsNullish(field) then None
    else
      var fieldType := OptProp(field, "type");
      var entityId := if fieldType == JStr("relation") then Prop2(field, "relation", "relation_target_entity_id")
                      else Success(JUndef);
      var enumId := if fieldType == JStr("custom_enum") then Prop2(field, "custom_enum", "enum_id")
                    else Success(JUndef);
      var source := OptionsSource(field);
      if entityId.Failure? || enumId.Failure? || !source.JArr? then None
      else
        match ProjectChoices(source.items)
        case None => None
        case Some(choices) =>
          Some(FieldOption(Or(OptProp(field, "title"), OptProp(field, "name")), fieldType,
                           entityId.value, enumId.value, choices, OptProp(field, "id"),
                           Or(OptProp(field, "multiple"), JBool(false))))
  }

  /** The fields the filter keeps: all but the one with id `entity_options`. */
  function KeptFields(fields: seq<Json>): (r: seq<Json>)
    ensures |r| <= |fields|
    ensures forall k :: 0 <= k < |r| ==> r[k] in fields && OptProp(r[k], "id") != JStr("entity_options")
    ensures forall x :: x in fields && OptProp(x, "id") != JStr("entity_options") ==> x in r
  {
    if fields == [] then []
    else
      (if OptProp(fields[0], "id") == JStr("entity_options") then [] else [fields[0]])
      + KeptFields(fields[1..])
  }

  /** The filter keeps order: filtering a concatenation concatenates the
      filtered parts, so each field's fate is decided by itself alone. */
  lemma {:induction false} KeptFieldsAppend(a: seq<Json>, b: seq<Json>)
    ensures KeptFields(a + b) == KeptFields(a) + KeptFields(b)
  {
    if a == [] {
      assert a + b == b;
    } else {
      assert (a + b)[1..] == a[1..] + b;
      KeptFieldsAppend(a[1..], b);
    }
  }

  /** One field is kept exactly when its id is not `entity_options`. */
  lemma KeptFieldsSingle(x: Json)
    ensures KeptFields([x]) == (if OptProp(x, "id") == JStr("entity_options") then [] else [x])
  {
    assert [x][1..] == [];
  }

  function ProjectAll(kept: seq<Json>): (r: Option<seq<FieldOption>>)
    ensures r.Some? <==> forall k :: 0 <= k < |kept| ==> ProjectField(kept[k]).Some?
    ensures r.Some? ==> |r.value| == |kept|
    ensures r.Some? ==> forall k :: 0 <= k < |kept| ==> r.value[k] == ProjectField(kept[k]).value
  {
    if kept == [] then Some([])
    else
      match ProjectField(kept[0])
      case None => None
      case Some(head) =>
        match ProjectAll(kept[1..])
        case None => None
        case Some(rest) => Some([head] + rest)
  }

  /** The request getTableFields sends for a table. */
  function TableFieldsRequest(creds: Credentials, tableId: string): (r: Request)
    ensures r.verb == GET && r.body.NoBody? && r.headers == AuthHeaders(creds)
    ensures r.url == creds.baseUrl + "api/entity_props/" + tableId
  {
    Request(GET, creds.baseUrl + "api/entity_props/" + tableId, AuthHeaders(creds), NoBody)
  }

  /** getTableFields: [] for an empty table id, a rejected request, a
      response that is not an array, or any TypeError while projecting;
      otherwise one option per kept field, in order. */
  function TableFields(creds: Credentials, tableId: string, transport: Request -> Response)
    : (r: seq<FieldOption>)
    ensures tableId == "" ==> r == []
    ensures tableId != "" && transport(TableFieldsRequest(creds, tableId)).Rejected? ==> r == []
    ensures (tableId != "" && transport(TableFieldsRequest(creds, tableId)).Resolved?
             && !transport(TableFieldsRequest(creds, tableId)).value.JArr?) ==> r == []
    ensures var response := transport(TableFieldsRequest(creds, tableId));
            (tableId != "" && response.Resolved? && response.value.JArr?
             && exists k :: 0 <= k < |response.value.items| && IsNullish(response.value.items[k])) ==> r == []
    ensures var response := transport(TableFieldsRequest(creds, tableId));
            (tableId != "" && response.Resolved? && response.value.JArr?
             && (forall k :: 0 <= k < |response.value.items| ==> !IsNullish(response.value.items[k]))) ==>
              r == (match ProjectAll(KeptFields(response.value.items))
                    case None => []
                    case Some(options) => options)
    ensures forall k :: 0 <= k < |r| ==> r[k].value != JStr("entity_options")
  {
    if tableId == "" then []
    else
      match transport(TableFieldsRequest(creds, tableId))
      case Rejected(_) => []
      case Resolved(response) =>
        if !response.JArr? then []
        else if exists k :: 0 <= k < |response.items| && IsNullish(response.items[k]) then []
        else
          match ProjectAll(KeptFields(response.items))
          case None => []
          case Some(options) => options
  }

  /** A table whose fields all project yields one option per field other
      than `entity_options`, each carrying its field's id as `value`. */
  lemma TableFieldsProjection(creds: Credentials, tableId: string, transport: Request -> Response,
                              fields: seq<Json>)
    requires tableId != ""
    requires transport(TableFieldsRequest(creds, tableId)) == Resolved(JArr(fields))
    requires forall k :: 0 <= k < |fields| ==> ProjectField(fields[k]).Some?
    ensures ProjectAll(KeptFields(fields)).Some?
    ensures TableFields(creds, tableId, transport) == ProjectAll(KeptFields(fields)).value
    ensures var r := TableFields(creds, tableId, transport);
            && |r| == |KeptFields(fields)|
            && (forall k :: 0 <= k < |r| ==> r[k] == ProjectField(KeptFields(fields)[k]).value)
            && forall k :: 0 <= k < |r| ==> r[k].value == OptProp(KeptFields(fields)[k], "id")
  {
    var kept := KeptFields(fields);
    forall k | 0 <= k < |kept| ensures ProjectField(kept[k]).Some? {
      var j :| 0 <= j < |fields| && fields[j] == kept[k];
    }
    forall k | 0 <= k < |fields| ensures !IsNullish(fields[k]) {
      assert ProjectField(fields[k]).Some?;
    }
    assert TableFields(creds, tableId, transport) == ProjectAll(kept).value;
  }

  // ---------------------------------------------------------------------
  // properties

  /** The generated `show` condition: `{action: [actionType]}`. */
  function GeneratedShow(actionType: string): Json {
    JObj(map["action" := JArr([JStr(actionType)])])
  }

  /** One property of an action with its `displayOptions` built: the
      generated `show` first, then the field's own `displayOptions` keys,
      which win. */
  function WithShow(actionType: string, field: map<string, Json>): (r: map<string, Json>)
    ensures r.Keys == field.Keys + {"displayOptions"}
    ensures forall k :: k in field && k != "displayOptions" ==> r[k] == field[k]
    ensures var own := Spread(Get(field, "displayOptions"));
            && r["displayOptions"].JObj?
            && r["displayOptions"].fields.Keys == own.Keys + {"show"}
            && r["displayOptions"].fields["show"] == (if "show" in own then own["show"] else GeneratedShow(actionType))
            && forall k :: k in own ==> r["displayOptions"].fields[k] == own[k]
  {
    var display := map["show" := GeneratedShow(actionType)] + Spread(Get(field, "displayOptions"));
    field["displayOptions" := JObj(display)]
  }

  /** The action-specific properties: for each action in order, each of
      its fields in order. */
  function ActionProperties(groups: seq<(string, seq<map<string, Json>>)>): (r: seq<map<string, Json>>)
    ensures forall k :: 0 <= k < |r| ==> "displayOptions" in r[k] && r[k]["displayOptions"].JObj?
  {
    if groups == [] then []
    else
      seq(|groups[0].1|, j requires 0 <= j < |groups[0].1| => WithShow(groups[0].0, groups[0].1[j]))
      + ActionProperties(groups[1..])
  }

  function FieldCount(groups: seq<(string, seq<map<string, Json>>)>): nat {
    if groups == [] then 0 else |groups[0].1| + FieldCount(groups[1..])
  }

  /** Every field of every action appears once, with its action's `show`
      (unless it brings its own), and nothing else appears. */
  lemma {:induction false} ActionPropertiesComplete(groups: seq<(string, seq<map<string, Json>>)>)
    ensures |ActionProperties(groups)| == FieldCount(groups)
    ensures forall g, j :: g in groups && 0 <= j < |g.1| ==> WithShow(g.0, g.1[j]) in ActionProperties(groups)
    ensures forall p :: p in ActionProperties(groups) ==>
              exists g, j :: g in groups && 0 <= j < |g.1| && p == WithShow(g.0, g.1[j])
  {
    if groups != [] {
      ActionPropertiesComplete(groups[1..]);
      var head := seq(|groups[0].1|, j requires 0 <= j < |groups[0].1| => WithShow(groups[0].0, groups[0].1[j]));
      assert ActionProperties(groups) == head + ActionProperties(groups[1..]);
      forall g, j | g in groups && 0 <= j < |g.1|
        ensures WithShow(g.0, g.1[j]) in ActionProperties(groups)
      {
        if g == groups[0] {
          assert head[j] == WithShow(g.0, g.1[j]);
        } else {
          assert g in groups[1..];
        }
      }
      forall p | p in ActionProperties(groups)
        ensures exists g, j :: g in groups && 0 <= j < |g.1| && p == WithShow(g.0, g.1[j])
      {
        if p in head {
          var j :| 0 <= j < |head| && head[j] == p;
          assert groups[0] in groups;
        } else {
          var g, j :| g in groups[1..] && 0 <= j < |g.1| && p == WithShow(g.0, g.1[j]);
          assert g in groups;
        }
      }
    }
  }
}
