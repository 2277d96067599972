/** The request body the proxy sends upstream: a shallow copy of the client's body with the
    model resolved, the reasoning option forced into `extra_body` and a default output budget. */
module RequestRewrite {
  import opened JsValues
  import opened ModelResolution

  const ChatTemplateKwargs: string := "chat_template_kwargs"

  /** `{ thinking: true }`, the value forced under `chat_template_kwargs`. */
  const ThinkingOn: Json := JObj(map["thinking" := JBool(true)])

  /** The `max_tokens` filled in when the client's value is falsy. */
  const DefaultMaxTokens: real := 4096.0

  /** The fields a request object carries, as JSON serialisation sends them upstream. */
  type Request = map<string, Json>

  /** `{ ...body }`: a fresh object holding the client body's own properties. */
  function ShallowCopy(body: Json): (r: Request)
    ensures body.JObj? ==> r == body.fields
  {
    SpreadOf(Some(body))
  }

  /** `o[k] = v`. Assigning `undefined` leaves a property that JSON serialisation omits, so
      the key is absent from what is sent. */
  function Assign(o: Request, k: string, v: Option<Json>): (r: Request)
    ensures v.Some? ==> k in r && r[k] == v.value
    ensures v.None? ==> k !in r
    ensures forall j :: j != k ==> (j in r <==> j in o) && (j in r ==> r[j] == o[j])
  {
    if v.Some? then o[k := v.value] else o - {k}
  }

  /** `{ ...extra, chat_template_kwargs: { thinking: true } }`. */
  function MergedExtraBody(extra: Option<Json>): (r: map<string, Json>)
    ensures ChatTemplateKwargs in r && r[ChatTemplateKwargs] == ThinkingOn
    ensures forall k :: k != ChatTemplateKwargs ==> (k in r <==> k in SpreadOf(extra))
    ensures forall k :: k != ChatTemplateKwargs && k in r ==> r[k] == SpreadOf(extra)[k]
  {
    SpreadOf(extra)[ChatTemplateKwargs := ThinkingOn]
  }

  /** Lines 39-40 on the copy whose model is already set: merge the reasoning option into
      `extra_body` and fill in `max_tokens` when the value there is falsy. */
  function Augment(withModel: Request): (r: Request)
    ensures r.Keys == withModel.Keys + {"extra_body", "max_tokens"}
    ensures r["extra_body"] == JObj(MergedExtraBody(Get(withModel, "extra_body")))
    ensures !Truthy(Get(withModel, "max_tokens")) ==> r["max_tokens"] == JNum(DefaultMaxTokens)
    ensures Truthy(Get(withModel, "max_tokens")) ==> r["max_tokens"] == withModel["max_tokens"]
    ensures forall k :: k in withModel && k != "extra_body" && k != "max_tokens" ==> r[k] == withModel[k]
  {
    var withExtra := withModel["extra_body" := JObj(MergedExtraBody(Get(withModel, "extra_body")))];
    if !Truthy(Get(withExtra, "max_tokens")) then withExtra["max_tokens" := JNum(DefaultMaxTokens)]
    else withExtra
  }

  /** The body sent upstream for the client body `body`, following the handler's statements in
      order, or the `TypeError` that reading the table with the client's model throws. */
  function RewriteRequest(body: Json): (r: Completion<Request>)
    ensures r.Throws? <==> KeyThrows(Get(ShallowCopy(body), "model"))
    ensures r.Normal? ==> r.value.Keys == ShallowCopy(body).Keys + {"extra_body", "max_tokens"}
  {
    var copy := ShallowCopy(body);
    match ResolveModel(Get(copy, "model"))
    case Throws => Throws
    case Normal(model) => Normal(Augment(Assign(copy, "model", model)))
  }

  /** The rewritten model: present exactly when the client sent one, and then the resolved name. */
  lemma RewriteModel(body: Json)
    ensures var copy, r := ShallowCopy(body), RewriteRequest(body);
      r.Normal? ==>
        && ("model" in r.value <==> "model" in copy)
        && ("model" in copy ==> ResolveModel(Some(copy["model"])) == Normal(Some(r.value["model"])))
  {
  }

  /** The rewritten `extra_body` is an object that keeps every client key except
      `chat_template_kwargs`, which is replaced wholesale by `{ thinking: true }` (client
      sub-keys under it are lost). A missing, null, boolean or numeric `extra_body` contributes
      nothing, leaving an object whose only key is `chat_template_kwargs`. */
  lemma RewriteExtraBody(body: Json)
    ensures var copy, r := ShallowCopy(body), RewriteRequest(body);
      var client := Get(copy, "extra_body");
      r.Normal? ==>
        && r.value["extra_body"].JObj?
        && r.value["extra_body"].fields[ChatTemplateKwargs] == ThinkingOn
        && (forall k :: k != ChatTemplateKwargs ==>
              (k in r.value["extra_body"].fields <==> k in SpreadOf(client)))
        && (client.Some? && client.value.JObj? ==>
              forall k :: k in client.value.fields && k != ChatTemplateKwargs ==>
                r.value["extra_body"].fields[k] == client.value.fields[k])
        && ((client.None? || client.value.JNull? || client.value.JBool? || client.value.JNum?) ==>
              r.value["extra_body"].fields == map[ChatTemplateKwargs := ThinkingOn])
  {
  }

  /** `max_tokens` becomes 4096 exactly when the client's value is falsy (absent, null, false,
      0 or the empty string); a truthy value is kept as it is, even one below 4096. */
  lemma RewriteMaxTokens(body: Json)
    ensures var copy, r := ShallowCopy(body), RewriteRequest(body);
      r.Normal? ==>
        && (!Truthy(Get(copy, "max_tokens")) ==> r.value["max_tokens"] == JNum(DefaultMaxTokens))
        && (Truthy(Get(copy, "max_tokens")) ==> r.value["max_tokens"] == copy["max_tokens"])
  {
  }

  /** Every field other than `model`, `extra_body` and `max_tokens` is carried over unchanged. */
  lemma RewriteKeepsOtherFields(body: Json)
    ensures var copy, r := ShallowCopy(body), RewriteRequest(body);
      r.Normal? ==>
        forall k :: k != "model" && k != "extra_body" && k != "max_tokens" ==>
          (k in r.value <==> k in copy) && (k in copy ==> r.value[k] == copy[k])
  {
  }

  /** The shape every rewritten request has: a model (if any) that resolves to itself, an
      object `extra_body` with `{ thinking: true }` under `chat_template_kwargs`, and a truthy
      `max_tokens`. */
  predicate IsRewritten(r: Request) {
    && ("model" in r ==> ResolveModel(Some(r["model"])) == Normal(Some(r["model"])))
    && "extra_body" in r && r["extra_body"].JObj?
    && ChatTemplateKwargs in r["extra_body"].fields
    && r["extra_body"].fields[ChatTemplateKwargs] == ThinkingOn
    && Truthy(Get(r, "max_tokens"))
  }

  /** Every rewritten request has that shape. */
  lemma RewriteIsRewritten(body: Json)
    ensures RewriteRequest(body).Normal? ==> IsRewritten(RewriteRequest(body).value)
  {
    RewriteModel(body);
    if "model" in ShallowCopy(body) {
      ResolveModelIdempotent(Some(ShallowCopy(body)["model"]));
    }
    RewriteExtraBody(body);
    RewriteMaxTokens(body);
  }

  /** A request of that shape is a fixed point of the rewrite, and rewriting it does not throw. */
  lemma RewrittenIsFixed(r: Request)
    requires IsRewritten(r)
    ensures RewriteRequest(JObj(r)) == Normal(r)
  {
    assert ShallowCopy(JObj(r)) == r;
    var withModel := Assign(r, "model", ResolveModel(Get(r, "model")).value);
    assert withModel == r;
    var extra := r["extra_body"].fields;
    assert MergedExtraBody(Some(JObj(extra))) == extra;
    assert withModel["extra_body" := JObj(extra)] == r;
  }

  /** Rewriting an already rewritten body changes nothing. */
  lemma RewriteIdempotent(body: Json)
    ensures RewriteRequest(body).Normal? ==>
      RewriteRequest(JObj(RewriteRequest(body).value)) == RewriteRequest(body)
  {
    if RewriteRequest(body).Normal? {
      RewriteIsRewritten(body);
      RewrittenIsFixed(RewriteRequest(body).value);
    }
  }

  /** A body without `extra_body` and `max_tokens` gains exactly those two keys: the reasoning
      option alone and the default budget. */
  lemma AugmentBareBody(r: Request)
    requires "extra_body" !in r && "max_tokens" !in r
    ensures Augment(r) ==
      r["extra_body" := JObj(map[ChatTemplateKwargs := ThinkingOn])]["max_tokens" := JNum(DefaultMaxTokens)]
  {
    assert MergedExtraBody(None) == map[ChatTemplateKwargs := ThinkingOn];
  }

  /** A non-streaming GPT-4o request: the model becomes the GLM identifier, `max_tokens` 4096,
      the reasoning flag is set and the messages and stream flag go through unchanged. */
  lemma RewriteGpt4oRequest(messages: Json)
    ensures RewriteRequest(JObj(map["model" := JStr("gpt-4o"), "messages" := messages,
                                    "stream" := JBool(false)])) ==
      Normal(map["model" := JStr("z-ai/glm4.7"), "messages" := messages, "stream" := JBool(false),
                 "extra_body" := JObj(map[ChatTemplateKwargs := ThinkingOn]),
                 "max_tokens" := JNum(DefaultMaxTokens)])
  {
    var body := map["model" := JStr("gpt-4o"), "messages" := messages, "stream" := JBool(false)];
    var glm := JStr("z-ai/glm4.7");
    assert ShallowCopy(JObj(body)) == body;
    assert ResolveModel(Get(body, "model")) == Normal(Some(glm));
    var withModel := map["model" := glm, "messages" := messages, "stream" := JBool(false)];
    assert Assign(body, "model", Some(glm)) == withModel;
    AugmentBareBody(withModel);
  }

  /** A model object with its own `toString` makes the table read throw, so no body is built. */
  lemma RewriteObjectModelThrows(messages: Json)
    ensures RewriteRequest(JObj(map["model" := JObj(map["toString" := JNum(0.0)]),
                                    "messages" := messages])).Throws?
  {
  }
}
