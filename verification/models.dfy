/** The model-name table of the proxy and the lookup `MODEL_MAPPING[requestedModel] || requestedModel`. */
module ModelResolution {
  import opened JsValues

  /** The client-facing model names and the upstream identifiers they stand for. The table is a
      plain finite map of these six entries: names inherited from JavaScript's object prototype
      (`constructor`, `toString`, ...) are not keys of it. */
  const ModelMapping: map<string, string> := map[
    "gpt-4o" := "z-ai/glm4.7",
    "glm-4" := "z-ai/glm4.7",
    "gpt-4" := "deepseek-ai/deepseek-v3.2",
    "gpt-3.5-turbo" := "moonshotai/kimi-k2-thinking",
    "deepseek-v3.2" := "deepseek-ai/deepseek-v3.2",
    "kimi-k2-thinking" := "moonshotai/kimi-k2-thinking"
  ]

  /** The outcome of converting a value to a property key when it indexes the table.
      `Named(s)` is a key `s` that may be one of the table's; `Unnamed` is a key that never is
      one; `KeyError` is the `TypeError` thrown by a value that has no string form. */
  datatype PropertyKey = Named(name: string) | Unnamed | KeyError

  /** The string `s` inside `depth` nested one-element arrays. */
  function Wrapped(s: string, depth: nat): (v: Json)
  {
    if depth == 0 then JStr(s) else JArr([Wrapped(s, depth - 1)])
  }

  /** Key conversion of a present value.
      - A string is its own key.
      - `null`, booleans and numbers convert to `"null"`, `"true"`, `"false"` or a numeral; none is
        a table key.
      - A parsed object converts through the inherited `toString` to `[object Object]`. An object
        with its own `toString` property has no callable `toString`, and the inherited `valueOf`
        returns the object itself, so the conversion throws.
      - An array converts to its elements' strings joined with commas, so it throws when any
        element does. A one-element array converts as its element does, except that a `null`
        element gives the empty string, which is no table key either. An empty array gives the
        empty string. Two or more elements give a string with a comma, and no table key contains
        one. */
  function ValueKey(v: Json): (k: PropertyKey)
    ensures v.JStr? ==> k == Named(v.str)
    ensures k.Named? ==> exists depth: nat :: v == Wrapped(k.name, depth)
    ensures v.JObj? ==> (k == KeyError <==> "toString" in v.fields)
    ensures v.JArr? && (exists i :: 0 <= i < |v.items| && v.items[i].JObj? && "toString" in v.items[i].fields) ==>
      k == KeyError
  {
    match v
    case JStr(s) =>
      assert v == Wrapped(s, 0);
      Named(s)
    case JObj(fields) => if "toString" in fields then KeyError else Unnamed
    case JArr(items) =>
      if exists i :: 0 <= i < |items| && ValueKey(items[i]).KeyError? then KeyError
      else if |items| == 1 then
        var inner := ValueKey(items[0]);
        if inner.Named? then
          var depth: nat :| items[0] == Wrapped(inner.name, depth);
          assert v == Wrapped(inner.name, depth + 1);
          inner
        else inner
      else Unnamed
    case _ => Unnamed
  }

  /** `TableKeyOf` of an absent model is the key `"undefined"`, which is no table key. */
  function TableKeyOf(requested: Option<Json>): (k: PropertyKey)
    ensures requested.None? ==> k == Unnamed
    ensures k.Named? ==> exists depth: nat :: requested == Some(Wrapped(k.name, depth))
  {
    match requested
    case None => Unnamed
    case Some(value) => ValueKey(value)
  }

  /** Conversely, a string inside any number of one-element arrays converts to that string. */
  lemma {:induction false} WrappedIsNamed(s: string, depth: nat)
    ensures ValueKey(Wrapped(s, depth)) == Named(s)
  {
    if depth > 0 {
      WrappedIsNamed(s, depth - 1);
    }
  }

  /** Objects with their own `toString` throw, directly or inside an array of any length, whatever
      the other elements are; an object without one does not. */
  lemma KeyErrorCases(other: Json)
    ensures ValueKey(JObj(map["toString" := JNum(0.0)])) == KeyError
    ensures ValueKey(JArr([JObj(map["toString" := JNum(0.0)])])) == KeyError
    ensures ValueKey(JArr([JStr("gpt-4o"), other, JObj(map["toString" := JNull])])) == KeyError
    ensures ValueKey(JObj(map["model" := JStr("gpt-4o")])) == Unnamed
    ensures ValueKey(JArr([JNull])) == Unnamed
  {
    var bad := JObj(map["toString" := JNum(0.0)]);
    assert JArr([bad]).items[0] == bad;
    var bad2 := JObj(map["toString" := JNull]);
    assert JArr([JStr("gpt-4o"), other, bad2]).items[2] == bad2;
  }

  /** True when `requested` names one of the table's entries. */
  predicate NamesTableEntry(requested: Option<Json>) {
    TableKeyOf(requested).Named? && TableKeyOf(requested).name in ModelMapping
  }

  /** True when converting `requested` to a key throws. */
  predicate KeyThrows(requested: Option<Json>) {
    TableKeyOf(requested).KeyError?
  }

  /** `MODEL_MAPPING[requested]`: the mapped identifier, `undefined`, or a thrown `TypeError`. */
  function Lookup(requested: Option<Json>): (r: Completion<Option<Json>>)
    ensures r.Throws? <==> KeyThrows(requested)
    ensures r.Normal? ==> (r.value.Some? <==> NamesTableEntry(requested))
    ensures r.Normal? && r.value.Some? ==> r.value.value == JStr(ModelMapping[TableKeyOf(requested).name])
  {
    match TableKeyOf(requested)
    case KeyError => Throws
    case Unnamed => Normal(None)
    case Named(name) => Normal(if name in ModelMapping then Some(JStr(ModelMapping[name])) else None)
  }

  /** The model sent upstream: a name that is a table key becomes its mapped identifier; a
      value with no string form throws; any other value, and an absent model, is passed on
      unchanged. The `||` never falls through to the requested name on a hit, because no
      mapped identifier is the empty string. */
  function ResolveModel(requested: Option<Json>): (r: Completion<Option<Json>>)
    ensures r.Throws? <==> KeyThrows(requested)
    ensures NamesTableEntry(requested) ==> r == Normal(Some(JStr(ModelMapping[TableKeyOf(requested).name])))
    ensures !NamesTableEntry(requested) && !KeyThrows(requested) ==> r == Normal(requested)
  {
    match Lookup(requested)
    case Throws => Throws
    case Normal(hit) => Normal(Or(hit, requested))
  }

  /** No mapped identifier is itself a client-facing name. */
  lemma MappedIdentifiersAreNotNames()
    ensures forall name :: name in ModelMapping ==> ModelMapping[name] !in ModelMapping
  {
  }

  /** Resolving a resolved model changes nothing. */
  lemma ResolveModelIdempotent(requested: Option<Json>)
    ensures ResolveModel(requested).Normal? ==>
      ResolveModel(ResolveModel(requested).value) == ResolveModel(requested)
  {
  }

  /** The six names, each with its identifier. */
  lemma ResolveKnownNames()
    ensures ResolveModel(Some(JStr("gpt-4o"))) == Normal(Some(JStr("z-ai/glm4.7")))
    ensures ResolveModel(Some(JStr("glm-4"))) == Normal(Some(JStr("z-ai/glm4.7")))
    ensures ResolveModel(Some(JStr("gpt-4"))) == Normal(Some(JStr("deepseek-ai/deepseek-v3.2")))
    ensures ResolveModel(Some(JStr("gpt-3.5-turbo"))) == Normal(Some(JStr("moonshotai/kimi-k2-thinking")))
    ensures ResolveModel(Some(JStr("deepseek-v3.2"))) == Normal(Some(JStr("deepseek-ai/deepseek-v3.2")))
    ensures ResolveModel(Some(JStr("kimi-k2-thinking"))) == Normal(Some(JStr("moonshotai/kimi-k2-thinking")))
  {
  }

  /** The lookup is exact and case-sensitive, and an absent or null model passes through. */
  lemma ResolveOtherValues(name: string)
    requires name !in ModelMapping
    ensures ResolveModel(Some(JStr(name))) == Normal(Some(JStr(name)))
    ensures ResolveModel(None) == Normal(None)
    ensures ResolveModel(Some(JNull)) == Normal(Some(JNull))
    ensures ResolveModel(Some(JStr("GPT-4o"))) == Normal(Some(JStr("GPT-4o")))
  {
  }

  /** JavaScript converts a one-element array key as it converts its element, so `["gpt-4o"]` hits;
      a two-element array never does. */
  lemma ResolveSingletonArray()
    ensures ResolveModel(Some(JArr([JStr("gpt-4o")]))) == Normal(Some(JStr("z-ai/glm4.7")))
    ensures ResolveModel(Some(JArr([JStr("gpt-4o"), JStr("gpt-4")]))) ==
      Normal(Some(JArr([JStr("gpt-4o"), JStr("gpt-4")])))
  {
    var one := JArr([JStr("gpt-4o")]);
    assert one.items[0] == JStr("gpt-4o");
  }
}
