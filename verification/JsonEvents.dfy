/** The flat JSON form of events: what the command line prints and reads back. */
module JsonEvents {
  import opened Types

  // ---- Printing ------------------------------------------------------------

  function Strings(ss: seq<string>): Json {
    JArray(seq(|ss|, i requires 0 <= i < |ss| => JString(ss[i])))
  }

  function OutputJson(path: Option<string>): Json {
    if path.Some? then JString(path.value) else JNull
  }

  function OutputsJson(outputs: map<string, Option<string>>): Json {
    JObject(map k | k in outputs :: OutputJson(outputs[k]))
  }

  function InputsJson(inputs: map<string, seq<string>>): Json {
    JObject(map k | k in inputs :: Strings(inputs[k]))
  }

  /** The optional fields of a derivation; an empty `inputDrvs` is left out. */
  function OptionalField(d: Derivation, name: string): Option<Json> {
    if name == "meta" then d.meta
    else if name == "inputDrvs" then if d.inputDrvs == map[] then None else Some(InputsJson(d.inputDrvs))
    else if name == "constituents" then
      if d.constituents.Some? then Some(Strings(d.constituents.value)) else None
    else if name == "gcRootError" then
      if d.gcRootError.Some? then Some(JString(d.gcRootError.value)) else None
    else None
  }

  /** The field `name` of a printed derivation, if it has one. */
  function DerivationField(d: Derivation, name: string): Option<Json> {
    if name == "attr" then Some(JString(d.attr))
    else if name == "attrPath" then Some(Strings(d.attrPath))
    else if name == "name" then Some(JString(d.name))
    else if name == "system" then Some(JString(d.system))
    else if name == "drvPath" then Some(JString(d.drvPath))
    else if name == "outputs" then Some(OutputsJson(d.outputs))
    else OptionalField(d, name)
  }

  const DERIVATION_FIELDS := {
    "attr", "attrPath", "name", "system", "drvPath", "outputs", "meta", "inputDrvs", "constituents", "gcRootError"}

  /** The fields of a printed derivation among `names`. */
  function FieldsAmong(d: Derivation, names: set<string>): map<string, Json> {
    map name | name in names && DerivationField(d, name).Some? :: DerivationField(d, name).value
  }

  function DerivationJson(d: Derivation): Json {
    JObject(FieldsAmong(d, DERIVATION_FIELDS))
  }

  function EventJson(e: Event): Json {
    match e
    case DerivationEvent(d) => DerivationJson(d)
    case AttrSet(attr, path, attrs) =>
      JObject(map["attr" := JString(attr), "attrPath" := Strings(path), "attrs" := Strings(attrs)])
    case ErrorEvent(err) =>
      JObject(map["attr" := JString(err.attr), "attrPath" := Strings(err.attrPath),
                  "error" := JString(err.error), "fatal" := JBool(err.fatal)])
  }

  lemma {:induction false} FieldMore(d: Derivation, names: set<string>, name: string)
    ensures FieldsAmong(d, names + {name}) ==
              if DerivationField(d, name).Some? then FieldsAmong(d, names)[name := DerivationField(d, name).value]
              else FieldsAmong(d, names)
  {
  }

  /** The printer: fields are inserted one by one into a growing object. */
  method DerivationValue(d: Derivation) returns (value: Json)
    ensures value == DerivationJson(d)
  {
    var fields := RequiredFields(d);
    ghost var names := {"attr", "attrPath", "name", "system", "drvPath", "outputs"};
    if d.meta.Some? {
      fields := fields["meta" := d.meta.value];
    }
    FieldMore(d, names, "meta");
    if d.inputDrvs != map[] {
      var inputs := InputDrvsValue(d.inputDrvs);
      fields := fields["inputDrvs" := inputs];
    }
    FieldMore(d, names + {"meta"}, "inputDrvs");
    if d.constituents.Some? {
      fields := fields["constituents" := Strings(d.constituents.value)];
    }
    FieldMore(d, names + {"meta"} + {"inputDrvs"}, "constituents");
    if d.gcRootError.Some? {
      fields := fields["gcRootError" := JString(d.gcRootError.value)];
    }
    FieldMore(d, names + {"meta"} + {"inputDrvs"} + {"constituents"}, "gcRootError");
    assert names + {"meta"} + {"inputDrvs"} + {"constituents"} + {"gcRootError"} == DERIVATION_FIELDS;
    value := JObject(fields);
  }

  method RequiredFields(d: Derivation) returns (fields: map<string, Json>)
    ensures fields == FieldsAmong(d, {"attr", "attrPath", "name", "system", "drvPath", "outputs"})
  {
    var outputs := OutputsValue(d.outputs);
    fields := map[];
    fields := fields["attr" := JString(d.attr)];
    fields := fields["attrPath" := Strings(d.attrPath)];
    fields := fields["name" := JString(d.name)];
    fields := fields["system" := JString(d.system)];
    fields := fields["drvPath" := JString(d.drvPath)];
    fields := fields["outputs" := outputs];
  }

  method OutputsValue(outputs: map<string, Option<string>>) returns (value: Json)
    ensures value == OutputsJson(outputs)
  {
    var printed: map<string, Json> := map[];
    var todo := outputs.Keys;
    while todo != {}
      invariant todo <= outputs.Keys
      invariant printed == map k | k in outputs && k !in todo :: OutputJson(outputs[k])
      decreases todo
    {
      var k :| k in todo;
      todo := todo - {k};
      printed := printed[k := OutputJson(outputs[k])];
    }
    assert printed == map k | k in outputs :: OutputJson(outputs[k]);
    value := JObject(printed);
  }

  method InputDrvsValue(inputs: map<string, seq<string>>) returns (value: Json)
    ensures value == InputsJson(inputs)
  {
    var drvs: map<string, Json> := map[];
    var todo := inputs.Keys;
    while todo != {}
      invariant todo <= inputs.Keys
      invariant drvs == map k | k in inputs && k !in todo :: Strings(inputs[k])
      decreases todo
    {
      var k :| k in todo;
      todo := todo - {k};
      drvs := drvs[k := Strings(inputs[k])];
    }
    assert drvs == map k | k in inputs :: Strings(inputs[k]);
    value := JObject(drvs);
  }

  // ---- Parsing -------------------------------------------------------------

  function Get(value: Json, name: string): Option<Json> {
    if value.JObject? && name in value.fields then Some(value.fields[name]) else None
  }

  function StringList(items: seq<Json>): Option<seq<string>> {
    if items == [] then Some([])
    else
      var rest := StringList(items[1..]);
      if items[0].JString? && rest.Some? then Some([items[0].s] + rest.value) else None
  }

  function ToStrings(value: Json): Option<seq<string>> {
    if value.JArray? then StringList(value.items) else None
  }

  function StringField(value: Json, name: string): Result<string> {
    match Get(value, name)
    case Some(JString(s)) => Ok(s)
    case _ => Err("missing string field \"" + name + "\"")
  }

  function StringsField(value: Json, name: string): Result<seq<string>> {
    match Get(value, name)
    case None => Err("missing string list field \"" + name + "\"")
    case Some(v) => if ToStrings(v).Some? then Ok(ToStrings(v).value) else Err("parsing field \"" + name + "\"")
  }

  function ParseOutputs(value: Json): map<string, Option<string>> {
    match Get(value, "outputs")
    case Some(JObject(outputs)) =>
      map k | k in outputs :: if outputs[k].JString? then Some(outputs[k].s) else None
    case _ => map[]
  }

  function ParseInputs(value: Json): Result<map<string, seq<string>>> {
    match Get(value, "inputDrvs")
    case Some(JObject(drvs)) =>
      if forall k :: k in drvs ==> ToStrings(drvs[k]).Some?
      then Ok(map k | k in drvs :: ToStrings(drvs[k]).value)
      else Err("parsing inputDrvs")
    case _ => Ok(map[])
  }

  function ParseConstituents(value: Json): Result<Option<seq<string>>> {
    match Get(value, "constituents")
    case None => Ok(None)
    case Some(v) => if ToStrings(v).Some? then Ok(Some(ToStrings(v).value)) else Err("parsing constituents")
  }

  function ParseGcRootError(value: Json): Option<string> {
    match Get(value, "gcRootError")
    case Some(JString(s)) => Some(s)
    case _ => None
  }

  /** The first failing field decides the error. */
  function ParseDerivation(value: Json): Result<Derivation> {
    match (ParseInputs(value), ParseConstituents(value))
    case (Err(e), _) => Err(e)
    case (_, Err(e)) => Err(e)
    case (Ok(inputs), Ok(constituents)) =>
      match (StringField(value, "attr"), StringsField(value, "attrPath"), StringField(value, "name"))
      case (Err(e), _, _) => Err(e)
      case (_, Err(e), _) => Err(e)
      case (_, _, Err(e)) => Err(e)
      case (Ok(attr), Ok(attrPath), Ok(name)) =>
        match (StringField(value, "system"), StringField(value, "drvPath"))
        case (Err(e), _) => Err(e)
        case (_, Err(e)) => Err(e)
        case (Ok(system), Ok(drvPath)) =>
          Ok(Derivation(attr, attrPath, name, system, drvPath, ParseOutputs(value), Get(value, "meta"),
                        inputs, constituents, ParseGcRootError(value)))
  }

  function ParseError(value: Json): Result<EvalError> {
    match (StringField(value, "attr"), StringsField(value, "attrPath"), StringField(value, "error"))
    case (Err(e), _, _) => Err(e)
    case (_, Err(e), _) => Err(e)
    case (_, _, Err(e)) => Err(e)
    case (Ok(attr), Ok(attrPath), Ok(error)) =>
      Ok(EvalError(attr, attrPath, error,
                   match Get(value, "fatal") case Some(JBool(b)) => b case _ => false))
  }

  function ParseAttrSet(value: Json): Result<Event> {
    match (StringField(value, "attr"), StringsField(value, "attrPath"))
    case (Err(e), _) => Err(e)
    case (_, Err(e)) => Err(e)
    case (Ok(attr), Ok(attrPath)) =>
      Ok(AttrSet(attr, attrPath, match StringsField(value, "attrs") case Ok(attrs) => attrs case Err(_) => []))
  }

  /** The three shapes are told apart by the presence of a key. */
  function ParseEvent(value: Json): Result<Event> {
    if Get(value, "drvPath").Some? then
      match ParseDerivation(value) case Ok(d) => Ok(DerivationEvent(d)) case Err(e) => Err(e)
    else if Get(value, "error").Some? then
      match ParseError(value) case Ok(e) => Ok(ErrorEvent(e)) case Err(e) => Err(e)
    else ParseAttrSet(value)
  }

  // ---- What is accepted, and as what ---------------------------------------

  lemma {:induction false} StringListMeans(items: seq<Json>)
    ensures StringList(items).Some? <==> forall i :: 0 <= i < |items| ==> items[i].JString?
    ensures StringList(items).Some? ==> Strings(StringList(items).value) == JArray(items)
  {
    if items != [] {
      StringListMeans(items[1..]);
      assert items == [items[0]] + items[1..];
      if StringList(items).Some? {
        assert Strings(StringList(items[1..]).value).items == items[1..];
        assert Strings(StringList(items).value).items == items;
      }
    }
  }

  predicate IsStrings(value: Json) {
    value.JArray? && forall i :: 0 <= i < |value.items| ==> value.items[i].JString?
  }

  predicate HasString(value: Json, name: string) {
    value.JObject? && name in value.fields && value.fields[name].JString?
  }

  predicate HasStrings(value: Json, name: string) {
    value.JObject? && name in value.fields && IsStrings(value.fields[name])
  }

  lemma {:induction false} FieldMeans(value: Json, name: string)
    ensures StringField(value, name).Ok? <==> HasString(value, name)
    ensures StringField(value, name).Ok? ==> value.fields[name] == JString(StringField(value, name).value)
    ensures StringField(value, name).Err? ==>
              StringField(value, name).error == "missing string field \"" + name + "\""
    ensures StringsField(value, name).Ok? <==> HasStrings(value, name)
    ensures StringsField(value, name).Ok? ==> value.fields[name] == Strings(StringsField(value, name).value)
  {
    if Get(value, name).Some? && value.fields[name].JArray? {
      StringListMeans(value.fields[name].items);
    }
  }

  /** Every field of `drvs` is a list of strings, and `inputs` holds those lists. */
  ghost predicate Lists(drvs: map<string, Json>, inputs: map<string, seq<string>>) {
    inputs.Keys == drvs.Keys && forall k :: k in drvs ==> drvs[k] == Strings(inputs[k])
  }

  lemma {:induction false} InputsMean(value: Json)
    ensures var has := value.JObject? && "inputDrvs" in value.fields && value.fields["inputDrvs"].JObject?;
      if has then
        var drvs := value.fields["inputDrvs"].fields;
        && (ParseInputs(value).Ok? <==> forall k :: k in drvs ==> IsStrings(drvs[k]))
        && (ParseInputs(value).Ok? ==> Lists(drvs, ParseInputs(value).value))
      else ParseInputs(value) == Ok(map[])
  {
    if value.JObject? && "inputDrvs" in value.fields && value.fields["inputDrvs"].JObject? {
      var drvs := value.fields["inputDrvs"].fields;
      forall k | k in drvs && drvs[k].JArray?
        ensures (StringList(drvs[k].items).Some? <==> IsStrings(drvs[k]))
                && (IsStrings(drvs[k]) ==> Strings(StringList(drvs[k].items).value) == drvs[k])
      {
        StringListMeans(drvs[k].items);
      }
    }
  }

  lemma {:induction false} OptionalsMean(value: Json)
    ensures ParseConstituents(value).Ok? <==> Get(value, "constituents").None? || HasStrings(value, "constituents")
    ensures ParseConstituents(value).Ok? ==>
              Get(value, "constituents") ==
              (if ParseConstituents(value).value.None? then None
               else Some(Strings(ParseConstituents(value).value.value)))
    ensures ParseGcRootError(value).Some? <==> HasString(value, "gcRootError")
    ensures ParseGcRootError(value).Some? ==> value.fields["gcRootError"] == JString(ParseGcRootError(value).value)
  {
    if Get(value, "constituents").Some? && value.fields["constituents"].JArray? {
      StringListMeans(value.fields["constituents"].items);
    }
  }

  /** The outputs of any object are kept by name, with no path where there is no string;
      anything else stands for no outputs. */
  lemma {:induction false} OutputsMean(value: Json)
    ensures var outputs := ParseOutputs(value);
      if value.JObject? && "outputs" in value.fields && value.fields["outputs"].JObject? then
        var printed := value.fields["outputs"].fields;
        && outputs.Keys == printed.Keys
        && forall k :: k in printed ==>
             outputs[k] == if printed[k].JString? then Some(printed[k].s) else None
      else outputs == map[]
  {
  }

  /** What must be there and well formed for a derivation to be read. */
  ghost predicate IsDerivation(value: Json) {
    && HasString(value, "attr") && HasStrings(value, "attrPath") && HasString(value, "name")
    && HasString(value, "system") && HasString(value, "drvPath")
    && ("constituents" in value.fields ==> IsStrings(value.fields["constituents"]))
    && ("inputDrvs" in value.fields && value.fields["inputDrvs"].JObject? ==>
          forall k :: k in value.fields["inputDrvs"].fields ==> IsStrings(value.fields["inputDrvs"].fields[k]))
  }

  lemma {:induction false} DerivationFields(value: Json)
    ensures forall name: string :: StringField(value, name).Ok? <==> HasString(value, name)
    ensures forall name: string :: HasString(value, name) ==>
              value.fields[name] == JString(StringField(value, name).value)
    ensures forall name: string :: StringsField(value, name).Ok? <==> HasStrings(value, name)
    ensures forall name: string :: HasStrings(value, name) ==>
              value.fields[name] == Strings(StringsField(value, name).value)
  {
    forall name: string
      ensures StringField(value, name).Ok? <==> HasString(value, name)
      ensures HasString(value, name) ==> value.fields[name] == JString(StringField(value, name).value)
      ensures StringsField(value, name).Ok? <==> HasStrings(value, name)
      ensures HasStrings(value, name) ==> value.fields[name] == Strings(StringsField(value, name).value)
    {
      FieldMeans(value, name);
    }
  }

  /** A derivation is read exactly from a well-formed object; its fields are those of
      the same name. */
  lemma {:induction false} DerivationAccepted(value: Json)
    ensures ParseDerivation(value).Ok? <==> IsDerivation(value)
    ensures ParseDerivation(value).Ok? ==>
              var d := ParseDerivation(value).value;
              && value.fields["attr"] == JString(d.attr) && value.fields["attrPath"] == Strings(d.attrPath)
              && value.fields["name"] == JString(d.name) && value.fields["system"] == JString(d.system)
              && value.fields["drvPath"] == JString(d.drvPath) && d.meta == Get(value, "meta")
              && d.outputs == ParseOutputs(value) && Ok(d.inputDrvs) == ParseInputs(value)
              && Ok(d.constituents) == ParseConstituents(value) && d.gcRootError == ParseGcRootError(value)
  {
    DerivationFields(value);
    InputsMean(value);
    OptionalsMean(value);
  }

  /** Anything else with a `drvPath` is refused; without one, an `error` makes it an
      error, not fatal unless it says so; the rest are attribute sets, of no names
      unless they list some. */
  lemma {:induction false} EventAccepted(value: Json)
    ensures Get(value, "drvPath").Some? ==>
              (ParseEvent(value).Ok? <==> IsDerivation(value))
              && (ParseEvent(value).Ok? ==> Ok(ParseEvent(value).value) == MapDerivation(ParseDerivation(value)))
    ensures Get(value, "drvPath").None? && Get(value, "error").Some? ==>
              && (ParseEvent(value).Ok? <==>
                    HasString(value, "attr") && HasStrings(value, "attrPath") && HasString(value, "error"))
              && (ParseEvent(value).Ok? ==>
                    var e := ParseEvent(value).value;
                    && e.ErrorEvent? && value.fields["attr"] == JString(e.err.attr)
                    && value.fields["attrPath"] == Strings(e.err.attrPath)
                    && value.fields["error"] == JString(e.err.error)
                    && (e.err.fatal <==> Get(value, "fatal") == Some(JBool(true))))
    ensures Get(value, "drvPath").None? && Get(value, "error").None? ==>
              && (ParseEvent(value).Ok? <==> HasString(value, "attr") && HasStrings(value, "attrPath"))
              && (ParseEvent(value).Ok? ==>
                    var e := ParseEvent(value).value;
                    && e.AttrSet? && value.fields["attr"] == JString(e.attr)
                    && value.fields["attrPath"] == Strings(e.path)
                    && if HasStrings(value, "attrs") then value.fields["attrs"] == Strings(e.attrs) else e.attrs == [])
  {
    if Get(value, "drvPath").Some? {
      DerivationAccepted(value);
    } else {
      DerivationFields(value);
    }
  }

  function MapDerivation(d: Result<Derivation>): Result<Event> {
    if d.Ok? then Ok(DerivationEvent(d.value)) else Err(d.error)
  }

  // ---- Round trips ---------------------------------------------------------

  lemma {:induction false} StringListRoundTrip(ss: seq<string>)
    ensures StringList(Strings(ss).items) == Some(ss)
  {
    if ss != [] {
      StringListRoundTrip(ss[1..]);
      assert Strings(ss).items[1..] == Strings(ss[1..]).items;
      assert ss == [ss[0]] + ss[1..];
    }
  }

  lemma {:induction false} GetDerivation(d: Derivation, name: string)
    ensures Get(DerivationJson(d), name) == DerivationField(d, name)
  {
    if DerivationField(d, name).Some? {
      assert name in DERIVATION_FIELDS;
    }
  }

  lemma {:induction false} OutputsRoundTrip(d: Derivation)
    ensures ParseOutputs(DerivationJson(d)) == d.outputs
  {
    GetDerivation(d, "outputs");
  }

  lemma {:induction false} InputsRoundTrip(d: Derivation)
    ensures ParseInputs(DerivationJson(d)) == Ok(d.inputDrvs)
  {
    GetDerivation(d, "inputDrvs");
    if d.inputDrvs != map[] {
      var drvs := InputsJson(d.inputDrvs).fields;
      forall k | k in drvs ensures ToStrings(drvs[k]) == Some(d.inputDrvs[k]) {
        StringListRoundTrip(d.inputDrvs[k]);
      }
      assert (map k | k in drvs :: ToStrings(drvs[k]).value) == d.inputDrvs;
    }
  }

  lemma {:induction false} OptionalRoundTrip(d: Derivation)
    ensures ParseConstituents(DerivationJson(d)) == Ok(d.constituents)
    ensures ParseGcRootError(DerivationJson(d)) == d.gcRootError
    ensures Get(DerivationJson(d), "meta") == d.meta
  {
    GetDerivation(d, "constituents");
    GetDerivation(d, "gcRootError");
    GetDerivation(d, "meta");
    if d.constituents.Some? {
      StringListRoundTrip(d.constituents.value);
    }
  }

  lemma {:induction false} RequiredRoundTrip(d: Derivation)
    ensures StringField(DerivationJson(d), "attr") == Ok(d.attr)
    ensures StringsField(DerivationJson(d), "attrPath") == Ok(d.attrPath)
    ensures StringField(DerivationJson(d), "name") == Ok(d.name)
    ensures StringField(DerivationJson(d), "system") == Ok(d.system)
    ensures StringField(DerivationJson(d), "drvPath") == Ok(d.drvPath)
  {
    GetDerivation(d, "attr");
    GetDerivation(d, "attrPath");
    GetDerivation(d, "name");
    GetDerivation(d, "system");
    GetDerivation(d, "drvPath");
    StringListRoundTrip(d.attrPath);
  }

  /** Every event is read back as it was, whatever its fields hold: absent and empty
      lists, null outputs and a `meta` of null included. */
  lemma {:induction false} EventRoundTrip(e: Event)
    ensures ParseEvent(EventJson(e)) == Ok(e)
  {
    var value := EventJson(e);
    match e {
      case DerivationEvent(d) =>
        OutputsRoundTrip(d);
        InputsRoundTrip(d);
        OptionalRoundTrip(d);
        RequiredRoundTrip(d);
        GetDerivation(d, "drvPath");
      case AttrSet(_, path, attrs) =>
        StringListRoundTrip(path);
        StringListRoundTrip(attrs);
      case ErrorEvent(err) =>
        StringListRoundTrip(err.attrPath);
    }
  }

  /** No two events print alike. */
  lemma {:induction false} EventJsonInjective(a: Event, b: Event)
    requires EventJson(a) == EventJson(b)
    ensures a == b
  {
    EventRoundTrip(a);
    EventRoundTrip(b);
  }
}
