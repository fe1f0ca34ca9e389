/** The two generated adapters, and that they run a plan the way its contract means it. */
module Adapter {
  import opened Wrappers
  import opened Contract
  import Attributes

  /** Text and JSON conversions of the Python runtime. */
  datatype Codecs = Codecs(
    encode: string -> seq<bv8>,
    decode: seq<bv8> -> Option<string>,
    loads: string -> Option<Value>,
    compact: Value -> string,            // a JSON value as compact JSON
    spaced: Value -> string,             // the same with the default separators
    converted: string -> Option<string>, // another object through tolist or item, as JSON
    show: Value -> string)               // str() of anything but text

  datatype Error = MissingMetadata(key: string) | MissingParameter(key: string) | BadValue | BadPath
  type Kwargs = map<string, Value>

  function Needed(text: Option<string>): Result<Value, Error> {
    if text.Some? then Ok(Text(text.value)) else Err(BadValue)
  }

  function FromJson(c: Codecs, text: string): Result<Value, Error> {
    if c.loads(text).Some? then Ok(c.loads(text).value) else Err(BadValue)
  }

  function Decode(c: Codecs, raw: Value, codec: Codec): Result<Value, Error> {
    match codec
    case BYTES =>
      if raw.Bytes? then Ok(raw) else if raw.Text? then Ok(Bytes(c.encode(raw.s))) else Err(BadValue)
    case TEXT =>
      if raw.Bytes? then Needed(c.decode(raw.b)) else if raw.Text? then Ok(raw) else Ok(Text(c.show(raw)))
    case JSON =>
      if raw.Bytes? then (if c.decode(raw.b).Some? then FromJson(c, c.decode(raw.b).value) else Err(BadValue))
      else if raw.Text? then FromJson(c, raw.s) else Ok(raw)
    case BINARY_STREAM =>
      if raw.Stream? then Ok(raw) else if BytesLike(raw) then Ok(Stream(raw.b)) else Err(BadValue)
  }

  function AsBytes(raw: Value): Value { if raw.ByteArray? then Bytes(raw.b) else raw }

  /** The NiFi decoder turns byte arrays into bytes first. */
  function DecodeNative(c: Codecs, raw: Value, codec: Codec): Result<Value, Error> {
    Decode(c, AsBytes(raw), codec)
  }

  /** The argument's value, or None when it is left out of the call. */
  function Resolve(c: Codecs, b: Binding, content: Value, attributes: Attributes.Attrs, parameters: Attributes.Attrs)
    : Result<Option<Value>, Error>
  {
    match b.source
    case INPUT_PAYLOAD => Given(Decode(c, content, b.codec))
    case INPUT_METADATA =>
      if b.metadataKey in attributes then Given(Decode(c, Text(attributes[b.metadataKey]), b.codec))
      else if b.required then Err(MissingMetadata(b.metadataKey)) else Ok(None)
    case OPERATOR_PARAMETER =>
      if b.parameterKey in parameters then Given(Decode(c, Text(parameters[b.parameterKey]), b.codec))
      else if b.hasDefault then Ok(Some(b.default))
      else if b.required then Err(MissingParameter(b.parameterKey)) else Ok(None)
    case CONSTANT => Ok(Some(b.constant))
  }

  function Given(r: Result<Value, Error>): Result<Option<Value>, Error> {
    match r case Ok(v) => Ok(Some(v)) case Err(e) => Err(e)
  }

  type Nullable = map<string, Option<string>>

  function ResolveNative(c: Codecs, b: Binding, content: Value, metadata: Nullable, parameters: Nullable)
    : Result<Option<Value>, Error>
  {
    match b.source
    case INPUT_PAYLOAD => Given(DecodeNative(c, content, b.codec))
    case INPUT_METADATA =>
      if b.metadataKey !in metadata || metadata[b.metadataKey] == None then
        if b.required then Err(MissingMetadata(b.metadataKey)) else Ok(None)
      else Given(DecodeNative(c, Text(metadata[b.metadataKey].value), b.codec))
    case OPERATOR_PARAMETER =>
      if b.parameterKey in parameters && parameters[b.parameterKey] != None
      then Given(DecodeNative(c, Text(parameters[b.parameterKey].value), b.codec))
      else if b.hasDefault then Ok(Some(b.default))
      else if b.required then Err(MissingParameter(b.parameterKey)) else Ok(None)
    case CONSTANT => Ok(Some(b.constant))
  }

  function Put(kwargs: Kwargs, name: string, value: Option<Value>): Kwargs {
    if value.Some? then kwargs[name := value.value] else kwargs
  }

  function BuildKwargs(c: Codecs, bs: Dict<Binding>, content: Value,
                       attributes: Attributes.Attrs, parameters: Attributes.Attrs): Result<Kwargs, Error>
  {
    if bs == [] then Ok(map[])
    else
      match BuildKwargs(c, bs[..|bs| - 1], content, attributes, parameters)
      case Err(e) => Err(e)
      case Ok(kwargs) =>
        match Resolve(c, bs[|bs| - 1].1, content, attributes, parameters)
        case Err(e) => Err(e)
        case Ok(v) => Ok(Put(kwargs, bs[|bs| - 1].0, v))
  }

  method BuildKwargsLoop(c: Codecs, bs: Dict<Binding>, content: Value,
                         attributes: Attributes.Attrs, parameters: Attributes.Attrs) returns (r: Result<Kwargs, Error>)
    ensures r == BuildKwargs(c, bs, content, attributes, parameters)
  {
    var kwargs: Kwargs := map[];
    assert bs[..0] == [];
    for i := 0 to |bs|
      invariant BuildKwargs(c, bs[..i], content, attributes, parameters) == Ok(kwargs)
    {
      assert bs[..i + 1][..i] == bs[..i];
      match Resolve(c, bs[i].1, content, attributes, parameters) {
        case Err(e) =>
          FailsOn(c, bs, content, attributes, parameters, i + 1);
          return Err(e);
        case Ok(v) => kwargs := Put(kwargs, bs[i].0, v);
      }
    }
    assert bs[..|bs|] == bs;
    r := Ok(kwargs);
  }

  lemma {:induction false} FailsOn(c: Codecs, bs: Dict<Binding>, content: Value,
                                   attributes: Attributes.Attrs, parameters: Attributes.Attrs, n: nat)
    requires n <= |bs| && BuildKwargs(c, bs[..n], content, attributes, parameters).Err?
    ensures BuildKwargs(c, bs, content, attributes, parameters)
            == BuildKwargs(c, bs[..n], content, attributes, parameters)
    decreases |bs|
  {
    if n < |bs| {
      assert bs[..|bs| - 1][..n] == bs[..n];
      FailsOn(c, bs[..|bs| - 1], content, attributes, parameters, n);
    } else {
      assert bs[..n] == bs;
    }
  }

  method BuildKwargsNative(c: Codecs, bs: Dict<Binding>, content: Value, metadata: Nullable, parameters: Nullable)
    returns (r: Result<Kwargs, Error>)
    ensures r == BuildKwargs(c, bs, AsBytes(content), NonNull(metadata), NonNull(parameters))
  {
    var kwargs: Kwargs := map[];
    assert bs[..0] == [];
    for i := 0 to |bs|
      invariant BuildKwargs(c, bs[..i], AsBytes(content), NonNull(metadata), NonNull(parameters)) == Ok(kwargs)
    {
      assert bs[..i + 1][..i] == bs[..i];
      BackendsAgree(c, bs[i].1, content, metadata, parameters);
      match ResolveNative(c, bs[i].1, content, metadata, parameters) {
        case Err(e) =>
          FailsOn(c, bs, AsBytes(content), NonNull(metadata), NonNull(parameters), i + 1);
          return Err(e);
        case Ok(v) => kwargs := Put(kwargs, bs[i].0, v);
      }
    }
    assert bs[..|bs|] == bs;
    r := Ok(kwargs);
  }

  // ----- one meaning

  function NonNull(m: Nullable): Attributes.Attrs {
    map k | k in m && m[k].Some? :: m[k].value
  }

  /** NiFi resolves a binding, on bytes or a byte array, as the Runner does on the same
      bytes and the non-null entries. */
  lemma BackendsAgree(c: Codecs, b: Binding, content: Value, metadata: Nullable, parameters: Nullable)
    ensures ResolveNative(c, b, content, metadata, parameters)
            == Resolve(c, b, AsBytes(content), NonNull(metadata), NonNull(parameters))
  {}

  /** What a contract says about an argument, without any plan. */
  function Meaning(c: Codecs, p: ParameterInfo, b: ArgumentBinding, content: Value,
                   attributes: Attributes.Attrs, parameters: Attributes.Attrs): Result<Option<Value>, Error>
    requires WellFormed(b)
  {
    match b.source
    case CONSTANT => Ok(Some(b.constant))
    case INPUT_PAYLOAD => Given(Decode(c, content, b.codec))
    case INPUT_METADATA =>
      if b.metadataKey in attributes then Given(Decode(c, Text(attributes[b.metadataKey]), b.codec))
      else if p.required then Err(MissingMetadata(b.metadataKey))
      else Ok(None)
    case OPERATOR_PARAMETER =>
      var spec := b.parameter.value;
      if spec.key in parameters then Given(Decode(c, Text(parameters[spec.key]), b.codec))
      else if spec.hasDefault then Ok(Some(spec.default))
      else if spec.required || p.required then Err(MissingParameter(spec.key))
      else Ok(None)
  }

  function Meanings(c: Codecs, ps: seq<ParameterInfo>, d: Dict<ArgumentBinding>, content: Value,
                    attributes: Attributes.Attrs, parameters: Attributes.Attrs): Result<Kwargs, Error>
    requires AllWellFormed(d) && Names(d) <= ParameterNames(ps)
    decreases |d|
  {
    if d == [] then Ok(map[])
    else
      var front, last := d[..|d| - 1], d[|d| - 1];
      assert Names(front) <= Names(d) by { NamesPrefix(d, |d| - 1); }
      assert last.0 in Names(d);
      match Meanings(c, ps, front, content, attributes, parameters)
      case Err(e) => Err(e)
      case Ok(kwargs) =>
        match Meaning(c, Lookup(ps, last.0), last.1, content, attributes, parameters)
        case Err(e) => Err(e)
        case Ok(v) => Ok(Put(kwargs, last.0, v))
  }

  /** The compiled bindings build the call the contract means. */
  lemma {:induction false} MeaningKept(c: Codecs, ps: seq<ParameterInfo>, d: Dict<ArgumentBinding>, out: Dict<Binding>,
                                       shared: Parameters, content: Value,
                                       attributes: Attributes.Attrs, parameters: Attributes.Attrs)
    requires AllWellFormed(d) && Names(d) <= ParameterNames(ps) && Matches(ps, d, out, shared)
    ensures BuildKwargs(c, out, content, attributes, parameters) == Meanings(c, ps, d, content, attributes, parameters)
    decreases |d|
  {
    if d != [] {
      NamesPrefix(d, |d| - 1);
      MatchesParts(ps, d, out, shared);
      var front, outFront := d[..|d| - 1], out[..|d| - 1];
      hide Matches, Names;
      MeaningKept(c, ps, front, outFront, shared, content, attributes, parameters);
    }
  }

  lemma MatchesParts(ps: seq<ParameterInfo>, d: Dict<ArgumentBinding>, out: Dict<Binding>, shared: Parameters)
    requires AllWellFormed(d) && Names(d) <= ParameterNames(ps) && Matches(ps, d, out, shared) && d != []
    ensures |out| == |d| && AllWellFormed(d[..|d| - 1]) && Names(d[..|d| - 1]) <= ParameterNames(ps)
    ensures Matches(ps, d[..|d| - 1], out[..|d| - 1], shared)
    ensures MatchesOne(ps, d[|d| - 1], out[|d| - 1], shared)
  {
    NamesPrefix(d, |d| - 1);
    var front, outFront := d[..|d| - 1], out[..|d| - 1];
    forall i | 0 <= i < |front| ensures MatchesOne(ps, front[i], outFront[i], shared) {
      assert MatchesOne(ps, d[i], out[i], shared);
    }
  }

  // ----- calls

  datatype Call = Call(built: Kwargs, invoked: Kwargs)

  /** What the Runner adapter calls the user's code with. */
  function Prepare(c: Codecs, plan: Plan, content: Value, attributes: Attributes.Attrs, parameters: Attributes.Attrs)
    : Result<Call, Error>
  {
    match BuildKwargs(c, plan.constructorArguments, content, attributes, parameters)
    case Err(e) => Err(e)
    case Ok(built) =>
      match BuildKwargs(c, plan.arguments, content, attributes, parameters)
      case Err(e) => Err(e)
      case Ok(invoked) => Ok(Call(built, invoked))
  }

  /** Only declared names, and every required one. */
  predicate Fits(kwargs: Kwargs, ps: seq<ParameterInfo>) {
    RequiredNames(ps) <= kwargs.Keys <= ParameterNames(ps)
  }

  lemma {:induction false} KwargsNames(c: Codecs, bs: Dict<Binding>, content: Value,
                                       attributes: Attributes.Attrs, parameters: Attributes.Attrs, i: nat)
    requires BuildKwargs(c, bs, content, attributes, parameters).Ok?
    ensures BuildKwargs(c, bs, content, attributes, parameters).value.Keys <= Names(bs)
    ensures i < |bs| && bs[i].1.required ==> bs[i].0 in BuildKwargs(c, bs, content, attributes, parameters).value
  {
    if bs != [] {
      var front := bs[..|bs| - 1];
      NamesPrefix(bs, |bs| - 1);
      assert bs[|bs| - 1].0 in Names(bs);
      KwargsNames(c, front, content, attributes, parameters, i);
      if i < |bs| - 1 { assert front[i] == bs[i]; }
    }
  }

  lemma Fitting(c: Codecs, ps: seq<ParameterInfo>, d: Dict<ArgumentBinding>, out: Dict<Binding>, shared: Parameters,
                content: Value, attributes: Attributes.Attrs, parameters: Attributes.Attrs)
    requires AllWellFormed(d) && Names(d) <= ParameterNames(ps) && RequiredNames(ps) <= Names(d)
    requires UniqueNames(ps) && Matches(ps, d, out, shared)
    requires BuildKwargs(c, out, content, attributes, parameters).Ok?
    ensures Fits(BuildKwargs(c, out, content, attributes, parameters).value, ps)
  {
    var kwargs := BuildKwargs(c, out, content, attributes, parameters).value;
    forall i | 0 <= i < |ps| && ps[i].required ensures ps[i].name in kwargs {
      assert ps[i].name in RequiredNames(ps);
      var j :| 0 <= j < |d| && d[j].0 == ps[i].name;
      assert MatchesOne(ps, d[j], out[j], shared);
      LookupFinds(ps, i);
      KwargsNames(c, out, content, attributes, parameters, j);
    }
    KwargsNames(c, out, content, attributes, parameters, 0);
    forall name | name in kwargs ensures name in ParameterNames(ps) {
      var j :| 0 <= j < |out| && out[j].0 == name;
      assert MatchesOne(ps, d[j], out[j], shared);
    }
  }

  lemma LookupFinds(ps: seq<ParameterInfo>, i: nat)
    requires UniqueNames(ps) && i < |ps|
    ensures ps[i].name in ParameterNames(ps) && Lookup(ps, ps[i].name) == ps[i]
  {
    var found := Lookup(ps, ps[i].name);
    var j :| 0 <= j < |ps| && ps[j] == found;
  }

  /** Compiled calls do not go wrong: on every input the adapter stops with its own
      missing-value or codec error, or calls constructor and target with declared
      names only, none of the required ones missing, and the values the contract means. */
  lemma CallsDoNotGoWrong(c: Codecs, k: VirtualContract, catalog: Catalog, sorted: set<string> -> seq<string>,
                          content: Value, attributes: Attributes.Attrs, parameters: Attributes.Attrs)
    requires AllWellFormed(k.constructorArguments) && AllWellFormed(k.arguments)
    requires Compile(k, catalog, sorted).Ok?
    requires UniqueNames(catalog.callables[k.target].parameters)
    requires UniqueNames(ConstructorOf(catalog.callables[k.target], catalog))
    ensures Names(k.constructorArguments) <= ParameterNames(ConstructorOf(catalog.callables[k.target], catalog))
    ensures Names(k.arguments) <= ParameterNames(catalog.callables[k.target].parameters)
    ensures var target := catalog.callables[k.target];
            var ctor := ConstructorOf(target, catalog);
            var built := Meanings(c, ctor, k.constructorArguments, content, attributes, parameters);
            var invoked := Meanings(c, target.parameters, k.arguments, content, attributes, parameters);
            match Prepare(c, Compile(k, catalog, sorted).value, content, attributes, parameters)
            case Err(e) => built == Err(e) || (built.Ok? && invoked == Err(e))
            case Ok(call) =>
              && Ok(call.built) == built && Ok(call.invoked) == invoked
              && Fits(call.built, ConstructorOf(target, catalog)) && Fits(call.invoked, target.parameters)
  {
    var target, plan := catalog.callables[k.target], Compile(k, catalog, sorted).value;
    var ctor := ConstructorOf(target, catalog);
    PlanMatches(k, catalog, sorted);
    MeaningKept(c, ctor, k.constructorArguments, plan.constructorArguments, plan.parameters,
                content, attributes, parameters);
    MeaningKept(c, target.parameters, k.arguments, plan.arguments, plan.parameters, content, attributes, parameters);
    if Prepare(c, plan, content, attributes, parameters).Ok? {
      Fitting(c, ctor, k.constructorArguments, plan.constructorArguments, plan.parameters,
              content, attributes, parameters);
      Fitting(c, target.parameters, k.arguments, plan.arguments, plan.parameters, content, attributes, parameters);
    }
  }

  // ----- filters at the Runner's boundary

  lemma {:induction false} FilterKeepsKwargs(c: Codecs, bs: Dict<Binding>, allowed: seq<string>, content: Value,
                                             attributes: Attributes.Attrs, parameters: Attributes.Attrs)
    requires forall key :: key in MetadataKeys(bs) ==> key in allowed
    ensures BuildKwargs(c, bs, content, Attributes.Filter(attributes, allowed), parameters)
            == BuildKwargs(c, bs, content, attributes, parameters)
    decreases |bs|
  {
    if bs != [] {
      var front, b := bs[..|bs| - 1], bs[|bs| - 1].1;
      forall key | key in MetadataKeys(front) ensures key in allowed {
        var i :| 0 <= i < |front| && front[i].1.source == INPUT_METADATA && front[i].1.metadataKey == key;
        assert bs[i].1.metadataKey in MetadataKeys(bs);
      }
      FilterKeepsKwargs(c, front, allowed, content, attributes, parameters);
      if b.source == INPUT_METADATA {
        assert b.metadataKey in MetadataKeys(bs);
        Attributes.FilterKeepsAllowed(attributes, allowed, b.metadataKey);
      }
    }
  }

  /** Dropping the attributes a plan does not declare never changes its calls. */
  lemma InputFilterIsInvisible(c: Codecs, k: VirtualContract, catalog: Catalog, sorted: set<string> -> seq<string>,
                               content: Value, attributes: Attributes.Attrs, parameters: Attributes.Attrs)
    requires AllWellFormed(k.constructorArguments) && AllWellFormed(k.arguments)
    requires Compile(k, catalog, sorted).Ok? && forall keys :: Lists(sorted(keys), keys)
    ensures var plan := Compile(k, catalog, sorted).value;
            Prepare(c, plan, content, Attributes.Filter(attributes, plan.inputMetadata), parameters)
            == Prepare(c, plan, content, attributes, parameters)
  {
    var plan := Compile(k, catalog, sorted).value;
    var keys := MetadataKeys(plan.constructorArguments) + MetadataKeys(plan.arguments);
    assert Lists(sorted(keys), keys);
    FilterKeepsKwargs(c, plan.constructorArguments, plan.inputMetadata, content, attributes, parameters);
    FilterKeepsKwargs(c, plan.arguments, plan.inputMetadata, content, attributes, parameters);
  }

  // ----- output

  /** The value a return or return.path output takes from the result, unless the path
      leads nowhere. */
  type Extract = OutputSpec -> Option<Value>

  function OutputValue(o: OutputSpec, extract: Extract): Result<Value, Error> {
    if o.fromConstant then Ok(o.constant)
    else if extract(o).Some? then Ok(extract(o).value)
    else Err(BadPath)
  }

  /** json.dumps with the templates' fallback for other objects, which knows neither
      bytes nor streams. */
  function Dumps(c: Codecs, v: Value): Option<string> {
    if JsonValue(v) then Some(c.compact(v)) else if v.Object? then c.converted(v.id) else None
  }

  function EncodePayload(c: Codecs, v: Value, codec: Codec): Result<seq<bv8>, Error> {
    match codec
    case BYTES =>
      if BytesLike(v) then Ok(v.b) else if v.Text? then Ok(c.encode(v.s)) else Err(BadValue)
    case TEXT => Ok(c.encode(if v.Text? then v.s else c.show(v)))
    case JSON => if Dumps(c, v).Some? then Ok(c.encode(Dumps(c, v).value)) else Err(BadValue)
    case BINARY_STREAM => Err(BadValue)
  }

  /** What an output codec can send. */
  predicate Sends(c: Codecs, codec: Codec, v: Value) {
    match codec
    case BYTES => v.Text? || BytesLike(v)
    case TEXT => true
    case JSON => !BytesLike(v) && !v.Stream? && (v.Object? ==> c.converted(v.id).Some?)
    case BINARY_STREAM => false
  }

  /** json.dumps without any fallback. */
  function MetadataText(c: Codecs, v: Value): Result<string, Error> {
    if v.Text? then Ok(v.s)
    else if v.Bytes? then (if c.decode(v.b).Some? then Ok(c.decode(v.b).value) else Err(BadValue))
    else if JsonValue(v) then Ok(c.compact(v))
    else Err(BadValue)
  }

  function OutputAttributes(c: Codecs, d: Dict<OutputSpec>, extract: Extract)
    : Result<Attributes.Attrs, Error>
  {
    if d == [] then Ok(map[])
    else
      match OutputAttributes(c, d[..|d| - 1], extract)
      case Err(e) => Err(e)
      case Ok(attributes) =>
        match OutputValue(d[|d| - 1].1, extract)
        case Err(e) => Err(e)
        case Ok(v) =>
          match MetadataText(c, v)
          case Err(e) => Err(e)
          case Ok(text) => Ok(attributes[d[|d| - 1].0 := text])
  }

  lemma {:induction false} EmitsItsNames(c: Codecs, d: Dict<OutputSpec>, extract: Extract)
    requires OutputAttributes(c, d, extract).Ok?
    ensures OutputAttributes(c, d, extract).value.Keys == Names(d)
    decreases |d|
  {
    if d != [] {
      EmitsItsNames(c, d[..|d| - 1], extract);
      assert Names(d) == Names(d[..|d| - 1]) + {d[|d| - 1].0} by {
        assert forall i :: 0 <= i < |d| - 1 ==> d[..|d| - 1][i] == d[i];
      }
    }
  }

  /** What an adapter emits passes the Runner's output filter whole. */
  lemma OutputFilterIsIdentity(c: Codecs, k: VirtualContract, catalog: Catalog, sorted: set<string> -> seq<string>,
                               extract: Extract)
    requires AllWellFormed(k.constructorArguments) && AllWellFormed(k.arguments)
    requires Compile(k, catalog, sorted).Ok? && forall keys :: Lists(sorted(keys), keys)
    requires OutputAttributes(c, Compile(k, catalog, sorted).value.metadata, extract).Ok?
    ensures var plan := Compile(k, catalog, sorted).value;
            var attributes := OutputAttributes(c, plan.metadata, extract).value;
            Attributes.Filter(attributes, plan.outputMetadata) == attributes
  {
    var plan := Compile(k, catalog, sorted).value;
    var attributes := OutputAttributes(c, plan.metadata, extract).value;
    EmitsItsNames(c, plan.metadata, extract);
    assert Lists(sorted(Names(k.metadata)), Names(k.metadata));
    assert forall name :: name in attributes ==> name in plan.outputMetadata;
  }

  datatype Emitted = Emitted(content: seq<bv8>, attributes: Attributes.Attrs)

  function Content(c: Codecs, plan: Plan, original: seq<bv8>, extract: Extract): Result<seq<bv8>, Error> {
    match OutputValue(plan.payload, extract)
    case Err(e) => Err(e)
    case Ok(v) =>
      if v.Null? then Ok(if plan.keepOriginal then original else []) else EncodePayload(c, v, plan.payload.codec)
  }

  /** What the Runner adapter returns for the target's result. */
  function Emit(c: Codecs, plan: Plan, original: seq<bv8>, extract: Extract): Result<Emitted, Error> {
    match Content(c, plan, original, extract)
    case Err(e) => Err(e)
    case Ok(bytes) =>
      match OutputAttributes(c, plan.metadata, extract)
      case Err(e) => Err(e)
      case Ok(attributes) => Ok(Emitted(bytes, attributes))
  }

  /** Contents of None leave the flow file's content; text is written as UTF-8. */
  datatype NativeResult = NativeResult(contents: Option<Value>, attributes: Option<Attributes.Attrs>)

  function EncodeNative(c: Codecs, v: Value, codec: Codec): Result<Value, Error> {
    match codec
    case BYTES =>
      if BytesLike(v) then Ok(Bytes(v.b)) else if v.Text? then Ok(Bytes(c.encode(v.s))) else Err(BadValue)
    case TEXT => Ok(Text(if v.Text? then v.s else c.show(v)))
    case JSON => if Dumps(c, v).Some? then Ok(Text(Dumps(c, v).value)) else Err(BadValue)
    case BINARY_STREAM => Err(BadValue)
  }

  function ContentNative(c: Codecs, plan: Plan, extract: Extract): Result<Option<Value>, Error> {
    match OutputValue(plan.payload, extract)
    case Err(e) => Err(e)
    case Ok(v) =>
      if v.Null? && plan.keepOriginal then Ok(None)
      else if v.Null? then Ok(Some(Bytes([])))
      else Given(EncodeNative(c, v, plan.payload.codec))
  }

  function EmitNative(c: Codecs, plan: Plan, extract: Extract): Result<NativeResult, Error> {
    match ContentNative(c, plan, extract)
    case Err(e) => Err(e)
    case Ok(value) =>
      match OutputAttributes(c, plan.metadata, extract)
      case Err(e) => Err(e)
      case Ok(attributes) => Ok(NativeResult(value, if attributes == map[] then None else Some(attributes)))
  }

  /** What a flow file holds after a native result. */
  function FlowFile(c: Codecs, original: seq<bv8>, r: NativeResult): Emitted {
    Emitted(match r.contents
            case None => original
            case Some(Text(s)) => c.encode(s)
            case Some(v) => if v.Bytes? then v.b else [],
            if r.attributes.Some? then r.attributes.value else map[])
  }

  /** For the same result of the user's code both backends emit the same content and
      attributes, or both fail. */
  lemma BackendsEmitTheSame(c: Codecs, plan: Plan, original: seq<bv8>, extract: Extract)
    ensures match EmitNative(c, plan, extract)
            case Err(e) => Emit(c, plan, original, extract) == Err(e)
            case Ok(r) => Emit(c, plan, original, extract) == Ok(FlowFile(c, original, r))
  {
    var v := OutputValue(plan.payload, extract);
    if v.Ok? && !v.value.Null? { EncodersAgree(c, v.value, plan.payload.codec); }
  }

  lemma EncodersAgree(c: Codecs, v: Value, codec: Codec)
    ensures match EncodeNative(c, v, codec)
            case Err(e) => EncodePayload(c, v, codec) == Err(e)
            case Ok(n) => (n.Text? && EncodePayload(c, v, codec) == Ok(c.encode(n.s)))
                          || (n.Bytes? && EncodePayload(c, v, codec) == Ok(n.b))
  {}

  /** Which results a compiled contract can send: for each output codec exactly those of
      Sends, and constants of the contract always; a path that leads nowhere never. */
  lemma PayloadsEncode(c: Codecs, k: VirtualContract, catalog: Catalog, sorted: set<string> -> seq<string>,
                       original: seq<bv8>, extract: Extract)
    requires AllWellFormed(k.constructorArguments) && AllWellFormed(k.arguments)
    requires Compile(k, catalog, sorted).Ok? && JsonValue(k.payload.constant)
    requires OutputAttributes(c, k.metadata, extract).Ok?
    ensures var v := OutputValue(k.payload, extract);
            Emit(c, Compile(k, catalog, sorted).value, original, extract).Ok? <==>
            k.payload.fromConstant || (v.Ok? && (v.value.Null? || Sends(c, k.payload.codec, v.value)))
  {
    assert OutputAllowed(k.payload);
  }

  // ----- defaults on NiFi

  /** NiFi keeps defaults as property text, so an unset property is not missing there. */
  function DefaultText(c: Codecs, default: Value): string {
    if default.Text? then default.s else c.spaced(default)
  }

  /** JSON text of a value reads back as the value, and JSON text of a string is longer
      than the string: it has quotes. */
  ghost predicate JsonLaws(c: Codecs) {
    && (forall v :: JsonValue(v) && !v.Text? ==> c.loads(c.spaced(v)) == Some(v))
    && (forall t, s :: c.loads(t) == Some(Text(s)) ==> |s| < |t|)
  }

  /** The backends agree on an unset parameter whose contract has a default. */
  predicate AgreeWhenUnset(c: Codecs, b: Binding, content: Value) {
    ResolveNative(c, b, content, map[], map[b.parameterKey := Some(DefaultText(c, b.default))])
    == Resolve(c, b, content, map[], map[])
  }

  /** Which is so exactly for text defaults read as text and other defaults read as JSON. */
  lemma UnsetDefault(c: Codecs, b: Binding, content: Value)
    requires b.source == OPERATOR_PARAMETER && b.hasDefault && JsonValue(b.default) && JsonLaws(c)
    ensures AgreeWhenUnset(c, b, content) <==>
            (b.codec == TEXT && b.default.Text?) || (b.codec == JSON && !b.default.Text?)
  {
    var text := DefaultText(c, b.default);
    assert c.loads(text) != Some(Text(text));
  }

  /** A numeric default, read as text: the Runner passes the number, NiFi its digits. */
  lemma NumberBecomesText(c: Codecs, key: string, content: Value)
    ensures var b := Binding(OPERATOR_PARAMETER, TEXT, false, "", key, Null, true, Tree("5"));
            && Resolve(c, b, content, map[], map[]) == Ok(Some(Tree("5")))
            && ResolveNative(c, b, content, map[], map[key := Some(DefaultText(c, Tree("5")))])
               == Ok(Some(Text(c.spaced(Tree("5")))))
            && !AgreeWhenUnset(c, b, content)
  {}

  function Tagged(v: Value): string { if v.Tree? then "t" + v.json else "n" }

  function Untagged(t: string): Option<Value> {
    if t == "n" then Some(Null) else if t != "" && t[0] == 't' then Some(Tree(t[1..])) else None
  }

  /** Codecs with these laws exist. */
  lemma SomeCodecsAreLawful(c: Codecs)
    ensures JsonLaws(c.(spaced := Tagged, loads := Untagged))
  {
    forall v | JsonValue(v) && !v.Text? ensures Untagged(Tagged(v)) == Some(v) {
      if v.Tree? { assert ("t" + v.json)[1..] == v.json; }
    }
  }

  // ----- the interpreter's state

  /** One execution of the user's code, constructor included. */
  datatype UserRun = UserRun(raises: bool, extract: Extract, path: seq<string>, cwd: string)

  /** The user's code: what it does with a call, under an import path and in a directory. */
  type User = (Call, seq<string>, string) -> UserRun

  datatype Failure = OwnError(error: Error) | NoDirectory | UserError

  /** Import path and working directory while an adapter runs. */
  class Interpreter {
    var path: seq<string>
    var cwd: string

    constructor (path: seq<string>, cwd: string)
      ensures this.path == path && this.cwd == cwd
    {
      this.path, this.cwd := path, cwd;
    }

    /** The try block: it can stop at the change of directory, at either set of
        arguments, in the user's code, which may leave any path and directory behind,
        and in the output. */
    method Attempt(c: Codecs, plan: Plan, content: seq<bv8>, attributes: Attributes.Attrs,
                   parameters: Attributes.Attrs, root: string, enterFails: bool, user: User)
      returns (r: Result<Emitted, Failure>, called: Option<Call>)
      modifies this
      ensures called.Some? <==> !enterFails && Prepare(c, plan, Bytes(content), attributes, parameters).Ok?
      ensures called.Some? ==> Ok(called.value) == Prepare(c, plan, Bytes(content), attributes, parameters)
      ensures cwd == LeftIn(c, plan, content, attributes, parameters, old(path), old(cwd), root, enterFails, user)
      ensures r == if enterFails then Err(NoDirectory)
                   else match Prepare(c, plan, Bytes(content), attributes, parameters)
                        case Err(e) => Err(OwnError(e))
                        case Ok(call) => Outcome(c, plan, content, user(call, old(path), root))
    {
      called := None;
      if enterFails { return Err(NoDirectory), None; }
      cwd := root;
      var built := BuildKwargsLoop(c, plan.constructorArguments, Bytes(content), attributes, parameters);
      if built.Err? { return Err(OwnError(built.error)), None; }
      var invoked := BuildKwargsLoop(c, plan.arguments, Bytes(content), attributes, parameters);
      if invoked.Err? { return Err(OwnError(invoked.error)), None; }
      var call := Call(built.value, invoked.value);
      called := Some(call);
      var run := user(call, path, cwd);
      path, cwd := run.path, run.cwd;
      r := Outcome(c, plan, content, run);
    }

    /** On every way out the import path is restored, and the directory, unless changing
        back fails: then it is where the attempt left it. The user's code runs exactly
        when the arguments could be built, in the root and with the root first in its import
        path, and the call succeeds exactly when no stage failed. */
    method Process(c: Codecs, plan: Plan, content: seq<bv8>, attributes: Attributes.Attrs,
                   parameters: Attributes.Attrs, root: string, enterFails: bool, user: User, leaveFails: bool)
      returns (r: Result<Emitted, Failure>, called: Option<Call>)
      modifies this
      ensures path == old(path)
      ensures cwd == if leaveFails
                     then LeftIn(c, plan, content, attributes, parameters, [root] + old(path), old(cwd), root,
                                 enterFails, user)
                     else old(cwd)
      ensures called.Some? <==> !enterFails && Prepare(c, plan, Bytes(content), attributes, parameters).Ok?
      ensures called.Some? ==> Ok(called.value) == Prepare(c, plan, Bytes(content), attributes, parameters)
      ensures r.Ok? <==>
              && !leaveFails && called.Some? && !user(called.value, [root] + old(path), root).raises
              && Emit(c, plan, content, user(called.value, [root] + old(path), root).extract).Ok?
      ensures r.Ok? ==>
                Ok(r.value) == Emit(c, plan, content, user(called.value, [root] + old(path), root).extract)
    {
      var originalPath, originalCwd := path, cwd;
      path := [root] + path;
      r, called := Attempt(c, plan, content, attributes, parameters, root, enterFails, user);
      // finally
      if leaveFails {
        r := Err(NoDirectory);
      } else {
        cwd := originalCwd;
      }
      path := originalPath;
    }
  }

  /** The directory before changing back: the caller's if it was never left, the user
      code's if that ran, else the root. */
  function LeftIn(c: Codecs, plan: Plan, content: seq<bv8>, attributes: Attributes.Attrs, parameters: Attributes.Attrs,
                  path: seq<string>, before: string, root: string, enterFails: bool, user: User): string
  {
    if enterFails then before
    else match Prepare(c, plan, Bytes(content), attributes, parameters)
         case Err(_) => root
         case Ok(call) => user(call, path, root).cwd
  }

  function Outcome(c: Codecs, plan: Plan, content: seq<bv8>, run: UserRun): Result<Emitted, Failure> {
    if run.raises then Err(UserError)
    else match Emit(c, plan, content, run.extract)
         case Err(e) => Err(OwnError(e))
         case Ok(emitted) => Ok(emitted)
  }
}
