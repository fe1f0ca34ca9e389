/** Operator contracts, their compilation to an execution plan, and what a contract means. */
module Contract {
  import opened Wrappers

  /** Values that cross the adapter: `Tree` is any other JSON value, `Object` any other
      value of a user's program. */
  datatype Value =
    | Null | Text(s: string) | Tree(json: string)
    | Bytes(b: seq<bv8>) | ByteArray(b: seq<bv8>) | MemoryView(b: seq<bv8>) | Stream(b: seq<bv8>)
    | Object(id: string)

  predicate BytesLike(v: Value) { v.Bytes? || v.ByteArray? || v.MemoryView? }

  /** What can be written in a contract: plans travel as JSON. */
  predicate JsonValue(v: Value) { v.Null? || v.Text? || v.Tree? }

  datatype Codec = BYTES | TEXT | JSON | BINARY_STREAM
  datatype Source = INPUT_PAYLOAD | INPUT_METADATA | OPERATOR_PARAMETER | CONSTANT
  datatype Kind = POSITIONAL_OR_KEYWORD | KEYWORD_ONLY | OTHER_KIND

  datatype ParameterInfo = ParameterInfo(name: string, kind: Kind, required: bool)
  datatype ParameterSpec = ParameterSpec(key: string, displayName: string, description: string,
                                         required: bool, hasDefault: bool, default: Value)
  datatype ArgumentBinding = ArgumentBinding(source: Source, codec: Codec, metadataKey: string,
                                             parameter: Option<ParameterSpec>, constant: Value)

  /** A dictionary in insertion order. */
  type Dict<T> = seq<(string, T)>

  datatype Callable = Callable(isAsync: bool, isMethod: bool, classTarget: string, parameters: seq<ParameterInfo>)
  datatype Catalog = Catalog(revision: string, pythonPath: string, broken: bool,
                             callables: map<string, Callable>, classes: map<string, seq<ParameterInfo>>)
  datatype OutputSpec = OutputSpec(fromConstant: bool, codec: Codec, constant: Value)
  datatype VirtualContract = VirtualContract(
    revision: string, pythonPath: string, target: string,
    constructorArguments: Dict<ArgumentBinding>, arguments: Dict<ArgumentBinding>,
    payload: OutputSpec, metadata: Dict<OutputSpec>, keepOriginal: bool)

  datatype CompiledParameter = CompiledParameter(key: string, displayName: string, description: string,
                                                 required: bool, hasDefault: bool, default: Value)
  datatype Binding = Binding(source: Source, codec: Codec, required: bool, metadataKey: string,
                             parameterKey: string, constant: Value, hasDefault: bool, default: Value)
  type Parameters = map<string, CompiledParameter>

  datatype Plan = Plan(constructorArguments: Dict<Binding>, arguments: Dict<Binding>, parameters: Parameters,
                       inputMetadata: seq<string>, outputMetadata: seq<string>,
                       payload: OutputSpec, metadata: Dict<OutputSpec>, keepOriginal: bool)

  datatype CompileError =
    | RevisionMismatch | PathMismatch | SyntaxErrors | CallableNotFound | Unsupported | ConstructorNotAllowed
    | UnknownParameters | MissingBindings | ConflictingParameter(key: string) | OutputCodec

  function Names<T>(d: Dict<T>): set<string> { set i | 0 <= i < |d| :: d[i].0 }

  function ParameterNames(ps: seq<ParameterInfo>): set<string> { set i | 0 <= i < |ps| :: ps[i].name }

  function RequiredNames(ps: seq<ParameterInfo>): set<string> {
    set i | 0 <= i < |ps| && ps[i].required :: ps[i].name
  }

  /** What the data model itself guarantees of a binding. */
  predicate WellFormed(b: ArgumentBinding) {
    b.source == OPERATOR_PARAMETER ==> b.parameter.Some?
  }

  predicate AllWellFormed(d: Dict<ArgumentBinding>) {
    forall i :: 0 <= i < |d| ==> WellFormed(d[i].1)
  }

  predicate UniqueNames(ps: seq<ParameterInfo>) {
    forall i, j :: 0 <= i < j < |ps| ==> ps[i].name != ps[j].name
  }

  function Validated(ps: seq<ParameterInfo>, d: Dict<ArgumentBinding>): Result<(), CompileError> {
    if !(Names(d) <= ParameterNames(ps)) then Err(UnknownParameters)
    else if !(RequiredNames(ps) <= Names(d)) then Err(MissingBindings)
    else Ok(())
  }

  function Lookup(ps: seq<ParameterInfo>, name: string): (p: ParameterInfo)
    requires name in ParameterNames(ps)
    ensures p in ps && p.name == name
  {
    if ps[|ps| - 1].name == name then ps[|ps| - 1]
    else
      assert name in ParameterNames(ps[..|ps| - 1]) by {
        var i :| 0 <= i < |ps| && ps[i].name == name;
        assert ps[..|ps| - 1][i].name == name;
      }
      Lookup(ps[..|ps| - 1], name)
  }

  function Compiled(p: ParameterInfo, spec: ParameterSpec): CompiledParameter {
    CompiledParameter(spec.key, if spec.displayName != "" then spec.displayName else spec.key, spec.description,
                      spec.required || p.required, spec.hasDefault, spec.default)
  }

  /** One binding, and the shared parameter table after it. */
  function CompileBinding(p: ParameterInfo, b: ArgumentBinding, shared: Parameters)
    : Result<(Binding, Parameters), CompileError>
    requires WellFormed(b)
  {
    var plain := Binding(b.source, b.codec, p.required, b.metadataKey, "", b.constant, false, Null);
    if b.source != OPERATOR_PARAMETER then Ok((plain, shared))
    else
      var c := Compiled(p, b.parameter.value);
      if c.key in shared && shared[c.key] != c then Err(ConflictingParameter(c.key))
      else Ok((plain.(parameterKey := c.key, required := c.required, hasDefault := c.hasDefault, default := c.default),
               shared[c.key := c]))
  }

  function CompileBindings(ps: seq<ParameterInfo>, d: Dict<ArgumentBinding>, shared: Parameters)
    : Result<(Dict<Binding>, Parameters), CompileError>
    requires AllWellFormed(d) && Names(d) <= ParameterNames(ps)
    decreases |d|
  {
    if d == [] then Ok(([], shared))
    else
      var last := d[|d| - 1];
      assert forall i :: 0 <= i < |d| - 1 ==> d[..|d| - 1][i] == d[i] && d[i].0 in Names(d);
      assert last.0 in Names(d);
      match CompileBindings(ps, d[..|d| - 1], shared)
      case Err(e) => Err(e)
      case Ok(r) =>
        match CompileBinding(Lookup(ps, last.0), last.1, r.1)
        case Err(e) => Err(e)
        case Ok(c) => Ok((r.0 + [(last.0, c.0)], c.1))
  }

  /** The compilation loop. */
  method CompileAll(ps: seq<ParameterInfo>, d: Dict<ArgumentBinding>, shared: Parameters)
    returns (r: Result<(Dict<Binding>, Parameters), CompileError>)
    requires AllWellFormed(d) && Names(d) <= ParameterNames(ps)
    ensures r == CompileBindings(ps, d, shared)
  {
    var out: Dict<Binding>, parameters := [], shared;
    assert d[..0] == [];
    for i := 0 to |d|
      invariant AllWellFormed(d[..i]) && Names(d[..i]) <= ParameterNames(ps)
      invariant CompileBindings(ps, d[..i], shared) == Ok((out, parameters))
    {
      assert d[..i + 1][..i] == d[..i];
      assert d[i].0 in Names(d);
      NamesPrefix(d, i + 1);
      match CompileBinding(Lookup(ps, d[i].0), d[i].1, parameters) {
        case Err(e) =>
          CompileFailsOn(ps, d, shared, i + 1);
          return Err(e);
        case Ok(c) => out, parameters := out + [(d[i].0, c.0)], c.1;
      }
    }
    assert d[..|d|] == d;
    r := Ok((out, parameters));
  }

  lemma NamesPrefix<T>(d: Dict<T>, n: nat)
    requires n <= |d|
    ensures Names(d[..n]) <= Names(d)
  {
    forall x | x in Names(d[..n]) ensures x in Names(d) {
      var i :| 0 <= i < n && d[..n][i].0 == x;
      assert d[i].0 == x;
    }
  }

  /** A failing prefix fails the whole. */
  lemma {:induction false} CompileFailsOn(ps: seq<ParameterInfo>, d: Dict<ArgumentBinding>, shared: Parameters, n: nat)
    requires AllWellFormed(d) && Names(d) <= ParameterNames(ps) && n <= |d|
    requires AllWellFormed(d[..n]) && Names(d[..n]) <= ParameterNames(ps)
    requires CompileBindings(ps, d[..n], shared).Err?
    ensures CompileBindings(ps, d, shared) == CompileBindings(ps, d[..n], shared)
    decreases |d|
  {
    if n < |d| {
      assert d[..|d| - 1][..n] == d[..n];
      NamesPrefix(d, |d| - 1);
      CompileFailsOn(ps, d[..|d| - 1], shared, n);
    } else {
      assert d[..n] == d;
    }
  }

  predicate Supported(ps: seq<ParameterInfo>) {
    forall i :: 0 <= i < |ps| ==> ps[i].kind != OTHER_KIND
  }

  /** binary_stream is input only, and a bytes constant must be text, bytes or nothing. */
  predicate OutputAllowed(o: OutputSpec) {
    o.codec != BINARY_STREAM
    && (o.codec == BYTES && o.fromConstant ==>
          o.constant.Null? || o.constant.Text? || BytesLike(o.constant))
  }

  function MetadataKeys(d: Dict<Binding>): set<string> {
    set i | 0 <= i < |d| && d[i].1.source == INPUT_METADATA :: d[i].1.metadataKey
  }

  /** Any ordering of a set. */
  ghost predicate Lists(xs: seq<string>, keys: set<string>) {
    forall x :: x in xs <==> x in keys
  }

  function ConstructorOf(c: Callable, catalog: Catalog): seq<ParameterInfo> {
    if c.isMethod && c.classTarget in catalog.classes then catalog.classes[c.classTarget] else []
  }

  /** All checks, in order; `sorted` is the library's ordering of a set of names. */
  function Compile(k: VirtualContract, catalog: Catalog, sorted: set<string> -> seq<string>)
    : Result<Plan, CompileError>
    requires AllWellFormed(k.constructorArguments) && AllWellFormed(k.arguments)
  {
    if k.revision != catalog.revision then Err(RevisionMismatch)
    else if k.pythonPath != catalog.pythonPath then Err(PathMismatch)
    else if catalog.broken then Err(SyntaxErrors)
    else if k.target !in catalog.callables then Err(CallableNotFound)
    else
      var c := catalog.callables[k.target];
      var built := ConstructorOf(c, catalog);
      if c.isAsync || !Supported(c.parameters) || !Supported(built)
         || (c.isMethod && c.classTarget !in catalog.classes) then Err(Unsupported)
      else if !c.isMethod && k.constructorArguments != [] then Err(ConstructorNotAllowed)
      else if Validated(built, k.constructorArguments).Err? then
        Err(Validated(built, k.constructorArguments).error)
      else if Validated(c.parameters, k.arguments).Err? then Err(Validated(c.parameters, k.arguments).error)
      else
        match CompileBindings(built, k.constructorArguments, map[])
        case Err(e) => Err(e)
        case Ok(first) =>
          match CompileBindings(c.parameters, k.arguments, first.1)
          case Err(e) => Err(e)
          case Ok(second) =>
            if !OutputAllowed(k.payload) || exists i :: 0 <= i < |k.metadata| && !OutputAllowed(k.metadata[i].1)
            then Err(OutputCodec)
            else Ok(Plan(first.0, second.0, second.1, sorted(MetadataKeys(first.0) + MetadataKeys(second.0)),
                         sorted(Names(k.metadata)), k.payload, k.metadata, k.keepOriginal))
  }

  // ----- what compilation keeps

  /** The compiled binding carries the parameter table's data for its key. */
  predicate Agrees(b: Binding, shared: Parameters) {
    b.source == OPERATOR_PARAMETER ==>
      b.parameterKey in shared && shared[b.parameterKey].required == b.required
      && shared[b.parameterKey].hasDefault == b.hasDefault && shared[b.parameterKey].default == b.default
  }

  predicate Extends(more: Parameters, less: Parameters) {
    forall k :: k in less ==> k in more && more[k] == less[k]
  }

  /** Name by name, in order: the binding compiled from the parameter of that name. */
  ghost predicate Matches(ps: seq<ParameterInfo>, d: Dict<ArgumentBinding>, out: Dict<Binding>, shared: Parameters)
    requires AllWellFormed(d) && Names(d) <= ParameterNames(ps)
  {
    && |out| == |d|
    && forall i :: 0 <= i < |d| ==> MatchesOne(ps, d[i], out[i], shared)
  }

  predicate MatchesOne(ps: seq<ParameterInfo>, from: (string, ArgumentBinding), to: (string, Binding),
                       shared: Parameters)
    requires WellFormed(from.1)
  {
    && from.0 in ParameterNames(ps) && to.0 == from.0 && Agrees(to.1, shared)
    && to.1.source == from.1.source && to.1.codec == from.1.codec
    && to.1.metadataKey == from.1.metadataKey && to.1.constant == from.1.constant
    && (if from.1.source == OPERATOR_PARAMETER then
          var spec := from.1.parameter.value;
          to.1.parameterKey == spec.key && to.1.required == (spec.required || Lookup(ps, from.0).required)
          && to.1.hasDefault == spec.hasDefault && to.1.default == spec.default
        else to.1.required == Lookup(ps, from.0).required && !to.1.hasDefault && to.1.parameterKey == "")
  }

  lemma {:induction false} CompiledMatches(ps: seq<ParameterInfo>, d: Dict<ArgumentBinding>, shared: Parameters)
    requires AllWellFormed(d) && Names(d) <= ParameterNames(ps) && CompileBindings(ps, d, shared).Ok?
    ensures var r := CompileBindings(ps, d, shared).value; Matches(ps, d, r.0, r.1) && Extends(r.1, shared)
    decreases |d|
  {
    if d != [] {
      var front := d[..|d| - 1];
      NamesPrefix(d, |d| - 1);
      assert d[|d| - 1].0 in Names(d);
      CompiledMatches(ps, front, shared);
      var r, whole := CompileBindings(ps, front, shared).value, CompileBindings(ps, d, shared).value;
      forall i | 0 <= i < |d| ensures MatchesOne(ps, d[i], whole.0[i], whole.1) {
        if i < |d| - 1 { assert MatchesOne(ps, front[i], r.0[i], r.1); }
      }
    }
  }

  lemma MatchesMore(ps: seq<ParameterInfo>, d: Dict<ArgumentBinding>, out: Dict<Binding>,
                    less: Parameters, more: Parameters)
    requires AllWellFormed(d) && Names(d) <= ParameterNames(ps)
    requires Matches(ps, d, out, less) && Extends(more, less)
    ensures Matches(ps, d, out, more)
  {
    forall i | 0 <= i < |d| ensures MatchesOne(ps, d[i], out[i], more) {
      assert MatchesOne(ps, d[i], out[i], less);
    }
  }

  /** A contract that compiles gives a plan whose bindings are the contract's, one by one;
      all that share an operator parameter carry the data of the plan's single entry. */
  lemma PlanMatches(k: VirtualContract, catalog: Catalog, sorted: set<string> -> seq<string>)
    requires AllWellFormed(k.constructorArguments) && AllWellFormed(k.arguments)
    requires Compile(k, catalog, sorted).Ok?
    ensures var c := catalog.callables[k.target];
            var plan := Compile(k, catalog, sorted).value;
            && Names(k.constructorArguments) <= ParameterNames(ConstructorOf(c, catalog))
            && RequiredNames(ConstructorOf(c, catalog)) <= Names(k.constructorArguments)
            && Names(k.arguments) <= ParameterNames(c.parameters)
            && RequiredNames(c.parameters) <= Names(k.arguments)
            && Matches(ConstructorOf(c, catalog), k.constructorArguments, plan.constructorArguments, plan.parameters)
            && Matches(c.parameters, k.arguments, plan.arguments, plan.parameters)
  {
    var c := catalog.callables[k.target];
    var first := CompileBindings(ConstructorOf(c, catalog), k.constructorArguments, map[]).value;
    var second := CompileBindings(c.parameters, k.arguments, first.1).value;
    CompiledMatches(ConstructorOf(c, catalog), k.constructorArguments, map[]);
    CompiledMatches(c.parameters, k.arguments, first.1);
    MatchesMore(ConstructorOf(c, catalog), k.constructorArguments, first.0, first.1, second.1);
  }
}
