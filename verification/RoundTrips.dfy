/** What crosses between operators: values sent under a codec arrive under the same codec. */
module RoundTrips {
  import opened Wrappers
  import opened Contract
  import opened Adapter
  import Attributes

  /** UTF-8 and JSON of the Python runtime: text survives UTF-8, only UTF-8 decodes, and a
      JSON value survives being written; JSON text gives JSON values. */
  ghost predicate Lawful(c: Codecs) {
    && (forall t :: c.decode(c.encode(t)) == Some(t))
    && (forall b :: c.decode(b).Some? ==> c.encode(c.decode(b).value) == b)
    && (forall v :: JsonValue(v) ==> c.loads(c.compact(v)) == Some(v))
    && (forall t :: c.loads(t).Some? ==> JsonValue(c.loads(t).value))
  }

  // ----- one payload

  /** Bytes, as content arrives: any are bytes and any are a stream; text must be UTF-8; JSON
      must be UTF-8 and JSON. Nothing else fails. */
  lemma BytesDecode(c: Codecs, b: seq<bv8>, codec: Codec)
    ensures Decode(c, Bytes(b), codec) == Err(BadValue) <==>
            || (codec == TEXT && c.decode(b) == None)
            || (codec == JSON && (c.decode(b) == None || c.loads(c.decode(b).value) == None))
    ensures Decode(c, Bytes(b), codec).Err? ==> Decode(c, Bytes(b), codec) == Err(BadValue)
    ensures Decode(c, Bytes(b), BYTES) == Ok(Bytes(b))
    ensures Decode(c, Bytes(b), BINARY_STREAM) == Ok(Stream(b))
  {}

  /** Text, as attributes and parameters arrive, reads as its UTF-8 bytes would; a stream it
      cannot be. */
  lemma TextDecodesAsItsBytes(c: Codecs, s: string, codec: Codec)
    requires Lawful(c)
    ensures if codec == BINARY_STREAM then Decode(c, Text(s), codec) == Err(BadValue)
            else Decode(c, Text(s), codec) == Decode(c, Bytes(c.encode(s)), codec)
    ensures Decode(c, Text(s), TEXT) == Ok(Text(s))
  {}

  /** The values that a codec carries unchanged. */
  predicate Carries(codec: Codec, v: Value) {
    (codec == BYTES && v.Bytes?) || (codec == TEXT && v.Text?) || (codec == JSON && JsonValue(v))
  }

  /** What is written under a codec reads under the same codec as the value sent, for
      exactly the values the codec carries. */
  lemma PayloadComesBack(c: Codecs, v: Value, codec: Codec)
    requires Lawful(c) && EncodePayload(c, v, codec).Ok?
    ensures Decode(c, Bytes(EncodePayload(c, v, codec).value), codec) == Ok(v) <==> Carries(codec, v)
  {
    if codec == JSON && v.Object? { assert c.converted(v.id).Some?; }
  }

  /** What the others become: bytes-like objects and text the same bytes, anything else its
      str() or the JSON it is converted to. */
  lemma PayloadBecomes(c: Codecs, v: Value, codec: Codec)
    requires Lawful(c) && EncodePayload(c, v, codec).Ok?
    ensures var read := Decode(c, Bytes(EncodePayload(c, v, codec).value), codec);
            && (codec == BYTES && BytesLike(v) ==> read == Ok(Bytes(v.b)))
            && (codec == BYTES && v.Text? ==> read.Ok? && read.value.Bytes? && c.decode(read.value.b) == Some(v.s))
            && (codec == TEXT && !v.Text? ==> read == Ok(Text(c.show(v))))
            && (codec == JSON && v.Object? ==> read == FromJson(c, c.converted(v.id).value))
  {}

  /** What can be written under a codec is what Sends says. */
  lemma WritesExactly(c: Codecs, v: Value, codec: Codec)
    ensures EncodePayload(c, v, codec).Ok? <==> Sends(c, codec, v)
  {}

  /** The compiler's check of an output lets through exactly what can be sent: a constant that
      is nothing or that its codec sends, and results under a codec that sends some. */
  lemma AllowedIsSendable(c: Codecs, o: OutputSpec)
    requires JsonValue(o.constant)
    ensures o.fromConstant ==>
              (OutputAllowed(o) <==>
               o.codec != BINARY_STREAM && (o.constant.Null? || EncodePayload(c, o.constant, o.codec).Ok?))
    ensures !o.fromConstant ==> (OutputAllowed(o) <==> exists v :: EncodePayload(c, v, o.codec).Ok?)
  {
    if !o.fromConstant && OutputAllowed(o) { assert EncodePayload(c, Text(""), o.codec).Ok?; }
  }

  // ----- one operator after another

  /** One operator's output is the next one's input: a value it sends under the codec that
      the next one's payload argument has is the argument, on either backend. */
  lemma NextOperatorGets(c: Codecs, plan: Plan, original: seq<bv8>, extract: Extract, b: Binding,
                         parameters: Attributes.Attrs)
    requires Lawful(c) && Emit(c, plan, original, extract).Ok?
    requires b.source == INPUT_PAYLOAD && b.codec == plan.payload.codec
    ensures var v, sent := OutputValue(plan.payload, extract), Emit(c, plan, original, extract).value;
            && v.Ok?
            && (v.value.Null? ==> sent.content == if plan.keepOriginal then original else [])
            && (!v.value.Null? && Carries(b.codec, v.value) ==>
                  && Resolve(c, b, Bytes(sent.content), sent.attributes, parameters) == Ok(Some(v.value))
                  && ResolveNative(c, b, ByteArray(sent.content), map[], map[]) == Ok(Some(v.value)))
  {
    var v := OutputValue(plan.payload, extract);
    if v.Ok? && !v.value.Null? { PayloadComesBack(c, v.value, b.codec); }
  }

  /** Contract to contract: returning None passes the content on exactly under a contract
      that keeps the original, and empties it otherwise. */
  lemma NothingReturned(c: Codecs, k: VirtualContract, catalog: Catalog, sorted: set<string> -> seq<string>,
                        original: seq<bv8>, extract: Extract)
    requires AllWellFormed(k.constructorArguments) && AllWellFormed(k.arguments)
    requires Compile(k, catalog, sorted).Ok? && OutputAttributes(c, k.metadata, extract).Ok?
    requires if k.payload.fromConstant then k.payload.constant == Null else extract(k.payload) == Some(Null)
    ensures var plan := Compile(k, catalog, sorted).value;
            Emit(c, plan, original, extract)
            == Ok(Emitted(if k.keepOriginal then original else [], OutputAttributes(c, k.metadata, extract).value))
  {}

  // ----- metadata

  /** Text for a metadata value: there is none for bytes that are not UTF-8, for other
      bytes-like objects, streams and other objects, and for nothing else. */
  lemma MetadataFails(c: Codecs, v: Value)
    ensures MetadataText(c, v).Err? <==>
            (v.Bytes? && c.decode(v.b) == None) || v.ByteArray? || v.MemoryView? || v.Stream? || v.Object?
  {}

  /** A metadata value read under the right codec is the value sent: text as text, UTF-8
      bytes as bytes, other JSON values as JSON. */
  lemma MetadataComesBack(c: Codecs, v: Value)
    requires Lawful(c) && MetadataText(c, v).Ok?
    ensures var text := Text(MetadataText(c, v).value);
            Decode(c, text, if v.Text? then TEXT else if v.Bytes? then BYTES else JSON) == Ok(v)
  {}

  ghost predicate Distinct<T>(d: Dict<T>) {
    forall i, j :: 0 <= i < j < |d| ==> d[i].0 != d[j].0
  }

  predicate HasText(c: Codecs, o: OutputSpec, extract: Extract) {
    OutputValue(o, extract).Ok? && MetadataText(c, OutputValue(o, extract).value).Ok?
  }

  /** Attribute by attribute: an output's attributes are the texts of its metadata values,
      and there are some exactly if each of them has one. */
  lemma {:induction false} AttributesAre(c: Codecs, d: Dict<OutputSpec>, extract: Extract)
    requires Distinct(d)
    ensures var all := OutputAttributes(c, d, extract);
            && (all.Ok? <==> forall i :: 0 <= i < |d| ==> HasText(c, d[i].1, extract))
            && (all.Ok? ==>
                  && all.value.Keys == Names(d)
                  && forall i :: 0 <= i < |d| ==>
                       d[i].0 in all.value && HasText(c, d[i].1, extract)
                       && Ok(all.value[d[i].0]) == MetadataText(c, OutputValue(d[i].1, extract).value))
    decreases |d|
  {
    if d != [] {
      var n, front := |d| - 1, d[..|d| - 1];
      AttributesAre(c, front, extract);
      forall i | 0 <= i < n ensures front[i] == d[i] && d[i].0 != d[n].0 {}
      if OutputAttributes(c, d, extract).Ok? { EmitsItsNames(c, d, extract); }
    }
  }

  /** One operator's metadata is the next one's: a metadata argument under the codec of
      MetadataComesBack gets the value sent under its key. */
  lemma NextOperatorReads(c: Codecs, plan: Plan, original: seq<bv8>, extract: Extract, i: nat, b: Binding,
                          content: Value, parameters: Attributes.Attrs)
    requires Lawful(c) && Emit(c, plan, original, extract).Ok? && Distinct(plan.metadata) && i < |plan.metadata|
    requires b.source == INPUT_METADATA && b.metadataKey == plan.metadata[i].0
    ensures OutputValue(plan.metadata[i].1, extract).Ok?
    ensures var v, sent := OutputValue(plan.metadata[i].1, extract).value, Emit(c, plan, original, extract).value;
            b.codec == (if v.Text? then TEXT else if v.Bytes? then BYTES else JSON) ==>
              Resolve(c, b, content, sent.attributes, parameters) == Ok(Some(v))
  {
    AttributesAre(c, plan.metadata, extract);
    var v := OutputValue(plan.metadata[i].1, extract).value;
    assert MetadataText(c, v).Ok?;
    MetadataComesBack(c, v);
  }

  // ----- arguments

  /** The text a binding reads, if it reads one that was given. */
  function TextFor(b: Binding, attributes: Attributes.Attrs, parameters: Attributes.Attrs): Option<string> {
    if b.source == INPUT_METADATA && b.metadataKey in attributes then Some(attributes[b.metadataKey])
    else if b.source == OPERATOR_PARAMETER && b.parameterKey in parameters then Some(parameters[b.parameterKey])
    else None
  }

  /** An argument is left out exactly when it was not given, is optional and has no default;
      it is missed exactly when it was not given, is required and has no default; a default
      stands in whether or not it is required. */
  lemma NotGiven(c: Codecs, b: Binding, content: Value, attributes: Attributes.Attrs, parameters: Attributes.Attrs)
    ensures var r := Resolve(c, b, content, attributes, parameters);
            var wants := b.source == INPUT_METADATA || b.source == OPERATOR_PARAMETER;
            var fallback := b.source == OPERATOR_PARAMETER && b.hasDefault;
            var given := TextFor(b, attributes, parameters);
            && (r == Ok(None) <==> wants && given == None && !fallback && !b.required)
            && (r.Err? && r.error != BadValue <==> wants && given == None && !fallback && b.required)
            && (wants && given == None && fallback ==> r == Ok(Some(b.default)))
            && (given.Some? ==> r == Given(Decode(c, Text(given.value), b.codec)))
            && (b.source == INPUT_PAYLOAD ==> r == Given(Decode(c, content, b.codec)))
            && (b.source == CONSTANT ==> r == Ok(Some(b.constant)))
  {}

  /** There are arguments for a call exactly if every binding resolves. */
  lemma {:induction false} KwargsExist(c: Codecs, bs: Dict<Binding>, content: Value,
                                       attributes: Attributes.Attrs, parameters: Attributes.Attrs)
    ensures BuildKwargs(c, bs, content, attributes, parameters).Ok? <==>
            forall i :: 0 <= i < |bs| ==> Resolve(c, bs[i].1, content, attributes, parameters).Ok?
    decreases |bs|
  {
    if bs != [] {
      hide Resolve;
      var front := bs[..|bs| - 1];
      KwargsExist(c, front, content, attributes, parameters);
      assert forall i :: 0 <= i < |bs| - 1 ==> front[i] == bs[i];
    }
  }

  /** The value is under the name, or nothing is when the binding gives none. */
  predicate Holds(kwargs: Kwargs, name: string, r: Result<Option<Value>, Error>) {
    r == Ok(if name in kwargs then Some(kwargs[name]) else None)
  }

  /** Argument by argument: a call's arguments are the values that its bindings resolve to. */
  lemma {:induction false} KwargsAre(c: Codecs, bs: Dict<Binding>, content: Value,
                                     attributes: Attributes.Attrs, parameters: Attributes.Attrs, i: nat)
    requires Distinct(bs) && BuildKwargs(c, bs, content, attributes, parameters).Ok? && i < |bs|
    ensures var kwargs := BuildKwargs(c, bs, content, attributes, parameters).value;
            kwargs.Keys <= Names(bs) && Holds(kwargs, bs[i].0, Resolve(c, bs[i].1, content, attributes, parameters))
    decreases |bs|
  {
    KwargsNames(c, bs, content, attributes, parameters, 0);
    var n, front := |bs| - 1, bs[..|bs| - 1];
    LastOf(c, bs, content, attributes, parameters);
    KwargsNames(c, front, content, attributes, parameters, 0);
    LastIsNew(bs);
    hide Resolve, Names, BuildKwargs;
    if i < n { KwargsAre(c, front, content, attributes, parameters, i); }
  }

  lemma LastOf(c: Codecs, bs: Dict<Binding>, content: Value, attributes: Attributes.Attrs, parameters: Attributes.Attrs)
    requires bs != [] && BuildKwargs(c, bs, content, attributes, parameters).Ok?
    ensures var before := BuildKwargs(c, bs[..|bs| - 1], content, attributes, parameters);
            var last := Resolve(c, bs[|bs| - 1].1, content, attributes, parameters);
            && before.Ok? && last.Ok?
            && BuildKwargs(c, bs, content, attributes, parameters).value
               == Put(before.value, bs[|bs| - 1].0, last.value)
  {}

  lemma LastIsNew<T>(d: Dict<T>)
    requires Distinct(d) && d != []
    ensures d[|d| - 1].0 !in Names(d[..|d| - 1])
  {}

  // ----- codecs with these laws exist

  function Unary(n: nat): seq<bv8> { if n == 0 then [0] else [1] + Unary(n - 1) }

  function Ones(b: seq<bv8>): (n: nat)
    ensures n <= |b|
  {
    if b != [] && b[0] == 1 then 1 + Ones(b[1..]) else 0
  }

  lemma {:induction false} OnesOfUnary(n: nat, rest: seq<bv8>)
    ensures |Unary(n)| == n + 1 && Ones(Unary(n) + rest) == n && (Unary(n) + rest)[n] == 0
  {
    if n > 0 {
      OnesOfUnary(n - 1, rest);
      assert (Unary(n) + rest)[1..] == Unary(n - 1) + rest;
    }
  }

  lemma {:induction false} UnaryOfOnes(b: seq<bv8>)
    requires Ones(b) < |b| && b[Ones(b)] == 0
    ensures Unary(Ones(b)) + b[Ones(b) + 1..] == b
  {
    if Ones(b) > 0 { UnaryOfOnes(b[1..]); }
  }

  function Write(t: string): seq<bv8> { if t == [] then [] else Unary(t[0] as nat) + Write(t[1..]) }

  function Read(b: seq<bv8>): Option<string> {
    if b == [] then Some([])
    else
      var n := Ones(b);
      if n == |b| || b[n] != 0 || 0xD800 <= n < 0xE000 || 0x11_0000 <= n || Read(b[n + 1..]) == None then None
      else Some([n as char] + Read(b[n + 1..]).value)
  }

  lemma {:induction false} ReadInverts(t: string)
    ensures Read(Write(t)) == Some(t)
  {
    if t != [] {
      var n := t[0] as nat;
      OnesOfUnary(n, Write(t[1..]));
      assert Write(t) == Unary(n) + Write(t[1..]) && Write(t)[n + 1..] == Write(t[1..]);
      assert n < 0xD800 || 0xE000 <= n < 0x11_0000;
      ReadInverts(t[1..]);
      assert [n as char] + t[1..] == t;
    }
  }

  lemma {:induction false} WriteInverts(b: seq<bv8>)
    requires Read(b).Some?
    ensures Write(Read(b).value) == b
  {
    if b != [] {
      UnaryOfOnes(b);
      WriteInverts(b[Ones(b) + 1..]);
    }
  }

  function Marked(v: Value): string {
    match v case Text(s) => "s" + s case Tree(json) => "t" + json case _ => "n"
  }

  function Unmarked(t: string): Option<Value> {
    if t == "n" then Some(Null)
    else if t == "" then None
    else if t[0] == 's' then Some(Text(t[1..]))
    else if t[0] == 't' then Some(Tree(t[1..]))
    else None
  }

  lemma SomeCodecsAreLawful(c: Codecs)
    ensures Lawful(c.(encode := Write, decode := Read, compact := Marked, loads := Unmarked))
  {
    forall t ensures Read(Write(t)) == Some(t) { ReadInverts(t); }
    forall b | Read(b).Some? ensures Write(Read(b).value) == b { WriteInverts(b); }
    forall v | JsonValue(v) ensures Unmarked(Marked(v)) == Some(v) {
      if v.Text? { assert Marked(v)[1..] == v.s; }
      if v.Tree? { assert Marked(v)[1..] == v.json; }
    }
  }
}
