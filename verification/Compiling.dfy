/** Which contracts compile, and what becomes of operator parameters that several arguments
    share. */
module Compiling {
  import opened Wrappers
  import opened Contract

  /** The bindings to operator parameters. */
  predicate Shares(from: (string, ArgumentBinding)) {
    from.1.source == OPERATOR_PARAMETER && from.1.parameter.Some?
  }

  function KeyOf(from: (string, ArgumentBinding)): string
    requires Shares(from)
  {
    from.1.parameter.value.key
  }

  /** What one argument asks the shared table to say about its key. */
  function EntryOf(ps: seq<ParameterInfo>, from: (string, ArgumentBinding)): CompiledParameter
    requires Shares(from) && from.0 in ParameterNames(ps)
  {
    Compiled(Lookup(ps, from.0), from.1.parameter.value)
  }

  ghost predicate Compilable(ps: seq<ParameterInfo>, d: Dict<ArgumentBinding>) {
    AllWellFormed(d) && Names(d) <= ParameterNames(ps)
  }

  lemma PartsCompilable(ps: seq<ParameterInfo>, d: Dict<ArgumentBinding>)
    requires Compilable(ps, d) && d != []
    ensures Compilable(ps, d[..|d| - 1])
    ensures forall i :: 0 <= i < |d| ==> d[i].0 in ParameterNames(ps)
  {
    NamesPrefix(d, |d| - 1);
    assert forall i :: 0 <= i < |d| ==> d[i].0 in Names(d);
  }

  /** Arguments that share a key ask for the same entry, also the same as the table has. */
  ghost predicate NoConflict(ps: seq<ParameterInfo>, d: Dict<ArgumentBinding>, shared: Parameters)
    requires Compilable(ps, d)
  {
    && (forall i, j :: 0 <= i < j < |d| ==> SameEntry(ps, d[i], d[j]))
    && (forall i :: 0 <= i < |d| ==> FitsTable(ps, d[i], shared))
  }

  predicate SameEntry(ps: seq<ParameterInfo>, a: (string, ArgumentBinding), b: (string, ArgumentBinding)) {
    SameAcross(ps, a, ps, b)
  }

  /** Arguments of two callables that share a key ask for the same entry. */
  predicate SameAcross(ps: seq<ParameterInfo>, a: (string, ArgumentBinding),
                       qs: seq<ParameterInfo>, b: (string, ArgumentBinding)) {
    Shares(a) && Shares(b) && KeyOf(a) == KeyOf(b) && a.0 in ParameterNames(ps) && b.0 in ParameterNames(qs) ==>
      EntryOf(ps, a) == EntryOf(qs, b)
  }

  predicate FitsTable(ps: seq<ParameterInfo>, from: (string, ArgumentBinding), shared: Parameters) {
    Shares(from) && from.0 in ParameterNames(ps) && KeyOf(from) in shared ==> shared[KeyOf(from)] == EntryOf(ps, from)
  }

  /** The table says about every key what each argument that has it asks for, and what it
      said before; it has no other keys. */
  ghost predicate TableOf(ps: seq<ParameterInfo>, d: Dict<ArgumentBinding>, shared: Parameters, after: Parameters)
    requires Compilable(ps, d)
  {
    && (forall i :: 0 <= i < |d| && Shares(d[i]) ==> KeyOf(d[i]) in after && FitsTable(ps, d[i], after))
    && Extends(after, shared)
    && (forall k :: k in after && k !in shared ==> Asked(d, k))
  }

  predicate Asked(d: Dict<ArgumentBinding>, k: string) {
    exists i :: 0 <= i < |d| && Shares(d[i]) && KeyOf(d[i]) == k
  }

  /** Bindings compile exactly if no two arguments disagree about a parameter they share;
      the table then says what they all ask for. */
  lemma {:induction false} BindingsCompile(ps: seq<ParameterInfo>, d: Dict<ArgumentBinding>, shared: Parameters)
    requires Compilable(ps, d)
    ensures CompileBindings(ps, d, shared).Ok? <==> NoConflict(ps, d, shared)
    ensures CompileBindings(ps, d, shared).Ok? ==> TableOf(ps, d, shared, CompileBindings(ps, d, shared).value.1)
    decreases |d|
  {
    if d != [] {
      PartsCompilable(ps, d);
      var n, front := |d| - 1, d[..|d| - 1];
      BindingsCompile(ps, front, shared);
      var before := CompileBindings(ps, front, shared);
      if before.Ok? {
        LastFits(ps, d, shared, before.value.1);
        if CompileBindings(ps, d, shared).Ok? {
          TableGrows(ps, d, shared, before.value.1, CompileBindings(ps, d, shared).value.1);
        }
      } else if NoConflict(ps, d, shared) {
        FrontNoConflict(ps, d, shared);
      }
    }
  }

  lemma FrontNoConflict(ps: seq<ParameterInfo>, d: Dict<ArgumentBinding>, shared: Parameters)
    requires Compilable(ps, d) && d != [] && Compilable(ps, d[..|d| - 1]) && NoConflict(ps, d, shared)
    ensures NoConflict(ps, d[..|d| - 1], shared)
  {
    hide SameEntry, FitsTable;
    assert forall i :: 0 <= i < |d| - 1 ==> d[..|d| - 1][i] == d[i];
  }

  /** An argument conflicts with none of those before it, nor with the table they started from. */
  ghost predicate Joins(ps: seq<ParameterInfo>, front: Dict<ArgumentBinding>, last: (string, ArgumentBinding),
                        shared: Parameters)
  {
    FitsTable(ps, last, shared) && forall i :: 0 <= i < |front| ==> SameAcross(ps, front[i], ps, last)
  }

  lemma LastJoins(ps: seq<ParameterInfo>, d: Dict<ArgumentBinding>, shared: Parameters)
    requires Compilable(ps, d) && d != [] && Compilable(ps, d[..|d| - 1]) && NoConflict(ps, d[..|d| - 1], shared)
    requires Joins(ps, d[..|d| - 1], d[|d| - 1], shared)
    ensures NoConflict(ps, d, shared)
  {
    hide FitsTable, SameAcross, Compilable;
    var front := d[..|d| - 1];
    forall i, j | 0 <= i < j < |d| ensures SameEntry(ps, d[i], d[j]) {
      if j < |front| { assert SameEntry(ps, front[i], front[j]); }
    }
    forall i | 0 <= i < |d| ensures FitsTable(ps, d[i], shared) {
      if i < |front| { assert FitsTable(ps, front[i], shared); }
    }
  }

  lemma JoinsOthers(ps: seq<ParameterInfo>, d: Dict<ArgumentBinding>, shared: Parameters)
    requires Compilable(ps, d) && d != [] && NoConflict(ps, d, shared)
    ensures Joins(ps, d[..|d| - 1], d[|d| - 1], shared)
  {
    hide FitsTable, SameAcross, Compilable;
    var front, last := d[..|d| - 1], d[|d| - 1];
    forall i | 0 <= i < |front| ensures SameAcross(ps, front[i], ps, last) {
      assert SameEntry(ps, d[i], d[|d| - 1]);
    }
  }

  /** The last argument fits what the others left exactly if it conflicts with none of them. */
  lemma LastFits(ps: seq<ParameterInfo>, d: Dict<ArgumentBinding>, shared: Parameters, before: Parameters)
    requires Compilable(ps, d) && d != [] && Compilable(ps, d[..|d| - 1])
    requires d[|d| - 1].0 in ParameterNames(ps)
    requires NoConflict(ps, d[..|d| - 1], shared) && TableOf(ps, d[..|d| - 1], shared, before)
    ensures FitsTable(ps, d[|d| - 1], before) <==> NoConflict(ps, d, shared)
  {
    hide FitsTable, SameAcross, Compilable, NoConflict, TableOf;
    TableDecides(ps, d[..|d| - 1], ps, d[|d| - 1], shared, before);
    if NoConflict(ps, d, shared) { JoinsOthers(ps, d, shared); }
    if FitsTable(ps, d[|d| - 1], before) { LastJoins(ps, d, shared); }
  }

  /** What fits the table is what fits the old table and every argument that made the new. */
  lemma TableDecides(ps: seq<ParameterInfo>, d: Dict<ArgumentBinding>, qs: seq<ParameterInfo>,
                     from: (string, ArgumentBinding), shared: Parameters, after: Parameters)
    requires Compilable(ps, d) && TableOf(ps, d, shared, after) && from.0 in ParameterNames(qs)
    ensures FitsTable(qs, from, after) <==>
            FitsTable(qs, from, shared) && forall i :: 0 <= i < |d| ==> SameAcross(ps, d[i], qs, from)
  {
    hide EntryOf;
    assert forall i :: 0 <= i < |d| ==> d[i].0 in Names(d);
    if Shares(from) && KeyOf(from) in after && KeyOf(from) !in shared {
      assert Asked(d, KeyOf(from));
      var i :| 0 <= i < |d| && Shares(d[i]) && KeyOf(d[i]) == KeyOf(from);
      assert FitsTable(ps, d[i], after);
    }
  }

  lemma TableGrows(ps: seq<ParameterInfo>, d: Dict<ArgumentBinding>, shared: Parameters,
                   before: Parameters, after: Parameters)
    requires Compilable(ps, d) && d != [] && Compilable(ps, d[..|d| - 1])
    requires TableOf(ps, d[..|d| - 1], shared, before) && FitsTable(ps, d[|d| - 1], before)
    requires d[|d| - 1].0 in ParameterNames(ps)
    requires after == if Shares(d[|d| - 1]) then before[KeyOf(d[|d| - 1]) := EntryOf(ps, d[|d| - 1])] else before
    ensures TableOf(ps, d, shared, after)
  {
    var n, front := |d| - 1, d[..|d| - 1];
    forall i | 0 <= i < |d| && Shares(d[i]) ensures KeyOf(d[i]) in after && FitsTable(ps, d[i], after) {
      if i < n { assert front[i] == d[i] && FitsTable(ps, front[i], before); }
    }
    forall k | k in after && k !in shared ensures Asked(d, k) {
      if k in before {
        assert Asked(front, k);
        var i :| 0 <= i < |front| && Shares(front[i]) && KeyOf(front[i]) == k;
        assert front[i] == d[i];
      }
    }
  }

  /** No argument of either callable disagrees with another about a parameter they share. */
  ghost predicate Agreeable(ctor: seq<ParameterInfo>, first: Dict<ArgumentBinding>,
                            ps: seq<ParameterInfo>, second: Dict<ArgumentBinding>)
    requires Compilable(ctor, first) && Compilable(ps, second)
  {
    && (forall i, j :: 0 <= i < j < |first| ==> SameEntry(ctor, first[i], first[j]))
    && (forall i, j :: 0 <= i < j < |second| ==> SameEntry(ps, second[i], second[j]))
    && (forall i, j :: 0 <= i < |first| && 0 <= j < |second| ==> SameAcross(ctor, first[i], ps, second[j]))
  }

  lemma BothCompile(ctor: seq<ParameterInfo>, first: Dict<ArgumentBinding>,
                    ps: seq<ParameterInfo>, second: Dict<ArgumentBinding>)
    requires Compilable(ctor, first) && Compilable(ps, second)
    ensures Agreeable(ctor, first, ps, second) <==>
            && CompileBindings(ctor, first, map[]).Ok?
            && CompileBindings(ps, second, CompileBindings(ctor, first, map[]).value.1).Ok?
  {
    hide CompileBindings, TableOf, SameEntry, SameAcross;
    assert forall j :: 0 <= j < |second| ==> second[j].0 in Names(second);
    BindingsCompile(ctor, first, map[]);
    if CompileBindings(ctor, first, map[]).Ok? {
      var table := CompileBindings(ctor, first, map[]).value.1;
      BindingsCompile(ps, second, table);
      forall j | 0 <= j < |second|
        ensures FitsTable(ps, second[j], table) <==>
                forall i :: 0 <= i < |first| ==> SameAcross(ctor, first[i], ps, second[j])
      {
        TableDecides(ctor, first, ps, second[j], map[], table);
      }
    }
  }

  /** A contract compiles exactly if it was written against this state of the catalog, names a
      callable that can be called this way, binds only parameters that exist and all that
      are required, agrees with itself about what arguments share, and sends what its output
      codecs can. */
  lemma CompilesExactly(k: VirtualContract, catalog: Catalog, sorted: set<string> -> seq<string>)
    requires AllWellFormed(k.constructorArguments) && AllWellFormed(k.arguments)
    ensures Compile(k, catalog, sorted).Ok? <==>
            && k.revision == catalog.revision && k.pythonPath == catalog.pythonPath && !catalog.broken
            && k.target in catalog.callables
            && var c := catalog.callables[k.target];
               var ctor := ConstructorOf(c, catalog);
               && !c.isAsync && Supported(c.parameters) && Supported(ctor)
               && (if c.isMethod then c.classTarget in catalog.classes else k.constructorArguments == [])
               && RequiredNames(ctor) <= Names(k.constructorArguments) <= ParameterNames(ctor)
               && RequiredNames(c.parameters) <= Names(k.arguments) <= ParameterNames(c.parameters)
               && Agreeable(ctor, k.constructorArguments, c.parameters, k.arguments)
               && OutputAllowed(k.payload) && forall i :: 0 <= i < |k.metadata| ==> OutputAllowed(k.metadata[i].1)
  {
    hide Agreeable, CompileBindings, OutputAllowed, Supported, RequiredNames, Names, ParameterNames;
    if k.target in catalog.callables {
      var c := catalog.callables[k.target];
      var ctor := ConstructorOf(c, catalog);
      if Names(k.constructorArguments) <= ParameterNames(ctor) && Names(k.arguments) <= ParameterNames(c.parameters) {
        BothCompile(ctor, k.constructorArguments, c.parameters, k.arguments);
      }
    }
  }

  /** A compiled plan lists each operator parameter once, as every argument that has its key
      asks for it: required if the contract or one of the callables requires it, shown under
      its name, or its key when it has none. */
  lemma ParametersAreAsked(k: VirtualContract, catalog: Catalog, sorted: set<string> -> seq<string>, i: nat)
    requires AllWellFormed(k.constructorArguments) && AllWellFormed(k.arguments)
    requires Compile(k, catalog, sorted).Ok? && i < |k.arguments| && Shares(k.arguments[i])
    ensures var ps := catalog.callables[k.target].parameters;
            var spec := k.arguments[i].1.parameter.value;
            var table := Compile(k, catalog, sorted).value.parameters;
            && k.arguments[i].0 in ParameterNames(ps) && spec.key in table
            && var entry := table[spec.key];
               && entry.key == spec.key && entry.description == spec.description
               && (spec.displayName != "" ==> entry.displayName == spec.displayName)
               && (spec.displayName == "" ==> entry.displayName == spec.key)
               && (entry.required <==> spec.required || Lookup(ps, k.arguments[i].0).required)
               && entry.hasDefault == spec.hasDefault && entry.default == spec.default
    ensures forall key :: key in Compile(k, catalog, sorted).value.parameters ==>
              Asked(k.arguments, key) || Asked(k.constructorArguments, key)
  {
    var c := catalog.callables[k.target];
    var ctor := ConstructorOf(c, catalog);
    var first := CompileBindings(ctor, k.constructorArguments, map[]).value;
    BindingsCompile(ctor, k.constructorArguments, map[]);
    BindingsCompile(c.parameters, k.arguments, first.1);
    assert k.arguments[i].0 in Names(k.arguments);
    var table := CompileBindings(c.parameters, k.arguments, first.1).value.1;
    assert FitsTable(c.parameters, k.arguments[i], table);
  }
}
