/**
  buildGraph, resolveInput and parseRef of benchkit/kernel/kernel.go: which
  output feeds which input, and the order that follows from it.
 */
module Wiring {
  import opened Outcomes
  import opened Ordering
  import opened Strings
  import opened TopoSort

  datatype Port = Port(name: string, kind: string, optional: bool)

  /** A unit of the scenario: its ports if the registry knows its kind, its explicit inputs, its after list. */
  datatype Ports = Ports(inputs: seq<Port>, outputs: seq<Port>)
  datatype Unit = Unit(def: Option<Ports>, explicit: map<string, string>, after: seq<string>)

  datatype Ref = Ref(unit: string, port: string)

  datatype Provider = Provider(ref: Ref, kind: string)

  datatype Failure = BadReference | WrongType | UnknownOutput | NoProvider | Ambiguous

  datatype Resolution = Bound(ref: Ref) | Unbound | Unresolved(why: Failure)

  // ------------------------------------------------------------------ references

  function ParseRef(raw: string): Option<Ref> {
    var parts := Split(TrimSpace(raw), '.');
    if |parts| != 2 || parts[0] == "" || parts[1] == "" then None else Some(Ref(parts[0], parts[1]))
  }

  /** A reference is accepted exactly when, blanks around it aside, it reads unit.output with one dot. */
  lemma ParsesUnitDotOutput(raw: string, ref: Ref)
    ensures ParseRef(raw) == Some(ref) <==>
              && TrimSpace(raw) == ref.unit + "." + ref.port
              && ref.unit != "" && ref.port != "" && '.' !in ref.unit && '.' !in ref.port
  {
    SplitJoins(TrimSpace(raw), '.');
    var parts := Split(TrimSpace(raw), '.');
    if |parts| == 2 {
      assert Join(parts[1..], '.') == parts[1];
      assert parts[0] in parts && parts[1] in parts;
    }
    if '.' !in ref.unit && '.' !in ref.port {
      SplitTwo(ref.unit, ref.port, '.');
    }
  }

  // --------------------------------------------------------------------- one input

  /** The outputs of other units that have the wanted type. */
  function Candidates(unit: string, kind: string, providers: seq<Provider>): seq<Provider> {
    if providers == [] then []
    else
      var p := providers[|providers| - 1];
      var front := Candidates(unit, kind, providers[..|providers| - 1]);
      if p.ref.unit != unit && p.kind == kind then front + [p] else front
  }

  /** The first output with that name. */
  function FirstWith(ref: Ref, providers: seq<Provider>): Option<Provider> {
    if providers == [] then None
    else if providers[0].ref == ref then Some(providers[0])
    else FirstWith(ref, providers[1..])
  }

  function Resolve(unit: string, input: Port, explicit: map<string, string>, providers: seq<Provider>): Resolution {
    if input.name in explicit then
      match ParseRef(explicit[input.name])
      case None => Unresolved(BadReference)
      case Some(ref) =>
        match FirstWith(ref, providers)
        case None => Unresolved(UnknownOutput)
        case Some(p) => if p.kind != input.kind then Unresolved(WrongType) else Bound(ref)
    else
      var candidates := Candidates(unit, input.kind, providers);
      if candidates == [] then if input.optional then Unbound else Unresolved(NoProvider)
      else if |candidates| > 1 then Unresolved(Ambiguous)
      else Bound(candidates[0].ref)
  }

  method ResolveInput(unit: string, input: Port, explicit: map<string, string>, providers: seq<Provider>)
    returns (r: Resolution)
    ensures r == Resolve(unit, input, explicit, providers)
  {
    if input.name in explicit {
      var parsed := ParseRef(explicit[input.name]);
      if parsed.None? { return Unresolved(BadReference); }
      var ref := parsed.value;
      for i := 0 to |providers|
        invariant FirstWith(ref, providers) == FirstWith(ref, providers[i..])
      {
        if providers[i].ref == ref {
          return if providers[i].kind != input.kind then Unresolved(WrongType) else Bound(ref);
        }
      }
      return Unresolved(UnknownOutput);
    }
    var candidates := [];
    for i := 0 to |providers|
      invariant candidates == Candidates(unit, input.kind, providers[..i])
    {
      var p := providers[i];
      assert providers[..i + 1][..i] == providers[..i];
      if p.ref.unit == unit { continue; }
      if p.kind == input.kind { candidates := candidates + [p]; }
    }
    assert providers[..|providers|] == providers;
    if |candidates| == 0 { return if input.optional then Unbound else Unresolved(NoProvider); }
    if |candidates| > 1 { return Unresolved(Ambiguous); }
    return Bound(candidates[0].ref);
  }

  predicate Fits(unit: string, kind: string, p: Provider) {
    p.ref.unit != unit && p.kind == kind
  }

  /** Two different outputs of other units have the type. */
  ghost predicate Rivals(unit: string, kind: string, providers: seq<Provider>) {
    exists i, j :: 0 <= i < j < |providers| && Fits(unit, kind, providers[i]) && Fits(unit, kind, providers[j])
  }

  ghost predicate OnlyAt(unit: string, kind: string, providers: seq<Provider>, i: nat) {
    && i < |providers| && Fits(unit, kind, providers[i])
    && forall j :: 0 <= j < |providers| && Fits(unit, kind, providers[j]) ==> i == j
  }

  /** No candidate, a single one, or rivals. */
  lemma {:induction false} CandidatesCount(unit: string, kind: string, providers: seq<Provider>)
    ensures var cs := Candidates(unit, kind, providers);
            && (|cs| == 0 ==> forall i :: 0 <= i < |providers| ==> !Fits(unit, kind, providers[i]))
            && (|cs| == 1 ==> exists i: nat :: OnlyAt(unit, kind, providers, i) && cs == [providers[i]])
            && (|cs| > 1 ==> Rivals(unit, kind, providers))
  {
    if providers != [] {
      var n := |providers| - 1;
      var front, cs := providers[..n], Candidates(unit, kind, providers[..n]);
      CandidatesCount(unit, kind, front);
      assert forall i :: 0 <= i < n ==> front[i] == providers[i];
      if |cs| == 0 {
        if Fits(unit, kind, providers[n]) { assert OnlyAt(unit, kind, providers, n); }
      } else if |cs| == 1 {
        var i: nat :| OnlyAt(unit, kind, front, i) && cs == [front[i]];
        if Fits(unit, kind, providers[n]) {
          assert Fits(unit, kind, providers[i]);
        } else {
          assert OnlyAt(unit, kind, providers, i);
        }
      } else {
        var i, j :| 0 <= i < j < n && Fits(unit, kind, front[i]) && Fits(unit, kind, front[j]);
        assert Fits(unit, kind, providers[i]) && Fits(unit, kind, providers[j]);
      }
    }
  }

  lemma {:induction false} FirstWithFinds(ref: Ref, providers: seq<Provider>)
    ensures match FirstWith(ref, providers)
            case Some(p) => p in providers && p.ref == ref
            case None => forall p :: p in providers ==> p.ref != ref
  {
    if providers != [] && providers[0].ref != ref { FirstWithFinds(ref, providers[1..]); }
  }

  /** The input is fed by an output of its type: the one asked for, or the only one outside the unit. */
  ghost predicate Fed(unit: string, input: Port, explicit: map<string, string>, providers: seq<Provider>, ref: Ref) {
    && (exists p :: p in providers && p.ref == ref && p.kind == input.kind)
    && (input.name in explicit ==> ParseRef(explicit[input.name]) == Some(ref))
    && (input.name !in explicit ==>
          exists i: nat :: OnlyAt(unit, input.kind, providers, i) && providers[i].ref == ref)
  }

  /** Why an input cannot be resolved. */
  ghost predicate Fails(unit: string, input: Port, explicit: map<string, string>, providers: seq<Provider>, why: Failure) {
    match why
    case BadReference => input.name in explicit && ParseRef(explicit[input.name]).None?
    case UnknownOutput =>
      && input.name in explicit && ParseRef(explicit[input.name]).Some?
      && forall p :: p in providers ==> p.ref != ParseRef(explicit[input.name]).value
    case WrongType =>
      && input.name in explicit && ParseRef(explicit[input.name]).Some?
      && exists p :: p in providers && p.ref == ParseRef(explicit[input.name]).value && p.kind != input.kind
    case NoProvider =>
      && input.name !in explicit && !input.optional
      && forall i :: 0 <= i < |providers| ==> !Fits(unit, input.kind, providers[i])
    case Ambiguous => input.name !in explicit && Rivals(unit, input.kind, providers)
  }

  lemma ResolutionSound(unit: string, input: Port, explicit: map<string, string>, providers: seq<Provider>)
    ensures var r := Resolve(unit, input, explicit, providers);
            && (r.Bound? ==> Fed(unit, input, explicit, providers, r.ref))
            && (r.Unbound? <==>
                  && input.name !in explicit && input.optional
                  && forall i :: 0 <= i < |providers| ==> !Fits(unit, input.kind, providers[i]))
            && (r.Unresolved? ==> Fails(unit, input, explicit, providers, r.why))
  {
    CandidatesCount(unit, input.kind, providers);
    if input.name in explicit && ParseRef(explicit[input.name]).Some? {
      FirstWithFinds(ParseRef(explicit[input.name]).value, providers);
    }
  }

  // --------------------------------------------------------------------- one unit

  type Bindings = map<string, Ref>

  /** The bindings of the first inputs, or the first input that cannot be resolved. */
  datatype Bindable = Bindable(bindings: Bindings) | Unbindable(input: string, why: Failure)

  function Bind(unit: string, inputs: seq<Port>, explicit: map<string, string>, providers: seq<Provider>): Bindable {
    if inputs == [] then Bindable(map[])
    else
      var n := |inputs| - 1;
      match Bind(unit, inputs[..n], explicit, providers)
      case Unbindable(input, why) => Unbindable(input, why)
      case Bindable(b) =>
        match Resolve(unit, inputs[n], explicit, providers)
        case Bound(ref) => Bindable(if ref.unit != "" then b[inputs[n].name := ref] else b)
        case Unbound => Bindable(b)
        case Unresolved(why) => Unbindable(inputs[n].name, why)
  }

  /** The input is referred to a unit by name, or its only provider outside the unit has a name. */
  ghost predicate Named(unit: string, input: Port, explicit: map<string, string>, providers: seq<Provider>) {
    || input.name in explicit
    || exists i: nat :: OnlyAt(unit, input.kind, providers, i) && providers[i].ref.unit != ""
  }

  /** The input's only provider is an output of the unit whose name is empty. */
  ghost predicate Nameless(unit: string, input: Port, explicit: map<string, string>, providers: seq<Provider>) {
    && input.name !in explicit
    && exists i: nat :: OnlyAt(unit, input.kind, providers, i) && providers[i].ref.unit == ""
  }

  ghost predicate SomeNamed(name: string, unit: string, inputs: seq<Port>, explicit: map<string, string>, providers: seq<Provider>) {
    exists k :: 0 <= k < |inputs| && inputs[k].name == name && Named(unit, inputs[k], explicit, providers)
  }

  ghost predicate SomeFed(name: string, unit: string, inputs: seq<Port>, explicit: map<string, string>,
                          providers: seq<Provider>, ref: Ref) {
    exists k :: 0 <= k < |inputs| && inputs[k].name == name && Fed(unit, inputs[k], explicit, providers, ref)
  }

  /**
    Each binding feeds an input of its name; the names bound are those with a named
    provider; an input without a binding is optional, or only the nameless unit
    provides it.
   */
  ghost predicate Wired(unit: string, inputs: seq<Port>, explicit: map<string, string>, providers: seq<Provider>, b: Bindings) {
    && (forall name :: name in b ==> SomeFed(name, unit, inputs, explicit, providers, b[name]))
    && (forall name :: name in b <==> SomeNamed(name, unit, inputs, explicit, providers))
    && (forall k :: 0 <= k < |inputs| && inputs[k].name !in b ==>
          inputs[k].optional || Nameless(unit, inputs[k], explicit, providers))
  }

  /** What resolving one more input adds: a binding to a named unit, or nothing. */
  ghost predicate Adds(unit: string, explicit: map<string, string>, providers: seq<Provider>, input: Port, b: Bindings, b': Bindings) {
    if Named(unit, input, explicit, providers)
    then input.name in b' && b' == b[input.name := b'[input.name]] && Fed(unit, input, explicit, providers, b'[input.name])
    else b' == b && (input.optional || Nameless(unit, input, explicit, providers))
  }

  lemma NamedMore(name: string, unit: string, inputs: seq<Port>, explicit: map<string, string>, providers: seq<Provider>,
                  input: Port, ref: Ref)
    ensures SomeNamed(name, unit, inputs + [input], explicit, providers) <==>
              SomeNamed(name, unit, inputs, explicit, providers) || (name == input.name && Named(unit, input, explicit, providers))
    ensures SomeFed(name, unit, inputs, explicit, providers, ref) ==> SomeFed(name, unit, inputs + [input], explicit, providers, ref)
    ensures Fed(unit, input, explicit, providers, ref) ==> SomeFed(input.name, unit, inputs + [input], explicit, providers, ref)
  {
    hide Fed, Named;
    var more, n := inputs + [input], |inputs|;
    assert more[n] == input && forall k :: 0 <= k < n ==> more[k] == inputs[k];
    if SomeNamed(name, unit, inputs, explicit, providers) {
      var k :| 0 <= k < n && inputs[k].name == name && Named(unit, inputs[k], explicit, providers);
      assert more[k].name == name && Named(unit, more[k], explicit, providers);
    }
    if SomeFed(name, unit, inputs, explicit, providers, ref) {
      var k :| 0 <= k < n && inputs[k].name == name && Fed(unit, inputs[k], explicit, providers, ref);
      assert more[k].name == name && Fed(unit, more[k], explicit, providers, ref);
    }
  }

  lemma WiredMore(unit: string, inputs: seq<Port>, explicit: map<string, string>, providers: seq<Provider>, input: Port,
                  b: Bindings, b': Bindings)
    requires Wired(unit, inputs, explicit, providers, b) && Adds(unit, explicit, providers, input, b, b')
    ensures Wired(unit, inputs + [input], explicit, providers, b')
  {
    hide Fed, Named, Nameless, SomeFed, SomeNamed;
    forall name
      ensures name in b' ==> SomeFed(name, unit, inputs + [input], explicit, providers, b'[name])
      ensures name in b' <==> SomeNamed(name, unit, inputs + [input], explicit, providers)
    {
      NamedMore(name, unit, inputs, explicit, providers, input, if name in b' then b'[name] else Ref("", ""));
    }
    assert forall k :: 0 <= k < |inputs| ==> (inputs + [input])[k] == inputs[k];
  }

  /** An input that can be resolved adds what it should. */
  lemma ResolutionAdds(unit: string, input: Port, explicit: map<string, string>, providers: seq<Provider>, b: Bindings, b': Bindings)
    requires match Resolve(unit, input, explicit, providers)
             case Bound(ref) => b' == if ref.unit != "" then b[input.name := ref] else b
             case Unbound => b' == b
             case Unresolved(_) => false
    ensures Adds(unit, explicit, providers, input, b, b')
  {
    ResolutionSound(unit, input, explicit, providers);
    hide ParseRef;
    var r := Resolve(unit, input, explicit, providers);
    if input.name in explicit {
      RefsAreNamed(explicit[input.name]);
    } else if r.Bound? {
      var i: nat :| OnlyAt(unit, input.kind, providers, i) && providers[i].ref == r.ref;
      OnlyOne(unit, input.kind, providers, i);
    }
  }

  lemma RefsAreNamed(raw: string)
    ensures ParseRef(raw).Some? ==> ParseRef(raw).value.unit != ""
  {
    hide TrimSpace, Split;
  }

  lemma OnlyOne(unit: string, kind: string, providers: seq<Provider>, i: nat)
    requires OnlyAt(unit, kind, providers, i)
    ensures forall j: nat :: OnlyAt(unit, kind, providers, j) ==> j == i
  {
  }

  lemma {:induction false} BindWires(unit: string, inputs: seq<Port>, explicit: map<string, string>, providers: seq<Provider>)
    requires Bind(unit, inputs, explicit, providers).Bindable?
    ensures Wired(unit, inputs, explicit, providers, Bind(unit, inputs, explicit, providers).bindings)
    ensures forall k :: 0 <= k < |inputs| ==> !Resolve(unit, inputs[k], explicit, providers).Unresolved?
  {
    hide Bind, Resolve, Adds;
    if inputs == [] {
      NothingBound(unit, explicit, providers);
    } else {
      hide Wired;
      var n := |inputs| - 1;
      LastBound(unit, inputs, explicit, providers);
      BindWires(unit, inputs[..n], explicit, providers);
      var b, b' := Bind(unit, inputs[..n], explicit, providers).bindings, Bind(unit, inputs, explicit, providers).bindings;
      ResolutionAdds(unit, inputs[n], explicit, providers, b, b');
      WiredMore(unit, inputs[..n], explicit, providers, inputs[n], b, b');
      assert inputs == inputs[..n] + [inputs[n]];
    }
  }

  lemma NothingBound(unit: string, explicit: map<string, string>, providers: seq<Provider>)
    ensures Bind(unit, [], explicit, providers) == Bindable(map[])
  {
  }

  lemma LastBound(unit: string, inputs: seq<Port>, explicit: map<string, string>, providers: seq<Provider>)
    requires inputs != [] && Bind(unit, inputs, explicit, providers).Bindable?
    ensures var n := |inputs| - 1;
            && Bind(unit, inputs[..n], explicit, providers).Bindable?
            && var b, b' := Bind(unit, inputs[..n], explicit, providers).bindings, Bind(unit, inputs, explicit, providers).bindings;
               match Resolve(unit, inputs[n], explicit, providers)
               case Bound(ref) => b' == if ref.unit != "" then b[inputs[n].name := ref] else b
               case Unbound => b' == b
               case Unresolved(_) => false
  {
    hide Resolve;
  }

  /** Every input without a binding is optional. */
  ghost predicate MandatoryBound(inputs: seq<Port>, b: Bindings) {
    forall k :: 0 <= k < |inputs| && inputs[k].name !in b ==> inputs[k].optional
  }

  /** No mandatory input has the nameless unit as its only provider, unless an input of the same name has a named one. */
  ghost predicate NamesSuffice(unit: string, inputs: seq<Port>, explicit: map<string, string>, providers: seq<Provider>) {
    forall k :: 0 <= k < |inputs| && !inputs[k].optional && Nameless(unit, inputs[k], explicit, providers) ==>
      SomeNamed(inputs[k].name, unit, inputs, explicit, providers)
  }

  /** When the inputs of a unit can be resolved, the mandatory ones are bound exactly if names suffice. */
  lemma MandatoryBoundWhen(unit: string, inputs: seq<Port>, explicit: map<string, string>, providers: seq<Provider>)
    requires Bind(unit, inputs, explicit, providers).Bindable?
    ensures MandatoryBound(inputs, Bind(unit, inputs, explicit, providers).bindings) <==>
              NamesSuffice(unit, inputs, explicit, providers)
  {
    BindWires(unit, inputs, explicit, providers);
    hide Bind, Nameless, SomeNamed, SomeFed;
  }

  lemma NamelessOnly(unit: string, input: Port, p: Provider)
    requires p.ref.unit == "" && p.ref.unit != unit && p.kind == input.kind
    ensures Bind(unit, [input], map[], [p]) == Bindable(map[]) && Nameless(unit, input, map[], [p])
  {
    assert [p][..0] == [] && Candidates(unit, input.kind, []) == [];
    assert Candidates(unit, input.kind, [p]) == [p];
    assert OnlyAt(unit, input.kind, [p], 0) && [p][0] == p;
    assert [input][..0] == [] && Bind(unit, [], map[], [p]) == Bindable(map[]);
  }

  /** Binding gives up only at an input that cannot be resolved. */
  lemma {:induction false} UnbindableInput(unit: string, inputs: seq<Port>, explicit: map<string, string>, providers: seq<Provider>)
    requires Bind(unit, inputs, explicit, providers).Unbindable?
    ensures var r := Bind(unit, inputs, explicit, providers);
            exists k :: 0 <= k < |inputs| && inputs[k].name == r.input
                        && Resolve(unit, inputs[k], explicit, providers) == Unresolved(r.why)
  {
    hide Resolve;
    var n := |inputs| - 1;
    if Bind(unit, inputs[..n], explicit, providers).Unbindable? {
      UnbindableInput(unit, inputs[..n], explicit, providers);
      var r := Bind(unit, inputs, explicit, providers);
      var k :| 0 <= k < |inputs[..n]| && inputs[..n][k].name == r.input
               && Resolve(unit, inputs[..n][k], explicit, providers) == Unresolved(r.why);
      assert inputs[k] == inputs[..n][k];
    }
  }

  // ---------------------------------------------------------------- the whole graph

  datatype Scenario = Scenario(version: string, units: map<string, Unit>)

  datatype Node = Node(bindings: Bindings, after: seq<string>)

  datatype Rejection =
    | BadVersion | NoUnits
    | UnknownKind(unit: string)
    | BadInput(unit: string, input: string, why: Failure)
    | Unsortable(failure: Visited)

  datatype Build = Built(nodes: map<string, Node>, order: seq<string>) | Rejected(why: Rejection)

  function OutputsOf(name: string, outputs: seq<Port>): seq<Provider> {
    if outputs == [] then []
    else
      var n := |outputs| - 1;
      OutputsOf(name, outputs[..n]) + [Provider(Ref(name, outputs[n].name), outputs[n].kind)]
  }

  function PortsOf(u: Unit): Ports {
    if u.def.Some? then u.def.value else Ports([], [])
  }

  /** All outputs, unit by unit in name order. */
  function ProvidersOf(names: seq<string>, units: map<string, Unit>): seq<Provider> {
    if names == [] then []
    else
      var n := |names| - 1;
      ProvidersOf(names[..n], units)
      + (if names[n] in units then OutputsOf(names[n], PortsOf(units[names[n]]).outputs) else [])
  }

  function BindUnit(name: string, u: Unit, providers: seq<Provider>): Bindable {
    Bind(name, PortsOf(u).inputs, u.explicit, providers)
  }

  /** The units a node depends on, its bindings in the order in which its inputs were bound. */
  function Sources(keys: seq<string>, b: Bindings): seq<string> {
    if keys == [] then []
    else Sources(keys[..|keys| - 1], b) + (if keys[|keys| - 1] in b then [b[keys[|keys| - 1]].unit] else [])
  }

  lemma {:induction false} SourcesMembers(keys: seq<string>, b: Bindings)
    ensures forall d :: d in Sources(keys, b) <==> exists k :: k in keys && k in b && b[k].unit == d
  {
    if keys != [] {
      SourcesMembers(keys[..|keys| - 1], b);
      assert keys == keys[..|keys| - 1] + [keys[|keys| - 1]];
    }
  }

  /** The names of the inputs, each once. */
  function KeysOf(inputs: seq<Port>): seq<string> {
    if inputs == [] then []
    else
      var n := |inputs| - 1;
      var front := KeysOf(inputs[..n]);
      if inputs[n].name in front then front else front + [inputs[n].name]
  }

  lemma {:induction false} KeysMembers(inputs: seq<Port>)
    ensures forall x :: x in KeysOf(inputs) <==> exists k :: 0 <= k < |inputs| && inputs[k].name == x
  {
    if inputs != [] {
      var n := |inputs| - 1;
      KeysMembers(inputs[..n]);
      assert forall k :: 0 <= k < n ==> inputs[..n][k] == inputs[k];
    }
  }

  lemma {:induction false} BoundNames(unit: string, inputs: seq<Port>, explicit: map<string, string>, providers: seq<Provider>)
    requires Bind(unit, inputs, explicit, providers).Bindable?
    ensures forall x :: x in Bind(unit, inputs, explicit, providers).bindings ==> x in KeysOf(inputs)
  {
    hide Resolve;
    if inputs != [] { BoundNames(unit, inputs[..|inputs| - 1], explicit, providers); }
  }

  /** The node of a unit whose inputs can all be resolved. */
  function NodeOf(name: string, u: Unit, providers: seq<Provider>): Node {
    match BindUnit(name, u, providers)
    case Bindable(b) => Node(b, u.after)
    case Unbindable(_, _) => Node(map[], u.after)
  }

  function DepsOf(name: string, u: Unit, providers: seq<Provider>): seq<string> {
    Sources(KeysOf(PortsOf(u).inputs), NodeOf(name, u, providers).bindings) + u.after
  }

  function GraphOf(units: map<string, Unit>, providers: seq<Provider>): Graph {
    map name | name in units :: DepsOf(name, units[name], providers)
  }

  /** What a unit waits for: the units that feed it and those it is placed after. */
  lemma DepsAre(name: string, u: Unit, providers: seq<Provider>, d: string)
    ensures d in DepsOf(name, u, providers) <==>
              d in u.after || exists k :: k in NodeOf(name, u, providers).bindings && NodeOf(name, u, providers).bindings[k].unit == d
  {
    var b := NodeOf(name, u, providers).bindings;
    SourcesMembers(KeysOf(PortsOf(u).inputs), b);
    if BindUnit(name, u, providers).Bindable? { BoundNames(name, PortsOf(u).inputs, u.explicit, providers); }
  }

  ghost predicate Known(units: map<string, Unit>) {
    forall u :: u in units ==> units[u].def.Some?
  }

  ghost predicate Resolvable(units: map<string, Unit>, providers: seq<Provider>) {
    forall u :: u in units ==> BindUnit(u, units[u], providers).Bindable?
  }

  const VERSION := "wkbench/v2"

  /** A scenario the engine accepts. */
  ghost predicate Acceptable(sc: Scenario, providers: seq<Provider>) {
    && TrimSpace(sc.version) == VERSION && sc.units != map[]
    && Known(sc.units) && Resolvable(sc.units, providers)
    && Complete(GraphOf(sc.units, providers)) && Acyclic(GraphOf(sc.units, providers))
  }

  /** Every input is fed as it must be, and every unit comes after those that feed it and those it asked to follow. */
  ghost predicate Sound(sc: Scenario, providers: seq<Provider>, nodes: map<string, Node>, order: seq<string>) {
    && nodes.Keys == sc.units.Keys && Distinct(order) && (forall x :: x in order <==> x in nodes)
    && (forall u :: u in nodes ==>
          && Wired(u, PortsOf(sc.units[u]).inputs, sc.units[u].explicit, providers, nodes[u].bindings)
          && nodes[u].after == sc.units[u].after)
    && DepsFirst(GraphOf(sc.units, providers), order)
    && (forall i, k :: 0 <= i < |order| && k in nodes[order[i]].bindings ==> nodes[order[i]].bindings[k].unit in order[..i])
    && (forall i, d :: 0 <= i < |order| && d in nodes[order[i]].after ==> d in order[..i])
  }

  /** The reason given is a real one. */
  ghost predicate Justified(sc: Scenario, providers: seq<Provider>, why: Rejection) {
    match why
    case BadVersion => TrimSpace(sc.version) != VERSION
    case NoUnits => sc.units == map[]
    case UnknownKind(u) => u in sc.units && sc.units[u].def.None?
    case BadInput(u, input, failure) =>
      && u in sc.units
      && exists k :: 0 <= k < |PortsOf(sc.units[u]).inputs| && PortsOf(sc.units[u]).inputs[k].name == input
                     && Resolve(u, PortsOf(sc.units[u]).inputs[k], sc.units[u].explicit, providers) == Unresolved(failure)
    case Unsortable(failure) => !failure.Done? && Answer(GraphOf(sc.units, providers), failure)
  }

  method CollectOutputs(names: seq<string>, units: map<string, Unit>) returns (providers: seq<Provider>)
    requires forall x :: x in names ==> x in units
    ensures providers == ProvidersOf(names, units)
  {
    providers := [];
    for i := 0 to |names|
      invariant providers == ProvidersOf(names[..i], units)
    {
      var outputs, before := PortsOf(units[names[i]]).outputs, providers;
      for j := 0 to |outputs|
        invariant providers == before + OutputsOf(names[i], outputs[..j])
      {
        providers := providers + [Provider(Ref(names[i], outputs[j].name), outputs[j].kind)];
        assert outputs[..j + 1][..j] == outputs[..j];
      }
      assert outputs[..|outputs|] == outputs;
      assert names[..i + 1][..i] == names[..i];
    }
    assert names[..|names|] == names;
  }

  method BindInputs(name: string, inputs: seq<Port>, explicit: map<string, string>, providers: seq<Provider>)
    returns (r: Bindable)
    ensures r == Bind(name, inputs, explicit, providers)
  {
    var b: Bindings := map[];
    for i := 0 to |inputs|
      invariant Bind(name, inputs[..i], explicit, providers) == Bindable(b)
    {
      assert inputs[..i + 1][..i] == inputs[..i];
      var resolved := ResolveInput(name, inputs[i], explicit, providers);
      match resolved {
        case Unresolved(why) =>
          FailsEarly(name, inputs, explicit, providers, i);
          return Unbindable(inputs[i].name, why);
        case Bound(ref) => if ref.unit != "" { b := b[inputs[i].name := ref]; }
        case Unbound =>
      }
    }
    assert inputs[..|inputs|] == inputs;
    return Bindable(b);
  }

  lemma {:induction false} FailsEarly(name: string, inputs: seq<Port>, explicit: map<string, string>, providers: seq<Provider>, i: nat)
    requires i < |inputs| && Bind(name, inputs[..i + 1], explicit, providers).Unbindable?
    ensures Bind(name, inputs, explicit, providers) == Bind(name, inputs[..i + 1], explicit, providers)
  {
    hide Resolve;
    var n := |inputs| - 1;
    if i < n {
      assert inputs[..n][..i + 1] == inputs[..i + 1];
      FailsEarly(name, inputs[..n], explicit, providers, i);
    } else {
      assert inputs[..i + 1] == inputs;
    }
  }

  lemma UnbindableUnit(sc: Scenario, providers: seq<Provider>, name: string)
    requires name in sc.units && BindUnit(name, sc.units[name], providers).Unbindable?
    ensures var r := BindUnit(name, sc.units[name], providers);
            Justified(sc, providers, BadInput(name, r.input, r.why)) && !Acceptable(sc, providers)
  {
    UnbindableInput(name, PortsOf(sc.units[name]).inputs, sc.units[name].explicit, providers);
    hide Bind, Resolve;
  }

  lemma SortedIsSound(sc: Scenario, providers: seq<Provider>, nodes: map<string, Node>, names: seq<string>)
    requires forall x :: x in names <==> x in sc.units
    requires Known(sc.units) && Resolvable(sc.units, providers)
    requires nodes == map u | u in sc.units :: NodeOf(u, sc.units[u], providers)
    requires SortUnits(GraphOf(sc.units, providers), names).Done?
    ensures Sound(sc, providers, nodes, SortUnits(GraphOf(sc.units, providers), names).marks.order)
  {
    var g := GraphOf(sc.units, providers);
    var order := SortUnits(g, names).marks.order;
    SortsExactlyWhenPossible(g, names);
    hide DepsOf, SortUnits, Wired, NodeOf, Bind;
    assert DepsFirst(g, order);
    forall u | u in nodes
      ensures Wired(u, PortsOf(sc.units[u]).inputs, sc.units[u].explicit, providers, nodes[u].bindings)
      ensures nodes[u].after == sc.units[u].after
    {
      NodeWired(u, sc.units[u], providers);
    }
    forall i, d | 0 <= i < |order| && d in g[order[i]]
      ensures d in order[..i]
    {
    }
    forall i, k | 0 <= i < |order| && k in nodes[order[i]].bindings
      ensures nodes[order[i]].bindings[k].unit in order[..i]
    {
      DepsAre(order[i], sc.units[order[i]], providers, nodes[order[i]].bindings[k].unit);
    }
    forall i, d | 0 <= i < |order| && d in nodes[order[i]].after
      ensures d in order[..i]
    {
      DepsAre(order[i], sc.units[order[i]], providers, d);
    }
  }

  lemma NodeWired(name: string, u: Unit, providers: seq<Provider>)
    requires BindUnit(name, u, providers).Bindable?
    ensures Wired(name, PortsOf(u).inputs, u.explicit, providers, NodeOf(name, u, providers).bindings)
    ensures NodeOf(name, u, providers).after == u.after
  {
    BindWires(name, PortsOf(u).inputs, u.explicit, providers);
    hide Wired, Bind;
  }

  method BindUnits(sc: Scenario, names: seq<string>, providers: seq<Provider>)
    returns (nodes: map<string, Node>, refused: Option<Rejection>)
    requires forall x :: x in names <==> x in sc.units
    ensures refused.None? ==>
              Resolvable(sc.units, providers) && nodes == map u | u in sc.units :: NodeOf(u, sc.units[u], providers)
    ensures refused.Some? ==> Justified(sc, providers, refused.value) && !Acceptable(sc, providers)
  {
    nodes := map[];
    for i := 0 to |names|
      invariant forall x :: x in nodes <==> x in names[..i]
      invariant forall x :: x in nodes ==>
                  BindUnit(x, sc.units[x], providers).Bindable? && nodes[x] == NodeOf(x, sc.units[x], providers)
    {
      var u := sc.units[names[i]];
      var bound := BindInputs(names[i], PortsOf(u).inputs, u.explicit, providers);
      if bound.Unbindable? {
        UnbindableUnit(sc, providers, names[i]);
        return nodes, Some(BadInput(names[i], bound.input, bound.why));
      }
      nodes := nodes[names[i] := Node(bound.bindings, u.after)];
    }
    return nodes, None;
  }

  lemma Rejections(sc: Scenario, providers: seq<Provider>)
    ensures TrimSpace(sc.version) != VERSION ==> Justified(sc, providers, BadVersion)
    ensures sc.units == map[] ==> Justified(sc, providers, NoUnits)
    ensures forall u :: u in sc.units && sc.units[u].def.None? ==> Justified(sc, providers, UnknownKind(u))
    ensures forall v: Visited :: !v.Done? && Answer(GraphOf(sc.units, providers), v) ==> Justified(sc, providers, Unsortable(v))
  {
    hide TrimSpace, Resolve;
  }

  /** `names` lists the units in map iteration order; the result does not depend on it. */
  method BuildGraph(sc: Scenario, names: seq<string>) returns (r: Build)
    requires forall x :: x in names <==> x in sc.units
    ensures var providers := ProvidersOf(Sort(names), sc.units);
            && (r.Built? <==> Acceptable(sc, providers))
            && (r.Built? ==> Sound(sc, providers, r.nodes, r.order))
            && (r.Rejected? ==> Justified(sc, providers, r.why))
  {
    hide Justified, Resolvable, NodeOf, DepsOf, Sound, BindUnit, TrimSpace, ProvidersOf;
    SortMembers(names);
    Rejections(sc, ProvidersOf(Sort(names), sc.units));
    if TrimSpace(sc.version) != VERSION { return Rejected(BadVersion); }
    if |sc.units| == 0 { return Rejected(NoUnits); }
    var sorted := Sort(names);
    for i := 0 to |sorted|
      invariant forall j :: 0 <= j < i ==> sc.units[sorted[j]].def.Some?
    {
      if sc.units[sorted[i]].def.None? { return Rejected(UnknownKind(sorted[i])); }
    }
    var providers := CollectOutputs(sorted, sc.units);
    var nodes, refused := BindUnits(sc, sorted, providers);
    if refused.Some? { return Rejected(refused.value); }
    var sorter := new Sorter(GraphOf(sc.units, providers));
    var visited := sorter.Run(names);
    SortsExactlyWhenPossible(GraphOf(sc.units, providers), names);
    if !visited.Done? { return Rejected(Unsortable(visited)); }
    SortedIsSound(sc, providers, nodes, names);
    return Built(nodes, sorter.order);
  }

  lemma {:induction false} OutputsMembers(name: string, outputs: seq<Port>, p: Provider)
    ensures p in OutputsOf(name, outputs) <==>
              exists k :: 0 <= k < |outputs| && p == Provider(Ref(name, outputs[k].name), outputs[k].kind)
  {
    if outputs != [] {
      var n := |outputs| - 1;
      OutputsMembers(name, outputs[..n], p);
      assert forall k :: 0 <= k < n ==> outputs[..n][k] == outputs[k];
    }
  }

  /** The providers are the outputs of the scenario's units and nothing else. */
  lemma {:induction false} ProvidersAre(names: seq<string>, units: map<string, Unit>, p: Provider)
    ensures p in ProvidersOf(names, units) <==>
              && p.ref.unit in names && p.ref.unit in units
              && exists k :: 0 <= k < |PortsOf(units[p.ref.unit]).outputs|
                             && p.ref.port == PortsOf(units[p.ref.unit]).outputs[k].name
                             && p.kind == PortsOf(units[p.ref.unit]).outputs[k].kind
  {
    if names != [] {
      var n := |names| - 1;
      ProvidersAre(names[..n], units, p);
      assert names == names[..n] + [names[n]];
      if names[n] in units { OutputsMembers(names[n], PortsOf(units[names[n]]).outputs, p); }
    }
  }

  /** The scenario-wide condition: names suffice at every unit. */
  ghost predicate AllNamesSuffice(sc: Scenario, providers: seq<Provider>) {
    forall u :: u in sc.units ==> NamesSuffice(u, PortsOf(sc.units[u]).inputs, sc.units[u].explicit, providers)
  }

  /** In a built graph every unbound input is optional, if and only if names suffice at every unit. */
  lemma BuiltInputsBound(sc: Scenario, providers: seq<Provider>, nodes: map<string, Node>, order: seq<string>)
    requires Sound(sc, providers, nodes, order)
    ensures (forall u :: u in nodes ==> MandatoryBound(PortsOf(sc.units[u]).inputs, nodes[u].bindings)) <==>
              AllNamesSuffice(sc, providers)
  {
    hide Nameless, SomeNamed, SomeFed, DepsFirst, MandatoryBound, NamesSuffice, Wired;
    forall u | u in nodes
      ensures MandatoryBound(PortsOf(sc.units[u]).inputs, nodes[u].bindings) <==>
                NamesSuffice(u, PortsOf(sc.units[u]).inputs, sc.units[u].explicit, providers)
    {
      WiredBinds(u, PortsOf(sc.units[u]).inputs, sc.units[u].explicit, providers, nodes[u].bindings);
    }
  }

  lemma WiredBinds(unit: string, inputs: seq<Port>, explicit: map<string, string>, providers: seq<Provider>, b: Bindings)
    requires Wired(unit, inputs, explicit, providers, b)
    ensures MandatoryBound(inputs, b) <==> NamesSuffice(unit, inputs, explicit, providers)
  {
    hide Nameless, SomeNamed, SomeFed;
  }

  /** A scenario whose units all have names binds every mandatory input. */
  lemma NamedUnitsBindAll(sc: Scenario, names: seq<string>, nodes: map<string, Node>, order: seq<string>)
    requires "" !in sc.units && Sound(sc, ProvidersOf(names, sc.units), nodes, order)
    ensures forall u :: u in nodes ==> MandatoryBound(PortsOf(sc.units[u]).inputs, nodes[u].bindings)
  {
    var providers := ProvidersOf(names, sc.units);
    forall i | 0 <= i < |providers|
      ensures providers[i].ref.unit != ""
    {
      ProvidersAre(names, sc.units, providers[i]);
    }
    hide ProvidersOf, Sound;
    BuiltInputsBound(sc, providers, nodes, order);
  }

  /** A unit without a name provides what the unit "u" needs. */
  const UNNAMED := Scenario(VERSION, map[
    "" := Unit(Some(Ports([], [Port("out", "T", false)])), map[], []),
    "u" := Unit(Some(Ports([Port("in", "T", false)], [])), map[], [])])

  /**
    A scenario that is accepted, and in every graph built of it a mandatory input stays
    without a binding: the only output of its type belongs to the unit named "".
   */
  lemma NamelessProviderIsDropped(nodes: map<string, Node>, order: seq<string>)
    ensures var providers := ProvidersOf(Sort(["", "u"]), UNNAMED.units);
            && (forall x :: x in ["", "u"] <==> x in UNNAMED.units)
            && Acceptable(UNNAMED, providers)
            && (Sound(UNNAMED, providers, nodes, order) ==>
                  && "u" in nodes && "in" !in nodes["u"].bindings
                  && !MandatoryBound(PortsOf(UNNAMED.units["u"]).inputs, nodes["u"].bindings))
  {
    var source, sink := UNNAMED.units[""], UNNAMED.units["u"];
    var output, input := PortsOf(source).outputs[0], PortsOf(sink).inputs[0];
    var p := Provider(Ref("", output.name), output.kind);
    TwoSorted("", "u");
    OneOutput("", "u", UNNAMED.units, output);
    VersionTrimmed(VERSION);
    assert PortsOf(source).outputs == [output] && PortsOf(sink).inputs == [input] && "" != "u";
    NamelessAccepted("", "u", UNNAMED.units, input, p);
    hide ProvidersOf, Sort, TrimSpace, Resolvable, Complete, Acyclic, Known;
    if Sound(UNNAMED, [p], nodes, order) {
      NamelessUnbound("u", input, p, nodes["u"].bindings);
      assert PortsOf(UNNAMED.units["u"]).inputs[0].name !in nodes["u"].bindings;
    }
  }

  lemma TwoSorted(a: string, b: string)
    requires a == "" && b != ""
    ensures Sort([a, b]) == [a, b]
  {
    assert [a, b][1..] == [b] && [b][1..] == [];
    assert Sort([b]) == [b];
  }

  lemma VersionTrimmed(version: string)
    requires version == VERSION
    ensures TrimSpace(version) == VERSION
  {
    TrimKeeps(version);
  }

  /** The first unit has one output, the second none. */
  lemma OneOutput(a: string, b: string, units: map<string, Unit>, output: Port)
    requires a in units && PortsOf(units[a]).outputs == [output] && b in units && PortsOf(units[b]).outputs == []
    ensures ProvidersOf([a, b], units) == [Provider(Ref(a, output.name), output.kind)]
  {
    assert [a, b][..1] == [a] && [a][..0] == [] && [output][..0] == [];
    assert OutputsOf(a, []) == [];
    assert ProvidersOf([a], units) == [Provider(Ref(a, output.name), output.kind)];
  }

  lemma NamelessAccepted(a: string, b: string, units: map<string, Unit>, input: Port, p: Provider)
    requires a == "" && a != b && units.Keys == {a, b} && p.ref.unit == a && p.kind == input.kind
    requires forall u :: u in units ==> units[u].def.Some? && units[u].explicit == map[] && units[u].after == []
    requires PortsOf(units[a]).inputs == [] && PortsOf(units[b]).inputs == [input]
    ensures Known(units) && Resolvable(units, [p])
    ensures Complete(GraphOf(units, [p])) && Acyclic(GraphOf(units, [p]))
  {
    NamelessOnly(b, input, p);
    NothingBound(a, map[], [p]);
    hide Bind;
    var g := GraphOf(units, [p]);
    forall u | u in units
      ensures BindUnit(u, units[u], [p]) == Bindable(map[]) && g[u] == []
    {
      NoSources(KeysOf(PortsOf(units[u]).inputs));
    }
    NoEdges(g);
  }

  lemma {:induction false} NoSources(keys: seq<string>)
    ensures Sources(keys, map[]) == []
  {
    if keys != [] { NoSources(keys[..|keys| - 1]); }
  }

  lemma NoEdges(g: Graph)
    requires forall u :: u in g ==> g[u] == []
    ensures Complete(g) && Acyclic(g)
  {
    forall x
      ensures !Reaches(g, x, x)
    {
      if p :| Path(g, p) && p[0] == x && p[|p| - 1] == x { PathStarts(g, p); }
    }
  }

  lemma PathStarts(g: Graph, p: seq<string>)
    requires Path(g, p)
    ensures p[0] in g && g[p[0]] != []
  {
    assert p[0] in g && p[0 + 1] in g[p[0]];
  }

  lemma NamelessUnbound(unit: string, input: Port, p: Provider, b: Bindings)
    requires p.ref.unit == "" && p.ref.unit != unit && p.kind == input.kind
    requires Wired(unit, [input], map[], [p], b)
    ensures input.name !in b
  {
    NamelessOnly(unit, input, p);
    BindWires(unit, [input], map[], [p]);
    hide Bind, SomeNamed, SomeFed, Nameless;
  }
}
