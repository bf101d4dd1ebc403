/**
 The flow renderer as a compiler: it resolves and links step templates into a script of function
 definitions and guarded calls. The script is kept as a syntax tree; an interpreter gives it a
 meaning for any behaviour of the step bodies.
 */
module Render {
  import opened Wrappers
  import Shell
  import Parameters

  datatype Template = Template(key: string, source: string, params: seq<string>)

  datatype Step = Step(kind: string, given: Parameters.Given)

  datatype Job = Job(series: string, episodeDir: string, episode: string, scriptType: string, scriptFile: string)

  /** The node-side values shared by all jobs, the default encoder arguments, and the episode-number pattern. */
  datatype Site = Site(vars: Parameters.Vars, x265: string, number: string -> string)

  /**
   A script language. `stepBody` accepts and translates a template, `funcName` finds the function a
   body is called by, `defines` lists all functions it defines, and `fold` maps names that the
   shell does not tell apart to one name.
   */
  datatype Dialect = Dialect(stepBody: Template -> Option<string>, funcName: string -> string,
      defines: string -> set<string>, fold: string -> string)

  /** The lookup of a template by key; the number counts the lookups, which may see different tables. */
  type Resolver = (nat, string) -> Option<Template>

  datatype Error = NoSteps | NoJob | Unresolved(step: nat) | Refused(step: nat) | NoFunction(step: nat)
      | Clash(step: nat) | UnsafeType(step: nat)

  datatype Stmt = Context(vars: seq<Shell.Assign>) | Define(body: string)
      | Call(kind: string, block: seq<Shell.Assign>, fn: string) | Finish

  /** What linking makes of one step. */
  datatype Item = Item(key: string, body: string, fn: string, kind: string, block: seq<Shell.Assign>)

  // ---- what rendering yields ----

  function LinkFault(st: Step, i: nat, d: Dialect, resolve: Resolver): Option<Error> {
    match resolve(i, st.kind)
    case None => Some(Unresolved(i))
    case Some(t) =>
      match d.stepBody(t)
      case None => Some(Refused(i))
      case Some(body) => if d.funcName(body) == "" then Some(NoFunction(i)) else None
  }

  function ItemOf(st: Step, t: Template, body: string, d: Dialect): Item {
    Item(t.key, body, d.funcName(body), Shell.Safe(st.kind), Parameters.Declared(t.params, st.given))
  }

  predicate Linkable(steps: seq<Step>, d: Dialect, resolve: Resolver) {
    forall i :: 0 <= i < |steps| ==> LinkFault(steps[i], i, d, resolve).None?
  }

  function ItemAt(st: Step, i: nat, d: Dialect, resolve: Resolver): Item
    requires LinkFault(st, i, d, resolve).None?
  {
    var t := resolve(i, st.kind).value;
    ItemOf(st, t, d.stepBody(t).value, d)
  }

  function Items(steps: seq<Step>, d: Dialect, resolve: Resolver): (items: seq<Item>)
    requires Linkable(steps, d, resolve)
    ensures |items| == |steps|
    ensures forall i :: 0 <= i < |steps| ==> items[i] == ItemAt(steps[i], i, d, resolve)
  {
    seq(|steps|, i requires 0 <= i < |steps|
        && LinkFault(steps[i], i, d, resolve).None? => ItemAt(steps[i], i, d, resolve))
  }

  predicate Clashes(items: seq<Item>, i: nat)
    requires i < |items|
  {
    exists k :: 0 <= k < i && items[k].fn == items[i].fn && items[k].key != items[i].key
  }

  /** The second round of checks: one function name per template, and a step type that survives sanitising. */
  function CallFault(items: seq<Item>, i: nat): Option<Error>
    requires i < |items|
  {
    if Clashes(items, i) then Some(Clash(i)) else if items[i].kind == "" then Some(UnsafeType(i)) else None
  }

  predicate Callable(items: seq<Item>) {
    forall i :: 0 <= i < |items| ==> CallFault(items, i).None?
  }

  predicate HasKey(items: seq<Item>, key: string) {
    exists k :: 0 <= k < |items| && items[k].key == key
  }

  /** The bodies in the script: each template key is linked once, where it first occurs. */
  function Linked(items: seq<Item>): seq<string> {
    if items == [] then []
    else
      var rest, last := items[..|items| - 1], items[|items| - 1];
      if HasKey(rest, last.key) then Linked(rest) else Linked(rest) + [last.body]
  }

  function Defines(bodies: seq<string>): seq<Stmt> {
    seq(|bodies|, i requires 0 <= i < |bodies| => Define(bodies[i]))
  }

  function Calls(items: seq<Item>): seq<Stmt> {
    seq(|items|, i requires 0 <= i < |items| => Call(items[i].kind, items[i].block, items[i].fn))
  }

  function Script(vars: seq<Shell.Assign>, items: seq<Item>): seq<Stmt> {
    [Context(vars)] + Defines(Linked(items)) + Calls(items) + [Finish]
  }

  function ContextOf(j: Job, site: Site): seq<Shell.Assign> {
    Parameters.Context(
      j.series, j.episodeDir, site.vars, if j.episode == "" then site.number(j.episodeDir) else j.episode,
      if j.scriptFile == "" then "1080." + j.scriptType else j.scriptFile, site.x265)
  }

  ghost predicate FirstLinkFault(steps: seq<Step>, d: Dialect, resolve: Resolver, e: Error) {
    exists i :: 0 <= i < |steps| && LinkFault(steps[i], i, d, resolve) == Some(e) && Linkable(steps[..i], d, resolve)
  }

  ghost predicate FirstCallFault(items: seq<Item>, e: Error) {
    exists i :: 0 <= i < |items| && CallFault(items, i) == Some(e) && forall k :: 0 <= k < i ==>
        CallFault(items, k).None?
  }

  /** The outcome of rendering: the script, or the first fault in the order the checks are made. */
  ghost predicate Rendered(steps: seq<Step>, j: Option<Job>, site: Site, d: Dialect, resolve: Resolver,
      r: Result<seq<Stmt>, Error>) {
    if steps == [] then r == Err(NoSteps)
    else if j.None? || j.value.series == "" || j.value.episodeDir == "" then r == Err(NoJob)
    else if !Linkable(steps, d, resolve) then r.Err? && FirstLinkFault(steps, d, resolve, r.error)
    else
      var items := Items(steps, d, resolve);
      if !Callable(items) then r.Err? && FirstCallFault(items, r.error)
        else r == Ok(Script(ContextOf(j.value, site), items))
  }

  // ---- rendering ----

  lemma LinkedSnoc(items: seq<Item>, i: nat)
    requires i < |items|
    ensures Linked(items[..i + 1]) == if HasKey(items[..i], items[i].key) then Linked(items[..i])
      else Linked(items[..i]) + [items[i].body]
  {
    assert items[..i + 1][..i] == items[..i];
  }

  method Resolve(steps: seq<Step>, d: Dialect, resolve: Resolver) returns (r: Result<seq<Item>, Error>)
    ensures if Linkable(steps, d, resolve) then r == Ok(Items(steps, d, resolve))
      else r.Err? && FirstLinkFault(steps, d, resolve, r.error)
  {
    var items: seq<Item> := [];
    for i := 0 to |steps|
      invariant |items| == i && Linkable(steps[..i], d, resolve)
      invariant forall k :: 0 <= k < i ==> items[k] == ItemAt(steps[k], k, d, resolve)
    {
      var st := steps[i];
      var t := resolve(i, st.kind);
      if t.None? {
        return Err(Unresolved(i));
      }
      var body := d.stepBody(t.value);
      if body.None? {
        return Err(Refused(i));
      }
      if d.funcName(body.value) == "" {
        return Err(NoFunction(i));
      }
      items := items + [ItemOf(st, t.value, body.value, d)];
    }
    assert steps[..|steps|] == steps;
    assert items == Items(steps, d, resolve);
    return Ok(items);
  }

  /** No earlier item has the key of item `k`. */
  predicate Leads(items: seq<Item>, k: nat)
    requires k < |items|
  {
    forall i :: 0 <= i < k ==> items[i].key != items[k].key
  }

  lemma LeadsNext(rest: seq<Item>, last: Item)
    ensures forall k :: 0 <= k < |rest| ==> (Leads(rest + [last], k) <==> Leads(rest, k))
    ensures Leads(rest + [last], |rest|) <==> !HasKey(rest, last.key)
  {
    var items := rest + [last];
    assert forall i :: 0 <= i < |rest| ==> items[i] == rest[i];
    assert items[|rest|] == last;
  }

  /** The bodies, in order, of the items at the positions `at`: those whose key no earlier item has. */
  ghost predicate FirstBodies(bodies: seq<string>, items: seq<Item>, at: seq<nat>) {
    && |at| == |bodies|
    && (forall i, k :: 0 <= i < k < |at| ==> at[i] < at[k])
    && (forall i :: 0 <= i < |at| ==> at[i] < |items| && bodies[i] == items[at[i]].body)
    && forall k :: 0 <= k < |items| ==> (k in at <==> Leads(items, k))
  }

  lemma FirstBodiesNext(bodies: seq<string>, rest: seq<Item>, at: seq<nat>, last: Item)
    requires FirstBodies(bodies, rest, at)
    ensures HasKey(rest, last.key) ==> FirstBodies(bodies, rest + [last], at)
    ensures !HasKey(rest, last.key) ==> FirstBodies(bodies + [last.body], rest + [last], at + [|rest|])
  {
    LeadsNext(rest, last);
    hide HasKey, Leads;
    assert forall x :: x in at ==> x < |rest|;
    assert forall k :: k in at + [|rest|] <==> k in at || k == |rest|;
  }

  /** Linking takes exactly these. */
  lemma {:induction false} LinkedAtFirst(items: seq<Item>) returns (at: seq<nat>)
    ensures FirstBodies(Linked(items), items, at)
  {
    if items == [] {
      at := [];
    } else {
      var rest, last := items[..|items| - 1], items[|items| - 1];
      var before := LinkedAtFirst(rest);
      assert items == rest + [last];
      FirstBodiesNext(Linked(rest), rest, before, last);
      at := before + if HasKey(rest, last.key) then [] else [|rest|];
      hide FirstBodies, HasKey;
    }
  }

  lemma DefinesSnoc(bodies: seq<string>, body: string)
    ensures Defines(bodies + [body]) == Defines(bodies) + [Define(body)]
  {
  }

  method Link(items: seq<Item>) returns (out: seq<Stmt>)
    ensures out == Defines(Linked(items))
  {
    var emitted: set<string> := {};
    out := [];
    for i := 0 to |items|
      invariant forall key :: key in emitted <==> HasKey(items[..i], key)
      invariant out == Defines(Linked(items[..i]))
    {
      LinkedSnoc(items, i);
      KeysGrow(items, i);
      DefinesSnoc(Linked(items[..i]), items[i].body);
      hide Linked, HasKey, Defines;
      if items[i].key in emitted {
        continue;
      }
      emitted := emitted + {items[i].key};
      out := out + [Define(items[i].body)];
    }
    assert items[..|items|] == items;
  }

  lemma KeysGrow(items: seq<Item>, i: nat)
    requires i < |items|
    ensures forall key :: HasKey(items[..i + 1], key) <==> HasKey(items[..i], key) || key == items[i].key
  {
    forall key | HasKey(items[..i], key) ensures HasKey(items[..i + 1], key) {
      var k :| 0 <= k < i && items[..i][k].key == key;
      assert items[..i + 1][k].key == key;
    }
    assert items[..i + 1][i] == items[i];
    forall key | HasKey(items[..i + 1], key) && key != items[i].key ensures HasKey(items[..i], key) {
      var k :| 0 <= k < i + 1 && items[..i + 1][k].key == key;
      assert items[..i][k].key == key;
    }
  }

  method Emit(items: seq<Item>) returns (r: Result<seq<Stmt>, Error>)
    ensures if Callable(items) then r == Ok(Calls(items)) else r.Err? && FirstCallFault(items, r.error)
  {
    var invoked: map<string, string> := map[];
    var out: seq<Stmt> := [];
    for i := 0 to |items|
      invariant out == Calls(items[..i])
      invariant forall k :: 0 <= k < i ==> CallFault(items, k).None?
      invariant forall k :: 0 <= k < i ==> items[k].fn in invoked && invoked[items[k].fn] == items[k].key
      invariant forall fn :: fn in invoked ==> exists k :: 0 <= k < i && items[k].fn == fn
    {
      var fn, key := items[i].fn, items[i].key;
      if fn in invoked && invoked[fn] != key {
        assert CallFault(items, i) == Some(Clash(i));
        return Err(Clash(i));
      }
      assert !Clashes(items, i);
      invoked := invoked[fn := key];
      if items[i].kind == "" {
        assert CallFault(items, i) == Some(UnsafeType(i));
        return Err(UnsafeType(i));
      }
      out := out + [Call(items[i].kind, items[i].block, fn)];
      assert items[..i + 1] == items[..i] + [items[i]];
    }
    assert items[..|items|] == items;
    return Ok(out);
  }

  method Render(steps: seq<Step>, j: Option<Job>, site: Site, d: Dialect, resolve: Resolver)
      returns (r: Result<seq<Stmt>, Error>)
    ensures Rendered(steps, j, site, d, resolve, r)
  {
    if |steps| == 0 {
      return Err(NoSteps);
    }
    if j.None? || j.value.series == "" || j.value.episodeDir == "" {
      return Err(NoJob);
    }
    var items := Resolve(steps, d, resolve);
    if items.Err? {
      return Err(items.error);
    }
    var defines := Link(items.value);
    var calls := Emit(items.value);
    if calls.Err? {
      return Err(calls.error);
    }
    return Ok([Context(ContextOf(j.value, site))] + defines + calls.value + [Finish]);
  }

  // ---- what a script means ----

  datatype Event = Started(kind: string) | Ran(body: string, fn: string, block: seq<Shell.Assign>)
      | Failed(kind: string) | JobDone

  /** How step bodies behave: where a script starts, and what calling a function of a body does. */
  datatype Meaning<!E> = Meaning(init: seq<Shell.Assign> -> E, run: (string, string, seq<Shell.Assign>, E) -> (E, bool))

  predicate Has(d: Dialect, body: string, fn: string) {
    exists n :: n in d.defines(body) && d.fold(n) == d.fold(fn)
  }

  /** The latest definition of a name wins. */
  function Lookup(d: Dialect, bodies: seq<string>, fn: string): Option<string> {
    if bodies == [] then None
    else if Has(d, bodies[|bodies| - 1], fn) then Some(bodies[|bodies| - 1])
    else Lookup(d, bodies[..|bodies| - 1], fn)
  }

  function Exec<E>(script: seq<Stmt>, d: Dialect, m: Meaning<E>, bodies: seq<string>, env: E): seq<Event>
    decreases |script|
  {
    if script == [] then []
    else
      var rest := script[1..];
      match script[0]
      case Context(vars) => Exec(rest, d, m, bodies, m.init(vars))
      case Define(body) => Exec(rest, d, m, bodies + [body], env)
      case Finish => [JobDone] + Exec(rest, d, m, bodies, env)
      case Call(kind, block, fn) =>
        match Lookup(d, bodies, fn)
        case None => [Started(kind), Failed(kind)]
        case Some(body) =>
          var after := m.run(body, fn, block, env);
          [Started(kind), Ran(body, fn, block)] + if after.1 then Exec(rest, d, m, bodies, after.0) else [Failed(kind)]
  }

  /** What the flow asks for: its steps in order, each by its own template, up to the first failure. */
  function Walk<E>(items: seq<Item>, m: Meaning<E>, env: E): seq<Event>
    decreases |items|
  {
    if items == [] then [JobDone]
    else
      var it := items[0];
      var after := m.run(it.body, it.fn, it.block, env);
      [Started(it.kind), Ran(it.body, it.fn, it.block)] + if after.1 then Walk(items[1..], m, after.0)
          else [Failed(it.kind)]
  }

  predicate AllSucceed<E>(items: seq<Item>, m: Meaning<E>, env: E)
    decreases |items|
  {
    items == [] ||
    var after := m.run(items[0].body, items[0].fn, items[0].block, env);
    after.1 && AllSucceed(items[1..], m, after.0)
  }

  /** The job is reported done exactly when every step succeeds. */
  lemma {:induction false} DoneIffAllSucceed<E>(items: seq<Item>, m: Meaning<E>, env: E)
    ensures JobDone in Walk(items, m, env) <==> AllSucceed(items, m, env)
    decreases |items|
  {
    if items != [] {
      DoneIffAllSucceed(items[1..], m, m.run(items[0].body, items[0].fn, items[0].block, env).0);
    }
  }

  /**
   The flow from step `i` on, by its steps and templates: each step runs the body of its own template,
   with the values the flow gives its parameters, under its sanitised type, up to the first failure.
   */
  function Flow<E>(steps: seq<Step>, i: nat, d: Dialect, resolve: Resolver, m: Meaning<E>, env: E): seq<Event>
    requires i <= |steps| && Linkable(steps, d, resolve)
    decreases |steps| - i
  {
    if i == |steps| then [JobDone]
    else
      var st := steps[i];
      assert LinkFault(st, i, d, resolve).None?;
      var t := resolve(i, st.kind).value;
      var body := d.stepBody(t).value;
      var kind, fn, block := Shell.Safe(st.kind), d.funcName(body), Parameters.Declared(t.params, st.given);
      var after := m.run(body, fn, block, env);
      [Started(kind), Ran(body, fn, block)]
      + if after.1 then Flow(steps, i + 1, d, resolve, m, after.0) else [Failed(kind)]
  }

  /** Linking keeps the flow: the walk over the linked items is the walk over the steps. */
  lemma {:induction false} FlowIsWalk<E>(steps: seq<Step>, i: nat, d: Dialect, resolve: Resolver, m: Meaning<E>, env: E)
    requires i <= |steps| && Linkable(steps, d, resolve)
    ensures Flow(steps, i, d, resolve, m, env) == Walk(Items(steps, d, resolve)[i..], m, env)
    decreases |steps| - i
  {
    var items := Items(steps, d, resolve);
    hide Items, Linkable;
    if i < |steps| {
      assert items[i..][0] == items[i] == ItemAt(steps[i], i, d, resolve) && items[i..][1..] == items[i + 1..];
      FlowIsWalk(steps, i + 1, d, resolve, m, m.run(items[i].body, items[i].fn, items[i].block, env).0);
    }
  }

  /** Every step's function is found in the step's own template. */
  predicate Found(d: Dialect, bodies: seq<string>, items: seq<Item>) {
    forall i :: 0 <= i < |items| ==> Lookup(d, bodies, items[i].fn) == Some(items[i].body)
  }

  lemma {:induction false} CallsRun<E>(items: seq<Item>, d: Dialect, m: Meaning<E>, bodies: seq<string>, env: E)
    requires Found(d, bodies, items)
    ensures Exec(Calls(items) + [Finish], d, m, bodies, env) == Walk(items, m, env)
    decreases |items|
  {
    var script := Calls(items) + [Finish];
    hide Lookup;
    if items == [] {
      assert script == [Finish] && script[1..] == [];
      assert Exec(script[1..], d, m, bodies, env) == [];
    } else {
      assert Lookup(d, bodies, items[0].fn) == Some(items[0].body);
      assert script[0] == Call(items[0].kind, items[0].block, items[0].fn);
      assert script[1..] == Calls(items[1..]) + [Finish];
      CallsRun(items[1..], d, m, bodies, m.run(items[0].body, items[0].fn, items[0].block, env).0);
    }
  }

  lemma {:induction false} DefinesRun<E>(more: seq<string>, rest: seq<Stmt>, d: Dialect, m: Meaning<E>,
      bodies: seq<string>, env: E)
    ensures Exec(Defines(more) + rest, d, m, bodies, env) == Exec(rest, d, m, bodies + more, env)
    decreases |more|
  {
    var script := Defines(more) + rest;
    if more == [] {
      assert script == rest && bodies + more == bodies;
    } else {
      assert script[0] == Define(more[0]) && script[1..] == Defines(more[1..]) + rest;
      assert Exec(script, d, m, bodies, env) == Exec(script[1..], d, m, bodies + [more[0]], env);
      DefinesRun(more[1..], rest, d, m, bodies + [more[0]], env);
      assert bodies + [more[0]] + more[1..] == bodies + more;
    }
  }

  /** A script comes down to its calls under all its definitions. */
  lemma ScriptRuns<E>(vars: seq<Shell.Assign>, items: seq<Item>, d: Dialect, m: Meaning<E>, env: E)
    ensures Exec(Script(vars, items), d, m, [], env) == Exec(Calls(items) + [Finish], d, m, Linked(items), m.init(vars))
  {
    var rest := Defines(Linked(items)) + (Calls(items) + [Finish]);
    var script := Script(vars, items);
    assert script[0] == Context(vars) && script[1..] == rest;
    assert Exec(script, d, m, [], env) == Exec(rest, d, m, [], m.init(vars));
    hide Exec, Linked;
    DefinesRun(Linked(items), Calls(items) + [Finish], d, m, [], m.init(vars));
    assert [] + Linked(items) == Linked(items);
  }

  /**
   Compiler correctness: when every step's function is found in its own template, the script means
   what the flow asks for, whatever the bodies do.
   */
  lemma ScriptMeansFlow<E>(vars: seq<Shell.Assign>, items: seq<Item>, d: Dialect, m: Meaning<E>, env: E)
    requires Found(d, Linked(items), items)
    ensures Exec(Script(vars, items), d, m, [], env) == Walk(items, m, m.init(vars))
  {
    ScriptRuns(vars, items, d, m, env);
    hide Exec, Linked, Script, Found;
    CallsRun(items, d, m, Linked(items), m.init(vars));
  }

  /** Bodies that always succeed. */
  function Smooth(): Meaning<bool> {
    Meaning(vars => true, (body, fn, block, env) => (true, true))
  }

  lemma {:induction false} CallsShow(items: seq<Item>, d: Dialect, bodies: seq<string>)
    requires Exec(Calls(items) + [Finish], d, Smooth(), bodies, true) == Walk(items, Smooth(), true)
    ensures Found(d, bodies, items)
    decreases |items|
  {
    var script := Calls(items) + [Finish];
    hide Lookup;
    if items != [] {
      var it := items[0];
      assert script[0] == Call(it.kind, it.block, it.fn);
      assert script[1..] == Calls(items[1..]) + [Finish];
      var exec, walk := Exec(script, d, Smooth(), bodies, true), Walk(items, Smooth(), true);
      assert walk[1] == Ran(it.body, it.fn, it.block);
      assert Lookup(d, bodies, it.fn) == Some(it.body);
      assert exec[2..] == Exec(script[1..], d, Smooth(), bodies, true) && walk[2..] == Walk(items[1..], Smooth(), true);
      CallsShow(items[1..], d, bodies);
    }
  }

  /** The condition is exact: already a run without failures shows a step whose function is found elsewhere. */
  lemma FoundIsNecessary(vars: seq<Shell.Assign>, items: seq<Item>, d: Dialect)
    requires Exec(Script(vars, items), d, Smooth(), [], true) == Walk(items, Smooth(), true)
    ensures Found(d, Linked(items), items)
  {
    ScriptRuns(vars, items, d, Smooth(), true);
    hide Exec, Linked, Script, Found;
    CallsShow(items, d, Linked(items));
  }

  // ---- when functions are found ----

  /** Bodies define the function they are called by and nothing else. */
  ghost predicate OneFunction(d: Dialect, items: seq<Item>) {
    forall i :: 0 <= i < |items| ==>
      items[i].fn == d.funcName(items[i].body) && d.defines(items[i].body) == {items[i].fn}
  }

  /** Lookups of one key gave one body: no template was edited while the flow was rendered. */
  predicate Stable(items: seq<Item>) {
    forall i, k :: 0 <= i < |items| && 0 <= k < |items| && items[i].key == items[k].key ==>
      items[i].body == items[k].body
  }

  /** The shell tells the function names of the flow apart. */
  predicate Apart(d: Dialect, items: seq<Item>) {
    forall i, k :: 0 <= i < |items| && 0 <= k < |items| && d.fold(items[i].fn) == d.fold(items[k].fn) ==>
      items[i].fn == items[k].fn
  }

  lemma {:induction false} LookupFinds(d: Dialect, bodies: seq<string>, fn: string)
    ensures Lookup(d, bodies, fn).Some? ==>
      Lookup(d, bodies, fn).value in bodies && Has(d, Lookup(d, bodies, fn).value, fn)
    ensures (exists b :: b in bodies && Has(d, b, fn)) ==> Lookup(d, bodies, fn).Some?
    decreases |bodies|
  {
    hide Has;
    if bodies != [] && !Has(d, bodies[|bodies| - 1], fn) {
      LookupFinds(d, bodies[..|bodies| - 1], fn);
      assert forall b :: b in bodies ==> b in bodies[..|bodies| - 1] || b == bodies[|bodies| - 1];
    }
  }

  /** Lookup cannot tell names apart that the shell cannot. */
  lemma {:induction false} LookupFolds(d: Dialect, bodies: seq<string>, f: string, g: string)
    requires d.fold(f) == d.fold(g)
    ensures Lookup(d, bodies, f) == Lookup(d, bodies, g)
    decreases |bodies|
  {
    if bodies != [] {
      LookupFolds(d, bodies[..|bodies| - 1], f, g);
    }
  }

  lemma {:induction false} LinkedBodies(items: seq<Item>)
    ensures forall b :: b in Linked(items) ==> exists k :: 0 <= k < |items| && items[k].body == b
    ensures Stable(items) ==> forall k :: 0 <= k < |items| ==> items[k].body in Linked(items)
    decreases |items|
  {
    if items != [] {
      var rest, last := items[..|items| - 1], items[|items| - 1];
      LinkedBodies(rest);
      forall b | b in Linked(items) ensures exists k :: 0 <= k < |items| && items[k].body == b {
        if b in Linked(rest) {
          var k :| 0 <= k < |rest| && rest[k].body == b;
          assert items[k].body == b;
        } else {
          assert items[|items| - 1].body == b;
        }
      }
      if Stable(items) {
        assert Stable(rest);
        forall k | 0 <= k < |items| ensures items[k].body in Linked(items) {
          if k < |rest| {
            assert rest[k].body in Linked(rest);
          } else if HasKey(rest, last.key) {
            var m :| 0 <= m < |rest| && rest[m].key == last.key;
            assert rest[m].body == items[m].body == last.body;
          }
        }
      }
    }
  }

  /** The clash check: one function name, one template. */
  lemma OneTemplate(items: seq<Item>, i: nat, k: nat)
    requires Callable(items) && i < |items| && k < |items| && items[i].fn == items[k].fn
    ensures items[i].key == items[k].key
  {
    assert CallFault(items, i).None? && CallFault(items, k).None?;
  }

  /**
   Linking once per key and refusing clashes makes lookup unambiguous exactly when the shell tells
   the accepted names apart.
   */
  lemma FoundIffApart(d: Dialect, items: seq<Item>)
    requires OneFunction(d, items) && Stable(items) && Callable(items)
    ensures Found(d, Linked(items), items) <==> Apart(d, items)
  {
    var bodies := Linked(items);
    LinkedBodies(items);
    hide Linked, Callable;
    if Apart(d, items) {
      forall i | 0 <= i < |items| ensures Lookup(d, bodies, items[i].fn) == Some(items[i].body) {
        FoundBy(d, items, bodies, i);
      }
    }
    if Found(d, bodies, items) {
      hide Lookup;
      forall i, k | 0 <= i < |items| && 0 <= k < |items| && d.fold(items[i].fn) == d.fold(items[k].fn)
        ensures items[i].fn == items[k].fn {
        LookupFolds(d, bodies, items[i].fn, items[k].fn);
        assert Lookup(d, bodies, items[i].fn) == Some(items[i].body)
          && Lookup(d, bodies, items[k].fn) == Some(items[k].body);
      }
    }
  }

  lemma FoundBy(d: Dialect, items: seq<Item>, bodies: seq<string>, i: nat)
    requires i < |items| && OneFunction(d, items) && Stable(items) && Callable(items) && Apart(d, items)
    requires items[i].body in bodies && forall b :: b in bodies ==> exists k :: 0 <= k < |items| && items[k].body == b
    ensures Lookup(d, bodies, items[i].fn) == Some(items[i].body)
  {
    hide Lookup, Callable;
    LookupFinds(d, bodies, items[i].fn);
    assert items[i].fn in d.defines(items[i].body) && Has(d, items[i].body, items[i].fn);
    var b := Lookup(d, bodies, items[i].fn).value;
    var k :| 0 <= k < |items| && items[k].body == b;
    assert d.fold(items[k].fn) == d.fold(items[i].fn);
    OneTemplate(items, i, k);
  }

  /**
   Rendering is correct, exactly: a rendered script means what the flow asks for, whatever the bodies
   do, if every step's function is found in its own template among the linked ones; and if one is
   not, the script is wrong even when all bodies succeed.
   */
  lemma RenderCorrect<E>(
      steps: seq<Step>, j: Job, site: Site, d: Dialect, resolve: Resolver, script: seq<Stmt>, m: Meaning<E>, env: E)
    requires Rendered(steps, Some(j), site, d, resolve, Ok(script)) && Linkable(steps, d, resolve)
    ensures var items := Items(steps, d, resolve);
            if Found(d, Linked(items), items)
            then Exec(script, d, m, [], env) == Flow(steps, 0, d, resolve, m, m.init(ContextOf(j, site)))
            else Exec(script, d, Smooth(), [], true) != Flow(steps, 0, d, resolve, Smooth(), true)
  {
    var items := Items(steps, d, resolve);
    assert script == Script(ContextOf(j, site), items);
    assert items[0..] == items;
    hide Rendered, Items, Linkable, Script, Exec, Walk, Flow, Found;
    FlowIsWalk(steps, 0, d, resolve, m, m.init(ContextOf(j, site)));
    FlowIsWalk(steps, 0, d, resolve, Smooth(), true);
    if Found(d, Linked(items), items) {
      ScriptMeansFlow(ContextOf(j, site), items, d, m, env);
    } else if Exec(script, d, Smooth(), [], true) == Walk(items, Smooth(), true) {
      FoundIsNecessary(ContextOf(j, site), items, d);
      assert false;
    }
  }

  /** The statement that calls step `i`, counted from the end of the script. */
  function CallAt(script: seq<Stmt>, n: nat, i: nat): Stmt
    requires i < n < |script|
  {
    script[|script| - 1 - n + i]
  }

  /** What the call of a step is, told by the step and its own template. */
  ghost predicate Calling(st: Step, t: Template, d: Dialect, call: Stmt) {
    && d.stepBody(t).Some? && call.Call?
    && call.fn == d.funcName(d.stepBody(t).value) && call.fn != ""
    && call.kind == Shell.Safe(st.kind) && call.kind != ""
    && exists at :: Parameters.Lists(call.block, t.params, st.given, at)
  }

  /**
   A rendered script is the context, definitions, one call for each step in order, and the end. The
   call of a step names the function of the step's own template, its sanitised type, and in its block
   every parameter of that template with the value that the step gives it.
   */
  lemma CallsAreSteps(steps: seq<Step>, j: Job, site: Site, d: Dialect, resolve: Resolver, script: seq<Stmt>)
    requires Rendered(steps, Some(j), site, d, resolve, Ok(script))
    ensures |script| >= |steps| + 2 && script[0] == Context(ContextOf(j, site)) && script[|script| - 1] == Finish
    ensures forall k :: 1 <= k < |script| - 1 - |steps| ==> script[k].Define?
    ensures forall i :: 0 <= i < |steps| ==>
      && resolve(i, steps[i].kind).Some?
      && Calling(steps[i], resolve(i, steps[i].kind).value, d, CallAt(script, |steps|, i))
  {
    var items := Items(steps, d, resolve);
    assert script == Script(ContextOf(j, site), items);
    var defines := Defines(Linked(items));
    assert |script| == |defines| + |items| + 2;
    assert forall k :: 1 <= k < 1 + |defines| ==> script[k] == defines[k - 1];
    forall i | 0 <= i < |steps|
      ensures resolve(i, steps[i].kind).Some?
      ensures Calling(steps[i], resolve(i, steps[i].kind).value, d, CallAt(script, |steps|, i)) {
      assert CallAt(script, |steps|, i) == Calls(items)[i];
      assert LinkFault(steps[i], i, d, resolve).None? && CallFault(items, i).None?;
      hide Rendered, Items, Linked, Script, Clashes;
      CallIsStep(steps[i], i, d, resolve, items[i]);
    }
  }

  lemma CallIsStep(st: Step, i: nat, d: Dialect, resolve: Resolver, item: Item)
    requires LinkFault(st, i, d, resolve).None? && item == ItemAt(st, i, d, resolve) && item.kind != ""
    ensures Calling(st, resolve(i, st.kind).value, d, Call(item.kind, item.block, item.fn))
  {
    var t := resolve(i, st.kind).value;
    var at := Parameters.DeclaredLists(t.params, st.given);
    hide Parameters.Lists, Parameters.Declared;
  }

  /** The context of a job: its own episode and script file, or else what its folder and script type give. */
  lemma ContextDefaults(j: Job, site: Site) returns (dir: string)
    ensures j.episode != "" ==> Shell.Assign("Episode", j.episode) in ContextOf(j, site)
    ensures j.episode == "" ==> Shell.Assign("Episode", site.number(j.episodeDir)) in ContextOf(j, site)
    ensures Shell.Assign("EpisodeDir", dir) in ContextOf(j, site)
    ensures j.scriptFile != "" ==> Shell.Assign("ScriptFile", dir + "/" + j.scriptFile) in ContextOf(j, site)
    ensures j.scriptFile == "" ==>
      Shell.Assign("ScriptFile", dir + "/" + ("1080." + j.scriptType)) in ContextOf(j, site)
  {
    Parameters.TrimmedSlashes(site.vars.scriptsDir);
    var root := Parameters.TrimSlashes(site.vars.scriptsDir);
    var episode := if j.episode == "" then site.number(j.episodeDir) else j.episode;
    var file := if j.scriptFile == "" then "1080." + j.scriptType else j.scriptFile;
    hide Parameters.TrimSlashes, Parameters.Context;
    Parameters.ContextHolds(j.series, j.episodeDir, site.vars, episode, file, site.x265);
    Parameters.ContextPaths(j.series, j.episodeDir, site.vars, episode, file, site.x265, root);
    dir := root + "/" + j.episodeDir;
  }

  /** A resolver that answers by the key alone, with the template of that key, is stable: the built-in one is. */
  lemma KeyedIsStable(steps: seq<Step>, d: Dialect, resolve: Resolver)
    requires Linkable(steps, d, resolve)
    requires forall i, k, key :: resolve(i, key) == resolve(k, key)
    requires forall i, key :: resolve(i, key).Some? ==> resolve(i, key).value.key == key
    ensures Stable(Items(steps, d, resolve))
  {
    var items := Items(steps, d, resolve);
    forall i, k | 0 <= i < |items| && 0 <= k < |items| && items[i].key == items[k].key
      ensures items[i].body == items[k].body
    {
      assert LinkFault(steps[i], i, d, resolve).None? && LinkFault(steps[k], k, d, resolve).None?;
      assert items[i].key == steps[i].kind && items[k].key == steps[k].kind;
    }
  }

  /**
   Bash compares names character by character: there, with one function per body and a stable
   resolver, every rendered script means its flow.
   */
  lemma BashRenderCorrect<E>(
      steps: seq<Step>, j: Job, site: Site, d: Dialect, resolve: Resolver, script: seq<Stmt>, m: Meaning<E>, env: E)
    requires forall n :: d.fold(n) == n
    requires Rendered(steps, Some(j), site, d, resolve, Ok(script)) && Linkable(steps, d, resolve)
    requires var items := Items(steps, d, resolve); OneFunction(d, items) && Stable(items)
    ensures Exec(script, d, m, [], env) == Flow(steps, 0, d, resolve, m, m.init(ContextOf(j, site)))
  {
    var items := Items(steps, d, resolve);
    assert Apart(d, items) && Callable(items);
    hide Items, Linkable, Exec, Flow, Walk, Apart, OneFunction, Stable, Callable, Found;
    FoundIffApart(d, items);
    hide Rendered;
    RenderCorrect(steps, j, site, d, resolve, script, m, env);
  }

  /**
   PowerShell ignores case, the clash check does not: two templates whose functions differ in case
   are accepted and confused.
   */
  lemma CaseVariantsCollide(d: Dialect, first: string, second: string)
    requires d.funcName(first) == "Invoke-Mux" && d.defines(first) == {"Invoke-Mux"}
    requires d.funcName(second) == "invoke-mux" && d.defines(second) == {"invoke-mux"}
    requires d.fold("Invoke-Mux") == d.fold("invoke-mux")
    ensures var items := [Item("mux", first, "Invoke-Mux", "mux", []), Item("mux2", second, "invoke-mux", "mux2", [])];
            OneFunction(d, items) && Stable(items) && Callable(items) && !Found(d, Linked(items), items)
  {
    var items := [Item("mux", first, "Invoke-Mux", "mux", []), Item("mux2", second, "invoke-mux", "mux2", [])];
    assert "mux" != "mux2" && "Invoke-Mux"[0] != "invoke-mux"[0];
    assert items[0].fn != items[1].fn;
    assert !Apart(d, items);
    assert Callable(items);
    hide Linked, Found, Apart;
    FoundIffApart(d, items);
  }
}
