/**
 * What the code `BuilderGenerator` emits does when it runs: a small
 * interpreter for the setter and `build()` statements, and the theorem that
 * setting fields through the builder and then calling `build()` yields an
 * object holding, for each processed field, the last value set (or the value
 * the builder inherited when the field was never set).
 *
 * An object is a map from field names to values of an arbitrary type `V`.
 */
module BuilderSemantics {
  import opened Wrappers
  import opened Elements
  import opened Poet
  import Utils
  import opened BuilderGenerator

  type Obj<V> = map<string, V>

  /**
   * Runs a setter body with parameters `args` on the builder `self`:
   * `super.f=f` stores parameter `f` into the inherited field `f`,
   * `return this` ends the call. Anything else does not occur in a setter.
   */
  function RunSetterBody<V>(body: seq<Statement>, args: map<string, V>, self: Obj<V>): Option<Obj<V>> {
    if body == [] then None
    else match body[0]
      case AssignSuper(f) =>
        if f in args && f in self then RunSetterBody(body[1..], args, self[f := args[f]]) else None
      case ReturnThis => Some(self)
      case _ => None
  }

  /** Calls a one-parameter method with argument `arg`. */
  function CallSetter<V>(m: MethodSpec, arg: V, self: Obj<V>): Option<Obj<V>> {
    if |m.params| == 1 then RunSetterBody(m.body, map[m.params[0].name := arg], self) else None
  }

  /**
   * Runs a `build()` body. `locals` holds the local variables (each an
   * object); a bare name resolves to a local first and to the builder's
   * inherited field otherwise, as in Java. A copy line whose right-hand side
   * names a local would not type-check, so it fails here.
   */
  function RunBuildBody<V>(body: seq<Statement>, self: Obj<V>, locals: map<string, Obj<V>>, blank: Obj<V>): Option<Obj<V>> {
    if body == [] then None
    else match body[0]
      case DeclareNew(_, v) => RunBuildBody(body[1..], self, locals[v := blank], blank)
      case CopyToLocal(v, f) =>
        if v in locals && f !in locals && f in self then
          RunBuildBody(body[1..], self, locals[v := locals[v][f := self[f]]], blank)
        else None
      case ReturnName(v) => if v in locals then Some(locals[v]) else None
      case _ => None
  }

  /** A call of the setter of the `member`-th processed member with `arg`. */
  datatype Call<V> = Call(member: nat, arg: V)

  /** Runs the calls in order on the builder `self`, through the setters of `methods` (constructor first). */
  function ApplyCalls<V>(methods: seq<MethodSpec>, calls: seq<Call<V>>, self: Obj<V>): Option<Obj<V>> {
    if calls == [] then Some(self)
    else
      var c := calls[|calls| - 1];
      match ApplyCalls(methods, calls[..|calls| - 1], self)
      case None => None
      case Some(s) => if c.member + 1 < |methods| then CallSetter(methods[c.member + 1], c.arg, s) else None
  }

  /** The value field `f` holds after the calls: the argument of the last call that sets `f`, else `dflt`. */
  function LastValue<V>(ps: seq<Member>, calls: seq<Call<V>>, f: string, dflt: V): V {
    if calls == [] then dflt
    else
      var c := calls[|calls| - 1];
      if c.member < |ps| && ps[c.member].name == f then c.arg else LastValue(ps, calls[..|calls| - 1], f, dflt)
  }

  /** A field that no call targets keeps its value. */
  lemma {:induction false} LastValueUnset<V>(ps: seq<Member>, calls: seq<Call<V>>, f: string, dflt: V)
    requires forall i :: 0 <= i < |calls| ==> calls[i].member < |ps| && ps[calls[i].member].name != f
    ensures LastValue(ps, calls, f, dflt) == dflt
  {
    if calls != [] {
      LastValueUnset(ps, calls[..|calls| - 1], f, dflt);
    }
  }

  /** The last call that targets `f` wins. */
  lemma LastValueLastCall<V>(ps: seq<Member>, calls: seq<Call<V>>, k: nat, f: string, dflt: V)
    requires k < |calls| && calls[k].member < |ps| && ps[calls[k].member].name == f
    requires forall i :: k < i < |calls| ==> calls[i].member < |ps| && ps[calls[i].member].name != f
    ensures LastValue(ps, calls, f, dflt) == calls[k].arg
    decreases |calls|
  {
    if k < |calls| - 1 {
      LastValueLastCall(ps, calls[..|calls| - 1], k, f, dflt);
    }
  }

  /** A generated setter stores its argument in its field and changes nothing else. */
  lemma SetterEffect<V>(m: Member, builder: ClassName, arg: V, self: Obj<V>)
    requires m.name != "" && m.name in self
    ensures CallSetter(SetterSpec(m, builder), arg, self) == Some(self[m.name := arg])
  {
    var body := SetterSpec(m, builder).body;
    var args := map[m.name := arg];
    assert body[1..] == [ReturnThis];
    assert RunSetterBody(body[1..], args, self[m.name := arg]) == Some(self[m.name := arg]);
  }

  /**
   * Running the generated setters: every call succeeds, the builder keeps
   * its fields, and each field holds its last value set.
   */
  lemma ApplySetters<V>(ps: seq<Member>, builder: ClassName, last: MethodSpec, calls: seq<Call<V>>, init: Obj<V>)
    requires AllNamed(ps)
    requires forall i :: 0 <= i < |ps| ==> ps[i].name in init
    requires forall i :: 0 <= i < |calls| ==> calls[i].member < |ps|
    ensures var s := ApplyCalls([GetConstructorSpec()] + Setters(ps, builder) + [last], calls, init);
      s.Some? && s.value.Keys == init.Keys &&
      forall f :: f in init ==> s.value[f] == LastValue(ps, calls, f, init[f])
  {
    var methods := [GetConstructorSpec()] + Setters(ps, builder) + [last];
    forall k | 0 <= k < |ps| ensures k + 1 < |methods| && methods[k + 1] == SetterSpec(ps[k], builder) {
      SetterAt(ps, builder, last, k);
    }
    ApplySettersOn(methods, ps, builder, calls, init);
  }

  /** The method list holds the `k`-th member's setter at position `k + 1`. */
  predicate SettersAt(methods: seq<MethodSpec>, ps: seq<Member>, builder: ClassName)
    requires AllNamed(ps)
  {
    forall k :: 0 <= k < |ps| ==> k + 1 < |methods| && methods[k + 1] == SetterSpec(ps[k], builder)
  }

  /** ApplySetters, for any method list that holds the `k`-th member's setter at position `k + 1`. */
  lemma {:induction false} ApplySettersOn<V>(methods: seq<MethodSpec>, ps: seq<Member>, builder: ClassName,
                                             calls: seq<Call<V>>, init: Obj<V>)
    requires AllNamed(ps)
    requires forall i :: 0 <= i < |ps| ==> ps[i].name in init
    requires SettersAt(methods, ps, builder)
    requires forall i :: 0 <= i < |calls| ==> calls[i].member < |ps|
    ensures var s := ApplyCalls(methods, calls, init);
      s.Some? && s.value.Keys == init.Keys &&
      forall f :: f in init ==> s.value[f] == LastValue(ps, calls, f, init[f])
  {
    if calls != [] {
      var c := calls[|calls| - 1];
      ApplySettersOn(methods, ps, builder, calls[..|calls| - 1], init);
      var s := ApplyCalls(methods, calls[..|calls| - 1], init).value;
      SetterEffect(ps[c.member], builder, c.arg, s);
    }
  }

  /** The method of the builder after the constructor at position `k + 1` is the `k`-th member's setter. */
  lemma SetterAt(ps: seq<Member>, builder: ClassName, last: MethodSpec, k: nat)
    requires AllNamed(ps) && k < |ps|
    ensures ([GetConstructorSpec()] + Setters(ps, builder) + [last])[k + 1] == SetterSpec(ps[k], builder)
  {}

  /** The object the copy lines build: `obj` with each member's field copied from `self`. */
  function CopyAll<V>(obj: Obj<V>, ms: seq<Member>, self: Obj<V>): Obj<V>
    requires forall i :: 0 <= i < |ms| ==> ms[i].name in self
  {
    if ms == [] then obj
    else
      var m := ms[|ms| - 1];
      CopyAll(obj, ms[..|ms| - 1], self)[m.name := self[m.name]]
  }

  /** After the copy lines, each member's field holds the builder's value; other fields are untouched. */
  lemma {:induction false} CopyAllValue<V>(obj: Obj<V>, ms: seq<Member>, self: Obj<V>)
    requires forall i :: 0 <= i < |ms| ==> ms[i].name in self
    ensures var r := CopyAll(obj, ms, self);
      (forall i :: 0 <= i < |ms| ==> ms[i].name in r && r[ms[i].name] == self[ms[i].name]) &&
      (forall f :: f in obj && (forall i :: 0 <= i < |ms| ==> ms[i].name != f) ==> f in r && r[f] == obj[f])
  {
    if ms != [] {
      CopyAllValue(obj, ms[..|ms| - 1], self);
    }
  }

  /** Running copy lines into the local `v` amounts to one CopyAll on it. */
  lemma {:induction false} RunCopyLines<V>(v: string, ms: seq<Member>, rest: seq<Statement>, self: Obj<V>,
                                          locals: map<string, Obj<V>>, blank: Obj<V>)
    requires v in locals && locals.Keys == {v}
    requires forall i :: 0 <= i < |ms| ==> ms[i].name in self && ms[i].name != v
    ensures RunBuildBody(CopyLines(v, ms) + rest, self, locals, blank) ==
            RunBuildBody(rest, self, map[v := CopyAll(locals[v], ms, self)], blank)
  {
    if ms == [] {
      assert CopyLines(v, ms) + rest == rest;
      assert locals == map[v := locals[v]];
    } else {
      var ms', m := ms[..|ms| - 1], ms[|ms| - 1];
      var rest' := [CopyToLocal(v, m.name)] + rest;
      assert CopyLines(v, ms) + rest == CopyLines(v, ms') + rest';
      RunCopyLines(v, ms', rest', self, locals, blank);
      var l := map[v := CopyAll(locals[v], ms', self)];
      assert rest'[1..] == rest;
      assert l[v := l[v][m.name := self[m.name]]] == map[v := CopyAll(locals[v], ms, self)];
    }
  }

  /** `T v = new T()` starts the run with the one local `v`, a blank object. */
  lemma DeclareStep<V>(t: string, v: string, rest: seq<Statement>, self: Obj<V>, blank: Obj<V>)
    ensures RunBuildBody([DeclareNew(t, v)] + rest, self, map[], blank) == RunBuildBody(rest, self, map[v := blank], blank)
  {
    assert ([DeclareNew(t, v)] + rest)[1..] == rest;
  }

  /** `return v` ends the run with the local `v`. */
  lemma ReturnStep<V>(v: string, o: Obj<V>, self: Obj<V>, blank: Obj<V>)
    ensures RunBuildBody([ReturnName(v)], self, map[v := o], blank) == Some(o)
  {}

  /** `build()` returns a fresh object holding the builder's value of every processed field. */
  lemma BuildEffect<V>(built: ClassName, v: string, ps: seq<Member>, self: Obj<V>, blank: Obj<V>)
    requires forall i :: 0 <= i < |ps| ==> ps[i].name in self && ps[i].name != v
    ensures RunBuildBody(BuildMethodSpec(built, v, CopyLines(v, ps)).body, self, map[], blank) ==
            Some(CopyAll(blank, ps, self))
  {
    var rest := CopyLines(v, ps) + [ReturnName(v)];
    assert BuildMethodSpec(built, v, CopyLines(v, ps)).body == [DeclareNew(built.Canonical(), v)] + rest;
    DeclareStep(built.Canonical(), v, rest, self, blank);
    var locals: map<string, Obj<V>> := map[v := blank];
    assert locals.Keys == {v};
    RunCopyLines(v, ps, [ReturnName(v)], self, locals, blank);
    ReturnStep(v, CopyAll(blank, ps, self), self, blank);
  }

  /**
   * Set, then build: starting from a builder whose inherited fields are
   * `init`, running any sequence of setter calls and then `build()` gives an
   * object whose processed fields hold the last value set for each (the
   * inherited value for a field never set), and whose other fields keep the
   * new object's initial values `blank`. The build local must not share its
   * name with a processed field, which would shadow it.
   */
  lemma SetThenBuild<V>(t: TypeElement, calls: seq<Call<V>>, init: Obj<V>, blank: Obj<V>)
    requires Utils.ReachesPackage(t.element) && GenerateSpec(t).Success?
    requires var ps := Processed(t.members);
      (forall i :: 0 <= i < |ps| ==> ps[i].name in init && ps[i].name != BuiltVarName(BuilderClassName(t))) &&
      (forall i :: 0 <= i < |calls| ==> calls[i].member < |ps|)
    ensures var ps, methods := Processed(t.members), GenerateSpec(t).value[0].typeSpec.methods;
      var s := ApplyCalls(methods, calls, init);
      s.Some? &&
      var r := RunBuildBody(methods[|methods| - 1].body, s.value, map[], blank);
      r.Some? &&
      (forall i :: 0 <= i < |ps| ==>
         ps[i].name in r.value && r.value[ps[i].name] == LastValue(ps, calls, ps[i].name, init[ps[i].name])) &&
      (forall f :: f in blank && (forall i :: 0 <= i < |ps| ==> ps[i].name != f) ==> f in r.value && r.value[f] == blank[f])
  {
    GeneratedFiles(t);
    var ps := Processed(t.members);
    var c := BuilderClassName(t);
    var built := ClassNameToBuild(c).value;
    var v := BuiltVarName(c);
    var pkg := Utils.NearestPackage(t.element).name;
    var last := BuildMethodSpec(ClassName(pkg, built), v, CopyLines(v, ps));
    var methods := GenerateSpec(t).value[0].typeSpec.methods;
    assert methods == [GetConstructorSpec()] + Setters(ps, c) + [last];
    ApplySetters(ps, c, last, calls, init);
    var s := ApplyCalls(methods, calls, init).value;
    BuildEffect(ClassName(pkg, built), v, ps, s, blank);
    CopyAllValue(blank, ps, s);
  }
}
