/**
 * The selection rules of hudson.console.ConsoleAnnotatorFactory: which context
 * type a factory applies to, which factories take part in an annotation
 * session, and where a factory's client-side script lives.
 *
 * Java reflection, the class loader and the HTTP response are not modelled;
 * what they answer is passed in as a `Reflection` value and as a resource
 * lookup function.
 */
module ConsoleAnnotation {
  import opened Wrappers

  /** A fully qualified Java class name, as `Class.getName()` gives it. */
  type ClassName = string

  const ObjectClass: ClassName := "java.lang.Object"
  const ConsoleAnnotatorClass: ClassName := "hudson.console.ConsoleAnnotator"
  const ConsoleAnnotatorFactoryClass: ClassName := "hudson.console.ConsoleAnnotatorFactory"

  /** A reflected generic type, as java.lang.reflect.Type describes it. */
  datatype JType =
    | ClassType(name: ClassName)
      // A parameterized type has at least one type argument.
    | ParameterizedType(raw: ClassName, first: JType, rest: seq<JType>)
    | TypeVariable(variable: string, bound: ClassName)

  /**
   * What reflection answers about the running program:
   * - `classOf(c)`: the runtime class of the context object `c`;
   * - `supertypes(n)`: every proper superclass and interface of class `n`;
   * - `baseClass(n, b)`: `Types.getBaseClass(n, b)`, the supertype `b` as
   *   class `n` parameterizes it, or `None` (null) when `n` is not a `b`.
   */
  datatype Reflection<!C> = Reflection(
    classOf: C -> ClassName,
    supertypes: ClassName -> set<ClassName>,
    baseClass: (ClassName, ClassName) -> Option<JType>)

  /**
   * A registered factory: its own class name and its `newInstance`, which is
   * only defined on contexts it may be called with and answers `None` (null)
   * when it does not take part in the session.
   */
  datatype Factory<!C, A> = Factory(className: ClassName, newInstance: C --> Option<A>)

  /** `Types.erasure`: the raw class of a reflected type. */
  function Erasure(t: JType): ClassName
  {
    match t
    case ClassType(name) => name
    case ParameterizedType(raw, _, _) => raw
    case TypeVariable(_, bound) => bound
  }

  /**
   * The body of `type()` once the base class has been looked up: the erasure
   * of the first type argument of a parameterized base, `Object` otherwise
   * (including when the lookup gave null).
   */
  function TypeFromBase(base: Option<JType>): (t: ClassName)
  {
    match base
    case Some(ParameterizedType(_, first, _)) => Erasure(first)
    case _ => ObjectClass
  }

  /**
   * `type()` as written: it looks up the base class `ConsoleAnnotator`,
   * which no factory class extends.
   */
  function TypeAsWritten<C, A>(f: Factory<C, A>, refl: Reflection<C>): ClassName
  {
    TypeFromBase(refl.baseClass(f.className, ConsoleAnnotatorClass))
  }

  /**
   * `type()` as intended: the context type is the first type argument the
   * factory supplies to `ConsoleAnnotatorFactory<T>`, or `Object` for a raw
   * (non-generic) factory.
   */
  function Type<C, A>(f: Factory<C, A>, refl: Reflection<C>): (t: ClassName)
    ensures refl.baseClass(f.className, ConsoleAnnotatorFactoryClass).Some?
            && refl.baseClass(f.className, ConsoleAnnotatorFactoryClass).value.ParameterizedType?
            ==> t == Erasure(refl.baseClass(f.className, ConsoleAnnotatorFactoryClass).value.first)
    ensures !(refl.baseClass(f.className, ConsoleAnnotatorFactoryClass).Some?
              && refl.baseClass(f.className, ConsoleAnnotatorFactoryClass).value.ParameterizedType?)
            ==> t == ObjectClass
  {
    TypeFromBase(refl.baseClass(f.className, ConsoleAnnotatorFactoryClass))
  }

  /** `Class.isAssignableFrom` for reference types: `target` is `Object`, the class itself or one of its supertypes. */
  predicate IsAssignableFrom(target: ClassName, runtime: ClassName, supertypes: ClassName -> set<ClassName>)
  {
    target == ObjectClass || target == runtime || target in supertypes(runtime)
  }

  /** The context may be handed to the factory: it is assignable to the factory's type. */
  predicate Accepts<C, A>(f: Factory<C, A>, ctx: C, refl: Reflection<C>)
  {
    IsAssignableFrom(Type(f, refl), refl.classOf(ctx), refl.supertypes)
  }

  /**
   * Reflection answers consistently: `Types.getBaseClass(n, b)` finds a base
   * only when `b` is one of the supertypes of `n`.
   */
  ghost predicate BaseClassWithinSupertypes<C>(refl: Reflection<C>)
  {
    forall n, b :: refl.baseClass(n, b).Some? ==> b in refl.supertypes(n)
  }

  /** A factory that declares no type argument applies to every context. */
  lemma NonGenericAcceptsEverything<C, A>(f: Factory<C, A>, refl: Reflection<C>, ctx: C)
    requires refl.baseClass(f.className, ConsoleAnnotatorFactoryClass).None?
             || !refl.baseClass(f.className, ConsoleAnnotatorFactoryClass).value.ParameterizedType?
    ensures Type(f, refl) == ObjectClass
    ensures Accepts(f, ctx, refl)
  {
  }

  /**
   * The caller contract of `newInstance`: every factory of the registry can
   * be called with every context that it accepts.
   */
  ghost predicate CallableOn<C, A>(fs: seq<Factory<C, A>>, ctx: C, refl: Reflection<C>)
  {
    forall i :: 0 <= i < |fs| && Accepts(fs[i], ctx, refl) ==> fs[i].newInstance.requires(ctx)
  }

  /** An annotator of the session, with the registry position of the factory that created it. */
  datatype Selected<A> = Selected(factory: nat, annotator: A)

  /**
   * What factory `f` contributes to a session for `ctx`: its `newInstance`
   * answer when it accepts the context; otherwise it is not called.
   */
  function Answer<C, A>(f: Factory<C, A>, ctx: C, refl: Reflection<C>): (a: Option<A>)
    requires Accepts(f, ctx, refl) ==> f.newInstance.requires(ctx)
    ensures a.Some? <==> Accepts(f, ctx, refl) && f.newInstance(ctx).Some?
    ensures a.Some? ==> a == f.newInstance(ctx)
  {
    if Accepts(f, ctx, refl) then f.newInstance(ctx) else None
  }

  /**
   * The annotators of one session, from factories `from` onwards: each
   * factory that accepts the context is asked for an annotator, in registry
   * order; a null answer is skipped.
   */
  function SelectFrom<C, A>(fs: seq<Factory<C, A>>, ctx: C, refl: Reflection<C>, from: nat): (r: seq<Selected<A>>)
    requires from <= |fs| && CallableOn(fs, ctx, refl)
    ensures forall k :: 0 <= k < |r| ==>
              from <= r[k].factory < |fs| && Answer(fs[r[k].factory], ctx, refl) == Some(r[k].annotator)
    ensures forall i :: from <= i < |fs| && Answer(fs[i], ctx, refl).Some? ==>
              Selected(i, Answer(fs[i], ctx, refl).value) in r
    ensures forall j, k :: 0 <= j < k < |r| ==> r[j].factory < r[k].factory
    decreases |fs| - from
  {
    if from == |fs| then []
    else
      var rest := SelectFrom(fs, ctx, refl, from + 1);
      match Answer(fs[from], ctx, refl)
      case Some(a) => [Selected(from, a)] + rest
      case None => rest
  }

  /**
   * The annotators of one session over the whole registry: there is one for
   * factory `i` exactly when factory `i` accepts the context and does not
   * answer null, it is the one factory `i` returned, and registry order is kept.
   */
  function Select<C, A>(fs: seq<Factory<C, A>>, ctx: C, refl: Reflection<C>): (r: seq<Selected<A>>)
    requires CallableOn(fs, ctx, refl)
    ensures forall k :: 0 <= k < |r| ==>
              r[k].factory < |fs| && Accepts(fs[r[k].factory], ctx, refl)
              && fs[r[k].factory].newInstance(ctx) == Some(r[k].annotator)
    ensures forall i :: 0 <= i < |fs| && Accepts(fs[i], ctx, refl) && fs[i].newInstance(ctx).Some? ==>
              Selected(i, fs[i].newInstance(ctx).value) in r
    ensures forall j, k :: 0 <= j < k < |r| ==> r[j].factory < r[k].factory
  {
    var r := SelectFrom(fs, ctx, refl, 0);
    assert forall i :: 0 <= i < |fs| && Accepts(fs[i], ctx, refl) && fs[i].newInstance(ctx).Some? ==>
             Answer(fs[i], ctx, refl).Some?;
    r
  }

  /** Every factory is asked at most once per session: no factory position occurs twice. */
  lemma SelectHasNoDuplicates<C, A>(fs: seq<Factory<C, A>>, ctx: C, refl: Reflection<C>, j: nat, k: nat)
    requires CallableOn(fs, ctx, refl)
    requires j < k < |Select(fs, ctx, refl)|
    ensures Select(fs, ctx, refl)[j].factory != Select(fs, ctx, refl)[k].factory
  {
  }

  /** A session has at most as many annotators as there are factories. */
  lemma {:induction false} SelectFromLength<C, A>(fs: seq<Factory<C, A>>, ctx: C, refl: Reflection<C>, from: nat)
    requires from <= |fs| && CallableOn(fs, ctx, refl)
    ensures |SelectFrom(fs, ctx, refl, from)| <= |fs| - from
    decreases |fs| - from
  {
    if from < |fs| {
      var rest := SelectFrom(fs, ctx, refl, from + 1);
      SelectFromLength(fs, ctx, refl, from + 1);
      assert |SelectFrom(fs, ctx, refl, from)| <= |rest| + 1;
    }
  }

  /** When every factory applies to the context and none declines, the session holds one annotator per factory, in order. */
  lemma {:induction false} SelectFromAll<C, A>(fs: seq<Factory<C, A>>, ctx: C, refl: Reflection<C>, from: nat)
    requires from <= |fs| && CallableOn(fs, ctx, refl)
    requires forall i :: from <= i < |fs| ==> Answer(fs[i], ctx, refl).Some?
    ensures |SelectFrom(fs, ctx, refl, from)| == |fs| - from
    ensures forall k :: 0 <= k < |fs| - from ==> SelectFrom(fs, ctx, refl, from)[k].factory == from + k
    decreases |fs| - from
  {
    if from < |fs| {
      SelectFromAll(fs, ctx, refl, from + 1);
      var rest := SelectFrom(fs, ctx, refl, from + 1);
      var a := Answer(fs[from], ctx, refl);
      var r := SelectFrom(fs, ctx, refl, from);
      assert r == [Selected(from, a.value)] + rest;
      forall k | 0 <= k < |fs| - from
        ensures r[k].factory == from + k
      {
        if k > 0 {
          assert r[k] == rest[k - 1];
        }
      }
    }
  }

  /* ----- The client-side script ----- */

  /** `s.replace(from, to)`: every occurrence of the character `from` becomes `to`. */
  function Replace(s: string, from: char, to: char): (r: string)
    ensures |r| == |s|
    ensures forall i :: 0 <= i < |s| ==> r[i] == (if s[i] == from then to else s[i])
  {
    if s == [] then [] else [if s[0] == from then to else s[0]] + Replace(s[1..], from, to)
  }

  const ScriptFileSuffix: string := "/script.js"

  /**
   * The resource path of a factory's script: the class name with `.` and
   * then `$` replaced by `/`, followed by `/script.js`.
   */
  function ScriptJsPath(className: ClassName): (p: string)
    ensures |p| == |className| + 10
    ensures p[|className|..] == "/script.js"
    ensures forall i :: 0 <= i < |className| ==> p[i] != '.' && p[i] != '$'
    ensures forall i :: 0 <= i < |className| && className[i] != '.' && className[i] != '$' ==> p[i] == className[i]
    ensures forall i :: 0 <= i < |className| && (className[i] == '.' || className[i] == '$') ==> p[i] == '/'
  {
    Replace(Replace(className, '.', '/'), '$', '/') + ScriptFileSuffix
  }

  /** Two factories share a script path exactly when their names agree once `.` and `$` are read as `/`. */
  lemma ScriptJsPathInjectiveUpToSeparators(a: ClassName, b: ClassName)
    ensures ScriptJsPath(a) == ScriptJsPath(b) <==>
            |a| == |b| && forall i :: 0 <= i < |a| ==> Slash(a[i]) == Slash(b[i])
  {
  }

  /** A class-name character as it appears in the script path. */
  function Slash(c: char): char
  {
    if c == '.' || c == '$' then '/' else c
  }

  /**
   * `getScriptJs()`: the class loader's answer for the script path, where
   * `getResource` answers `None` (null) for a missing resource.
   */
  function GetScriptJs<C, A, U>(f: Factory<C, A>, getResource: string -> Option<U>): (url: Option<U>)
  {
    getResource(ScriptJsPath(f.className))
  }

  /** `hasScript()`: a script resource exists at the factory's script path. */
  predicate HasScript<C, A, U>(f: Factory<C, A>, getResource: string -> Option<U>)
  {
    GetScriptJs(f, getResource) != None
  }

  /** `hasScript()` holds exactly when the class loader finds a resource at the factory's script path. */
  lemma HasScriptAgreesWithLookup<C, A, U>(f: Factory<C, A>, getResource: string -> Option<U>)
    ensures HasScript(f, getResource) <==> getResource(ScriptJsPath(f.className)).Some?
    ensures HasScript(f, getResource) ==> GetScriptJs(f, getResource) == getResource(ScriptJsPath(f.className))
  {
  }

  /** `TimeUnit2.DAYS.toMillis(days)`. */
  function DaysToMillis(days: nat): nat
  {
    days * 24 * 60 * 60 * 1000
  }

  /** The file served by `doScriptJs`, with the cache lifetime it is served with. */
  datatype ServedFile<U> = ServedFile(resource: Option<U>, expiresMillis: nat)

  /** `doScriptJs`: serves the factory's script resource, cached for one day. */
  function DoScriptJs<C, A, U>(f: Factory<C, A>, getResource: string -> Option<U>): (r: ServedFile<U>)
    ensures r.expiresMillis == 86_400_000
    ensures r.resource == GetScriptJs(f, getResource)
    ensures r.resource.Some? <==> HasScript(f, getResource)
  {
    ServedFile(GetScriptJs(f, getResource), DaysToMillis(1))
  }

  /* ----- type() as written ----- */

  /**
   * No factory class is a `ConsoleAnnotator`, so the lookup in `type()` as
   * written answers null for every factory, and `type()` is `Object` even for
   * a factory that declares a context type.
   */
  lemma TypeAsWrittenIsAlwaysObject<C, A>(f: Factory<C, A>, refl: Reflection<C>)
    requires BaseClassWithinSupertypes(refl)
    requires ConsoleAnnotatorClass !in refl.supertypes(f.className)
    ensures refl.baseClass(f.className, ConsoleAnnotatorClass).None?
    ensures TypeAsWritten(f, refl) == ObjectClass
  {
  }

  const RunClass: ClassName := "hudson.model.Run"
  const ComputerClass: ClassName := "hudson.model.Computer"

  /**
   * Reflection over a program with one factory,
   * `hudson.example.RunFactory extends ConsoleAnnotatorFactory<Run>`, whose
   * contexts are class names standing for objects of that class.
   */
  function RunFactoryReflection(): Reflection<ClassName>
  {
    Reflection(
      (c: ClassName) => c,
      (n: ClassName) =>
        if n == RunClass then {ObjectClass}
        else if n == "hudson.example.RunFactory" then {ConsoleAnnotatorFactoryClass, "hudson.ExtensionPoint", ObjectClass}
        else {},
      (n: ClassName, b: ClassName) =>
        if n == "hudson.example.RunFactory" && b == ConsoleAnnotatorFactoryClass
        then Some(ParameterizedType(ConsoleAnnotatorFactoryClass, ClassType(RunClass), []))
        else None)
  }

  /**
   * For that factory, `type()` as written is `Object`, so a `Computer`
   * context would be handed to a factory written for `Run`; as intended, its
   * type is `Run` and the `Computer` context is not handed to it.
   */
  lemma TypeAsWrittenCounterexample()
    ensures
      var f := Factory("hudson.example.RunFactory", (c: ClassName) => Some(0));
      BaseClassWithinSupertypes(RunFactoryReflection())
      && ConsoleAnnotatorClass !in RunFactoryReflection().supertypes(f.className)
      && TypeAsWritten(f, RunFactoryReflection()) == ObjectClass
      && IsAssignableFrom(TypeAsWritten(f, RunFactoryReflection()), ComputerClass, RunFactoryReflection().supertypes)
      && Type(f, RunFactoryReflection()) == RunClass
      && !Accepts(f, ComputerClass, RunFactoryReflection())
  {
  }
}
