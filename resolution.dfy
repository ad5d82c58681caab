/** The constructor-dependency resolution of getInstance, as functions:
    the three-way classification of a parameter, the type-argument
    extraction, the lookups in declaration order, the exception wrapping,
    and the trace of container lookups and constructor invocations. */
module Resolution {
  import opened Reflection
  import opened Container

  // ---------------------------------------------------------------------
  // Classification of one parameter
  // ---------------------------------------------------------------------

  /** hasNamedAnnotation: the parameter carries at least one @Named. */
  predicate HasNamedAnnotation(p: Parameter)
  {
    |p.named| > 0
  }

  /** hasParameterType: the declared type is a ParameterizedType. */
  predicate HasParameterType(t: TypeDesc)
  {
    t.Parameterized?
  }

  /** getTypes, as a value: one entry per actual type argument, in order; a
      class stands for itself, a parameterized type for its raw class, and
      any other type argument leaves the entry null. */
  function TypesOf(arguments: seq<TypeDesc>): (r: seq<Option<ClassName>>)
    ensures |r| == |arguments|
    ensures forall i :: 0 <= i < |arguments| && arguments[i].Class? ==> r[i] == Some(arguments[i].name)
    ensures forall i :: 0 <= i < |arguments| && arguments[i].Parameterized? ==> r[i] == Some(arguments[i].raw)
    ensures forall i :: 0 <= i < |arguments| && arguments[i].Other? ==> r[i] == None
  {
    if arguments == [] then []
    else
      var head := match arguments[0]
        case Class(name) => Some(name)
        case Parameterized(raw, _) => Some(raw)
        case Other => None;
      [head] + TypesOf(arguments[1..])
  }

  /** The lookup getInstance makes for one parameter: by name when it has a
      @Named (the first one wins, whatever its type), else by closest type
      arguments when its type is parameterized, else by raw type alone. */
  function Classify(p: Parameter): (r: Request)
    ensures r.raw == p.rawType
    ensures r.Named? <==> |p.named| > 0
    ensures r.Named? ==> r.name == p.named[0]
    ensures r.TypeArgs? <==> |p.named| == 0 && p.parameterizedType.Parameterized?
    ensures r.TypeArgs? ==> r.typeArguments == TypesOf(p.parameterizedType.arguments)
    ensures r.Plain? <==> |p.named| == 0 && !p.parameterizedType.Parameterized?
  {
    if HasNamedAnnotation(p) then Named(p.rawType, p.named[0])
    else if HasParameterType(p.parameterizedType) then TypeArgs(p.rawType, TypesOf(p.parameterizedType.arguments))
    else Plain(p.rawType)
  }

  /** The requests for a whole parameter list, positionally. */
  function Requests(ps: seq<Parameter>): seq<Request>
  {
    seq(|ps|, i requires 0 <= i < |ps| => Classify(ps[i]))
  }

  // ---------------------------------------------------------------------
  // Resolution of all parameters, in declaration order
  // ---------------------------------------------------------------------

  /** The argument array after looking up every parameter in order, or the
      exception of the first lookup that threw. */
  function Resolve(context: Option<BeanContainer>, ps: seq<Parameter>): Outcome<seq<Object>>
    decreases |ps|
  {
    if ps == [] then Returned([])
    else
      match Resolve(context, ps[..|ps| - 1])
      case Thrown(e) => Thrown(e)
      case Returned(args) =>
        match GetBean(context, Classify(ps[|ps| - 1]))
        case Thrown(e) => Thrown(e)
        case Returned(bean) => Returned(args + [bean])
  }

  /** The requests actually sent to the container: those of the parameters
      up to and including the first lookup that threw. */
  function Lookups(context: Option<BeanContainer>, ps: seq<Parameter>): seq<Request>
    decreases |ps|
  {
    if ps == [] then []
    else if Resolve(context, ps[..|ps| - 1]).Thrown? then Lookups(context, ps[..|ps| - 1])
    else Lookups(context, ps[..|ps| - 1]) + [Classify(ps[|ps| - 1])]
  }

  // ---------------------------------------------------------------------
  // The whole of getInstance
  // ---------------------------------------------------------------------

  /** The exception classes named by the catch clause of getInstance. */
  predicate Caught(e: Throwable)
  {
    e.Raised? && e.kind in {IllegalState, Instantiation, InvocationTarget, IllegalAccess}
  }

  /** What leaves the try block: a caught exception becomes a
      CucumberException carrying the glue class and the cause; any other
      exception propagates as it is. */
  function Wrap(glueClass: ClassName, e: Throwable): Throwable
  {
    if Caught(e) then CucumberException(glueClass, e) else e
  }

  /** The outcome of getInstance: the first public constructor is used, its
      parameters are resolved, and it is invoked once with them. */
  function Instantiate(context: Option<BeanContainer>, glue: GlueClass): Outcome<Object>
  {
    if |glue.constructors| == 0 then Thrown(Raised(IndexOutOfBounds))
    else
      var ctor := glue.constructors[0];
      match Resolve(context, ctor.parameters)
      case Thrown(e) => Thrown(Wrap(glue.name, e))
      case Returned(args) =>
        match ctor.newInstance(args)
        case Thrown(e) => Thrown(Wrap(glue.name, e))
        case Returned(instance) => Returned(instance)
  }

  /** What getInstance does to the outside world, in order. */
  datatype Effect = Lookup(request: Request) | Invoke(arguments: seq<Object>)

  function LookupEffects(rs: seq<Request>): seq<Effect>
  {
    seq(|rs|, i requires 0 <= i < |rs| => Lookup(rs[i]))
  }

  /** The lookups getInstance makes, followed by the constructor invocation
      when every lookup returned. */
  function Effects(context: Option<BeanContainer>, glue: GlueClass): seq<Effect>
  {
    if |glue.constructors| == 0 then []
    else
      var ps := glue.constructors[0].parameters;
      LookupEffects(Lookups(context, ps)) +
        match Resolve(context, ps)
        case Returned(args) => [Invoke(args)]
        case Thrown(_) => []
  }
}
