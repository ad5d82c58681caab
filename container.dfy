/** The dependency-injection container behind the factory: three lookups,
    each of which returns one bean or throws. */
module Container {
  import opened Reflection

  /** One lookup request, tagged by the qualifier it carries. */
  datatype Request =
    | Named(raw: ClassName, name: string)                                // getBean(raw, byName(name))
    | TypeArgs(raw: ClassName, typeArguments: seq<Option<ClassName>>)    // getBean(raw, byTypeArgumentsClosest(args))
    | Plain(raw: ClassName)                                              // getBean(raw)

  /** A running container, seen only through its three lookups. */
  datatype BeanContainer = BeanContainer(
    getBean: ClassName -> Outcome<Object>,
    getBeanByName: (ClassName, string) -> Outcome<Object>,
    getBeanByTypeArgumentsClosest: (ClassName, seq<Option<ClassName>>) -> Outcome<Object>)

  /** Sends a request to the container held in the factory's field; with no
      container (the field is null) the call throws a NullPointerException. */
  function GetBean(context: Option<BeanContainer>, request: Request): Outcome<Object>
  {
    match context
    case None => Thrown(Raised(NullPointer))
    case Some(c) =>
      match request
      case Named(raw, name) => c.getBeanByName(raw, name)
      case TypeArgs(raw, args) => c.getBeanByTypeArgumentsClosest(raw, args)
      case Plain(raw) => c.getBean(raw)
  }
}
