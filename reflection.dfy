/** Reflection as the object factory sees it: type descriptors, constructor
    parameters, the glue class and its constructors, Java references and the
    exceptions that can come out of a lookup or an invocation. */
module Reflection {

  datatype Option<+T> = None | Some(value: T)

  /** The identity of a java.lang.Class. */
  type ClassName = string

  /** A java.lang.reflect.Type: a plain class, a parameterized type with its
      raw class and actual type arguments, or anything else (a wildcard, a
      type variable, a generic array type). */
  datatype TypeDesc =
    | Class(name: ClassName)
    | Parameterized(raw: ClassName, arguments: seq<TypeDesc>)
    | Other

  /** A Java reference: null, or some object identified by its identity. */
  datatype Object = Null | Ref(id: nat)

  /** Exception classes that matter to getInstance; each stands for the class
      and its subclasses. */
  datatype Kind =
    | IllegalState
    | Instantiation
    | InvocationTarget
    | IllegalAccess
    | NullPointer
    | IndexOutOfBounds
    | OtherRuntime(name: string)

  datatype Throwable =
    | Raised(kind: Kind)
    | CucumberException(glueClass: ClassName, cause: Throwable)

  /** How a Java call ends: it returns a value or throws. */
  datatype Outcome<+T> = Returned(value: T) | Thrown(exception: Throwable)

  /** A constructor parameter: its raw type (getParameterTypes), its declared
      generic type (getParameterizedType) and the values of its @Named
      annotations (getAnnotationsByType(Named.class)), in order. */
  datatype Parameter = Parameter(rawType: ClassName, parameterizedType: TypeDesc, named: seq<string>)

  /** A public constructor: its parameters and what newInstance does with an
      argument array. */
  datatype Constructor = Constructor(parameters: seq<Parameter>, newInstance: seq<Object> -> Outcome<Object>)

  /** A glue class with its public constructors as getConstructors lists them. */
  datatype GlueClass = GlueClass(name: ClassName, constructors: seq<Constructor>)
}
