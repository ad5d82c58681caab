# MicronautObjectFactory in Dafny

A model of `MicronautObjectFactory`, the Cucumber object factory that builds glue
classes by asking a Micronaut `ApplicationContext` for their constructor arguments.
At its core is `getInstance`. It takes the first public constructor of the glue class
and sorts each parameter in declaration order into one of three lookups:

1. a lookup by raw type and `Qualifiers.byName` of the first `@Named` value, when the
   parameter has a `@Named`;
2. otherwise a lookup by raw type and `Qualifiers.byTypeArgumentsClosest(getTypes(..))`,
   when the declared type is a `ParameterizedType`;
3. otherwise a plain lookup by raw type.

It fills the argument array slot by slot, then invokes the constructor once. A caught
exception is wrapped in a `CucumberException` that names the glue class and carries the cause.

Files:

- `reflection.dfy` (module `Reflection`): type descriptors (`Class`, `Parameterized`, `Other`
  for wildcards and type variables), parameters, constructors, glue classes, Java references
  (`Null` or an object), exceptions and the `Outcome` of a Java call.
- `container.dfy` (module `Container`): the tagged lookup `Request` (`Named`, `TypeArgs`,
  `Plain`) and the container as its three lookups, each of which returns a bean or throws.
  A lookup through a null container field throws a `NullPointerException`.
- `resolution.dfy` (module `Resolution`): the specification as functions. It holds the
  classification `Classify` (with `HasNamedAnnotation` and `HasParameterType`), the
  type-argument extraction `TypesOf`, and `Resolve` and `Lookups` (the argument array and
  the requests sent, in declaration order). It also holds the catch clause (`Caught`, `Wrap`),
  the outcome of `getInstance` (`Instantiate`) and its trace of lookups and invocations (`Effects`).
- `properties.dfy` (module `Properties`): lemmas about those functions.
- `factory.dfy` (module `ObjectFactory`): the class `MicronautObjectFactory` with its
  `applicationContext` field. `GetInstance` and `GetTypes` are imperative methods over
  arrays with index loops, proved equal to the functions above. `GetInstance` returns a
  ghost trace of every lookup and invocation it makes.

Behaviour worth noting:

- Only the exception classes named in the catch clause (`InstantiationException`,
  `IllegalStateException`, `InvocationTargetException`, `IllegalAccessException`, and their
  subclasses) are wrapped. Any other exception from a lookup or from the constructor
  propagates unwrapped.
- The model gives a parameter a list of `@Named` values, because the code reads the array
  that `getAnnotationsByType` returns; the code uses element 0. `javax.inject.Named` is not
  repeatable, so in Java the list has at most one element.
- A glue class with no public constructor fails on `getConstructors()[0]` before the try
  block. The model gives an index-out-of-bounds exception, not wrapped, and requires nothing
  of the caller.
- `getInstance` before `start` is not excluded. A constructor without parameters still
  works. Otherwise the first lookup throws a `NullPointerException`, which is not wrapped.

## Model

| member | source | states |
|---|---|---|
| Resolution.TypesOf | src/main/java/com/davromalc/cucumber/micronaut/MicronautObjectFactory.java:78-89 | one entry per actual type argument, in order: a class gives itself, a parameterized type its raw class, anything else null |
| ObjectFactory.MicronautObjectFactory.GetTypes | src/main/java/com/davromalc/cucumber/micronaut/MicronautObjectFactory.java:80-88 | the array filled in place by the loop is fresh and equals TypesOf of the type arguments |
| Resolution.HasNamedAnnotation | src/main/java/com/davromalc/cucumber/micronaut/MicronautObjectFactory.java:106-109 | true when the parameter carries at least one @Named; it selects the by-name branch, as Classify's ensures state (Named exactly when a @Named is present) |
| Resolution.HasParameterType | src/main/java/com/davromalc/cucumber/micronaut/MicronautObjectFactory.java:102-104 | true when the declared type is parameterized; it selects the type-argument branch when there is no @Named, as Classify's ensures state |
| Resolution.Caught | src/main/java/com/davromalc/cucumber/micronaut/MicronautObjectFactory.java:65-66 | the exception classes of the catch clause: IllegalState, Instantiation, InvocationTarget and IllegalAccess, and nothing else |
| Resolution.Wrap | src/main/java/com/davromalc/cucumber/micronaut/MicronautObjectFactory.java:65-67 | a caught exception becomes a CucumberException carrying the glue class and the cause; any other exception is unchanged (used by AllLookupsReturn and LookupFailureSkipsConstructor) |
| Resolution.Instantiate | src/main/java/com/davromalc/cucumber/micronaut/MicronautObjectFactory.java:48-69 | the outcome of getInstance; its properties are AllLookupsReturn, LookupFailureSkipsConstructor, ZeroParameterConstructor, NoContainerFailsOnFirstLookup and NoConstructor |
| Resolution.Classify | src/main/java/com/davromalc/cucumber/micronaut/MicronautObjectFactory.java:54-61 | the request keeps the parameter's raw type; it is by name (first @Named value) exactly when a @Named is present, even for a parameterized type; by closest type arguments exactly when there is no @Named and the type is parameterized; plain exactly when neither holds |
| ObjectFactory.MicronautObjectFactory.GetParameterizedBean | src/main/java/com/davromalc/cucumber/micronaut/MicronautObjectFactory.java:71-76 | the bean is the container's answer to a closest-type-argument lookup of the parameter's raw type with TypesOf of the declared type's arguments |
| ObjectFactory.MicronautObjectFactory.GetInstance | src/main/java/com/davromalc/cucumber/micronaut/MicronautObjectFactory.java:48-69 | the imperative loop returns exactly Instantiate of the current container, and its ghost trace of lookups and invocations equals Effects |
| Properties.ResolveAllLookupsReturn | src/main/java/com/davromalc/cucumber/micronaut/MicronautObjectFactory.java:50-63 | resolution returns iff every parameter's lookup returns; then the array has one slot per parameter, slot i holds the bean for parameter i, and one request per parameter was sent, in declaration order |
| Properties.ResolveFirstFailure | src/main/java/com/davromalc/cucumber/micronaut/MicronautObjectFactory.java:51-66 | if the lookup of parameter k is the first to throw, resolution throws that exception and exactly the requests of parameters 0..k were sent |
| Properties.FailingLookupIndex | src/main/java/com/davromalc/cucumber/micronaut/MicronautObjectFactory.java:52-63 | a resolution that throws has a first failing parameter whose lookup threw that very exception, all earlier ones having returned |
| Properties.LookupsArePrefix | src/main/java/com/davromalc/cucumber/micronaut/MicronautObjectFactory.java:52-63 | the requests sent are always the classified requests of a prefix of the parameter list, in order |
| Properties.RequestsIndependentOfContainer | src/main/java/com/davromalc/cucumber/micronaut/MicronautObjectFactory.java:52-61 | two containers receive the same request at every position both reach: classification depends only on the parameters |
| Properties.AllLookupsReturn | src/main/java/com/davromalc/cucumber/micronaut/MicronautObjectFactory.java:50-67 | when every lookup returns, all lookups come first, then one invocation with slot i holding the bean for parameter i; a caught invocation failure becomes a CucumberException for the glue class, an uncaught one propagates |
| Properties.ZeroParameterConstructor | src/main/java/com/davromalc/cucumber/micronaut/MicronautObjectFactory.java:50-64 | a constructor without parameters makes no lookup and is invoked once with an empty array, with or without a container |
| Properties.LookupFailureSkipsConstructor | src/main/java/com/davromalc/cucumber/micronaut/MicronautObjectFactory.java:51-67 | when the lookup of parameter k is the first to throw, exactly k+1 lookups happen, the constructor is never invoked, and the result is that exception, wrapped with the glue class when the catch clause names it |
| Properties.NoContainerFailsOnFirstLookup | src/main/java/com/davromalc/cucumber/micronaut/MicronautObjectFactory.java:54-61 | with the container field null, a constructor with parameters fails on its first lookup with an unwrapped NullPointerException and is not invoked |
| Properties.NoConstructor | src/main/java/com/davromalc/cucumber/micronaut/MicronautObjectFactory.java:49 | a glue class without public constructors fails with an unwrapped index error before any lookup |
| Properties.StepsExample | src/main/java/com/davromalc/cucumber/micronaut/MicronautObjectFactory.java:52-63 | Steps(@Named("db") Repo, List<Validator>, Logger) is resolved by Named(Repo, db), TypeArgs(List, [Validator]), Plain(Logger), in that order |
| ObjectFactory.MicronautObjectFactory.AddClass | src/main/java/com/davromalc/cucumber/micronaut/MicronautObjectFactory.java:97-100 | always accepts, and changes nothing |
| ObjectFactory.MicronautObjectFactory.Stop | src/main/java/com/davromalc/cucumber/micronaut/MicronautObjectFactory.java:35-39 | stops the container when one was started; with a null field it changes nothing |
| ObjectFactory.MicronautObjectFactory.Start | src/main/java/com/davromalc/cucumber/micronaut/MicronautObjectFactory.java:27-29 | the field holds a fresh running container started with the environments "acceptance" and "test" |

## Left out

- Java reflection itself (`getConstructors`, `getParameterizedType`, `getAnnotationsByType`,
  the unchecked casts): parameters, type descriptors and constructors are given as values.
  `getAnnotationsByType` never returns null, so the null test of `hasNamedAnnotation` is not represented.
- Micronaut's bean search and closest-match ranking, and what the environments mean: the
  container is three opaque lookup functions. A lookup's answer does not depend on whether
  the container is still running.
- The lookups and the constructor are pure functions of their inputs. Lazy bean creation
  and any side effect of the constructor are not modelled.
- The message text built by `String.format`: a `CucumberException` carries only the glue
  class name and the cause.
- Exception classes are a closed list of kinds: the four the catch clause names, the two
  uncaught ones the factory itself can raise (`NullPointer`, `IndexOutOfBounds`), and
  `OtherRuntime(name)` for every other exception. The model does not say which of them a
  real container or constructor throws.
- The null entries that `getTypes` leaves are `None`. The cast of a nested parameterized type's raw type to `Class` cannot fail, because the raw type
  is always a class in this model.
