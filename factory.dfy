/** The object factory itself: its container field and lifecycle, the
    registration hook, and getInstance with its two index loops. */
module ObjectFactory {
  import opened Reflection
  import opened Container
  import opened Resolution
  import Properties

  /** A started container: the environments it was started with, its
      lookups, and whether it is still running. */
  class ApplicationContext {
    const environments: seq<string>
    const beans: BeanContainer
    var running: bool

    constructor Run(environments: seq<string>, beans: BeanContainer)
      ensures this.environments == environments && this.beans == beans
      ensures running
    {
      this.environments := environments;
      this.beans := beans;
      running := true;
    }

    method Stop()
      modifies this
      ensures !running
    {
      running := false;
    }
  }

  class MicronautObjectFactory {
    var applicationContext: ApplicationContext?

    constructor ()
      ensures applicationContext == null
    {
      applicationContext := null;
    }

    /** The container the lookups go to, if one was started. */
    function Context(): Option<BeanContainer>
      reads this
    {
      if applicationContext == null then None else Some(applicationContext.beans)
    }

    /** start: runs a container with the environments "acceptance" and
        "test"; the beans it serves are what that container provides. */
    method Start(beans: BeanContainer)
      modifies this
      ensures applicationContext != null && fresh(applicationContext)
      ensures applicationContext.environments == ["acceptance", "test"]
      ensures applicationContext.running && Context() == Some(beans)
    {
      applicationContext := new ApplicationContext.Run(["acceptance", "test"], beans);
    }

    /** stop: stops the container if one was started, and does nothing
        otherwise. */
    method Stop()
      modifies if applicationContext == null then {} else {applicationContext}
      ensures applicationContext == old(applicationContext)
      ensures applicationContext != null ==> !applicationContext.running
    {
      if applicationContext != null {
        applicationContext.Stop();
      }
    }

    /** addClass: accepts every glue class and keeps no record of it. */
    method AddClass(glueClass: GlueClass) returns (accepted: bool)
      ensures accepted
    {
      accepted := true;
    }

    /** getTypes: fills a fresh array with the class of each actual type
        argument, leaving null where the argument is neither a class nor a
        parameterized type. */
    method GetTypes(parameterizedType: TypeDesc) returns (typesClass: array<Option<ClassName>>)
      requires parameterizedType.Parameterized?
      ensures fresh(typesClass)
      ensures typesClass[..] == TypesOf(parameterizedType.arguments)
    {
      var types := parameterizedType.arguments;
      ghost var expected := TypesOf(types);
      typesClass := new Option<ClassName>[|types|](_ => None);
      for indexType := 0 to |types|
        invariant forall j :: 0 <= j < indexType ==> typesClass[j] == expected[j]
        invariant forall j :: indexType <= j < |types| ==> typesClass[j] == None
      {
        if types[indexType].Class? {
          typesClass[indexType] := Some(types[indexType].name);
        } else if types[indexType].Parameterized? {
          typesClass[indexType] := Some(types[indexType].raw);
        }
      }
    }

    /** getParameterizedBean: looks up the parameter's raw type qualified by
        the closest match on the extracted type arguments. */
    method GetParameterizedBean(ctor: Constructor, index: nat, parameterizedType: TypeDesc)
      returns (bean: Outcome<Object>)
      requires index < |ctor.parameters|
      requires parameterizedType.Parameterized?
      ensures bean == GetBean(Context(),
                TypeArgs(ctor.parameters[index].rawType, TypesOf(parameterizedType.arguments)))
    {
      var typesClass := GetTypes(parameterizedType);
      bean := GetBean(Context(), TypeArgs(ctor.parameters[index].rawType, typesClass[..]));
    }

    /** getInstance: fills the argument array slot by slot from the
        container, then invokes the first public constructor once. The ghost
        out-parameter records every lookup and invocation, in order. */
    method GetInstance(glueClass: GlueClass) returns (instance: Outcome<Object>, ghost effects: seq<Effect>)
      ensures instance == Instantiate(Context(), glueClass)
      ensures effects == Effects(Context(), glueClass)
    {
      effects := [];
      if |glueClass.constructors| == 0 {
        // getConstructors()[0] on an empty array, before the try block
        instance := Thrown(Raised(IndexOutOfBounds));
        return;
      }
      var ctor := glueClass.constructors[0];
      var ps := ctor.parameters;
      var parameters := new Object[|ps|](_ => Null);
      ghost var context := Context();
      var index := 0;
      while index < |ps|
        invariant 0 <= index <= |ps|
        invariant Resolve(context, ps[..index]) == Returned(parameters[..index])
        invariant Lookups(context, ps[..index]) == Requests(ps[..index])
        invariant effects == LookupEffects(Requests(ps[..index]))
      {
        var p := ps[index];
        var bean;
        ghost var sent: Request;  // the request this branch sends
        if HasNamedAnnotation(p) {
          var request := Named(p.rawType, p.named[0]);
          sent := request;
          bean := GetBean(Context(), request);
        } else if HasParameterType(p.parameterizedType) {
          sent := TypeArgs(p.rawType, TypesOf(p.parameterizedType.arguments));
          bean := GetParameterizedBean(ctor, index, p.parameterizedType);
        } else {
          var request := Plain(p.rawType);
          sent := request;
          bean := GetBean(Context(), request);
        }
        effects := effects + [Lookup(sent)];
        assert sent == Classify(p) && bean == GetBean(context, sent);
        Properties.LookupEffectsSnoc(Requests(ps[..index]), Classify(p));
        Properties.RequestsSnoc(ps, index);
        if bean.Thrown? {
          Properties.ResolveAllLookupsReturn(context, ps[..index]);
          assert forall j :: 0 <= j < index ==> ps[..index][j] == ps[j];
          Properties.ResolveFirstFailure(context, ps, index);
          instance := Thrown(Wrap(glueClass.name, bean.exception));
          return;
        }
        assert ps[..index + 1][..index] == ps[..index];
        parameters[index] := bean.value;
        assert parameters[..index + 1] == parameters[..index] + [bean.value];
        index := index + 1;
      }
      assert ps[..index] == ps;
      assert parameters[..index] == parameters[..];
      var arguments := parameters[..];
      effects := effects + [Invoke(arguments)];
      var created := ctor.newInstance(arguments);
      if created.Thrown? {
        instance := Thrown(Wrap(glueClass.name, created.exception));
      } else {
        instance := created;
      }
    }
  }
}
