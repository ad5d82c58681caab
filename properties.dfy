/** What getInstance promises, proved about the functions of Resolution. */
module Properties {
  import opened Reflection
  import opened Container
  import opened Resolution

  // ---------------------------------------------------------------------
  // Small facts about the positional helpers
  // ---------------------------------------------------------------------

  lemma RequestsSnoc(ps: seq<Parameter>, k: nat)
    requires k < |ps|
    ensures Requests(ps[..k + 1]) == Requests(ps[..k]) + [Classify(ps[k])]
  {
  }

  lemma LookupEffectsSnoc(rs: seq<Request>, r: Request)
    ensures LookupEffects(rs + [r]) == LookupEffects(rs) + [Lookup(r)]
  {
  }

  // ---------------------------------------------------------------------
  // Resolution of a parameter list
  // ---------------------------------------------------------------------

  /** Resolution returns exactly when every parameter's lookup returns; the
      argument array then has one slot per parameter, slot i holds the bean
      found for parameter i, and one request per parameter was sent, in
      declaration order. */
  lemma {:induction false} ResolveAllLookupsReturn(context: Option<BeanContainer>, ps: seq<Parameter>)
    ensures Resolve(context, ps).Returned? <==>
              forall i :: 0 <= i < |ps| ==> GetBean(context, Classify(ps[i])).Returned?
    ensures Resolve(context, ps).Returned? ==>
              |Resolve(context, ps).value| == |ps| &&
              (forall i :: 0 <= i < |ps| ==>
                 Resolve(context, ps).value[i] == GetBean(context, Classify(ps[i])).value) &&
              Lookups(context, ps) == Requests(ps)
    decreases |ps|
  {
    if ps != [] {
      var n := |ps| - 1;
      var init := ps[..n];
      ResolveAllLookupsReturn(context, init);
      assert forall i :: 0 <= i < n ==> init[i] == ps[i];
      assert ps == ps[..n + 1];
      RequestsSnoc(ps, n);
    }
  }

  /** When the lookup of parameter k is the first that throws, resolution
      throws that exception, and exactly the requests of parameters 0..k were
      sent: none for the parameters after k. */
  lemma {:induction false} ResolveFirstFailure(context: Option<BeanContainer>, ps: seq<Parameter>, k: nat)
    requires k < |ps|
    requires forall j :: 0 <= j < k ==> GetBean(context, Classify(ps[j])).Returned?
    requires GetBean(context, Classify(ps[k])).Thrown?
    ensures Resolve(context, ps) == Thrown(GetBean(context, Classify(ps[k])).exception)
    ensures Lookups(context, ps) == Requests(ps[..k + 1])
    decreases |ps|
  {
    var n := |ps| - 1;
    var init := ps[..n];
    assert forall i :: 0 <= i < n ==> init[i] == ps[i];
    if n == k {
      ResolveAllLookupsReturn(context, init);
      assert init == ps[..k];
      RequestsSnoc(ps, k);
    } else {
      ResolveFirstFailure(context, init, k);
      assert init[..k + 1] == ps[..k + 1];
    }
  }

  /** Conversely, a resolution that throws has a first failing lookup, and
      the exception is that lookup's. */
  lemma {:induction false} FailingLookupIndex(context: Option<BeanContainer>, ps: seq<Parameter>) returns (k: nat)
    requires Resolve(context, ps).Thrown?
    ensures k < |ps|
    ensures forall j :: 0 <= j < k ==> GetBean(context, Classify(ps[j])).Returned?
    ensures GetBean(context, Classify(ps[k])) == Thrown(Resolve(context, ps).exception)
    decreases |ps|
  {
    var n := |ps| - 1;
    var init := ps[..n];
    assert forall i :: 0 <= i < n ==> init[i] == ps[i];
    if Resolve(context, init).Thrown? {
      k := FailingLookupIndex(context, init);
    } else {
      ResolveAllLookupsReturn(context, init);
      k := n;
    }
  }

  /** The requests sent are always the requests of a prefix of the parameter
      list, in declaration order; a container can only cut the list short. */
  lemma {:induction false} LookupsArePrefix(context: Option<BeanContainer>, ps: seq<Parameter>)
    ensures |Lookups(context, ps)| <= |ps|
    ensures Lookups(context, ps) == Requests(ps[..|Lookups(context, ps)|])
    decreases |ps|
  {
    if ps != [] {
      var n := |ps| - 1;
      var init := ps[..n];
      LookupsArePrefix(context, init);
      var m := |Lookups(context, init)|;
      assert init[..m] == ps[..m];
      if Resolve(context, init).Returned? {
        ResolveAllLookupsReturn(context, init);
        RequestsSnoc(ps, n);
        assert ps[..n + 1] == ps;
      }
    }
  }

  /** Classification does not depend on the container: the requests made
      against two containers agree on every position both of them reach. */
  lemma RequestsIndependentOfContainer(c1: Option<BeanContainer>, c2: Option<BeanContainer>, ps: seq<Parameter>, i: nat)
    requires i < |Lookups(c1, ps)| && i < |Lookups(c2, ps)|
    ensures Lookups(c1, ps)[i] == Lookups(c2, ps)[i]
  {
    LookupsArePrefix(c1, ps);
    LookupsArePrefix(c2, ps);
  }

  // ---------------------------------------------------------------------
  // getInstance as a whole
  // ---------------------------------------------------------------------

  /** When every lookup returns, the lookups are made in declaration order,
      then the first constructor is invoked exactly once, with slot i holding
      the bean found for parameter i; a caught failure of the invocation
      becomes a CucumberException for the glue class with the cause. */
  lemma AllLookupsReturn(context: Option<BeanContainer>, glue: GlueClass)
    requires |glue.constructors| > 0
    requires forall i :: 0 <= i < |glue.constructors[0].parameters| ==>
               GetBean(context, Classify(glue.constructors[0].parameters[i])).Returned?
    ensures var ps := glue.constructors[0].parameters;
            var args := seq(|ps|, i requires 0 <= i < |ps| => GetBean(context, Classify(ps[i])).value);
            var created := glue.constructors[0].newInstance(args);
            Effects(context, glue) == LookupEffects(Requests(ps)) + [Invoke(args)] &&
            Instantiate(context, glue) ==
              (if created.Thrown? then Thrown(Wrap(glue.name, created.exception)) else created)
  {
    var ps := glue.constructors[0].parameters;
    ResolveAllLookupsReturn(context, ps);
    var args := seq(|ps|, i requires 0 <= i < |ps| => GetBean(context, Classify(ps[i])).value);
    assert Resolve(context, ps).value == args;
  }

  /** A constructor without parameters makes no lookups and is invoked with an
      empty argument array, whether or not a container was started. */
  lemma ZeroParameterConstructor(context: Option<BeanContainer>, glue: GlueClass)
    requires |glue.constructors| > 0 && glue.constructors[0].parameters == []
    ensures Effects(context, glue) == [Invoke([])]
    ensures var created := glue.constructors[0].newInstance([]);
            Instantiate(context, glue) ==
              (if created.Thrown? then Thrown(Wrap(glue.name, created.exception)) else created)
  {
    AllLookupsReturn(context, glue);
  }

  /** When the lookup of parameter k is the first that throws, the
      constructor is never invoked, no later parameter is looked up, and the
      result is that exception, wrapped with the glue class when it is one the
      catch clause names. */
  lemma LookupFailureSkipsConstructor(context: Option<BeanContainer>, glue: GlueClass, k: nat)
    requires |glue.constructors| > 0
    requires k < |glue.constructors[0].parameters|
    requires forall j :: 0 <= j < k ==>
               GetBean(context, Classify(glue.constructors[0].parameters[j])).Returned?
    requires GetBean(context, Classify(glue.constructors[0].parameters[k])).Thrown?
    ensures var ps := glue.constructors[0].parameters;
            var e := GetBean(context, Classify(ps[k])).exception;
            Effects(context, glue) == LookupEffects(Requests(ps[..k + 1])) &&
            |Effects(context, glue)| == k + 1 &&
            (forall i :: 0 <= i < |Effects(context, glue)| ==> Effects(context, glue)[i].Lookup?) &&
            Instantiate(context, glue) == Thrown(Wrap(glue.name, e)) &&
            (Caught(e) ==> Instantiate(context, glue) == Thrown(CucumberException(glue.name, e)))
  {
    ResolveFirstFailure(context, glue.constructors[0].parameters, k);
  }

  /** Before start the container field is null: a constructor with parameters
      fails on its first lookup with a NullPointerException, which the catch
      clause does not name, so it is not wrapped and nothing is invoked. */
  lemma NoContainerFailsOnFirstLookup(glue: GlueClass)
    requires |glue.constructors| > 0 && |glue.constructors[0].parameters| > 0
    ensures Instantiate(None, glue) == Thrown(Raised(NullPointer))
    ensures Effects(None, glue) == [Lookup(Classify(glue.constructors[0].parameters[0]))]
  {
    LookupFailureSkipsConstructor(None, glue, 0);
  }

  /** A glue class without public constructors fails before any lookup, with
      the index error of getConstructors()[0], outside the try block. */
  lemma NoConstructor(context: Option<BeanContainer>, glue: GlueClass)
    requires glue.constructors == []
    ensures Instantiate(context, glue) == Thrown(Raised(IndexOutOfBounds))
    ensures Effects(context, glue) == []
  {
  }

  /** The worked example: Steps(@Named("db") Repo repo, List<Validator>
      validators, Logger log) is resolved by a lookup of Repo named "db", a
      closest-type-argument lookup of List with Validator, and a plain lookup
      of Logger, in that order. */
  lemma StepsExample(context: Option<BeanContainer>, newSteps: seq<Object> -> Outcome<Object>)
    ensures var steps := GlueClass("Steps", [Constructor([
              Parameter("Repo", Class("Repo"), ["db"]),
              Parameter("List", Parameterized("List", [Class("Validator")]), []),
              Parameter("Logger", Class("Logger"), [])], newSteps)]);
            Requests(steps.constructors[0].parameters) ==
              [Named("Repo", "db"), TypeArgs("List", [Some("Validator")]), Plain("Logger")]
  {
    var list := Parameterized("List", [Class("Validator")]);
    assert TypesOf(list.arguments) == [Some("Validator")];
  }
}
