/**
 * `APIManager.create_api_blueprint` and `create_api`: checking the
 * authentication options, naming the blueprint, and adding its URL rules
 * one `add_url_rule` call at a time.
 */
module Manager {
  import opened Wrappers
  import opened PyText
  import opened Naming
  import opened Routes

  /** The methods allowed when none are given (`READONLY_METHODS`). */
  const READONLY_METHODS: set<string> := {"GET"}

  /** The message of the `IllegalArgumentError` raised for authentication without a function. */
  const AUTH_MESSAGE: string := "If authentication_required is specified, so must authentication_function."

  /** `APINAME_FORMAT` filled in: the collection name followed by `api`. */
  function ApiName(collectionName: string): string {
    collectionName + "api"
  }

  /** An authentication function, known to the model only by a tag (it is always truthy). */
  datatype Callback = Callback(tag: string)

  /**
   * The keyword arguments of `create_api_blueprint` that shape the
   * blueprint; `authenticationRequiredFor` is empty where the caller passed
   * `None` or an empty list.
   */
  datatype ApiOptions = ApiOptions(
    methods: set<string>,
    urlPrefix: string,
    collectionName: Option<string>,
    allowPatchMany: bool,
    allowFunctions: bool,
    authenticationRequiredFor: seq<string>,
    authenticationFunction: Option<Callback>)

  /** The defaults of `create_api_blueprint`. */
  const DEFAULT_OPTIONS: ApiOptions := ApiOptions(READONLY_METHODS, "/api", None, false, false, [], None)

  /** Why `create_api_blueprint` raises. */
  datatype ManagerError =
    | IllegalArgument(message: string)   // `IllegalArgumentError`
    | NamingFailed(cause: NameError)     // the `ValueError` of `_next_blueprint_name`

  /** `collection_name`, defaulting to the model's table name. */
  function CollectionName(model: Model, opts: ApiOptions): string {
    match opts.collectionName
    case None => model.tablename
    case Some(name) => name
  }

  /** Authentication is required for some method but no function checks it. */
  predicate AuthWithoutFunction(opts: ApiOptions) {
    |opts.authenticationRequiredFor| > 0 && opts.authenticationFunction.None?
  }

  /** A blueprint as a value: its name, URL prefix and rules. */
  datatype BlueprintValue = BlueprintValue(name: string, urlPrefix: string, rules: seq<RouteEntry>)

  /**
   * The blueprint `create_api_blueprint(model, **opts)` returns when the
   * application already holds blueprints named `registered`, or the error
   * it raises.
   */
  function Plan(model: Model, opts: ApiOptions, registered: set<string>): Result<BlueprintValue, ManagerError> {
    if AuthWithoutFunction(opts) then
      Err(IllegalArgument(AUTH_MESSAGE))
    else
      var collectionName := CollectionName(model, opts);
      var sets := PartitionMethods(NormaliseMethods(opts.methods), opts.allowPatchMany);
      var api := ApiName(collectionName);
      match NextBlueprintName(api, registered)
      case Err(e) => Err(NamingFailed(e))
      case Ok(name) =>
        Ok(BlueprintValue(name, opts.urlPrefix,
          RouteTable(CollectionEndpoint(collectionName), sets, model.relations, opts.allowFunctions, api)))
  }

  /**
   * The authentication check comes before anything else: when it fails,
   * the error is the same whatever the model, the other options and the
   * registered blueprints; and it is the only source of
   * `IllegalArgumentError`.
   */
  lemma AuthCheckedFirst(model: Model, opts: ApiOptions, registered: set<string>)
    ensures AuthWithoutFunction(opts) ==> Plan(model, opts, registered) == Err(IllegalArgument(AUTH_MESSAGE))
    ensures (Plan(model, opts, registered).Err? && Plan(model, opts, registered).error.IllegalArgument?) <==> AuthWithoutFunction(opts)
  {
  }

  /**
   * Past the authentication check, `create_api_blueprint` fails exactly
   * when naming does, and never because of an empty base name.
   */
  lemma PlanFailsOnlyInNaming(model: Model, opts: ApiOptions, registered: set<string>)
    requires !AuthWithoutFunction(opts)
    ensures Plan(model, opts, registered).Err? <==> NextBlueprintName(ApiName(CollectionName(model, opts)), registered).Err?
    ensures Plan(model, opts, registered) != Err(NamingFailed(EmptySeparator))
  {
  }

  /**
   * The blueprint's name starts with `collection_name + 'api'`, is not the
   * name of a registered blueprint, and is `collection_name + 'api0'` when
   * no registered name starts with `collection_name + 'api'`.
   */
  lemma PlanName(model: Model, opts: ApiOptions, registered: set<string>)
    requires Plan(model, opts, registered).Ok?
    ensures var api := ApiName(CollectionName(model, opts));
      && api <= Plan(model, opts, registered).value.name
      && Plan(model, opts, registered).value.name !in registered
      && (Existing(api, registered) == {} ==> Plan(model, opts, registered).value.name == api + "0")
  {
    NextNameFresh(ApiName(CollectionName(model, opts)), registered);
  }

  /**
   * The blueprint's rules: the collection rules on `'/' + collection_name`,
   * `collection_name` defaulting to the table name, then the instance,
   * relation and eval rules, `4 + 2*|relations|` of them and one more with
   * `allow_functions`; the URL prefix is the one given.
   */
  lemma PlanRules(model: Model, opts: ApiOptions, registered: set<string>)
    requires Plan(model, opts, registered).Ok?
    ensures var b := Plan(model, opts, registered).value;
      var coll := "/" + CollectionName(model, opts);
      && (opts.collectionName.None? ==> coll == "/" + model.tablename)
      && b.urlPrefix == opts.urlPrefix
      && |b.rules| == 4 + 2 * |model.relations| + (if opts.allowFunctions then 1 else 0)
      && b.rules[0].path == coll && b.rules[1].path == coll
      && b.rules[2].path == coll + "/<int:instid>" && b.rules[3].path == coll + "/<string:instid>"
      && (opts.allowFunctions ==> b.rules[|b.rules| - 1].path == "/eval" + coll)
  {
    var collectionName := CollectionName(model, opts);
    RouteTableShape(CollectionEndpoint(collectionName), PartitionMethods(NormaliseMethods(opts.methods), opts.allowPatchMany),
      model.relations, opts.allowFunctions, ApiName(collectionName));
  }

  /** The default methods are already upper-case. */
  lemma ReadOnlyNormalised()
    ensures NormaliseMethods(READONLY_METHODS) == {"GET"}
  {
    var norm := NormaliseMethods(READONLY_METHODS);
    assert Upper("GET") == "GET";
    forall u | u in norm ensures u == "GET" {
      var m :| m in READONLY_METHODS && u == Upper(m);
    }
  }

  /** The rules for `/person` without relations or function evaluation, GET being the only method. */
  lemma ReadOnlyPersonTable()
    ensures RouteTable("/person", MethodSets({}, {"GET"}, {"GET"}), [], false, "personapi") == [
      RouteEntry("/person", {}, false, Crud("personapi")),
      RouteEntry("/person", {"GET"}, true, Crud("personapi")),
      RouteEntry("/person/<int:instid>", {"GET"}, false, Crud("personapi")),
      RouteEntry("/person/<string:instid>", {"GET"}, false, Crud("personapi"))]
  {
    assert InstanceRules("/person", {"GET"}, "personapi") == [
      RouteEntry("/person/<int:instid>", {"GET"}, false, Crud("personapi")),
      RouteEntry("/person/<string:instid>", {"GET"}, false, Crud("personapi"))]
    by {
      assert InstanceEndpoint("/person", "int") == "/person/<int:instid>";
      assert InstanceEndpoint("/person", "string") == "/person/<string:instid>";
    }
    assert RelationRules("/person", [], "personapi") == [];
  }

  /**
   * With the default options, a model `person` without relations gets the
   * blueprint `personapi0` under `/api` with four rules: POST on `/person`
   * with no method at all, GET on `/person` with `instid` defaulted, and
   * GET on the `int` and `string` instance paths.
   */
  lemma DefaultOptionsExample()
    ensures Plan(Model("person", []), DEFAULT_OPTIONS, {}) == Ok(BlueprintValue("personapi0", "/api", [
      RouteEntry("/person", {}, false, Crud("personapi")),
      RouteEntry("/person", {"GET"}, true, Crud("personapi")),
      RouteEntry("/person/<int:instid>", {"GET"}, false, Crud("personapi")),
      RouteEntry("/person/<string:instid>", {"GET"}, false, Crud("personapi"))]))
  {
    ReadOnlyNormalised();
    assert PartitionMethods({"GET"}, false) == MethodSets({}, {"GET"}, {"GET"});
    ReadOnlyPersonTable();
    assert "personapi" + "0" == "personapi0";
    assert Existing("personapi", {}) == {};
    assert NextBlueprintName("personapi", {}) == Ok("personapi0");
    assert ApiName(CollectionName(Model("person", []), DEFAULT_OPTIONS)) == "personapi";
    assert CollectionEndpoint(CollectionName(Model("person", []), DEFAULT_OPTIONS)) == "/person";
  }

  /** A Flask blueprint: a name, a URL prefix and the URL rules added to it so far. */
  class Blueprint {
    const name: string
    const urlPrefix: string
    var rules: seq<RouteEntry>

    constructor(name: string, urlPrefix: string)
      ensures this.name == name && this.urlPrefix == urlPrefix && rules == []
    {
      this.name := name;
      this.urlPrefix := urlPrefix;
      rules := [];
    }

    /** `add_url_rule`: records one more rule after the others. */
    method AddUrlRule(path: string, methods: set<string>, defaultsInstidNone: bool, handler: Handler)
      modifies this
      ensures rules == old(rules) + [RouteEntry(path, methods, defaultsInstidNone, handler)]
    {
      rules := rules + [RouteEntry(path, methods, defaultsInstidNone, handler)];
    }

    function Value(): BlueprintValue
      reads this
    {
      BlueprintValue(name, urlPrefix, rules)
    }
  }

  /** The Flask application, as far as blueprints go: the names of those registered (`app.blueprints`). */
  class Application {
    var blueprints: set<string>

    constructor(blueprints: set<string>)
      ensures this.blueprints == blueprints
    {
      this.blueprints := blueprints;
    }

    /** `register_blueprint`: the blueprint's name joins the registered names. */
    method RegisterBlueprint(b: Blueprint)
      modifies this
      ensures blueprints == old(blueprints) + {b.name}
    {
      blueprints := blueprints + {b.name};
    }
  }

  /** The inner loop over the converters for one relation: its two GET rules. */
  method AddRelationPair(b: Blueprint, collection: string, relation: string, api: string)
    modifies b
    ensures b.rules == old(b.rules) + RelationPair(collection, relation, api)
  {
    for k := 0 to |CONVERTERS|
      invariant b.rules == old(b.rules) + RelationPair(collection, relation, api)[..k]
    {
      b.AddUrlRule(RelationEndpoint(collection, CONVERTERS[k], relation), {"GET"}, false, Related(api, relation));
    }
  }

  /**
   * The `add_url_rule` calls of `create_api_blueprint`, in their order:
   * the two collection rules, one instance rule per converter, for each
   * relation one GET rule per converter, and the eval rule if asked for.
   * Afterwards the blueprint holds the route table after its earlier rules.
   */
  method AddRouteTable(b: Blueprint, collection: string, sets: MethodSets, relations: seq<string>, allowFunctions: bool, api: string)
    modifies b
    ensures b.rules == old(b.rules) + RouteTable(collection, sets, relations, allowFunctions, api)
  {
    b.AddUrlRule(collection, sets.noInstance, false, Crud(api));
    b.AddUrlRule(collection, sets.possiblyEmptyInstance, true, Crud(api));
    var front := old(b.rules) + CollectionRules(collection, sets, api);
    for k := 0 to |CONVERTERS|
      invariant b.rules == front + InstanceRules(collection, sets.instance, api)[..k]
    {
      b.AddUrlRule(InstanceEndpoint(collection, CONVERTERS[k]), sets.instance, false, Crud(api));
    }
    front := front + InstanceRules(collection, sets.instance, api);
    for i := 0 to |relations|
      invariant b.rules == front + RelationRules(collection, relations[..i], api)
    {
      var relation := relations[i];
      AddRelationPair(b, collection, relation, api);
      RelationRulesAppend(collection, relations[..i], relation, api);
      assert relations[..i + 1] == relations[..i] + [relation];
    }
    assert relations[..|relations|] == relations;
    if allowFunctions {
      b.AddUrlRule(EvalEndpoint(collection), {"GET"}, false, FunctionEval(api + "eval"));
    }
    Regroup(old(b.rules), CollectionRules(collection, sets, api), InstanceRules(collection, sets.instance, api),
      RelationRules(collection, relations, api), EvalRules(collection, allowFunctions, api));
  }

  lemma Regroup(a: seq<RouteEntry>, c: seq<RouteEntry>, i: seq<RouteEntry>, r: seq<RouteEntry>, e: seq<RouteEntry>)
    ensures a + c + i + r + e == a + (c + i + r + e)
  {
  }

  class APIManager {
    const app: Application

    constructor(app: Application)
      ensures this.app == app
    {
      this.app := app;
    }

    /**
     * `create_api_blueprint`: a new blueprint whose name and rules are
     * those `Plan` gives for the blueprints registered now, or the error
     * `Plan` gives; registers nothing.
     */
    method CreateApiBlueprint(model: Model, opts: ApiOptions) returns (r: Result<Blueprint, ManagerError>)
      ensures Plan(model, opts, app.blueprints).Err? ==> r == Err(Plan(model, opts, app.blueprints).error)
      ensures Plan(model, opts, app.blueprints).Ok? ==> r.Ok? && fresh(r.value) && r.value.Value() == Plan(model, opts, app.blueprints).value
    {
      if AuthWithoutFunction(opts) {
        return Err(IllegalArgument(AUTH_MESSAGE));
      }
      var collectionName := CollectionName(model, opts);
      var methods := NormaliseMethods(opts.methods);
      var sets := PartitionMethods(methods, opts.allowPatchMany);
      var collection := CollectionEndpoint(collectionName);
      var api := ApiName(collectionName);
      var next := NextBlueprintName(api, app.blueprints);
      if next.Err? {
        return Err(NamingFailed(next.error));
      }
      var b := new Blueprint(next.value, opts.urlPrefix);
      AddRouteTable(b, collection, sets, model.relations, opts.allowFunctions, api);
      r := Ok(b);
    }

    /**
     * `create_api`: creates the blueprint and registers it on the
     * application. On success exactly one name, not registered before,
     * joins `app.blueprints`; on failure nothing changes.
     */
    method CreateApi(model: Model, opts: ApiOptions) returns (r: Outcome<ManagerError>)
      modifies app
      ensures Plan(model, opts, old(app.blueprints)).Err? ==>
        r == Fail(Plan(model, opts, old(app.blueprints)).error) && app.blueprints == old(app.blueprints)
      ensures Plan(model, opts, old(app.blueprints)).Ok? ==>
        && r == Pass
        && Plan(model, opts, old(app.blueprints)).value.name !in old(app.blueprints)
        && app.blueprints == old(app.blueprints) + {Plan(model, opts, old(app.blueprints)).value.name}
        && |app.blueprints| == |old(app.blueprints)| + 1
    {
      var blueprint := CreateApiBlueprint(model, opts);
      if blueprint.Err? {
        return Fail(blueprint.error);
      }
      PlanName(model, opts, app.blueprints);
      app.RegisterBlueprint(blueprint.value);
      r := Pass;
    }
  }
}
