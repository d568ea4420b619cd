/**
 * The URL rules `create_api_blueprint` adds to a blueprint, as values: the
 * upper-casing of the requested HTTP methods, their split into the three
 * method sets, the endpoint paths, and the whole ordered rule table.
 */
module Routes {
  import opened PyText

  /** A mapped model as the rule builder sees it: its table name and its one-to-many relations, in declared order. */
  datatype Model = Model(tablename: string, relations: seq<string>)

  /** The view a rule dispatches to, named by the API it belongs to. */
  datatype Handler =
    | Crud(api: string)                          // `API.as_view(apiname, ...)`
    | Related(api: string, relation: string)     // `_related_collection(api_view, relname)`
    | FunctionEval(api: string)                  // `FunctionAPI.as_view(apiname + 'eval', ...)`

  /** One `add_url_rule` call: the rule, its methods, whether `instid` defaults to `None`, and the view. */
  datatype RouteEntry = RouteEntry(path: string, methods: set<string>, defaultsInstidNone: bool, handler: Handler)

  /** The three method sets of `create_api_blueprint`. */
  datatype MethodSets = MethodSets(noInstance: set<string>, possiblyEmptyInstance: set<string>, instance: set<string>)

  /** The HTTP methods the blueprint can route at all. */
  const KNOWN_METHODS: set<string> := {"POST", "GET", "PATCH", "PUT", "DELETE"}

  /** The primary-key converters, in the order their rules are added. */
  const CONVERTERS: seq<string> := ["int", "string"]

  /** The requested methods, each upper-cased, as a set. */
  function NormaliseMethods(methods: set<string>): (r: set<string>)
    ensures forall m :: m in methods ==> Upper(m) in r
    ensures forall u :: u in r ==> exists m :: m in methods && Upper(m) == u
    ensures forall u :: u in r ==> Upper(u) == u
  {
    var r := set m | m in methods :: Upper(m);
    forall u | u in r ensures Upper(u) == u {
      var m :| m in methods && u == Upper(m);
      UpperIdempotent(m);
    }
    r
  }

  /** Upper-casing twice is upper-casing once. */
  lemma NormaliseIdempotent(methods: set<string>)
    ensures NormaliseMethods(NormaliseMethods(methods)) == NormaliseMethods(methods)
  {
    var once := NormaliseMethods(methods);
    var twice := NormaliseMethods(once);
    forall u | u in twice ensures u in once {
      var m :| m in once && u == Upper(m);
    }
  }

  /** Methods are matched without regard to ASCII case. */
  lemma NormaliseLowerCase()
    ensures NormaliseMethods({"get", "Post"}) == {"GET", "POST"}
  {
    assert Upper("get") == "GET";
    assert Upper("Post") == "POST";
    var r := NormaliseMethods({"get", "Post"});
    forall u | u in r ensures u in {"GET", "POST"} {
      var m :| m in {"get", "Post"} && u == Upper(m);
    }
  }

  /**
   * The split of the normalised methods: POST alone on the collection;
   * GET (and, with `allow_patch_many`, PATCH and PUT) on the collection
   * with `instid` defaulted; GET, PATCH, DELETE and PUT on an instance.
   */
  function PartitionMethods(methods: set<string>, allowPatchMany: bool): (p: MethodSets)
    ensures p.noInstance <= methods && p.possiblyEmptyInstance <= methods && p.instance <= methods
    ensures forall m :: m in p.noInstance <==> m in methods && m == "POST"
    ensures forall m :: m in p.possiblyEmptyInstance <==> m in methods && (m == "GET" || (allowPatchMany && (m == "PATCH" || m == "PUT")))
    ensures forall m :: m in p.instance <==> m in methods && m in {"GET", "PATCH", "DELETE", "PUT"}
  {
    MethodSets(
      methods * {"POST"},
      if allowPatchMany then methods * {"GET", "PATCH", "PUT"} else methods * {"GET"},
      methods * {"GET", "PATCH", "DELETE", "PUT"})
  }

  /**
   * What the split guarantees: POST is never accepted on an instance,
   * DELETE never on the whole collection, the two collection rules share
   * no method, the defaulted rule's methods are all instance methods, and
   * together the three sets hold exactly the requested known methods.
   */
  lemma PartitionProperties(methods: set<string>, allowPatchMany: bool)
    ensures var p := PartitionMethods(methods, allowPatchMany);
      && p.noInstance !! p.possiblyEmptyInstance
      && p.noInstance !! p.instance
      && p.possiblyEmptyInstance <= p.instance
      && "DELETE" !in p.noInstance + p.possiblyEmptyInstance
      && p.noInstance + p.possiblyEmptyInstance + p.instance == methods * KNOWN_METHODS
  {
  }

  /** The collection path: a slash, then the collection name. */
  function CollectionEndpoint(collectionName: string): string {
    "/" + collectionName
  }

  /** The `instid` variable under the given converter, after a slash. */
  function InstanceSuffix(converter: string): string {
    "/<" + converter + ":instid>"
  }

  /** The instance suffix, then the relation name between slashes. */
  function RelationSuffix(converter: string, relation: string): string {
    InstanceSuffix(converter) + "/" + relation + "/"
  }

  /** An instance path: the collection path, then the instance suffix. */
  function InstanceEndpoint(collection: string, converter: string): string {
    collection + InstanceSuffix(converter)
  }

  /** A related-collection path: the collection path, then the relation suffix. */
  function RelationEndpoint(collection: string, converter: string, relation: string): string {
    collection + RelationSuffix(converter, relation)
  }

  /** The function-evaluation path: the collection path under `/eval`. */
  function EvalEndpoint(collection: string): string {
    "/eval" + collection
  }

  /** The two collection rules, the second with `instid` defaulted to `None`. */
  function CollectionRules(collection: string, sets: MethodSets, api: string): seq<RouteEntry> {
    [RouteEntry(collection, sets.noInstance, false, Crud(api)),
     RouteEntry(collection, sets.possiblyEmptyInstance, true, Crud(api))]
  }

  /** One instance rule per converter, in converter order. */
  function InstanceRules(collection: string, methods: set<string>, api: string): seq<RouteEntry> {
    seq(|CONVERTERS|, k requires 0 <= k < |CONVERTERS| =>
      RouteEntry(InstanceEndpoint(collection, CONVERTERS[k]), methods, false, Crud(api)))
  }

  /** The two GET rules of one relation, in converter order. */
  function RelationPair(collection: string, relation: string, api: string): seq<RouteEntry> {
    seq(|CONVERTERS|, k requires 0 <= k < |CONVERTERS| =>
      RouteEntry(RelationEndpoint(collection, CONVERTERS[k], relation), {"GET"}, false, Related(api, relation)))
  }

  /** The relation rules: for each relation in order, its pair. */
  function RelationRules(collection: string, relations: seq<string>, api: string): seq<RouteEntry> {
    seq(2 * |relations|, j requires 0 <= j < 2 * |relations| =>
      RouteEntry(RelationEndpoint(collection, CONVERTERS[j % 2], relations[j / 2]), {"GET"}, false, Related(api, relations[j / 2])))
  }

  /** The function-evaluation rule, present only when `allow_functions` is set. */
  function EvalRules(collection: string, allowFunctions: bool, api: string): seq<RouteEntry> {
    if allowFunctions then [RouteEntry(EvalEndpoint(collection), {"GET"}, false, FunctionEval(api + "eval"))] else []
  }

  /** Every rule `create_api_blueprint` adds, in the order it adds them. */
  function RouteTable(collection: string, sets: MethodSets, relations: seq<string>, allowFunctions: bool, api: string): seq<RouteEntry> {
    CollectionRules(collection, sets, api) + InstanceRules(collection, sets.instance, api)
      + RelationRules(collection, relations, api) + EvalRules(collection, allowFunctions, api)
  }

  /** The relation rules of one more relation are those of the others followed by its pair. */
  lemma RelationRulesAppend(collection: string, relations: seq<string>, relation: string, api: string)
    ensures RelationRules(collection, relations + [relation], api)
         == RelationRules(collection, relations, api) + RelationPair(collection, relation, api)
  {
    var longer := relations + [relation];
    var lhs := RelationRules(collection, longer, api);
    var rhs := RelationRules(collection, relations, api) + RelationPair(collection, relation, api);
    assert |lhs| == |rhs|;
    forall j | 0 <= j < |lhs| ensures lhs[j] == rhs[j] {
      if j < 2 * |relations| {
        assert longer[j / 2] == relations[j / 2];
      } else {
        assert j / 2 == |relations| && longer[j / 2] == relation;
      }
    }
  }

  /** The table, segment by segment: where each part's rules sit. */
  lemma RouteTableSegments(collection: string, sets: MethodSets, relations: seq<string>, allowFunctions: bool, api: string)
    ensures var t := RouteTable(collection, sets, relations, allowFunctions, api);
      && |t| == 4 + 2 * |relations| + |EvalRules(collection, allowFunctions, api)|
      && t[..2] == CollectionRules(collection, sets, api)
      && t[2..4] == InstanceRules(collection, sets.instance, api)
      && t[4..4 + 2 * |relations|] == RelationRules(collection, relations, api)
      && t[4 + 2 * |relations|..] == EvalRules(collection, allowFunctions, api)
  {
    var front := CollectionRules(collection, sets, api) + InstanceRules(collection, sets.instance, api);
    var rel := RelationRules(collection, relations, api);
    var t := front + rel + EvalRules(collection, allowFunctions, api);
    assert |front| == 4;
    assert t[..4] == front;
    assert t[..2] == front[..2];
    assert t[2..4] == front[2..4];
    assert t[4..4 + |rel|] == rel;
  }

  /** The relation rule at offset `2*r + c` is the `c`-th converter's rule of the `r`-th relation. */
  lemma RelationRuleAt(collection: string, relations: seq<string>, api: string, r: nat, c: nat)
    requires r < |relations| && c < 2
    ensures 2 * r + c < |RelationRules(collection, relations, api)|
    ensures RelationRules(collection, relations, api)[2 * r + c]
         == RouteEntry(RelationEndpoint(collection, CONVERTERS[c], relations[r]), {"GET"}, false, Related(api, relations[r]))
  {
    var j := 2 * r + c;
    assert j / 2 == r && j % 2 == c;
  }

  /**
   * The shape of the table: `4 + 2*|relations|` rules, one more with
   * `allow_functions`; the two collection rules, the `int` and `string`
   * instance rules, each relation's `int` and `string` GET rules, and last
   * the GET rule on `/eval` followed by the collection path.
   */
  lemma RouteTableShape(collection: string, sets: MethodSets, relations: seq<string>, allowFunctions: bool, api: string)
    ensures var t := RouteTable(collection, sets, relations, allowFunctions, api);
      && |t| == 4 + 2 * |relations| + (if allowFunctions then 1 else 0)
      && t[0] == RouteEntry(collection, sets.noInstance, false, Crud(api))
      && t[1] == RouteEntry(collection, sets.possiblyEmptyInstance, true, Crud(api))
      && t[2] == RouteEntry(collection + "/<int:instid>", sets.instance, false, Crud(api))
      && t[3] == RouteEntry(collection + "/<string:instid>", sets.instance, false, Crud(api))
      && (forall r, c :: 0 <= r < |relations| && 0 <= c < 2 ==>
            t[4 + 2 * r + c] == RouteEntry(RelationEndpoint(collection, CONVERTERS[c], relations[r]), {"GET"}, false, Related(api, relations[r])))
      && (allowFunctions ==> t[|t| - 1] == RouteEntry("/eval" + collection, {"GET"}, false, FunctionEval(api + "eval")))
  {
    var t := RouteTable(collection, sets, relations, allowFunctions, api);
    var rel := RelationRules(collection, relations, api);
    RouteTableSegments(collection, sets, relations, allowFunctions, api);
    assert t[0] == t[..2][0] && t[1] == t[..2][1];
    assert t[2] == t[2..4][0] && t[3] == t[2..4][1];
    assert InstanceSuffix("int") == "/<int:instid>";
    assert InstanceSuffix("string") == "/<string:instid>";
    forall r, c | 0 <= r < |relations| && 0 <= c < 2
      ensures t[4 + 2 * r + c] == RouteEntry(RelationEndpoint(collection, CONVERTERS[c], relations[r]), {"GET"}, false, Related(api, relations[r]))
    {
      RelationRuleAt(collection, relations, api, r, c);
      assert t[4 + 2 * r + c] == t[4..4 + 2 * |relations|][2 * r + c];
    }
    if allowFunctions {
      assert t[|t| - 1] == t[4 + 2 * |relations|..][0];
    }
  }

  /** Only the second collection rule defaults `instid`. */
  lemma OnlySecondRuleDefaultsInstid(collection: string, sets: MethodSets, relations: seq<string>, allowFunctions: bool, api: string)
    ensures var t := RouteTable(collection, sets, relations, allowFunctions, api);
      forall i :: 0 <= i < |t| ==> (t[i].defaultsInstidNone <==> i == 1)
  {
    var t := RouteTable(collection, sets, relations, allowFunctions, api);
    var rel := RelationRules(collection, relations, api);
    forall i | 4 <= i < 4 + |rel| ensures t[i] == rel[i - 4] && !t[i].defaultsInstidNone {
    }
  }

  /** Where a rule sits in the table, as far as its path is concerned. */
  datatype PathShape =
    | CollectionShape
    | InstanceShape(converter: nat)
    | RelationShape(converter: nat, relation: string)
    | EvalShape

  predicate ValidShape(s: PathShape) {
    match s
    case InstanceShape(c) => c < |CONVERTERS|
    case RelationShape(c, _) => c < |CONVERTERS|
    case _ => true
  }

  function Render(collection: string, s: PathShape): string
    requires ValidShape(s)
  {
    match s
    case CollectionShape => collection
    case InstanceShape(c) => InstanceEndpoint(collection, CONVERTERS[c])
    case RelationShape(c, rel) => RelationEndpoint(collection, CONVERTERS[c], rel)
    case EvalShape => EvalEndpoint(collection)
  }

  /** The part of a non-eval path after the collection path. */
  function Tail(s: PathShape): string
    requires ValidShape(s) && !s.EvalShape?
  {
    match s
    case CollectionShape => ""
    case InstanceShape(c) => InstanceSuffix(CONVERTERS[c])
    case RelationShape(c, rel) => RelationSuffix(CONVERTERS[c], rel)
  }

  /** A common prefix cancels. */
  lemma PrefixCancel(p: string, a: string, b: string)
    ensures p + a == p + b ==> a == b
  {
    if p + a == p + b {
      assert a == (p + a)[|p|..] && b == (p + b)[|p|..];
    }
  }

  /** A common prefix and a common last character cancel. */
  lemma InfixCancel(p: string, a: string, b: string)
    ensures p + a + "/" == p + b + "/" ==> a == b
  {
    if p + a + "/" == p + b + "/" {
      var x := p + a + "/";
      assert a == x[|p|..|x| - 1] && b == (p + b + "/")[|p|..|x| - 1];
    }
  }

  lemma TailInjective(s1: PathShape, s2: PathShape)
    requires ValidShape(s1) && !s1.EvalShape? && ValidShape(s2) && !s2.EvalShape?
    ensures Tail(s1) == Tail(s2) ==> s1 == s2
  {
    if s1.CollectionShape? != s2.CollectionShape? {
      assert |Tail(s1)| != |Tail(s2)|;
    } else if !s1.CollectionShape? {
      var c1, c2 := s1.converter, s2.converter;
      if c1 != c2 {
        // the first letter of the converter tells `int` from `string`
        assert Tail(s1)[2] == CONVERTERS[c1][0] != CONVERTERS[c2][0] == Tail(s2)[2];
      } else if s1.InstanceShape? != s2.InstanceShape? {
        assert |Tail(s1)| != |Tail(s2)|;
      } else if s1.RelationShape? {
        InfixCancel(InstanceSuffix(CONVERTERS[c1]) + "/", s1.relation, s2.relation);
      }
    }
  }

  /** A non-eval path is the collection path followed by its tail, which is never five characters long. */
  lemma RenderIsTail(collection: string, s: PathShape)
    requires ValidShape(s) && !s.EvalShape?
    ensures Render(collection, s) == collection + Tail(s)
    ensures |Tail(s)| != 5
  {
    match s
    case CollectionShape =>
    case InstanceShape(c) =>
      assert |CONVERTERS[c]| >= 3;
    case RelationShape(c, rel) =>
      assert |CONVERTERS[c]| >= 3;
  }

  /** Distinct rule shapes give distinct paths, whatever the collection path. */
  lemma RenderInjective(collection: string, s1: PathShape, s2: PathShape)
    requires ValidShape(s1) && ValidShape(s2)
    ensures Render(collection, s1) == Render(collection, s2) ==> s1 == s2
  {
    if s1.EvalShape? != s2.EvalShape? {
      // the eval path is five characters longer than the collection path, and no other is
      var other := if s1.EvalShape? then s2 else s1;
      RenderIsTail(collection, other);
      assert |Render(collection, other)| != |EvalEndpoint(collection)|;
    } else if !s1.EvalShape? {
      RenderIsTail(collection, s1);
      RenderIsTail(collection, s2);
      PrefixCancel(collection, Tail(s1), Tail(s2));
      TailInjective(s1, s2);
    }
  }

  /** The shape of the rule at index `i` of the table. */
  function ShapeAt(relations: seq<string>, i: nat): (s: PathShape)
    ensures ValidShape(s)
  {
    if i < 2 then CollectionShape
    else if i < 4 then InstanceShape(i - 2)
    else if i < 4 + 2 * |relations| then RelationShape((i - 4) % 2, relations[(i - 4) / 2])
    else EvalShape
  }

  lemma PathAt(collection: string, sets: MethodSets, relations: seq<string>, allowFunctions: bool, api: string, i: nat)
    requires i < |RouteTable(collection, sets, relations, allowFunctions, api)|
    ensures RouteTable(collection, sets, relations, allowFunctions, api)[i].path == Render(collection, ShapeAt(relations, i))
  {
    var t := RouteTable(collection, sets, relations, allowFunctions, api);
    var rel := RelationRules(collection, relations, api);
    if 4 <= i < 4 + |rel| {
      assert t[i] == rel[i - 4];
    }
  }

  /** The relation names of a model are distinct (they are attribute names). */
  predicate Distinct(relations: seq<string>) {
    forall a, b :: 0 <= a < b < |relations| ==> relations[a] != relations[b]
  }

  lemma ShapeAtInjective(relations: seq<string>, i: nat, j: nat)
    requires Distinct(relations) && i < j < 4 + 2 * |relations| + 1
    ensures ShapeAt(relations, i) == ShapeAt(relations, j) ==> i == 0 && j == 1
  {
    if 4 <= i && j < 4 + 2 * |relations| {
      var a, b := (i - 4) / 2, (j - 4) / 2;
      if a == b {
        assert (i - 4) % 2 != (j - 4) % 2;
      } else {
        assert a < b;
        assert relations[a] != relations[b];
      }
    } else if 2 <= i < 4 && j < 4 {
      assert InstanceShape(i - 2) != InstanceShape(j - 2);
    }
  }

  /**
   * Two rules of the table share a path only when they are the two
   * collection rules (given distinct relation names), and those two share
   * no method: no method passed to `add_url_rule` is bound twice to one
   * path.
   */
  lemma NoMethodRoutedTwice(collection: string, methods: set<string>, allowPatchMany: bool, relations: seq<string>, allowFunctions: bool, api: string)
    requires Distinct(relations)
    ensures var t := RouteTable(collection, PartitionMethods(methods, allowPatchMany), relations, allowFunctions, api);
      && (forall i, j :: 0 <= i < j < |t| && t[i].path == t[j].path ==> i == 0 && j == 1)
      && t[0].methods !! t[1].methods
  {
    var sets := PartitionMethods(methods, allowPatchMany);
    var t := RouteTable(collection, sets, relations, allowFunctions, api);
    forall i, j | 0 <= i < j < |t| && t[i].path == t[j].path ensures i == 0 && j == 1 {
      PathAt(collection, sets, relations, allowFunctions, api, i);
      PathAt(collection, sets, relations, allowFunctions, api, j);
      RenderInjective(collection, ShapeAt(relations, i), ShapeAt(relations, j));
      RouteTableSegments(collection, sets, relations, allowFunctions, api);
      ShapeAtInjective(relations, i, j);
    }
    PartitionProperties(methods, allowPatchMany);
  }

  /** The methods of the rule at index `i`: the three sets on the first four rules, GET alone after them. */
  lemma MethodsAt(collection: string, sets: MethodSets, relations: seq<string>, allowFunctions: bool, api: string, i: nat)
    requires i < |RouteTable(collection, sets, relations, allowFunctions, api)|
    ensures RouteTable(collection, sets, relations, allowFunctions, api)[i].methods
         == if i == 0 then sets.noInstance
            else if i == 1 then sets.possiblyEmptyInstance
            else if i < 4 then sets.instance
            else {"GET"}
  {
    var t := RouteTable(collection, sets, relations, allowFunctions, api);
    RouteTableSegments(collection, sets, relations, allowFunctions, api);
    var n := 4 + 2 * |relations|;
    if i < 2 {
      assert t[i] == t[..2][i];
    } else if i < 4 {
      assert t[i] == t[2..4][i - 2];
    } else if i < n {
      assert t[i] == t[4..n][i - 4];
    } else {
      assert t[i] == t[n..][i - n];
    }
  }

  /**
   * The methods routed anywhere in the table: the requested methods that
   * the blueprint knows, plus GET whenever there is a relation or function
   * evaluation (those rules are GET-only whatever was requested).
   */
  lemma RoutedMethods(collection: string, methods: set<string>, allowPatchMany: bool, relations: seq<string>, allowFunctions: bool, api: string)
    ensures var t := RouteTable(collection, PartitionMethods(methods, allowPatchMany), relations, allowFunctions, api);
      forall m :: (exists i :: 0 <= i < |t| && m in t[i].methods)
        <==> m in methods * KNOWN_METHODS || (m == "GET" && (|relations| > 0 || allowFunctions))
  {
    var sets := PartitionMethods(methods, allowPatchMany);
    var t := RouteTable(collection, sets, relations, allowFunctions, api);
    RouteTableSegments(collection, sets, relations, allowFunctions, api);
    PartitionProperties(methods, allowPatchMany);
    forall m ensures (exists i :: 0 <= i < |t| && m in t[i].methods) <==> m in methods * KNOWN_METHODS || (m == "GET" && (|relations| > 0 || allowFunctions)) {
      if exists i :: 0 <= i < |t| && m in t[i].methods {
        var i :| 0 <= i < |t| && m in t[i].methods;
        MethodsAt(collection, sets, relations, allowFunctions, api, i);
      }
      if m in sets.noInstance {
        MethodsAt(collection, sets, relations, allowFunctions, api, 0);
        assert m in t[0].methods;
      } else if m in sets.instance {
        MethodsAt(collection, sets, relations, allowFunctions, api, 2);
        assert m in t[2].methods;
      } else if m == "GET" && (|relations| > 0 || allowFunctions) {
        MethodsAt(collection, sets, relations, allowFunctions, api, 4);
        assert m in t[4].methods;
      }
    }
  }
}
