# Flask-Restless API manager: blueprint naming and URL rules

This project models the part of Flask-Restless's `APIManager` that turns one
`create_api` call into a Flask blueprint. The model covers four things.

- **Naming the blueprint.** `_next_blueprint_name` picks a blueprint name
  against the names already registered on the application (`app.blueprints`).
- **The authentication precondition.** `create_api_blueprint` checks the
  authentication options first and raises `IllegalArgumentError` when they
  are inconsistent.
- **Building the URL rules.**
  - The requested HTTP methods are upper-cased.
  - They are split into the POST-only collection set, the
    "possibly empty instance" set and the instance set.
  - The rules are added to the blueprint one `add_url_rule` call at a time:
    - two collection rules;
    - one instance rule per primary-key converter;
    - two GET rules per one-to-many relation;
    - an optional GET rule for function evaluation.
- **Registering the blueprint.** `create_api` registers it on the
  application.

Modules:

- `Wrappers` (`wrappers.dfy`): `Option`, `Result` and `Outcome`.
- `PyText` (`pytext.dfy`): the Python 2 built-ins the core relies on.
  - `int()` of a string: optional surrounding ASCII whitespace, an optional
    sign (whitespace may follow it), then decimal digits. It fails with
    `InvalidLiteral` otherwise.
  - `str()` of an integer.
  - ASCII `upper()`.
  - `ParseInt(IntToString(i)) == Ok(i)` is proved for every integer.
- `Naming` (`naming.dfy`): `_next_blueprint_name` as a pure function of the
  base name and the set of registered names, with the freshness and the
  worked example its doc comment promises, the places where the code departs
  from that comment, and repeated registration.
- `Routes` (`routes.dfy`): method normalisation and partition, and the
  endpoint paths. The ordered rule table is a value, together with its
  shape, path uniqueness and the set of routed methods.
- `Manager` (`manager.dfy`): the options record, and `Plan`, which gives the
  blueprint `create_api_blueprint` returns or the error it raises. It also
  holds the classes `Blueprint` (its rule list, appended to by `AddUrlRule`),
  `Application` (the registered names) and `APIManager`. In `APIManager`:
  - `CreateApiBlueprint` checks the options, names the blueprint and calls
    `AddRouteTable`, whose loops over the converters and relations add the
    rules one at a time. It is proved equal to `Plan`.
  - `CreateApi` registers the new name.

Where the documentation and the code disagree, the model follows the code:

- **Collection name.** When `collection_name` is `None`, the collection name
  is the model's `__tablename__` (manager.py:370-371). The docstring says it
  is the lower-cased class name.
- **The chosen number.**
  - The number is one more than the largest parsed suffix. It is not "the
    next non-negative integer not already used": `GapIsNotFilled` shows that
    a free `personapi0` is skipped.
  - Because Python's `int` accepts a sign, it can be negative
    (`NegativeSuffixExample`).
- **Names that only share a prefix.** A registered name that starts with
  the base name but continues with something other than an integer literal
  makes naming raise `ValueError`. For example, after `personapiapi0` (the
  blueprint of a collection called `personapi`), naming for `person` fails
  (`ForeignPrefixFails`).
- **Empty method sets.** All collection and instance rules are added even
  when their method set is empty. Unknown verbs in `methods` are dropped
  silently (`RoutedMethods`).
- **GET on relation and eval rules.** These rules accept GET even when GET is
  not among the requested methods.

## Model

| member | source | states |
|---|---|---|
| PyText.ParseInt | flask_restless/manager.py:133 | `int(s)` of a remainder; a failure carries the literal that was refused |
| PyText.ParseIntNeedsDigit | flask_restless/manager.py:133 | a remainder without any digit (in particular the empty one) is refused by `int` |
| PyText.ParseIntOfIntToString | flask_restless/manager.py:133-135 | `int(str(i)) == i` for every integer, negative ones included |
| PyText.IntToString | flask_restless/manager.py:135 | `str(i)` is non-empty, starts with `-` exactly when `i` is negative, and is otherwise digits |
| PyText.IntToStringCanonical | flask_restless/manager.py:135 | after the optional `-`, `str(i)` is a non-empty run of digits with no leading zero |
| PyText.Upper | flask_restless/manager.py:373 | `upper()` keeps the length, leaves no lower-case ASCII letter and changes only lower-case letters |
| PyText.UpperIdempotent | flask_restless/manager.py:373 | upper-casing twice is upper-casing once |
| Naming.MaxOf | flask_restless/manager.py:134 | `max` of a non-empty set of integers is an element no smaller than any other |
| Naming.BlueprintName | flask_restless/manager.py:60 | no contract of its own: `BLUEPRINTNAME_FORMAT % (basename, number)`, the base name followed by `str(number)`; characterised by `SuffixOfBlueprintName` |
| Naming.SuffixOfBlueprintName | flask_restless/manager.py:133-135 | a formatted name starts with its base name, and `int` of the remainder after the base name gives the number back |
| Naming.Existing | flask_restless/manager.py:126 | no contract of its own: the registered names that start with the base name (the `existing` list as a set); `NextBlueprintName`, `NextNameAboveEveryRemainder` and `ExistingOfRange` are stated over it |
| Naming.SuffixNumbers | flask_restless/manager.py:133 | no contract of its own: the parsed remainders of `existing` (the `existing_numbers` list as a set), defined when every remainder parses; characterised by `SuffixNumberOf`, `NextNameIsSuccessorOfMax` and `SuffixNumbersOfRange` |
| Naming.SuffixNumberOf | flask_restless/manager.py:133 | each registered name that starts with the base name contributes the parsed value of its remainder |
| Naming.ExistingOfRange | flask_restless/manager.py:126 | beside names that do not start with the base name, `existing` is exactly `basename0 .. basename(n-1)` |
| Naming.NextBlueprintName | flask_restless/manager.py:110-135 | the name starts with the base name; it is `basename + "0"` when no registered name starts with the base name; naming fails exactly when some name does and either the base name is empty or some remainder is not an integer literal |
| Naming.NextNameIsSuccessorOfMax | flask_restless/manager.py:130-135 | when names start with the base name and all parse, the name is the base name followed by one more than the largest parsed remainder |
| Naming.NextNameAboveEveryRemainder | flask_restless/manager.py:126-135 | without `max`: when some registered name starts with the base name and naming succeeds, the name is `basename + str(k)` where one registered remainder parses to `k - 1` and every one parses below `k` |
| Naming.NextNameFresh | flask_restless/manager.py:113-115 | the name returned is not the name of any registered blueprint |
| Naming.SuffixNumbersOfRange | flask_restless/manager.py:126-133 | with `basename0 .. basename(n-1)` registered beside unrelated names, every remainder parses and the parsed suffixes are exactly `0 .. n-1` |
| Naming.NextNameAfterRange | flask_restless/manager.py:117-120 | with `basename0 .. basename(n-1)` registered beside unrelated names, the next name is `basename + str(n)` |
| Naming.RegisterOnce | flask_restless/manager.py:460-461 | no contract of its own: one `create_api` round on the registered names, naming then adding the name, or naming's error; characterised by `RegisterOnceAfterRange` and `Manager.APIManager.CreateApi` |
| Naming.RegisterRepeatedly | flask_restless/manager.py:460-461 | no contract of its own: `n` such rounds in a row on one base name, stopping at the first error; characterised by `RepeatedRegistration` |
| Naming.RegisterOnceAfterRange | flask_restless/manager.py:117-122 | naming and registering once more extends `basename0 .. basename(n-1)` to `basename0 .. basename(n)` |
| Naming.RepeatedRegistration | flask_restless/manager.py:117-122 | naming and registering `n` times from a registry with no name starting with the base name adds exactly `basename0 .. basename(n-1)` |
| Naming.WorkedExample | flask_restless/manager.py:117-120 | `personapi0`, `personapi1`, `personapi2` registered give `personapi3` |
| Naming.GapIsNotFilled | flask_restless/manager.py:113-115 | with only `personapi1` registered the next name is `personapi2`, not the unused `personapi0` |
| Naming.ForeignPrefixFails | flask_restless/manager.py:126-133 | a registered `personapiapi0` makes naming for `personapi` fail, because `int('api0')` raises |
| Naming.NegativeSuffixExample | flask_restless/manager.py:133-134 | a registered `personapi-5` is followed by `personapi-4` |
| Routes.NormaliseMethods | flask_restless/manager.py:372-373 | the result holds exactly the upper-case forms of the requested methods, and each of its elements is upper-case |
| Routes.NormaliseIdempotent | flask_restless/manager.py:373 | normalising normalised methods changes nothing |
| Routes.NormaliseLowerCase | flask_restless/manager.py:372-373 | `get` and `Post` are normalised to `GET` and `POST` |
| Routes.PartitionMethods | flask_restless/manager.py:374-382 | the three sets are subsets of the methods: POST alone; GET, plus PATCH and PUT under `allow_patch_many`; GET, PATCH, DELETE and PUT |
| Routes.PartitionProperties | flask_restless/manager.py:374-382 | the two collection sets are disjoint, POST is never an instance method, DELETE never a collection method, the defaulted set lies within the instance set, and the three together are exactly the requested known methods |
| Routes.CollectionEndpoint | flask_restless/manager.py:384 | no contract of its own: `'/%s' % collection_name`; `Manager.PlanRules` states the collection rules' path |
| Routes.InstanceEndpoint | flask_restless/manager.py:418-419 | no contract of its own: the collection path, then `/<converter:instid>`; `RenderInjective` and `RouteTableShape` are stated over it |
| Routes.RelationEndpoint | flask_restless/manager.py:426-427 | no contract of its own: the collection path, then `/<converter:instid>/relname/`; `RenderInjective` and `RouteTableShape` are stated over it |
| Routes.EvalEndpoint | flask_restless/manager.py:437 | no contract of its own: `'/eval'` before the collection path; `RenderInjective` and `RouteTableShape` are stated over it |
| Routes.RouteTable | flask_restless/manager.py:410-439 | no contract of its own: the rules in the order the `add_url_rule` calls add them; characterised by `RouteTableSegments`, `RouteTableShape`, `OnlySecondRuleDefaultsInstid`, `NoMethodRoutedTwice`, `MethodsAt` and `RoutedMethods` |
| Routes.RelationRulesAppend | flask_restless/manager.py:423-429 | the relation rules of one more relation are the earlier ones followed by its `int` and `string` pair |
| Routes.RouteTableSegments | flask_restless/manager.py:410-439 | the table is the two collection rules, then the two instance rules, then the relation rules, then the eval rule if any, at those positions |
| Routes.RelationRuleAt | flask_restless/manager.py:423-429 | rule `2*r + c` of the relation rules is the GET rule of relation `r` with converter `c` |
| Routes.RouteTableShape | flask_restless/manager.py:410-439 | `4 + 2*|relations|` rules, plus one with `allow_functions`; the exact entry at each position, the eval rule last |
| Routes.OnlySecondRuleDefaultsInstid | flask_restless/manager.py:410-414 | exactly the second rule defaults `instid` to `None` |
| Routes.RenderInjective | flask_restless/manager.py:384-437 | collection, instance, relation and eval paths built from one collection path are all distinct unless they are the same kind of rule with the same converter and relation |
| Routes.NoMethodRoutedTwice | flask_restless/manager.py:375-439 | given distinct relation names, only the two collection rules share a path, and they share no method |
| Routes.MethodsAt | flask_restless/manager.py:410-439 | the first four rules carry the three method sets (the instance set twice), and every later rule carries GET alone |
| Routes.RoutedMethods | flask_restless/manager.py:375-439 | a method is routed by some rule exactly when it is a requested known method, or it is GET and there are relations or function evaluation |
| Manager.ApiName | flask_restless/manager.py:50 | no contract of its own: `APINAME_FORMAT % collection_name`, the collection name followed by `api`; `PlanName` states the blueprint name starts with it |
| Manager.CollectionName | flask_restless/manager.py:370-371 | no contract of its own: `collection_name`, or the model's `__tablename__` when it is `None`; `PlanRules` states the collection path over it |
| Manager.AuthWithoutFunction | flask_restless/manager.py:366 | no contract of its own: some method requires authentication and no authentication function is given; `AuthCheckedFirst` shows it is exactly the `IllegalArgumentError` case |
| Manager.Plan | flask_restless/manager.py:366-440 | no contract of its own: the blueprint `create_api_blueprint` returns, or the error it raises, in the source's order; characterised by `AuthCheckedFirst`, `PlanFailsOnlyInNaming`, `PlanName` and `PlanRules` |
| Manager.AuthCheckedFirst | flask_restless/manager.py:366-369 | authentication required without a function raises `IllegalArgumentError` with its message whatever the model and the registry, and that is the only `IllegalArgumentError` |
| Manager.PlanFailsOnlyInNaming | flask_restless/manager.py:366-402 | past the authentication check the call fails exactly when naming does, and never on an empty base name |
| Manager.PlanName | flask_restless/manager.py:386-402 | the blueprint name starts with `collection_name + 'api'`, is unregistered, and ends in `0` when no registered name starts with that prefix |
| Manager.PlanRules | flask_restless/manager.py:370-439 | the collection path is `'/' + collection_name`, which defaults to the table name; instance and eval paths follow it; the rule count and the URL prefix are as given |
| Manager.ReadOnlyNormalised | flask_restless/manager.py:24 | `READONLY_METHODS`, the default `methods`, is `{GET}` and is already in the upper-case form line 373 gives it |
| Manager.ReadOnlyPersonTable | flask_restless/manager.py:410-421 | with GET only, the table for `/person` without relations or eval is the empty-method POST rule, the defaulted GET rule and the two instance GET rules |
| Manager.DefaultOptionsExample | flask_restless/manager.py:193-439 | the defaults on a model `person` give `personapi0` under `/api` with an empty-method POST rule and three GET rules |
| Manager.Blueprint.constructor | flask_restless/manager.py:409 | a new blueprint has the given name and URL prefix and no rules |
| Manager.Blueprint.AddUrlRule | flask_restless/manager.py:410-439 | each `add_url_rule` call appends its rule after the rules added before |
| Manager.Application.RegisterBlueprint | flask_restless/manager.py:461 | registering adds the blueprint's name to the registered names |
| Manager.AddRelationPair | flask_restless/manager.py:425-429 | the inner loop appends the relation's `int` and `string` GET rules after the rules already there |
| Manager.AddRouteTable | flask_restless/manager.py:410-439 | the `add_url_rule` calls, loops included, append exactly the route table after the blueprint's earlier rules |
| Manager.APIManager.CreateApiBlueprint | flask_restless/manager.py:366-440 | the loops build a fresh blueprint whose name, prefix and rules are those of `Plan` for the current registry, or the call fails with `Plan`'s error; nothing is registered |
| Manager.APIManager.CreateApi | flask_restless/manager.py:442-461 | on success exactly one new, previously unregistered name joins `app.blueprints`; on failure the registry is unchanged |

## Left out

- `__init__` and `init_app` only store the application and the database session (or wrap it in `scoped_session`); the application is a constructor argument here.
- `API.as_view`, `FunctionAPI.as_view`, `_related_collection` and `_get_onetomany_relations` live in `views.py`, which is not part of this model. The views are tags naming their API, and the relations are an ordered list on the model record.
- The processor callbacks, `include_columns`, `patch_columns`, `validation_exceptions` and `results_per_page` are only forwarded to the view, so they are not modelled.
- The module name passed to `Blueprint`, and everything Flask does beneath `add_url_rule` and `register_blueprint`, are not modelled: endpoint names, the automatic `HEAD` and `OPTIONS` methods, `url_prefix` joining, and name-collision checks. A rule is recorded as a value, and registration adds the name to a set.
- Concurrency: the source has no locking around the registry, and the model is sequential.
- The documented `eval` collection-name hazard is not checked by the source and is not checked here.
- Naming.NextBlueprintName: `app.blueprints` is a set of names, so the order in which `int` meets the remainders does not matter; which `ValueError` message Python would print is not modelled.
- PyText.ParseInt: only the ASCII digits and ASCII whitespace of Python 2 `int` are accepted; Unicode digits and whitespace, and the underscores Python 3 allows, are not modelled.
- PyText.Upper: only ASCII letters are upper-cased; Python's Unicode case mapping is not modelled.
- `methods` is a set of strings; a caller passing a list with repeats is modelled by its set of elements, which is what `frozenset` makes of it.
