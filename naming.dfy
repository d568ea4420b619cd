/**
 * `APIManager._next_blueprint_name`: the name under which a new blueprint
 * is created, chosen against the names of the blueprints the Flask
 * application already holds (`app.blueprints`, here a set of strings).
 */
module Naming {
  import opened Wrappers
  import opened PyText

  /** The ValueError `_next_blueprint_name` can raise. */
  datatype NameError =
    | EmptySeparator   // `name.partition('')` on an empty base name
    | InvalidSuffix    // `int(...)` of a remainder that is not an integer literal

  /** `BLUEPRINTNAME_FORMAT` filled in: the base name followed by the decimal number. */
  function BlueprintName(basename: string, number: int): string {
    basename + IntToString(number)
  }

  /** The existing names that start with `basename` (the `existing` list). */
  function Existing(basename: string, blueprints: set<string>): set<string> {
    set n | n in blueprints && basename <= n
  }

  /** Every existing name's remainder after `basename` is an integer literal. */
  predicate SuffixesNumeric(basename: string, blueprints: set<string>) {
    forall n :: n in blueprints && basename <= n ==> ParseInt(n[|basename|..]).Ok?
  }

  /** The parsed remainders (the `existing_numbers` list, as a set). */
  function SuffixNumbers(basename: string, blueprints: set<string>): set<int>
    requires SuffixesNumeric(basename, blueprints)
  {
    set n | n in blueprints && basename <= n :: ParseInt(n[|basename|..]).value
  }

  lemma EmptyIfNoElement<T>(s: set<T>)
    requires forall x :: x !in s
    ensures s == {}
  {
  }

  lemma NonEmptyHasElement(s: set<int>)
    requires s != {}
    ensures exists x :: x in s
  {
    if forall x :: x !in s {
      EmptyIfNoElement(s);
      assert false;
    }
  }

  /** Every finite non-empty set of integers has a largest element. */
  lemma {:induction false} MaxExists(s: set<int>)
    requires s != {}
    ensures exists m :: m in s && forall y :: y in s ==> y <= m
    decreases |s|
  {
    NonEmptyHasElement(s);
    var x :| x in s;
    if s != {x} {
      MaxExists(s - {x});
      var m :| m in s - {x} && forall y :: y in s - {x} ==> y <= m;
      var top := if x <= m then m else x;
      forall y | y in s ensures y <= top {
        if y != x { assert y in s - {x}; }
      }
    } else {
      assert forall y :: y in s ==> y <= x;
    }
  }

  /** Python's `max` of a non-empty collection of integers. */
  function MaxOf(s: set<int>): (m: int)
    requires s != {}
    ensures m in s && forall y :: y in s ==> y <= m
  {
    MaxExists(s);
    var m :| m in s && forall y :: y in s ==> y <= m;
    m
  }

  lemma SuffixNumbersNonEmpty(basename: string, blueprints: set<string>)
    requires Existing(basename, blueprints) != {}
    requires SuffixesNumeric(basename, blueprints)
    ensures SuffixNumbers(basename, blueprints) != {}
  {
    var n :| n in Existing(basename, blueprints);
    assert ParseInt(n[|basename|..]).value in SuffixNumbers(basename, blueprints);
  }

  /**
   * `_next_blueprint_name(basename)`: `basename + "0"` when no existing
   * name starts with `basename`; otherwise `basename` followed by one more
   * than the largest integer that follows `basename` in those names. It
   * fails when one of those remainders is not an integer literal, and when
   * `basename` is empty (Python's `partition` refuses an empty separator).
   */
  function NextBlueprintName(basename: string, blueprints: set<string>): (r: Result<string, NameError>)
    ensures r.Ok? ==> basename <= r.value
    ensures Existing(basename, blueprints) == {} ==> r == Ok(basename + "0")
    ensures r.Err? <==> Existing(basename, blueprints) != {} && (basename == [] || !SuffixesNumeric(basename, blueprints))
  {
    if Existing(basename, blueprints) == {} then
      Ok(BlueprintName(basename, 0))
    else if basename == [] then
      Err(EmptySeparator)
    else if !SuffixesNumeric(basename, blueprints) then
      Err(InvalidSuffix)
    else
      SuffixNumbersNonEmpty(basename, blueprints);
      Ok(BlueprintName(basename, MaxOf(SuffixNumbers(basename, blueprints)) + 1))
  }

  /**
   * When names start with `basename` and all of them parse, the result is
   * `basename` followed by one more than the largest parsed remainder.
   */
  lemma NextNameIsSuccessorOfMax(basename: string, blueprints: set<string>)
    requires basename != [] && Existing(basename, blueprints) != {}
    requires SuffixesNumeric(basename, blueprints)
    ensures SuffixNumbers(basename, blueprints) != {}
    ensures NextBlueprintName(basename, blueprints) == Ok(basename + IntToString(MaxOf(SuffixNumbers(basename, blueprints)) + 1))
  {
    SuffixNumbersNonEmpty(basename, blueprints);
  }

  /**
   * The same result without `max`: the name is `basename` followed by some
   * `k`, one registered remainder parses to `k - 1`, and every registered
   * remainder parses to a number below `k`.
   */
  lemma NextNameAboveEveryRemainder(basename: string, blueprints: set<string>)
    requires NextBlueprintName(basename, blueprints).Ok? && Existing(basename, blueprints) != {}
    ensures exists k ::
      && NextBlueprintName(basename, blueprints).value == basename + IntToString(k)
      && (exists n :: n in Existing(basename, blueprints) && ParseInt(n[|basename|..]) == Ok(k - 1))
      && (forall n :: n in Existing(basename, blueprints) ==> ParseInt(n[|basename|..]).Ok? && ParseInt(n[|basename|..]).value < k)
  {
    NextNameIsSuccessorOfMax(basename, blueprints);
    var m := MaxOf(SuffixNumbers(basename, blueprints));
    var top :| top in blueprints && basename <= top && ParseInt(top[|basename|..]).value == m;
    assert top in Existing(basename, blueprints);
    forall n | n in Existing(basename, blueprints)
      ensures ParseInt(n[|basename|..]).Ok? && ParseInt(n[|basename|..]).value < m + 1
    {
      SuffixNumberOf(basename, blueprints, n);
    }
  }

  /** A name that starts with `basename` contributes its parsed remainder, if it is registered. */
  lemma SuffixNumberOf(basename: string, blueprints: set<string>, n: string)
    requires SuffixesNumeric(basename, blueprints) && basename <= n
    ensures n in blueprints ==> ParseInt(n[|basename|..]).Ok? && ParseInt(n[|basename|..]).value in SuffixNumbers(basename, blueprints)
  {
  }

  /** The name returned is never the name of an existing blueprint. */
  lemma NextNameFresh(basename: string, blueprints: set<string>)
    requires NextBlueprintName(basename, blueprints).Ok?
    ensures NextBlueprintName(basename, blueprints).value !in blueprints
  {
    var name := NextBlueprintName(basename, blueprints).value;
    if Existing(basename, blueprints) == {} {
      assert basename <= name && name !in Existing(basename, blueprints);
    } else {
      SuffixNumbersNonEmpty(basename, blueprints);
      var numbers := SuffixNumbers(basename, blueprints);
      var m := MaxOf(numbers);
      assert name == BlueprintName(basename, m + 1);
      assert name[|basename|..] == IntToString(m + 1);
      ParseIntOfIntToString(m + 1);
      assert m + 1 !in numbers;
      SuffixNumberOf(basename, blueprints, name);
    }
  }

  /** The names `basename + str(i)` for `0 <= i < count`. */
  function Range(basename: string, count: nat): set<string> {
    if count == 0 then {} else Range(basename, count - 1) + {BlueprintName(basename, count - 1)}
  }

  lemma {:induction false} RangeElement(basename: string, count: nat, n: string)
    requires n in Range(basename, count)
    ensures exists i :: 0 <= i < count && n == BlueprintName(basename, i)
  {
    if n != BlueprintName(basename, count - 1) {
      RangeElement(basename, count - 1, n);
    }
  }

  lemma {:induction false} InRange(basename: string, count: nat, i: nat)
    requires i < count
    ensures BlueprintName(basename, i) in Range(basename, count)
  {
    if i < count - 1 {
      InRange(basename, count - 1, i);
    }
  }

  /** The remainder of `basename + str(i)` after `basename` parses back to `i`. */
  lemma SuffixOfBlueprintName(basename: string, i: int)
    ensures basename <= BlueprintName(basename, i)
    ensures ParseInt(BlueprintName(basename, i)[|basename|..]) == Ok(i)
  {
    assert BlueprintName(basename, i)[|basename|..] == IntToString(i);
    ParseIntOfIntToString(i);
  }

  /** Beside names that do not start with `basename`, the names starting with it are the range. */
  lemma ExistingOfRange(basename: string, others: set<string>, count: nat)
    requires Existing(basename, others) == {}
    ensures Existing(basename, others + Range(basename, count)) == Range(basename, count)
  {
    var reg := others + Range(basename, count);
    forall n | n in reg && basename <= n ensures n in Range(basename, count) {
      assert n !in Existing(basename, others);
    }
    forall n | n in Range(basename, count) ensures basename <= n {
      RangeElement(basename, count, n);
      var i :| 0 <= i < count && n == BlueprintName(basename, i);
      SuffixOfBlueprintName(basename, i);
    }
  }

  /** The suffix numbers of the range `basename0 .. basename(count-1)` are `0 .. count-1`. */
  lemma SuffixNumbersOfRange(basename: string, others: set<string>, count: nat)
    requires Existing(basename, others) == {}
    ensures SuffixesNumeric(basename, others + Range(basename, count))
    ensures forall k :: k in SuffixNumbers(basename, others + Range(basename, count)) <==> 0 <= k < count
  {
    var reg := others + Range(basename, count);
    ExistingOfRange(basename, others, count);
    forall n | n in reg && basename <= n ensures ParseInt(n[|basename|..]).Ok? && 0 <= ParseInt(n[|basename|..]).value < count {
      assert n in Existing(basename, reg);
      RangeElement(basename, count, n);
      var i :| 0 <= i < count && n == BlueprintName(basename, i);
      SuffixOfBlueprintName(basename, i);
    }
    var numbers := SuffixNumbers(basename, reg);
    forall i | 0 <= i < count ensures i in numbers {
      SuffixOfBlueprintName(basename, i);
      InRange(basename, count, i);
      SuffixNumberOf(basename, reg, BlueprintName(basename, i));
    }
  }

  lemma NextNameAfterNonEmptyRange(basename: string, others: set<string>, count: nat)
    requires basename != [] && count > 0
    requires Existing(basename, others) == {}
    ensures NextBlueprintName(basename, others + Range(basename, count)) == Ok(BlueprintName(basename, count))
  {
    var reg := others + Range(basename, count);
    ExistingOfRange(basename, others, count);
    SuffixNumbersOfRange(basename, others, count);
    InRange(basename, count, count - 1);
    var numbers := SuffixNumbers(basename, reg);
    assert count - 1 in numbers;
    NextNameIsSuccessorOfMax(basename, reg);
    var m := MaxOf(numbers);
    assert m == count - 1;
  }

  /**
   * With the names `basename0 .. basename(count-1)` registered beside
   * names that do not start with `basename`, the next name is
   * `basename + str(count)`.
   */
  lemma NextNameAfterRange(basename: string, others: set<string>, count: nat)
    requires basename != []
    requires Existing(basename, others) == {}
    ensures NextBlueprintName(basename, others + Range(basename, count)) == Ok(BlueprintName(basename, count))
  {
    if count > 0 {
      NextNameAfterNonEmptyRange(basename, others, count);
    } else {
      assert others + Range(basename, 0) == others;
    }
  }

  /** Naming one more blueprint with `basename` and registering it (what `create_api` does to `app.blueprints`). */
  function RegisterOnce(basename: string, blueprints: set<string>): Result<set<string>, NameError> {
    match NextBlueprintName(basename, blueprints)
    case Err(e) => Err(e)
    case Ok(name) => Ok(blueprints + {name})
  }

  /** The registry after `count` rounds of `RegisterOnce`. */
  function RegisterRepeatedly(basename: string, blueprints: set<string>, count: nat): Result<set<string>, NameError>
    decreases count
  {
    if count == 0 then Ok(blueprints)
    else
      match RegisterRepeatedly(basename, blueprints, count - 1)
      case Err(e) => Err(e)
      case Ok(previous) => RegisterOnce(basename, previous)
  }

  /** With `basename0 .. basename(count-1)` registered, registering one more adds `basename + str(count)`. */
  lemma RegisterOnceAfterRange(basename: string, others: set<string>, count: nat)
    requires basename != []
    requires Existing(basename, others) == {}
    ensures RegisterOnce(basename, others + Range(basename, count)) == Ok(others + Range(basename, count + 1))
  {
    NextNameAfterRange(basename, others, count);
    assert others + Range(basename, count) + {BlueprintName(basename, count)} == others + Range(basename, count + 1);
  }

  /**
   * Naming and registering `count` times from a registry with no name
   * starting with `basename` adds exactly `basename0 .. basename(count-1)`.
   */
  lemma {:induction false} RepeatedRegistration(basename: string, blueprints: set<string>, count: nat)
    requires basename != []
    requires Existing(basename, blueprints) == {}
    ensures RegisterRepeatedly(basename, blueprints, count) == Ok(blueprints + Range(basename, count))
    decreases count
  {
    if count == 0 {
      assert blueprints + Range(basename, 0) == blueprints;
    } else {
      RepeatedRegistration(basename, blueprints, count - 1);
      RegisterOnceAfterRange(basename, blueprints, count - 1);
    }
  }

  /** The worked example: with `personapi0..2` registered the next name is `personapi3`. */
  lemma WorkedExample()
    ensures NextBlueprintName("personapi", {"personapi0", "personapi1", "personapi2"}) == Ok("personapi3")
  {
    var base := "personapi";
    assert BlueprintName(base, 0) == "personapi0" by { assert NatToString(0) == "0"; }
    assert BlueprintName(base, 1) == "personapi1" by { assert NatToString(1) == "1"; }
    assert BlueprintName(base, 2) == "personapi2" by { assert NatToString(2) == "2"; }
    assert BlueprintName(base, 3) == "personapi3" by { assert NatToString(3) == "3"; }
    assert Range(base, 1) == {"personapi0"};
    assert Range(base, 2) == {"personapi0", "personapi1"};
    assert Range(base, 3) == {"personapi0", "personapi1", "personapi2"};
    assert Existing(base, {}) == {};
    assert {} + Range(base, 3) == Range(base, 3);
    NextNameAfterRange(base, {}, 3);
  }

  /**
   * The number chosen is one more than the largest suffix, not the least
   * unused one: with only `personapi1` registered the next name is
   * `personapi2` although `personapi0` is free.
   */
  lemma GapIsNotFilled()
    ensures NextBlueprintName("personapi", {"personapi1"}) == Ok("personapi2")
  {
    var base := "personapi";
    assert BlueprintName(base, 1) == "personapi1" by { assert NatToString(1) == "1"; }
    assert BlueprintName(base, 2) == "personapi2" by { assert NatToString(2) == "2"; }
    SuffixOfBlueprintName(base, 1);
    assert Existing(base, {"personapi1"}) == {"personapi1"};
    assert SuffixNumbers(base, {"personapi1"}) == {1};
    NextNameIsSuccessorOfMax(base, {"personapi1"});
  }

  /**
   * A name of another API that merely starts with `basename` makes naming
   * fail: once `personapiapi0` exists (the blueprint of a collection named
   * `personapi`), naming for `personapi` raises, since `int('api0')` does.
   */
  lemma ForeignPrefixFails()
    ensures NextBlueprintName("personapi", {"personapiapi0"}) == Err(InvalidSuffix)
  {
    var base := "personapi";
    assert "personapiapi0"[|base|..] == "api0";
    assert ParseInt("api0").Err?;
    assert "personapiapi0" in Existing(base, {"personapiapi0"});
  }

  /**
   * Python's `int` accepts a sign, so a registered `personapi-5` is followed
   * by `personapi-4`: the number is not necessarily non-negative.
   */
  lemma NegativeSuffixExample()
    ensures NextBlueprintName("personapi", {"personapi-5"}) == Ok("personapi-4")
  {
    var base := "personapi";
    assert BlueprintName(base, -5) == "personapi-5" by { assert NatToString(5) == "5"; }
    assert BlueprintName(base, -4) == "personapi-4" by { assert NatToString(4) == "4"; }
    SuffixOfBlueprintName(base, -5);
    assert Existing(base, {"personapi-5"}) == {"personapi-5"};
    assert SuffixNumbers(base, {"personapi-5"}) == {-5};
    NextNameIsSuccessorOfMax(base, {"personapi-5"});
  }
}
