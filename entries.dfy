/**
 * The registry's error kinds and messages, and the effect of each setter on
 * one registry record: the source clones the stored core, changes one slot,
 * re-runs the relevant checks and swaps the new core and labels back in,
 * whatever the checks said.  Each such effect is a pure function here; the
 * class in module Registry applies it to its map and counter.
 */
module Entries {
  import opened Basics
  import opened Values
  import opened Parameters

  /** One line of an error report. */
  datatype Message =
    /** `name` = value does not satisfy the condition that `name` <condition>. */
    | BadCondition(name: string, value: Value, condition: Condition)
    /** in the line-th line of the file, `name` has not been added. */
    | LineNotAdded(line: nat, name: string)
    /** in the line-th line, each line must be '<name> <value>'. */
    | LineBadFormat(line: nat)
    /** a failed `set_value` report, annotated with its line. */
    | LineBadCondition(messages: seq<Message>, line: nat)
    /** in the line-th line, the type of `name` cannot be read from files. */
    | LineUnreadableType(line: nat, name: string, typeString: string)
    /** in the listed lines, `name` is duplicate. */
    | Duplicate(lines: seq<nat>, name: string)

  /** `ParameterBoxError`.  A report that the source joins with newlines is
      kept as the sequence of its lines. */
  datatype BoxError =
    | InvalidCondition(messages: seq<Message>)
    | AlreadyAdded(name: string)
    | NotAdded(name: string)
    | InvalidParse(typeString: string)
    | InvalidInputFile(messages: seq<Message>)
    | IoError(description: string)

  /** A rebuilt record and the violations found while rebuilding it. */
  datatype Update = Update(param: Parameter, violations: seq<Message>)

  /** What a setter returns for an update: `Ok` when nothing was violated. */
  function Outcome(u: Update): Result<(), BoxError>
  {
    if u.violations == [] then Ok(()) else Err(InvalidCondition(u.violations))
  }

  function MinViolation(name: string, c: Core): seq<Message>
  {
    match CheckMinLimit(c)
    case Err(LessThanMinLimit(condition)) => [BadCondition(name, c.value.value, condition)]
    case _ => []
  }

  function MaxViolation(name: string, c: Core): seq<Message>
  {
    match CheckMaxLimit(c)
    case Err(LargerThanMaxLimit(condition)) => [BadCondition(name, c.value.value, condition)]
    case _ => []
  }

  function ListViolation(name: string, c: Core): seq<Message>
  {
    match CheckListCondition(c)
    case Err(BlacklistViolation(condition)) => [BadCondition(name, c.value.value, condition)]
    case Err(WhitelistViolation(condition)) => [BadCondition(name, c.value.value, condition)]
    case Ok(_) => []
  }

  /** Every message is a violation by `name` of its value `v`. */
  predicate AllAbout(ms: seq<Message>, name: string, v: Value)
  {
    forall m :: m in ms ==> m.BadCondition? && m.name == name && m.value == v
  }

  /** `set_value` on a registered record: the value and its label are
      committed even when a check fails; the min, max and list checks are
      all run, and each failed one is reported once. */
  function SetValueOn(name: string, p: Parameter, v: Value): (u: Update)
    ensures u.param.core.value == Some(v)
    ensures u.param.core.(value := p.core.value) == p.core
    ensures u.param.valueString == Some(ValueLabel(v))
    ensures u.param.(core := p.core, valueString := p.valueString) == p
    ensures u.violations == [] <==> Satisfied(u.param.core)
    ensures |u.violations| == FailedChecks(u.param.core) <= 3
    ensures AllAbout(u.violations, name, v)
    ensures InStep(p) ==> InStep(u.param)
    ensures Consistent(p) && HasType(v, p.tag) ==> Consistent(u.param)
  {
    var core := p.core.(value := Some(v));
    Update(p.(core := core, valueString := Some(ValueLabel(v))),
           MinViolation(name, core) + MaxViolation(name, core) + ListViolation(name, core))
  }

  /** `set_range`: both bounds replaced and both re-checked against a
      present value; the value and the list are untouched. */
  function SetRangeOn(name: string, p: Parameter, lo: RangeCondition, hi: RangeCondition): (u: Update)
    ensures u.param.core.range == (Some(lo), Some(hi))
    ensures u.param.core.value == p.core.value && u.param.core.list == p.core.list
    ensures u.param.rangeString == (MinLimitLabel(lo), MaxLimitLabel(hi))
    ensures u.param.(core := p.core, rangeString := p.rangeString) == p
    ensures u.violations == [] <==> MinHolds(u.param.core) && MaxHolds(u.param.core)
    ensures |u.violations| == (if MinHolds(u.param.core) then 0 else 1) + (if MaxHolds(u.param.core) then 0 else 1)
    ensures p.core.value.Some? ==> AllAbout(u.violations, name, p.core.value.value)
    ensures p.core.value.None? ==> u.violations == []
    ensures InStep(p) ==> InStep(u.param)
    ensures Consistent(p) && HasType(lo.limit, p.tag) && HasType(hi.limit, p.tag) ==> Consistent(u.param)
  {
    var core := p.core.(range := (Some(lo), Some(hi)));
    var violations :=
      if core.value.Some? then MinViolation(name, core) + MaxViolation(name, core) else [];
    Update(p.(core := core, rangeString := (MinLimitLabel(lo), MaxLimitLabel(hi))), violations)
  }

  /** `set_min_limit`: only the lower bound and its label are replaced, and
      only the lower bound is re-checked. */
  function SetMinLimitOn(name: string, p: Parameter, b: RangeCondition): (u: Update)
    ensures u.param.core.range.0 == Some(b)
    ensures u.param.core.range.1 == p.core.range.1
    ensures u.param.core.value == p.core.value && u.param.core.list == p.core.list
    ensures u.param.rangeString == (MinLimitLabel(b), p.rangeString.1)
    ensures u.param.(core := p.core, rangeString := p.rangeString) == p
    ensures u.violations == [] <==> MinHolds(u.param.core)
    ensures |u.violations| <= 1
    ensures p.core.value.Some? ==> AllAbout(u.violations, name, p.core.value.value)
    ensures InStep(p) ==> InStep(u.param)
    ensures Consistent(p) && HasType(b.limit, p.tag) ==> Consistent(u.param)
  {
    var core := p.core.(range := (Some(b), p.core.range.1));
    var violations := if core.value.Some? then MinViolation(name, core) else [];
    Update(p.(core := core, rangeString := (MinLimitLabel(b), p.rangeString.1)), violations)
  }

  /** `set_max_limit`: only the upper bound and its label are replaced, and
      only the upper bound is re-checked. */
  function SetMaxLimitOn(name: string, p: Parameter, b: RangeCondition): (u: Update)
    ensures u.param.core.range.1 == Some(b)
    ensures u.param.core.range.0 == p.core.range.0
    ensures u.param.core.value == p.core.value && u.param.core.list == p.core.list
    ensures u.param.rangeString == (p.rangeString.0, MaxLimitLabel(b))
    ensures u.param.(core := p.core, rangeString := p.rangeString) == p
    ensures u.violations == [] <==> MaxHolds(u.param.core)
    ensures |u.violations| <= 1
    ensures p.core.value.Some? ==> AllAbout(u.violations, name, p.core.value.value)
    ensures InStep(p) ==> InStep(u.param)
    ensures Consistent(p) && HasType(b.limit, p.tag) ==> Consistent(u.param)
  {
    var core := p.core.(range := (p.core.range.0, Some(b)));
    var violations := if core.value.Some? then MaxViolation(name, core) else [];
    Update(p.(core := core, rangeString := (p.rangeString.0, MaxLimitLabel(b))), violations)
  }

  /** `set_list_info`: the whole list condition (black or white) is
      replaced, and only the list is re-checked. */
  function SetListInfoOn(name: string, p: Parameter, l: ListCondition): (u: Update)
    ensures u.param.core.list == Some(l)
    ensures u.param.core.value == p.core.value && u.param.core.range == p.core.range
    ensures u.param.listString == ListLabel(l)
    ensures u.param.(core := p.core, listString := p.listString) == p
    ensures u.violations == [] <==> ListHolds(u.param.core)
    ensures |u.violations| <= 1
    ensures p.core.value.Some? ==> AllAbout(u.violations, name, p.core.value.value)
    ensures InStep(p) ==> InStep(u.param)
    ensures Consistent(p) && (forall x :: x in l.items ==> HasType(x, p.tag)) ==> Consistent(u.param)
  {
    var core := p.core.(list := Some(l));
    var violations := if core.value.Some? then ListViolation(name, core) else [];
    Update(p.(core := core, listString := ListLabel(l)), violations)
  }

  /** `set_range` is `set_min_limit` followed by `set_max_limit`: the same
      record, and the same violations in the same order. */
  lemma RangeIsMinThenMax(name: string, p: Parameter, lo: RangeCondition, hi: RangeCondition)
    ensures var a := SetMinLimitOn(name, p, lo);
      var b := SetMaxLimitOn(name, a.param, hi);
      SetRangeOn(name, p, lo, hi) == Update(b.param, a.violations + b.violations)
  {
  }

  /** Constraints are checked retroactively: setting a lower bound after the
      value gives the same record as setting it before, and reports a
      violation exactly when the value lies outside the bound. */
  lemma MinLimitAfterValue(name: string, p: Parameter, v: Value, b: RangeCondition)
    ensures var later := SetMinLimitOn(name, SetValueOn(name, p, v).param, b);
      var earlier := SetValueOn(name, SetMinLimitOn(name, p, b).param, v);
      && later.param == earlier.param
      && (later.violations != [] <==> !AboveMin(b, v))
      && (later.violations != [] ==> earlier.violations != [])
  {
  }

  /** The same for an upper bound. */
  lemma MaxLimitAfterValue(name: string, p: Parameter, v: Value, b: RangeCondition)
    ensures var later := SetMaxLimitOn(name, SetValueOn(name, p, v).param, b);
      var earlier := SetValueOn(name, SetMaxLimitOn(name, p, b).param, v);
      && later.param == earlier.param
      && (later.violations != [] <==> !BelowMax(b, v))
      && (later.violations != [] ==> earlier.violations != [])
  {
  }

  /** And for a list condition. */
  lemma ListAfterValue(name: string, p: Parameter, v: Value, l: ListCondition)
    ensures var later := SetListInfoOn(name, SetValueOn(name, p, v).param, l);
      var earlier := SetValueOn(name, SetListInfoOn(name, p, l).param, v);
      && later.param == earlier.param
      && (later.violations != [] <==> !Admitted(l, v))
      && (later.violations != [] ==> earlier.violations != [])
  {
  }

  /** The last setter wins: a second value, bound or list replaces the first
      outright (a whitelist replaces a blacklist and vice versa). */
  lemma LastSetterWins(name: string, p: Parameter, v1: Value, v2: Value,
                       b1: RangeCondition, b2: RangeCondition, l1: ListCondition, l2: ListCondition)
    ensures SetValueOn(name, SetValueOn(name, p, v1).param, v2).param == SetValueOn(name, p, v2).param
    ensures SetMinLimitOn(name, SetMinLimitOn(name, p, b1).param, b2).param == SetMinLimitOn(name, p, b2).param
    ensures SetMaxLimitOn(name, SetMaxLimitOn(name, p, b1).param, b2).param == SetMaxLimitOn(name, p, b2).param
    ensures SetListInfoOn(name, SetListInfoOn(name, p, l1).param, l2).param == SetListInfoOn(name, p, l2).param
  {
  }

  /** No setter except `set_value` touches the value, so none ever clears it. */
  lemma ConstraintSettersKeepValue(name: string, p: Parameter, lo: RangeCondition, hi: RangeCondition, l: ListCondition)
    ensures SetRangeOn(name, p, lo, hi).param.core.value == p.core.value
    ensures SetMinLimitOn(name, p, lo).param.core.value == p.core.value
    ensures SetMaxLimitOn(name, p, hi).param.core.value == p.core.value
    ensures SetListInfoOn(name, p, l).param.core.value == p.core.value
  {
  }

  /** A parameter that was just added has no constraints, so it accepts any
      value of its type without a violation. */
  lemma FreshParameterAcceptsValue(name: string, tag: TypeTag, v: Value)
    requires HasType(v, tag)
    ensures var u := SetValueOn(name, NewParameter(tag), v);
      && u.violations == []
      && u.param == NewParameter(tag).(core := NewCore().(value := Some(v)), valueString := Some(ValueLabel(v)))
  {
    ValuelessCorePasses(NewCore(), v);
  }
}
