/**
 * One parameter: the constraint core (a value, an optional pair of range
 * bounds and an optional black/white list) with its three checks, and the
 * registry record that wraps a core with its type tag and display labels.
 */
module Parameters {
  import opened Basics
  import opened Values

  /** One end of a range: `Open` excludes the limit, `Close` includes it. */
  datatype RangeCondition = Open(limit: Value) | Close(limit: Value)

  /** A blacklist (the value must not be listed) or a whitelist (it must be). */
  datatype ListCondition = Black(items: seq<Value>) | White(items: seq<Value>)

  /** The relation a violated bound asked for: `name > l`, `name ≧ l`,
      `name < u` or `name ≦ u`. */
  datatype Relation = Greater | GreaterEq | LessThan | LessEqual

  /** How the list condition a value violated is phrased. */
  datatype ListPhrase = NotInTheList | InTheList

  /** The condition a violation reports: the relation (or list phrase)
      followed by the limit (or the listed items). */
  datatype Condition =
    | Compare(relation: Relation, limit: Value)
    | Listed(phrase: ListPhrase, items: seq<Value>)

  datatype RangeError = LessThanMinLimit(condition: Condition) | LargerThanMaxLimit(condition: Condition)

  datatype ListError = BlacklistViolation(condition: Condition) | WhitelistViolation(condition: Condition)

  /** `ParameterCore<T>`: `range.0` is the lower bound, `range.1` the upper one. */
  datatype Core = Core(
    value: Option<Value>,
    range: (Option<RangeCondition>, Option<RangeCondition>),
    list: Option<ListCondition>)

  function NewCore(): Core
  {
    Core(None, (None, None), None)
  }

  // What each constraint means, stated independently of how the checks compute it.

  /** `v` lies strictly above an open lower limit, or at or above a closed one. */
  predicate AboveMin(b: RangeCondition, v: Value)
  {
    match b
    case Open(l) => Less(l, v)
    case Close(l) => LessEq(l, v)
  }

  /** `v` lies strictly below an open upper limit, or at or below a closed one. */
  predicate BelowMax(b: RangeCondition, v: Value)
  {
    match b
    case Open(u) => Less(v, u)
    case Close(u) => LessEq(v, u)
  }

  predicate Admitted(l: ListCondition, v: Value)
  {
    match l
    case Black(xs) => v !in xs
    case White(xs) => v in xs
  }

  predicate MinHolds(c: Core)
  {
    c.value.None? || c.range.0.None? || AboveMin(c.range.0.value, c.value.value)
  }

  predicate MaxHolds(c: Core)
  {
    c.value.None? || c.range.1.None? || BelowMax(c.range.1.value, c.value.value)
  }

  predicate ListHolds(c: Core)
  {
    c.value.None? || c.list.None? || Admitted(c.list.value, c.value.value)
  }

  predicate Satisfied(c: Core)
  {
    MinHolds(c) && MaxHolds(c) && ListHolds(c)
  }

  /** The number of the three constraints the core's value violates. */
  function FailedChecks(c: Core): nat
  {
    (if MinHolds(c) then 0 else 1) + (if MaxHolds(c) then 0 else 1) + (if ListHolds(c) then 0 else 1)
  }

  function MinRelation(b: RangeCondition): Relation
  {
    if b.Open? then Greater else GreaterEq
  }

  function MaxRelation(b: RangeCondition): Relation
  {
    if b.Open? then LessThan else LessEqual
  }

  /** `check_min_limit`: fails only when a value and a lower bound are both
      present and the value does not lie above the bound. */
  function CheckMinLimit(c: Core): (r: Result<(), RangeError>)
    ensures r.Ok? <==> MinHolds(c)
    ensures r.Err? ==>
      && c.range.0.Some?
      && r.error == LessThanMinLimit(Compare(MinRelation(c.range.0.value), c.range.0.value.limit))
  {
    if c.value.Some? && c.range.0.Some? then
      var v := c.value.value;
      match c.range.0.value
      case Open(l) =>
        LessEqIffNotLess(v, l);
        if LessEq(v, l) then Err(LessThanMinLimit(Compare(Greater, l))) else Ok(())
      case Close(l) =>
        LessEqIffNotLess(l, v);
        if Less(v, l) then Err(LessThanMinLimit(Compare(GreaterEq, l))) else Ok(())
    else
      Ok(())
  }

  /** `check_max_limit`: fails only when a value and an upper bound are both
      present and the value does not lie below the bound. */
  function CheckMaxLimit(c: Core): (r: Result<(), RangeError>)
    ensures r.Ok? <==> MaxHolds(c)
    ensures r.Err? ==>
      && c.range.1.Some?
      && r.error == LargerThanMaxLimit(Compare(MaxRelation(c.range.1.value), c.range.1.value.limit))
  {
    if c.value.Some? && c.range.1.Some? then
      var v := c.value.value;
      match c.range.1.value
      case Open(u) =>
        LessEqIffNotLess(u, v);
        if LessEq(u, v) then Err(LargerThanMaxLimit(Compare(LessThan, u))) else Ok(())
      case Close(u) =>
        LessEqIffNotLess(v, u);
        if Less(u, v) then Err(LargerThanMaxLimit(Compare(LessEqual, u))) else Ok(())
    else
      Ok(())
  }

  /** `Vec::contains`: a front-to-back scan comparing with `==`. */
  function Contains(xs: seq<Value>, v: Value): (found: bool)
    ensures found <==> v in xs
  {
    if xs == [] then false
    else xs[0] == v || Contains(xs[1..], v)
  }

  /** `check_list_condition`: a blacklisted value or a value missing from
      the whitelist fails, each with its own error variant. */
  function CheckListCondition(c: Core): (r: Result<(), ListError>)
    ensures r.Ok? <==> ListHolds(c)
    ensures r.Err? ==>
      && c.list.Some?
      && (match c.list.value
          case Black(xs) => r.error == BlacklistViolation(Listed(NotInTheList, xs))
          case White(xs) => r.error == WhitelistViolation(Listed(InTheList, xs)))
  {
    if c.value.Some? && c.list.Some? then
      match c.list.value
      case Black(xs) =>
        if Contains(xs, c.value.value) then Err(BlacklistViolation(Listed(NotInTheList, xs))) else Ok(())
      case White(xs) =>
        if !Contains(xs, c.value.value) then Err(WhitelistViolation(Listed(InTheList, xs))) else Ok(())
    else
      Ok(())
  }

  /** A core without a value passes all three checks whatever its constraints,
      and a fresh core accepts any value. */
  lemma ValuelessCorePasses(c: Core, v: Value)
    ensures c.value.None? ==> CheckMinLimit(c).Ok? && CheckMaxLimit(c).Ok? && CheckListCondition(c).Ok?
    ensures NewCore().value.None? && NewCore().range == (None, None) && NewCore().list.None?
    ensures Satisfied(NewCore().(value := Some(v)))
  {
  }

  /** The number `k` as an integer value, or as a floating-point value when
      `float` holds (the unit cases run on every numeric type). */
  function Num(k: int, float: bool): Value
  {
    if float then RealVal(k as real) else IntVal(k)
  }

  /** The numeric unit cases: the value 1 against bounds and lists around
      it, for the integer types and for `f32`/`f64`. */
  lemma NumericCases(float: bool)
    ensures var c := NewCore().(value := Some(Num(1, float)));
      && CheckMinLimit(c).Ok? && CheckMaxLimit(c).Ok? && CheckListCondition(c).Ok?
      && CheckMinLimit(c.(range := (Some(Open(Num(0, float))), Some(Close(Num(1, float)))))).Ok?
      && CheckMaxLimit(c.(range := (Some(Open(Num(0, float))), Some(Close(Num(1, float)))))).Ok?
      && CheckMinLimit(c.(range := (Some(Close(Num(1, float))), Some(Open(Num(2, float)))))).Ok?
      && CheckMaxLimit(c.(range := (Some(Close(Num(1, float))), Some(Open(Num(2, float)))))).Ok?
      && CheckListCondition(c.(list := Some(Black([Num(0, float), Num(2, float), Num(4, float), Num(5, float)])))).Ok?
      && CheckListCondition(c.(list := Some(White([Num(0, float), Num(1, float), Num(4, float), Num(5, float)])))).Ok?
      && CheckMinLimit(c.(range := (Some(Open(Num(1, float))), Some(Open(Num(2, float)))))).Err?
      && CheckMaxLimit(c.(range := (Some(Open(Num(0, float))), Some(Open(Num(1, float)))))).Err?
      && CheckListCondition(c.(list := Some(Black([Num(0, float), Num(1, float), Num(4, float), Num(5, float)])))).error.BlacklistViolation?
      && CheckListCondition(c.(list := Some(White([Num(0, float), Num(2, float), Num(4, float), Num(5, float)])))).error.WhitelistViolation?
  {
  }

  /** The boolean and text unit cases: the value `true` and the text
      `"hello"` with no bounds, and against whitelists and blacklists. */
  lemma BoolAndTextCases()
    ensures var b := NewCore().(value := Some(BoolVal(true)));
      && CheckMinLimit(b).Ok? && CheckMaxLimit(b).Ok? && CheckListCondition(b).Ok?
      && CheckListCondition(b.(list := Some(White([BoolVal(true)])))).Ok?
      && CheckListCondition(b.(list := Some(White([BoolVal(false)])))).error.WhitelistViolation?
    ensures var t := NewCore().(value := Some(TextVal("hello")));
      var greetings := [TextVal("good mornig"), TextVal("good afternoon"), TextVal("good night")];
      var words := [TextVal("hello"), TextVal("world"), TextVal("!")];
      && CheckMinLimit(t).Ok? && CheckMaxLimit(t).Ok? && CheckListCondition(t).Ok?
      && CheckListCondition(t.(list := Some(Black(greetings)))).Ok?
      && CheckListCondition(t.(list := Some(White(words)))).Ok?
      && CheckListCondition(t.(list := Some(Black(words)))).error.BlacklistViolation?
      && CheckListCondition(t.(list := Some(White(greetings)))).error.WhitelistViolation?
  {
  }

  // The registry record.

  /** A piece of a display label: literal text, or a value shown with its
      `Display` implementation (left abstract). */
  datatype Piece = Lit(text: string) | Shown(value: Value)

  type Rendered = seq<Piece>

  /** `Parameter`: the core, the type it was declared with, and the labels
      and metadata used by the report. */
  datatype Parameter = Parameter(
    core: Core,
    tag: TypeTag,
    typeString: string,
    valueString: Option<Rendered>,
    rangeString: (Option<Rendered>, Option<Rendered>),
    listString: Option<(string, Rendered)>,
    explanation: Option<string>,
    unvisible: bool)

  function ValueLabel(v: Value): Rendered
  {
    [Shown(v)]
  }

  /** `make_min_limit_string`: `"l <"` or `"l ≦"`. */
  function MinLimitLabel(b: RangeCondition): (r: Option<Rendered>)
    ensures r.Some? && Shown(b.limit) in r.value
    ensures forall v :: Shown(v) in r.value ==> v == b.limit
  {
    match b
    case Open(l) => Some([Shown(l), Lit(" <")])
    case Close(l) => Some([Shown(l), Lit(" ≦")])
  }

  /** `make_max_limit_string`: `"< u"` or `"≦ u"`. */
  function MaxLimitLabel(b: RangeCondition): (r: Option<Rendered>)
    ensures r.Some? && Shown(b.limit) in r.value
    ensures forall v :: Shown(v) in r.value ==> v == b.limit
  {
    match b
    case Open(u) => Some([Lit("< "), Shown(u)])
    case Close(u) => Some([Lit("≦ "), Shown(u)])
  }

  /** The items shown one by one, separated by `", "`. */
  function Joined(xs: seq<Value>): (r: Rendered)
    ensures forall x :: x in xs ==> Shown(x) in r
    ensures forall v :: Shown(v) in r ==> v in xs
  {
    if xs == [] then []
    else if |xs| == 1 then [Shown(xs[0])]
    else [Shown(xs[0]), Lit(", ")] + Joined(xs[1..])
  }

  /** `make_list_info_string`: a header and the bracketed items; the
      whitelist body repeats its header as `"Whitelist: [...]"`. */
  function ListLabel(l: ListCondition): (r: Option<(string, Rendered)>)
    ensures r.Some? && r.value.0 == (if l.Black? then "Blacklist" else "Whitelist")
    ensures forall x :: x in l.items ==> Shown(x) in r.value.1
    ensures forall v :: Shown(v) in r.value.1 ==> v in l.items
  {
    match l
    case Black(xs) => Some(("Blacklist", [Lit("[")] + Joined(xs) + [Lit("]")]))
    case White(xs) => Some(("Whitelist", [Lit("Whitelist: [")] + Joined(xs) + [Lit("]")]))
  }

  /** The labels describe exactly the core's current value and constraints. */
  predicate InStep(p: Parameter)
  {
    && p.valueString == (if p.core.value.Some? then Some(ValueLabel(p.core.value.value)) else None)
    && p.rangeString.0 == (if p.core.range.0.Some? then MinLimitLabel(p.core.range.0.value) else None)
    && p.rangeString.1 == (if p.core.range.1.Some? then MaxLimitLabel(p.core.range.1.value) else None)
    && p.listString == (if p.core.list.Some? then ListLabel(p.core.list.value) else None)
  }

  /** Everything stored in the core is of the declared type. */
  predicate WellTyped(p: Parameter)
  {
    && (p.core.value.Some? ==> HasType(p.core.value.value, p.tag))
    && (p.core.range.0.Some? ==> HasType(p.core.range.0.value.limit, p.tag))
    && (p.core.range.1.Some? ==> HasType(p.core.range.1.value.limit, p.tag))
    && (p.core.list.Some? ==> forall x :: x in p.core.list.value.items ==> HasType(x, p.tag))
  }

  predicate Consistent(p: Parameter)
  {
    InStep(p) && WellTyped(p) && p.typeString == TypeName(p.tag)
  }

  /** `Parameter::new::<T>()`: an empty core of type `tag`, no labels, no
      explanation, visible. */
  function NewParameter(tag: TypeTag): (p: Parameter)
    ensures Consistent(p) && p.tag == tag
    ensures p.core.value.None? && p.core.range == (None, None) && p.core.list.None?
    ensures p.explanation.None? && !p.unvisible
  {
    Parameter(NewCore(), tag, TypeName(tag), None, (None, None), None, None, false)
  }

  /** A consistent record shows a value label exactly when it holds a value,
      and a bound or list label exactly when that constraint is set. */
  lemma LabelsFollowSlots(p: Parameter)
    requires InStep(p)
    ensures p.valueString.Some? <==> p.core.value.Some?
    ensures p.rangeString.0.Some? <==> p.core.range.0.Some?
    ensures p.rangeString.1.Some? <==> p.core.range.1.Some?
    ensures p.listString.Some? <==> p.core.list.Some?
  {
  }
}
