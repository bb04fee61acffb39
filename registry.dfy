/**
 * `ParameterBox`: the registry of named parameters.  It owns a map from
 * name to record, the names in the order they were added, and a counter of
 * every error it has reported.  Setters rebuild the record with the pure
 * functions of module Entries and store the result whatever the checks say.
 */
module Registry {
  import opened Basics
  import opened Values
  import opened Parameters
  import opened Entries
  import opened Ingest

  class ParameterBox {
    var params: map<string, Parameter>
    var order: seq<string>
    var errors: nat

    /** `order` lists each registered name exactly once, and every record is
        consistent (labels in step with the core, contents of its type). */
    ghost predicate Valid()
      reads this
    {
      && (forall i, j :: 0 <= i < j < |order| ==> order[i] != order[j])
      && (forall n :: n in order <==> n in params)
      && (forall n :: n in params ==> Consistent(params[n]))
    }

    constructor ()
      ensures Valid()
      ensures params == map[] && order == [] && errors == 0
    {
      params := map[];
      order := [];
      errors := 0;
    }

    /** `add::<T>`: a new name gets a fresh record and is appended to the
        order; a name already present is an error and changes nothing else. */
    method Add(name: string, tag: TypeTag) returns (r: Result<(), BoxError>)
      requires Valid()
      modifies this
      ensures Valid()
      ensures name in old(params) ==>
        && r == Err(AlreadyAdded(name))
        && params == old(params) && order == old(order) && errors == old(errors) + 1
      ensures name !in old(params) ==>
        && r == Ok(())
        && params == old(params)[name := NewParameter(tag)]
        && order == old(order) + [name] && errors == old(errors)
    {
      if name in params {
        errors := errors + 1;
        r := Err(AlreadyAdded(name));
      } else {
        params := params[name := NewParameter(tag)];
        order := order + [name];
        r := Ok(());
      }
    }

    /** Stores the update of `name`'s record, counts its violations and
        reports them. */
    method Apply(name: string, u: Update) returns (r: Result<(), BoxError>)
      requires Valid() && name in params && Consistent(u.param)
      modifies this
      ensures Valid() && order == old(order)
      ensures params == old(params)[name := u.param]
      ensures errors == old(errors) + |u.violations|
      ensures r == Outcome(u)
    {
      params := params[name := u.param];
      errors := errors + |u.violations|;
      r := Outcome(u);
    }

    /** `set_value::<T>`: the value is committed even when it violates a
        constraint; the counter rises by the number of failed checks and
        `InvalidCondition` lists them.  An unknown name is `NotAdded`. */
    method SetValue(name: string, value: Value) returns (r: Result<(), BoxError>)
      requires Valid()
      requires name in params ==> HasType(value, params[name].tag)
      modifies this
      ensures Valid() && order == old(order)
      ensures name in old(params) ==>
        var u := SetValueOn(name, old(params)[name], value);
        params == old(params)[name := u.param] && errors == old(errors) + |u.violations| && r == Outcome(u)
      ensures name !in old(params) ==>
        params == old(params) && errors == old(errors) + 1 && r == Err(NotAdded(name))
    {
      if name in params {
        r := Apply(name, SetValueOn(name, params[name], value));
      } else {
        errors := errors + 1;
        r := Err(NotAdded(name));
      }
    }

    /** `set_range`: replaces both bounds and re-checks both against a
        present value. */
    method SetRange(name: string, lo: RangeCondition, hi: RangeCondition) returns (r: Result<(), BoxError>)
      requires Valid()
      requires name in params ==> HasType(lo.limit, params[name].tag) && HasType(hi.limit, params[name].tag)
      modifies this
      ensures Valid() && order == old(order)
      ensures name in old(params) ==>
        var u := SetRangeOn(name, old(params)[name], lo, hi);
        params == old(params)[name := u.param] && errors == old(errors) + |u.violations| && r == Outcome(u)
      ensures name !in old(params) ==>
        params == old(params) && errors == old(errors) + 1 && r == Err(NotAdded(name))
    {
      if name in params {
        r := Apply(name, SetRangeOn(name, params[name], lo, hi));
      } else {
        errors := errors + 1;
        r := Err(NotAdded(name));
      }
    }

    /** `set_min_limit`: replaces the lower bound only and re-checks it. */
    method SetMinLimit(name: string, b: RangeCondition) returns (r: Result<(), BoxError>)
      requires Valid()
      requires name in params ==> HasType(b.limit, params[name].tag)
      modifies this
      ensures Valid() && order == old(order)
      ensures name in old(params) ==>
        var u := SetMinLimitOn(name, old(params)[name], b);
        params == old(params)[name := u.param] && errors == old(errors) + |u.violations| && r == Outcome(u)
      ensures name !in old(params) ==>
        params == old(params) && errors == old(errors) + 1 && r == Err(NotAdded(name))
    {
      if name in params {
        r := Apply(name, SetMinLimitOn(name, params[name], b));
      } else {
        errors := errors + 1;
        r := Err(NotAdded(name));
      }
    }

    /** `set_max_limit`: replaces the upper bound only and re-checks it. */
    method SetMaxLimit(name: string, b: RangeCondition) returns (r: Result<(), BoxError>)
      requires Valid()
      requires name in params ==> HasType(b.limit, params[name].tag)
      modifies this
      ensures Valid() && order == old(order)
      ensures name in old(params) ==>
        var u := SetMaxLimitOn(name, old(params)[name], b);
        params == old(params)[name := u.param] && errors == old(errors) + |u.violations| && r == Outcome(u)
      ensures name !in old(params) ==>
        params == old(params) && errors == old(errors) + 1 && r == Err(NotAdded(name))
    {
      if name in params {
        r := Apply(name, SetMaxLimitOn(name, params[name], b));
      } else {
        errors := errors + 1;
        r := Err(NotAdded(name));
      }
    }

    /** `set_list_info`: replaces the list condition and re-checks it. */
    method SetListInfo(name: string, l: ListCondition) returns (r: Result<(), BoxError>)
      requires Valid()
      requires name in params ==> forall x :: x in l.items ==> HasType(x, params[name].tag)
      modifies this
      ensures Valid() && order == old(order)
      ensures name in old(params) ==>
        var u := SetListInfoOn(name, old(params)[name], l);
        params == old(params)[name := u.param] && errors == old(errors) + |u.violations| && r == Outcome(u)
      ensures name !in old(params) ==>
        params == old(params) && errors == old(errors) + 1 && r == Err(NotAdded(name))
    {
      if name in params {
        r := Apply(name, SetListInfoOn(name, params[name], l));
      } else {
        errors := errors + 1;
        r := Err(NotAdded(name));
      }
    }

    // The public wrappers, one per kind of bound.

    method SetRangeOpenOpen(name: string, lo: Value, hi: Value) returns (r: Result<(), BoxError>)
      requires Valid()
      requires name in params ==> HasType(lo, params[name].tag) && HasType(hi, params[name].tag)
      modifies this
      ensures Valid() && order == old(order)
      ensures name in old(params) ==>
        var u := SetRangeOn(name, old(params)[name], Open(lo), Open(hi));
        params == old(params)[name := u.param] && errors == old(errors) + |u.violations| && r == Outcome(u)
      ensures name !in old(params) ==>
        params == old(params) && errors == old(errors) + 1 && r == Err(NotAdded(name))
    {
      r := SetRange(name, Open(lo), Open(hi));
    }

    method SetRangeOpenClose(name: string, lo: Value, hi: Value) returns (r: Result<(), BoxError>)
      requires Valid()
      requires name in params ==> HasType(lo, params[name].tag) && HasType(hi, params[name].tag)
      modifies this
      ensures Valid() && order == old(order)
      ensures name in old(params) ==>
        var u := SetRangeOn(name, old(params)[name], Open(lo), Close(hi));
        params == old(params)[name := u.param] && errors == old(errors) + |u.violations| && r == Outcome(u)
      ensures name !in old(params) ==>
        params == old(params) && errors == old(errors) + 1 && r == Err(NotAdded(name))
    {
      r := SetRange(name, Open(lo), Close(hi));
    }

    method SetRangeCloseOpen(name: string, lo: Value, hi: Value) returns (r: Result<(), BoxError>)
      requires Valid()
      requires name in params ==> HasType(lo, params[name].tag) && HasType(hi, params[name].tag)
      modifies this
      ensures Valid() && order == old(order)
      ensures name in old(params) ==>
        var u := SetRangeOn(name, old(params)[name], Close(lo), Open(hi));
        params == old(params)[name := u.param] && errors == old(errors) + |u.violations| && r == Outcome(u)
      ensures name !in old(params) ==>
        params == old(params) && errors == old(errors) + 1 && r == Err(NotAdded(name))
    {
      r := SetRange(name, Close(lo), Open(hi));
    }

    method SetRangeCloseClose(name: string, lo: Value, hi: Value) returns (r: Result<(), BoxError>)
      requires Valid()
      requires name in params ==> HasType(lo, params[name].tag) && HasType(hi, params[name].tag)
      modifies this
      ensures Valid() && order == old(order)
      ensures name in old(params) ==>
        var u := SetRangeOn(name, old(params)[name], Close(lo), Close(hi));
        params == old(params)[name := u.param] && errors == old(errors) + |u.violations| && r == Outcome(u)
      ensures name !in old(params) ==>
        params == old(params) && errors == old(errors) + 1 && r == Err(NotAdded(name))
    {
      r := SetRange(name, Close(lo), Close(hi));
    }

    method SetMinLimitOpen(name: string, limit: Value) returns (r: Result<(), BoxError>)
      requires Valid()
      requires name in params ==> HasType(limit, params[name].tag)
      modifies this
      ensures Valid() && order == old(order)
      ensures name in old(params) ==>
        var u := SetMinLimitOn(name, old(params)[name], Open(limit));
        params == old(params)[name := u.param] && errors == old(errors) + |u.violations| && r == Outcome(u)
      ensures name !in old(params) ==>
        params == old(params) && errors == old(errors) + 1 && r == Err(NotAdded(name))
    {
      r := SetMinLimit(name, Open(limit));
    }

    method SetMinLimitClose(name: string, limit: Value) returns (r: Result<(), BoxError>)
      requires Valid()
      requires name in params ==> HasType(limit, params[name].tag)
      modifies this
      ensures Valid() && order == old(order)
      ensures name in old(params) ==>
        var u := SetMinLimitOn(name, old(params)[name], Close(limit));
        params == old(params)[name := u.param] && errors == old(errors) + |u.violations| && r == Outcome(u)
      ensures name !in old(params) ==>
        params == old(params) && errors == old(errors) + 1 && r == Err(NotAdded(name))
    {
      r := SetMinLimit(name, Close(limit));
    }

    method SetMaxLimitOpen(name: string, limit: Value) returns (r: Result<(), BoxError>)
      requires Valid()
      requires name in params ==> HasType(limit, params[name].tag)
      modifies this
      ensures Valid() && order == old(order)
      ensures name in old(params) ==>
        var u := SetMaxLimitOn(name, old(params)[name], Open(limit));
        params == old(params)[name := u.param] && errors == old(errors) + |u.violations| && r == Outcome(u)
      ensures name !in old(params) ==>
        params == old(params) && errors == old(errors) + 1 && r == Err(NotAdded(name))
    {
      r := SetMaxLimit(name, Open(limit));
    }

    method SetMaxLimitClose(name: string, limit: Value) returns (r: Result<(), BoxError>)
      requires Valid()
      requires name in params ==> HasType(limit, params[name].tag)
      modifies this
      ensures Valid() && order == old(order)
      ensures name in old(params) ==>
        var u := SetMaxLimitOn(name, old(params)[name], Close(limit));
        params == old(params)[name := u.param] && errors == old(errors) + |u.violations| && r == Outcome(u)
      ensures name !in old(params) ==>
        params == old(params) && errors == old(errors) + 1 && r == Err(NotAdded(name))
    {
      r := SetMaxLimit(name, Close(limit));
    }

    method SetBlacklist(name: string, items: seq<Value>) returns (r: Result<(), BoxError>)
      requires Valid()
      requires name in params ==> forall x :: x in items ==> HasType(x, params[name].tag)
      modifies this
      ensures Valid() && order == old(order)
      ensures name in old(params) ==>
        var u := SetListInfoOn(name, old(params)[name], Black(items));
        params == old(params)[name := u.param] && errors == old(errors) + |u.violations| && r == Outcome(u)
      ensures name !in old(params) ==>
        params == old(params) && errors == old(errors) + 1 && r == Err(NotAdded(name))
    {
      r := SetListInfo(name, Black(items));
    }

    method SetWhitelist(name: string, items: seq<Value>) returns (r: Result<(), BoxError>)
      requires Valid()
      requires name in params ==> forall x :: x in items ==> HasType(x, params[name].tag)
      modifies this
      ensures Valid() && order == old(order)
      ensures name in old(params) ==>
        var u := SetListInfoOn(name, old(params)[name], White(items));
        params == old(params)[name := u.param] && errors == old(errors) + |u.violations| && r == Outcome(u)
      ensures name !in old(params) ==>
        params == old(params) && errors == old(errors) + 1 && r == Err(NotAdded(name))
    {
      r := SetListInfo(name, White(items));
    }

    // Metadata.

    /** `set_explanation`: changes the explanation and nothing else. */
    method SetExplanation(name: string, explanation: string) returns (r: Result<(), BoxError>)
      requires Valid()
      modifies this
      ensures Valid() && order == old(order)
      ensures name in old(params) ==>
        && params == old(params)[name := old(params)[name].(explanation := Some(explanation))]
        && errors == old(errors) && r == Ok(())
      ensures name !in old(params) ==>
        params == old(params) && errors == old(errors) + 1 && r == Err(NotAdded(name))
    {
      if name in params {
        params := params[name := params[name].(explanation := Some(explanation))];
        r := Ok(());
      } else {
        errors := errors + 1;
        r := Err(NotAdded(name));
      }
    }

    /** `set_unvisible`: hides the parameter from the report and changes
        nothing else. */
    method SetUnvisible(name: string) returns (r: Result<(), BoxError>)
      requires Valid()
      modifies this
      ensures Valid() && order == old(order)
      ensures name in old(params) ==>
        && params == old(params)[name := old(params)[name].(unvisible := true)]
        && errors == old(errors) && r == Ok(())
      ensures name !in old(params) ==>
        params == old(params) && errors == old(errors) + 1 && r == Err(NotAdded(name))
    {
      if name in params {
        params := params[name := params[name].(unvisible := true)];
        r := Ok(());
      } else {
        errors := errors + 1;
        r := Err(NotAdded(name));
      }
    }

    // Reading back.  The getters take `&mut self` because an unknown name
    // still raises the counter.

    /** `ref_value::<T>`: the stored value (`None` if never set), of the
        caller's type `t`; an unknown name is `NotAdded` and counts. */
    method RefValue(name: string, t: TypeTag) returns (r: Result<Option<Value>, BoxError>)
      requires Valid()
      requires name in params ==> params[name].tag == t
      modifies this`errors
      ensures Valid()
      ensures name in params ==> r == Ok(params[name].core.value) && errors == old(errors)
      ensures name !in params ==> r == Err(NotAdded(name)) && errors == old(errors) + 1
      ensures r.Ok? && r.value.Some? ==> HasType(r.value.value, t)
    {
      if name in params {
        r := Ok(params[name].core.value);
      } else {
        errors := errors + 1;
        r := Err(NotAdded(name));
      }
    }

    /** `clone_value::<T>`: the same answer as `ref_value`, by copy. */
    method CloneValue(name: string, t: TypeTag) returns (r: Result<Option<Value>, BoxError>)
      requires Valid()
      requires name in params ==> params[name].tag == t
      modifies this`errors
      ensures Valid()
      ensures name in params ==> r == Ok(params[name].core.value) && errors == old(errors)
      ensures name !in params ==> r == Err(NotAdded(name)) && errors == old(errors) + 1
      ensures r.Ok? && r.value.Some? ==> HasType(r.value.value, t)
    {
      r := RefValue(name, t);
    }

    /** `ref_explanation`. */
    method RefExplanation(name: string) returns (r: Result<Option<string>, BoxError>)
      requires Valid()
      modifies this`errors
      ensures Valid()
      ensures name in params ==> r == Ok(params[name].explanation) && errors == old(errors)
      ensures name !in params ==> r == Err(NotAdded(name)) && errors == old(errors) + 1
    {
      if name in params {
        r := Ok(params[name].explanation);
      } else {
        errors := errors + 1;
        r := Err(NotAdded(name));
      }
    }

    /** `get_num_errors`: reads the counter without changing anything. */
    method GetNumErrors() returns (n: nat)
      ensures n == errors
    {
      n := errors;
    }

    /** One pass of `read_file`'s loop: line `lineNumber` with the loop's
        duplicate checker and messages so far.  It does what `ScanLine` says,
        and `abort` is the panic that ends the loop, if any. */
    method ReadLine(lineNumber: nat, line: string, parse: Parser,
                    checker: map<string, seq<nat>>, messages: seq<Message>)
      returns (checker': map<string, seq<nat>>, messages': seq<Message>, abort: Option<Abort>)
      requires Valid() && ParserTyped(parse)
      modifies this
      ensures Valid() && order == old(order)
      ensures ScanLine(Scan(old(params), old(errors), checker, messages, None), lineNumber, line, parse)
        == Scan(params, errors, checker', messages', abort)
    {
      ghost var s := Scan(params, errors, checker, messages, None);
      checker', messages', abort := checker, messages, None;
      if IsSkipped(line) {
        SkippedLine(s, lineNumber, line, parse);
        return;
      }
      var tokens := SplitWhitespace(line);
      if |tokens| == 0 {
        abort := Some(Abort(lineNumber, NoTokens));
        return;
      }
      var name := tokens[0];
      assert LineKey(line) == Some(name);
      if name !in params {
        UnknownNameLine(s, lineNumber, line, parse);
        errors := errors + 1;
        messages' := messages' + [LineNotAdded(lineNumber, name)];
        return;
      }
      checker', messages', abort := ReadKnownLine(lineNumber, line, parse, checker, messages);
    }

    /** The rest of a line whose first token is a registered name: the name
        is recorded, then the token count, the type and the value are looked at. */
    method ReadKnownLine(lineNumber: nat, line: string, parse: Parser,
                         checker: map<string, seq<nat>>, messages: seq<Message>)
      returns (checker': map<string, seq<nat>>, messages': seq<Message>, abort: Option<Abort>)
      requires Valid() && ParserTyped(parse)
      requires LineKey(line).Some? && LineKey(line).value in params
      modifies this
      ensures Valid() && order == old(order)
      ensures ScanLine(Scan(old(params), old(errors), checker, messages, None), lineNumber, line, parse)
        == Scan(params, errors, checker', messages', abort)
    {
      ghost var s := Scan(params, errors, checker, messages, None);
      checker', messages', abort := checker, messages, None;
      var tokens := SplitWhitespace(line);
      var name := tokens[0];
      KnownNameLine(s, lineNumber, line, parse);
      checker' := Record(checker, name, lineNumber);
      if |tokens| != 2 {
        errors := errors + 1;
        messages' := messages' + [LineBadFormat(lineNumber)];
        return;
      }
      var tag := params[name].tag;
      if tag !in FileTypes {
        UnreadableTypeLine(s, lineNumber, line, parse);
        messages' := messages' + [LineUnreadableType(lineNumber, name, params[name].typeString)];
        return;
      }
      var parsed := parse(tag, tokens[1]);
      if parsed.None? {
        UnparsableLine(s, lineNumber, line, parse);
        abort := Some(Abort(lineNumber, Unparsable));
        return;
      }
      ghost var u := SetValueOn(name, params[name], parsed.value);
      ghost var t := ScanLine(s, lineNumber, line, parse);
      assert t == s.(checker := checker', params := s.params[name := u.param], errors := s.errors + |u.violations|,
                     messages := if u.violations == [] then s.messages else s.messages + [LineBadCondition(u.violations, lineNumber)]);
      messages' := StoreValue(name, parsed.value, lineNumber, messages');
    }

    /** The last step of a line: `set_value` with the parsed value, and a
        message with the line number when it reports violations. */
    method StoreValue(name: string, value: Value, lineNumber: nat, messages: seq<Message>)
      returns (messages': seq<Message>)
      requires Valid() && name in params && HasType(value, params[name].tag)
      modifies this
      ensures Valid() && order == old(order)
      ensures var u := SetValueOn(name, old(params)[name], value);
        && params == old(params)[name := u.param]
        && errors == old(errors) + |u.violations|
        && messages' == if u.violations == [] then messages else messages + [LineBadCondition(u.violations, lineNumber)]
    {
      var result := SetValue(name, value);
      messages' := messages;
      if result.Err? {
        messages' := messages' + [LineBadCondition(result.error.messages, lineNumber)];
      }
    }

    /** `read_file` over the lines of the file: the line loop, then the
        duplicate reports.  The registry ends as `ScanLines` says, whether the
        loop ran to the end or panicked, and the outcome is `ReadResult`. */
    method ReadFile(lines: seq<string>, parse: Parser) returns (r: ReadOutcome)
      requires Valid() && ParserTyped(parse)
      modifies this
      ensures Valid() && order == old(order)
      ensures var s := ScanLines(Start(old(params), old(errors)), lines, parse);
        params == s.params && errors == s.errors && ReadResult(s, r)
    {
      ghost var start := Start(params, errors);
      var checker: map<string, seq<nat>> := map[];
      var messages: seq<Message> := [];
      var i := 0;
      while i < |lines|
        invariant 0 <= i <= |lines|
        invariant Valid() && order == old(order)
        invariant ScanLines(start, lines[..i], parse) == Scan(params, errors, checker, messages, None)
      {
        assert lines[..i + 1][..i] == lines[..i];
        var abort;
        checker, messages, abort := ReadLine(i + 1, lines[i], parse, checker, messages);
        i := i + 1;
        if abort.Some? {
          AbortIsFinal(start, lines, i, parse);
          return Panicked(abort.value);
        }
      }
      assert lines[..i] == lines;
      var reports := DuplicateReports(checker);
      ghost var loopMessages := messages;
      messages := messages + reports;
      assert messages[..|loopMessages|] == loopMessages && messages[|loopMessages|..] == reports;
      if messages == [] {
        r := Finished(Ok(()));
      } else {
        r := Finished(Err(InvalidInputFile(messages)));
      }
    }
  }

  /** Part of the integration test: a parameter that was set reads back
      its value, and one that was never set reads back as `None`. */
  method ReadBackScenario()
    returns (unset: Result<Option<Value>, BoxError>, small: Result<Option<Value>, BoxError>)
    ensures unset == Ok(None)
    ensures small == Ok(Some(IntVal(1)))
  {
    var box := new ParameterBox();
    var r := box.Add("param_u8", U8);
    r := box.Add("param_None", Isize);
    assert box.params == map["param_u8" := NewParameter(U8), "param_None" := NewParameter(Isize)];
    unset := box.CloneValue("param_None", Isize);
    FreshParameterAcceptsValue("param_u8", U8, IntVal(1));
    r := box.SetValue("param_u8", IntVal(1));
    small := box.CloneValue("param_u8", U8);
  }

  /** Part of the integration test: a `String` parameter reads back the
      text it was set to. */
  method TextReadBackScenario() returns (text: Result<Option<Value>, BoxError>)
    ensures text == Ok(Some(TextVal("Apple")))
  {
    var box := new ParameterBox();
    var r := box.Add("param_String", String);
    FreshParameterAcceptsValue("param_String", String, TextVal("Apple"));
    r := box.SetValue("param_String", TextVal("Apple"));
    text := box.CloneValue("param_String", String);
  }

  /** Adding a name twice and asking for an unknown one are each counted
      once, and the order keeps the first registration only. */
  method MisuseScenario()
    returns (again: Result<(), BoxError>, missing: Result<Option<Value>, BoxError>,
             errors: nat, order: seq<string>)
    ensures again == Err(AlreadyAdded("p"))
    ensures missing == Err(NotAdded("missing"))
    ensures errors == 2 && order == ["p"]
  {
    var box := new ParameterBox();
    var r := box.Add("p", U8);
    again := box.Add("p", U8);
    missing := box.CloneValue("missing", U8);
    errors := box.errors;
    order := box.order;
  }

  /** A bound set after the value is checked against it at once: the value
      stays stored and the violation is reported and counted. */
  method RetroactiveCheckScenario()
    returns (bound: Result<(), BoxError>, errors: nat, stored: Result<Option<Value>, BoxError>)
    ensures bound.Err? && bound.error.InvalidCondition?
    ensures errors == 1
    ensures stored == Ok(Some(IntVal(5)))
  {
    var box := new ParameterBox();
    var r := box.Add("a", I32);
    FreshParameterAcceptsValue("a", I32, IntVal(5));
    r := box.SetValue("a", IntVal(5));
    var p := NewParameter(I32).(core := NewCore().(value := Some(IntVal(5))), valueString := Some(ValueLabel(IntVal(5))));
    assert box.params == map["a" := p] && box.errors == 0;
    ghost var u := SetMinLimitOn("a", p, Close(IntVal(10)));
    assert !MinHolds(u.param.core);
    assert |u.violations| == 1 && u.param.core.value == Some(IntVal(5));
    bound := box.SetMinLimitClose("a", IntVal(10));
    errors := box.errors;
    stored := box.CloneValue("a", I32);
  }
}
