/**
 * The line logic of `read_file`, with the file itself replaced by the
 * sequence of its lines and `FromStr` by an abstract parser.  `ScanLine` is
 * what one pass of the loop does to the registry and to the loop's own
 * variables; `ScanLines` is the loop over a whole file.
 */
module Ingest {
  import opened Basics
  import opened Values
  import opened Parameters
  import opened Entries

  /** `char::is_whitespace`: the Unicode White_Space characters. */
  predicate IsWhitespace(c: char)
  {
    || ('\t' <= c <= '\r')
    || c == ' '
    || c == '\U{0085}'
    || c == '\U{00A0}'
    || c == '\U{1680}'
    || ('\U{2000}' <= c <= '\U{200A}')
    || c == '\U{2028}'
    || c == '\U{2029}'
    || c == '\U{202F}'
    || c == '\U{205F}'
    || c == '\U{3000}'
  }

  predicate NoWhitespace(s: string)
  {
    forall i :: 0 <= i < |s| ==> !IsWhitespace(s[i])
  }

  predicate AllWhitespace(s: string)
  {
    forall i :: 0 <= i < |s| ==> IsWhitespace(s[i])
  }

  /** The characters of `s` that are not whitespace, in order. */
  function Squeezed(s: string): string
  {
    if s == [] then []
    else (if IsWhitespace(s[0]) then [] else [s[0]]) + Squeezed(s[1..])
  }

  function Concat(ts: seq<string>): string
  {
    if ts == [] then [] else ts[0] + Concat(ts[1..])
  }

  /** Splits `rest`, given that `current` is the token read so far. */
  function Split(rest: string, current: string): (tokens: seq<string>)
    requires NoWhitespace(current)
    ensures forall t :: t in tokens ==> t != [] && NoWhitespace(t)
    decreases |rest|
  {
    if rest == [] then
      (if current == [] then [] else [current])
    else if IsWhitespace(rest[0]) then
      (if current == [] then [] else [current]) + Split(rest[1..], [])
    else
      Split(rest[1..], current + [rest[0]])
  }

  /** `str::split_whitespace`: the maximal runs of non-whitespace characters. */
  function SplitWhitespace(line: string): (tokens: seq<string>)
    ensures forall t :: t in tokens ==> t != [] && NoWhitespace(t)
  {
    Split(line, [])
  }

  lemma {:induction false} SplitKeepsCharacters(rest: string, current: string)
    requires NoWhitespace(current)
    ensures Concat(Split(rest, current)) == current + Squeezed(rest)
    decreases |rest|
  {
    if rest == [] {
      if current != [] {
        assert Concat([current]) == current + Concat([]);
      }
    } else if IsWhitespace(rest[0]) {
      SplitKeepsCharacters(rest[1..], []);
      var tail := Split(rest[1..], []);
      assert Squeezed(rest) == Squeezed(rest[1..]);
      if current != [] {
        assert ([current] + tail)[1..] == tail;
        assert Concat([current] + tail) == current + Concat(tail);
      } else {
        assert Split(rest, current) == tail;
      }
    } else {
      SplitKeepsCharacters(rest[1..], current + [rest[0]]);
      assert current + [rest[0]] + Squeezed(rest[1..]) == current + ([rest[0]] + Squeezed(rest[1..]));
    }
  }

  lemma {:induction false} SplitEmptyIff(rest: string, current: string)
    requires NoWhitespace(current)
    ensures Split(rest, current) == [] <==> current == [] && AllWhitespace(rest)
    decreases |rest|
  {
    if rest != [] {
      if IsWhitespace(rest[0]) {
        SplitEmptyIff(rest[1..], []);
      } else {
        SplitEmptyIff(rest[1..], current + [rest[0]]);
      }
      assert AllWhitespace(rest) <==> IsWhitespace(rest[0]) && AllWhitespace(rest[1..]) by {
        if IsWhitespace(rest[0]) && AllWhitespace(rest[1..]) {
          forall i | 0 <= i < |rest| ensures IsWhitespace(rest[i]) {
            if i > 0 { assert rest[i] == rest[1..][i - 1]; }
          }
        }
      }
    }
  }

  /** Splitting loses no character but whitespace, and yields no token
      exactly for a line made only of whitespace. */
  lemma SplitWhitespaceFacts(line: string)
    ensures Concat(SplitWhitespace(line)) == Squeezed(line)
    ensures SplitWhitespace(line) == [] <==> AllWhitespace(line)
  {
    SplitKeepsCharacters(line, []);
    SplitEmptyIff(line, []);
  }

  lemma {:induction false} SplitRun(rest: string, current: string)
    requires NoWhitespace(current) && NoWhitespace(rest)
    ensures Split(rest, current) == if current + rest == [] then [] else [current + rest]
    decreases |rest|
  {
    if rest != [] {
      assert NoWhitespace(rest[1..]) by {
        forall i | 0 <= i < |rest[1..]| ensures !IsWhitespace(rest[1..][i]) {
          assert rest[1..][i] == rest[i + 1];
        }
      }
      SplitRun(rest[1..], current + [rest[0]]);
      assert current + [rest[0]] + rest[1..] == current + rest;
    } else {
      assert current + rest == current;
    }
  }

  lemma {:induction false} SplitAt(a: string, c: char, b: string, current: string)
    requires NoWhitespace(current) && IsWhitespace(c)
    ensures Split(a + [c] + b, current) == Split(a, current) + Split(b, [])
    decreases |a|
  {
    var line := a + [c] + b;
    if a == [] {
      assert line[0] == c && line[1..] == b;
    } else {
      assert line[0] == a[0] && line[1..] == a[1..] + [c] + b;
      if IsWhitespace(a[0]) {
        SplitAt(a[1..], c, b, []);
      } else {
        SplitAt(a[1..], c, b, current + [a[0]]);
      }
    }
  }

  /** A non-empty run without whitespace is a single token. */
  lemma SplitWhitespaceWord(word: string)
    requires word != [] && NoWhitespace(word)
    ensures SplitWhitespace(word) == [word]
  {
    SplitRun(word, []);
    assert [] + word == word;
  }

  /** Every whitespace character separates tokens: the tokens of a line are
      those of the text before it followed by those of the text after it. */
  lemma SplitWhitespaceAt(a: string, c: char, b: string)
    requires IsWhitespace(c)
    ensures SplitWhitespace(a + [c] + b) == SplitWhitespace(a) + SplitWhitespace(b)
  {
    SplitAt(a, c, b, []);
  }

  /** Comment lines (starting with `#`) and empty lines are skipped. */
  predicate IsSkipped(line: string)
  {
    (|line| > 0 && line[0] == '#') || line == []
  }

  /** The types `read_file` can parse a value of, in the order it tries them;
      `usize`, `isize` and any other type cannot be read from files. */
  const FileTypes: seq<TypeTag> :=
    [Bool, U8, U16, U32, U64, U128, I8, I16, I32, I64, I128, F32, F64, String]

  /** `T::from_str` for the declared type: `None` when the text does not parse. */
  type Parser = (TypeTag, string) -> Option<Value>

  /** Every value the parser produces is of the type it was asked for. */
  ghost predicate ParserTyped(parse: Parser)
  {
    forall t, s :: parse(t, s).Some? ==> HasType(parse(t, s).value, t)
  }

  /** Why `read_file` panics: `name_value[0]` on a line of whitespace only,
      or `unreachable!()` after a value that does not parse. */
  datatype AbortReason = NoTokens | Unparsable

  datatype Abort = Abort(line: nat, reason: AbortReason)

  /** The registry's map and counter and the loop's own variables: the
      duplicate checker (each known name with the lines it appeared on), the
      messages so far, and the panic that stopped the loop, if any. */
  datatype Scan = Scan(
    params: map<string, Parameter>,
    errors: nat,
    checker: map<string, seq<nat>>,
    messages: seq<Message>,
    abort: Option<Abort>)

  function Start(params: map<string, Parameter>, errors: nat): Scan
  {
    Scan(params, errors, map[], [], None)
  }

  /** Appends line `n` to the lines recorded for `name`. */
  function Record(checker: map<string, seq<nat>>, name: string, n: nat): (c: map<string, seq<nat>>)
    ensures c.Keys == checker.Keys + {name}
  {
    if name in checker then checker[name := checker[name] + [n]] else checker[name := [n]]
  }

  /** Recording extends the name's own list by the line number and leaves
      every other name's list as it was. */
  lemma RecordAppends(checker: map<string, seq<nat>>, name: string, n: nat)
    ensures Record(checker, name, n)[name] == (if name in checker then checker[name] else []) + [n]
    ensures forall k :: k in checker && k != name ==> Record(checker, name, n)[k] == checker[k]
  {
  }

  /** One pass of the loop, for line number `n`. */
  function ScanLine(s: Scan, n: nat, line: string, parse: Parser): (t: Scan)
    requires s.abort.None?
    ensures t.params.Keys == s.params.Keys
    ensures forall k :: k in s.params ==> t.params[k].tag == s.params[k].tag
    ensures s.errors <= t.errors && s.messages <= t.messages
  {
    if IsSkipped(line) then s
    else
      var tokens := SplitWhitespace(line);
      if |tokens| == 0 then s.(abort := Some(Abort(n, NoTokens)))
      else
        var name := tokens[0];
        if name !in s.params then
          s.(errors := s.errors + 1, messages := s.messages + [LineNotAdded(n, name)])
        else
          var checker := Record(s.checker, name, n);
          if |tokens| != 2 then
            s.(checker := checker, errors := s.errors + 1, messages := s.messages + [LineBadFormat(n)])
          else
            var p := s.params[name];
            if p.tag !in FileTypes then
              s.(checker := checker, messages := s.messages + [LineUnreadableType(n, name, p.typeString)])
            else
              match parse(p.tag, tokens[1])
              case None => s.(checker := checker, abort := Some(Abort(n, Unparsable)))
              case Some(v) =>
                var u := SetValueOn(name, p, v);
                s.(checker := checker,
                   params := s.params[name := u.param],
                   errors := s.errors + |u.violations|,
                   messages := if u.violations == [] then s.messages
                               else s.messages + [LineBadCondition(u.violations, n)])
  }

  /** The loop over all lines, numbered from 1; after a panic nothing more happens. */
  function ScanLines(s: Scan, lines: seq<string>, parse: Parser): (t: Scan)
    ensures s.abort.Some? ==> t == s
    ensures s.abort.None? && t.abort.Some? ==> 1 <= t.abort.value.line <= |lines|
  {
    if lines == [] then s
    else
      var before := ScanLines(s, lines[..|lines| - 1], parse);
      if before.abort.Some? then before
      else ScanLine(before, |lines|, lines[|lines| - 1], parse)
  }

  /** The name a line is about, if it is neither skipped nor blank. */
  function LineKey(line: string): Option<string>
  {
    if IsSkipped(line) then None
    else
      var tokens := SplitWhitespace(line);
      if tokens == [] then None else Some(tokens[0])
  }

  /** The numbers of the lines about `name`, in file order. */
  function NamedLines(lines: seq<string>, name: string): seq<nat>
  {
    if lines == [] then []
    else NamedLines(lines[..|lines| - 1], name)
         + (if LineKey(lines[|lines| - 1]) == Some(name) then [|lines|] else [])
  }

  /** The names recorded on more than one line. */
  function DuplicateNames(checker: map<string, seq<nat>>): set<string>
  {
    set k | k in checker && |checker[k]| != 1
  }

  // Single lines.

  lemma SkippedLine(s: Scan, n: nat, line: string, parse: Parser)
    requires s.abort.None? && IsSkipped(line)
    ensures ScanLine(s, n, line, parse) == s
  {
  }

  /** A line of whitespace only makes `read_file` panic. */
  lemma BlankLine(s: Scan, n: nat, line: string, parse: Parser)
    requires s.abort.None? && line != [] && line[0] != '#' && AllWhitespace(line)
    ensures ScanLine(s, n, line, parse) == s.(abort := Some(Abort(n, NoTokens)))
  {
    SplitWhitespaceFacts(line);
  }

  /** An unknown first token: one message, one more error, and the loop goes on. */
  lemma UnknownNameLine(s: Scan, n: nat, line: string, parse: Parser)
    requires s.abort.None? && LineKey(line).Some? && LineKey(line).value !in s.params
    ensures ScanLine(s, n, line, parse)
      == s.(errors := s.errors + 1, messages := s.messages + [LineNotAdded(n, LineKey(line).value)])
  {
  }

  /** A known name is recorded with its line before the token count is
      looked at; a count other than two adds one message and one error. */
  lemma KnownNameLine(s: Scan, n: nat, line: string, parse: Parser)
    requires s.abort.None? && LineKey(line).Some? && LineKey(line).value in s.params
    ensures ScanLine(s, n, line, parse).checker == Record(s.checker, LineKey(line).value, n)
    ensures |SplitWhitespace(line)| != 2 ==>
      ScanLine(s, n, line, parse) == s.(checker := Record(s.checker, LineKey(line).value, n),
                                        errors := s.errors + 1,
                                        messages := s.messages + [LineBadFormat(n)])
  {
  }

  /** A well-formed line for a type that cannot be read from files adds a
      message but does not raise the counter. */
  lemma UnreadableTypeLine(s: Scan, n: nat, line: string, parse: Parser)
    requires s.abort.None? && LineKey(line).Some? && LineKey(line).value in s.params
    requires |SplitWhitespace(line)| == 2 && s.params[LineKey(line).value].tag !in FileTypes
    ensures var name := LineKey(line).value;
      ScanLine(s, n, line, parse) == s.(checker := Record(s.checker, name, n),
                                        messages := s.messages + [LineUnreadableType(n, name, s.params[name].typeString)])
  {
  }

  /** A well-formed line whose value does not parse makes `read_file` panic,
      after the name has been recorded in the duplicate checker. */
  lemma UnparsableLine(s: Scan, n: nat, line: string, parse: Parser)
    requires s.abort.None? && LineKey(line).Some? && LineKey(line).value in s.params
    requires |SplitWhitespace(line)| == 2 && s.params[LineKey(line).value].tag in FileTypes
    requires parse(s.params[LineKey(line).value].tag, SplitWhitespace(line)[1]).None?
    ensures ScanLine(s, n, line, parse)
      == s.(checker := Record(s.checker, LineKey(line).value, n), abort := Some(Abort(n, Unparsable)))
  {
  }

  /** A well-formed, parsable line goes through `set_value`: the value is
      stored even when it violates a constraint, the counter rises by the
      number of failed checks, and a failure is reported once with its line. */
  lemma ValueLine(s: Scan, n: nat, line: string, parse: Parser, v: Value)
    requires s.abort.None? && LineKey(line).Some? && LineKey(line).value in s.params
    requires |SplitWhitespace(line)| == 2 && s.params[LineKey(line).value].tag in FileTypes
    requires parse(s.params[LineKey(line).value].tag, SplitWhitespace(line)[1]) == Some(v)
    ensures var name := LineKey(line).value;
      var t := ScanLine(s, n, line, parse);
      && t.params == s.params[name := t.params[name]]
      && t.params[name].core.value == Some(v)
      && t.errors == s.errors + FailedChecks(t.params[name].core)
      && (t.messages == s.messages <==> Satisfied(t.params[name].core))
    ensures var name := LineKey(line).value;
      var u := SetValueOn(name, s.params[name], v);
      ScanLine(s, n, line, parse)
        == s.(checker := Record(s.checker, name, n),
              params := s.params[name := u.param],
              errors := s.errors + |u.violations|,
              messages := if u.violations == [] then s.messages
                          else s.messages + [LineBadCondition(u.violations, n)])
  {
  }

  // The whole file.

  /** Once the loop has panicked, later lines change nothing. */
  lemma {:induction false} AbortIsFinal(s: Scan, lines: seq<string>, k: nat, parse: Parser)
    requires k <= |lines| && ScanLines(s, lines[..k], parse).abort.Some?
    ensures ScanLines(s, lines, parse) == ScanLines(s, lines[..k], parse)
    decreases |lines|
  {
    if k < |lines| {
      var init := lines[..|lines| - 1];
      assert init[..k] == lines[..k];
      AbortIsFinal(s, init, k, parse);
    } else {
      assert lines[..k] == lines;
    }
  }

  /** Reading never removes a name or changes a type, never lowers the
      counter and never drops a message. */
  lemma {:induction false} ScanLinesMonotone(s: Scan, lines: seq<string>, parse: Parser)
    requires s.abort.None?
    ensures var t := ScanLines(s, lines, parse);
      && t.params.Keys == s.params.Keys
      && (forall k :: k in s.params ==> t.params[k].tag == s.params[k].tag)
      && s.errors <= t.errors
      && s.messages <= t.messages
  {
    if lines != [] {
      ScanLinesMonotone(s, lines[..|lines| - 1], parse);
    }
  }

  /** What one line does to the duplicate checker: a line about a
      registered name records its number there, any other line leaves it. */
  lemma CheckerStep(s: Scan, n: nat, line: string, parse: Parser)
    requires s.abort.None? && ScanLine(s, n, line, parse).abort.None?
    ensures ScanLine(s, n, line, parse).checker ==
      if LineKey(line).Some? && LineKey(line).value in s.params
      then Record(s.checker, LineKey(line).value, n)
      else s.checker
  {
  }

  /** After a file read to the end, the checker holds exactly the registered
      names that some line is about, each with all of its line numbers. */
  lemma {:induction false} CheckerListsAllLines(params: map<string, Parameter>, errors: nat,
                                                lines: seq<string>, parse: Parser)
    ensures var t := ScanLines(Start(params, errors), lines, parse);
      t.abort.None? ==>
        forall k :: (k in t.checker <==> k in params && NamedLines(lines, k) != [])
                 && (k in t.checker ==> t.checker[k] == NamedLines(lines, k))
  {
    var t := ScanLines(Start(params, errors), lines, parse);
    if lines != [] && t.abort.None? {
      var init := lines[..|lines| - 1];
      var last := lines[|lines| - 1];
      var before := ScanLines(Start(params, errors), init, parse);
      assert before.abort.None?;
      assert t == ScanLine(before, |lines|, last, parse);
      CheckerListsAllLines(params, errors, init, parse);
      ScanLinesMonotone(Start(params, errors), init, parse);
      CheckerStep(before, |lines|, last, parse);
      forall k
        ensures (k in t.checker <==> k in params && NamedLines(lines, k) != [])
        ensures k in t.checker ==> t.checker[k] == NamedLines(lines, k)
      {
        assert NamedLines(lines, k) == NamedLines(init, k)
          + (if LineKey(last) == Some(k) then [|lines|] else []);
      }
    }
  }

  /** Duplicate reports name exactly the registered names that more than one
      line of the file is about. */
  lemma DuplicatesAreRepeatedNames(params: map<string, Parameter>, errors: nat,
                                   lines: seq<string>, parse: Parser)
    ensures var t := ScanLines(Start(params, errors), lines, parse);
      t.abort.None? ==>
        DuplicateNames(t.checker) == set k | k in params && |NamedLines(lines, k)| > 1
  {
    CheckerListsAllLines(params, errors, lines, parse);
  }

  /** The duplicate reports, in any order, each name once. */
  predicate DuplicateReportsOf(reports: seq<Message>, checker: map<string, seq<nat>>)
  {
    && |reports| == |DuplicateNames(checker)|
    && (forall m :: m in reports ==> m.Duplicate? && m.name in DuplicateNames(checker) && m.lines == checker[m.name])
    && (forall k :: k in DuplicateNames(checker) ==> Duplicate(checker[k], k) in reports)
  }

  /** The loop over the duplicate checker after the file: one report for
      each name recorded on more than one line.  The order is that of a
      `HashMap` iteration, which the model leaves open. */
  method DuplicateReports(checker: map<string, seq<nat>>) returns (reports: seq<Message>)
    ensures DuplicateReportsOf(reports, checker)
  {
    var pending := checker.Keys;
    reports := [];
    while pending != {}
      invariant pending <= checker.Keys
      invariant |reports| == |DuplicateNames(checker) - pending|
      invariant forall m :: m in reports ==>
        m.Duplicate? && m.name in DuplicateNames(checker) && m.name !in pending && m.lines == checker[m.name]
      invariant forall k :: k in DuplicateNames(checker) && k !in pending ==> Duplicate(checker[k], k) in reports
      decreases |pending|
    {
      var name :| name in pending;
      var done := DuplicateNames(checker) - pending;
      if |checker[name]| != 1 {
        reports := reports + [Duplicate(checker[name], name)];
        assert DuplicateNames(checker) - (pending - {name}) == done + {name};
      } else {
        assert DuplicateNames(checker) - (pending - {name}) == done;
      }
      pending := pending - {name};
    }
    assert DuplicateNames(checker) - pending == DuplicateNames(checker);
  }

  /** The outcome of `read_file`: its `Result`, or the panic that ended it. */
  datatype ReadOutcome = Finished(result: Result<(), BoxError>) | Panicked(abort: Abort)

  /** How the outcome follows from the loop: a panic is reported as such;
      otherwise the result is `Ok` exactly when no message was collected and
      no name was duplicated, and an error lists the loop's messages followed
      by the duplicate reports. */
  predicate ReadResult(s: Scan, r: ReadOutcome)
  {
    && (s.abort.Some? ==> r == Panicked(s.abort.value))
    && (s.abort.None? ==>
          && r.Finished?
          && (r.result.Ok? <==> s.messages == [] && DuplicateNames(s.checker) == {})
          && (r.result.Err? ==>
                && r.result.error.InvalidInputFile?
                && |s.messages| <= |r.result.error.messages|
                && r.result.error.messages[..|s.messages|] == s.messages
                && DuplicateReportsOf(r.result.error.messages[|s.messages|..], s.checker)))
  }
}
