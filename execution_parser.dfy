/**
 * Resolution of a typed command line into an Execution: the plugin and
 * command it names, and one parameter slot per declared option, filled from
 * the option parser's values, from defaults, or by prompting the user.
 */
module ExecutionParser {
  import opened Base
  import opened Metadata
  import opened ScriptedShell

  /** The result of parsing one line. Fields are set once by `Parse`. */
  class Execution {
    var originalStatement: string
    var command: Option<CommandMeta>
    var parameterArray: array?<Reply>

    constructor ()
      ensures originalStatement == "" && command == None && parameterArray == null
    {
      originalStatement := "";
      command := None;
      parameterArray := null;
    }

    method SetOriginalStatement(line: string)
      modifies this
      ensures originalStatement == line
      ensures command == old(command) && parameterArray == old(parameterArray)
    {
      originalStatement := line;
    }

    method SetCommand(c: CommandMeta)
      modifies this
      ensures command == Some(c)
      ensures originalStatement == old(originalStatement) && parameterArray == old(parameterArray)
    {
      command := Some(c);
    }

    method SetParameterArray(parameters: array<Reply>)
      modifies this
      ensures parameterArray == parameters
      ensures originalStatement == old(originalStatement) && command == old(command)
    {
      parameterArray := parameters;
    }
  }

  /** Why parsing did not produce an Execution. */
  datatype ParseError =
    | MissingCommand(plugin: string, available: set<string>)
    | ScriptExhausted

  // ---------------------------------------------------------------------------
  // Plugin and command selection
  // ---------------------------------------------------------------------------

  /** What the leading tokens select. `remaining` is the queue handed to option parsing. */
  datatype Selection =
    | Unresolved
    | Missing(plugin: PluginMeta)
    | Selected(plugin: PluginMeta, command: CommandMeta, remaining: seq<string>)

  /** Holds when the token after the plugin name names one of its commands. */
  predicate NamesCommand(p: PluginMeta, afterPlugin: seq<string>)
  {
    afterPlugin != [] && afterPlugin[0] in p.commands
  }

  /**
   * The plugin and command that a token queue selects. The plugin name is
   * consumed; the next token is consumed only when it names a command; a
   * declared default command replaces whatever the second token matched.
   */
  function SelectCommand(plugins: map<string, PluginMeta>, tokens: seq<string>): (s: Selection)
    ensures s.Unresolved? <==> (tokens == [] || tokens[0] !in plugins)
    ensures !s.Unresolved? ==> s.plugin == plugins[tokens[0]]
    ensures s.Missing? <==>
      (tokens != [] && tokens[0] in plugins && plugins[tokens[0]].defaultCommand == None
       && !NamesCommand(plugins[tokens[0]], tokens[1..]))
    ensures s.Selected? && s.plugin.defaultCommand.Some? ==> s.command == s.plugin.defaultCommand.value
    ensures s.Selected? && s.plugin.defaultCommand.None? ==> s.command == s.plugin.commands[tokens[1]]
    ensures s.Selected? ==>
      s.remaining == if NamesCommand(s.plugin, tokens[1..]) then tokens[2..] else tokens[1..]
  {
    if tokens == [] || tokens[0] !in plugins then Unresolved
    else
      var plugin := plugins[tokens[0]];
      var rest := tokens[1..];
      var named := if rest != [] && rest[0] in plugin.commands then Some(plugin.commands[rest[0]]) else None;
      var remaining := if named.Some? then rest[1..] else rest;
      var command := if plugin.defaultCommand.Some? then plugin.defaultCommand else named;
      if command.Some? then Selected(plugin, command.value, remaining) else Missing(plugin)
  }

  // ---------------------------------------------------------------------------
  // Option kinds and prompts
  // ---------------------------------------------------------------------------

  /** An option whose type is `boolean` or `Boolean`. */
  predicate IsBooleanOption(o: OptionMeta)
  {
    UnboxedType(o.javaType) == BooleanPrimitive
  }

  /** A type that `File` is assignable from: `File` or one of its subclasses. */
  predicate IsFileOption(t: JavaType)
  {
    t.FileClass? || t.FileSubclass?
  }

  /** The caption shown when prompting for an option. */
  function Label(o: OptionMeta): string
  {
    o.descriptor + ": "
  }

  const RequiredMessage: string := "The option is required to execute this command."

  function CouldNotParse(v: Value): string
  {
    "Could not parse [" + Render(v) + "]... please try again..."
  }

  /**
   * The prompt used for a missing required option: boolean first, then file,
   * then a pattern-aware prompt for any prompt type but Any, else plain text.
   */
  function PromptFor(o: OptionMeta): (v: PromptVariant)
    ensures v == BooleanPrompt <==> IsBooleanOption(o)
    ensures v == FilePrompt <==> !IsBooleanOption(o) && IsFileOption(BoxedType(o.javaType))
    ensures v.CommonPrompt? <==>
      !IsBooleanOption(o) && !IsFileOption(BoxedType(o.javaType)) && o.promptType != Any
    ensures v.CommonPrompt? ==> v.promptType == o.promptType
  {
    if IsBooleanOption(o) then BooleanPrompt
    else if IsFileOption(BoxedType(o.javaType)) then FilePrompt
    else if o.promptType != Any then CommonPrompt(o.promptType)
    else PlainPrompt
  }

  /** A reply that ends the required-value loop: not null, and not blank once trimmed. */
  predicate Accepted(r: Reply)
  {
    r.Some? && !IsBlank(Render(r.value))
  }


  /** Number of prompts among the events. */
  function PromptCount(events: seq<Event>): nat
    decreases |events|
  {
    if events == [] then 0
    else (if events[0].Prompted? then 1 else 0) + PromptCount(events[1..])
  }

  lemma {:induction false} PromptCountAppend(a: seq<Event>, b: seq<Event>)
    ensures PromptCount(a + b) == PromptCount(a) + PromptCount(b)
    decreases |a|
  {
    if a != [] {
      assert (a + b)[0] == a[0] && (a + b)[1..] == a[1..] + b;
      PromptCountAppend(a[1..], b);
    } else {
      assert a + b == b;
    }
  }

  lemma Associative<T>(a: seq<T>, b: seq<T>, c: seq<T>, d: seq<T>)
    ensures a + (b + c + d) == (a + b + c) + d
  {
  }

  // ---------------------------------------------------------------------------
  // Resolution of one option
  // ---------------------------------------------------------------------------

  /**
   * What resolving one option did: the value for its slot, the shell's reply
   * cursor afterwards, what it showed, and whether the script ran out first.
   */
  datatype Outcome = Outcome(value: Reply, next: nat, events: seq<Event>, exhausted: bool)

  /** Where the cursor stops when the script runs out. */
  function End(script: seq<Reply>, from: nat): nat
  {
    if from < |script| then |script| else from
  }

  /**
   * The required-value loop, from reply `from` on: prompt, and prompt again
   * while the reply is null or blank. A blank reply prints the "required"
   * message; a null one does not.
   */
  function AskRequired(variant: PromptVariant, caption: string, script: seq<Reply>, from: nat): (r: Outcome)
    ensures from <= r.next <= End(script, from)
    decreases |script| - from
  {
    if from >= |script| then Outcome(None, from, [Prompted(variant, caption)], true)
    else if Accepted(script[from]) then Outcome(script[from], from + 1, [Prompted(variant, caption)], false)
    else
      var rest := AskRequired(variant, caption, script, from + 1);
      var said := if script[from].Some? then [Printed(RequiredMessage)] else [];
      Outcome(rest.value, rest.next, [Prompted(variant, caption)] + said + rest.events, rest.exhausted)
  }

  /**
   * The loop stores the first accepted reply; it ends without a value only
   * when no reply left is acceptable.
   */
  lemma {:induction false} AskRequiredTakesFirstAccepted(variant: PromptVariant, caption: string,
                                                        script: seq<Reply>, from: nat)
    ensures var r := AskRequired(variant, caption, script, from);
      (r.exhausted <==> forall j :: from <= j < |script| ==> !Accepted(script[j]))
      && (r.exhausted ==> r.value == None && r.next == End(script, from))
      && (!r.exhausted ==> from < r.next <= |script| && r.value == script[r.next - 1] && Accepted(r.value))
      && (forall j :: from <= j < r.next - 1 ==> !Accepted(script[j]))
    decreases |script| - from
  {
    if from < |script| && !Accepted(script[from]) {
      AskRequiredTakesFirstAccepted(variant, caption, script, from + 1);
    }
  }

  /** The loop shows one prompt per reply it reads, and one more when the script runs out. */
  lemma {:induction false} AskRequiredPromptCount(variant: PromptVariant, caption: string,
                                                 script: seq<Reply>, from: nat)
    ensures var r := AskRequired(variant, caption, script, from);
      PromptCount(r.events) == if r.exhausted then r.next - from + 1 else r.next - from
    decreases |script| - from
  {
    assert PromptCount([Prompted(variant, caption)]) == 1;
    if from < |script| && !Accepted(script[from]) {
      var rest := AskRequired(variant, caption, script, from + 1);
      var said := if script[from].Some? then [Printed(RequiredMessage)] else [];
      AskRequiredPromptCount(variant, caption, script, from + 1);
      PromptCountAppend([Prompted(variant, caption)] + said, rest.events);
      PromptCountAppend([Prompted(variant, caption)], said);
    }
  }

  /** A supplied value whose text fails the option's pattern. */
  predicate Invalid(o: OptionMeta, supplied: Reply, matches: (string, PromptType) -> bool)
  {
    supplied.Some? && !matches(Render(supplied.value), o.promptType)
  }

  /** An option that must be prompted for: required, not supplied, with no default. */
  predicate MustAsk(o: OptionMeta, supplied: Reply)
  {
    o.required && supplied.None? && o.defaultValue.None?
  }

  /** The value map's entry for an option, or null. */
  function Lookup(values: map<OptionMeta, Value>, o: OptionMeta): Reply
  {
    if o in values then Some(values[o]) else None
  }

  /** The two lines shown when a supplied value is rejected. */
  function RetryEvents(o: OptionMeta, v: Value): seq<Event>
  {
    [Printed(CouldNotParse(v)), Prompted(CommonPrompt(o.promptType), Label(o))]
  }

  /**
   * The per-option state machine, with the shell's cursor at `from`.
   */
  function OptionOutcome(o: OptionMeta, supplied: Reply, matches: (string, PromptType) -> bool,
                         script: seq<Reply>, from: nat): (r: Outcome)
    ensures from <= r.next <= End(script, from)
  {
    if Invalid(o, supplied, matches) then
      if from >= |script| then Outcome(None, from, RetryEvents(o, supplied.value), true)
      else Outcome(script[from], from + 1, RetryEvents(o, supplied.value), false)
    else if MustAsk(o, supplied) then
      AskRequired(PromptFor(o), Label(o), script, from)
    else if supplied.None? && o.defaultValue.Some? then
      Outcome(Some(Text(o.defaultValue.value)), from, [], false)
    else
      Outcome(supplied, from, [], false)
  }

  /**
   * What each branch of the state machine does: a supplied value that fails
   * its pattern is replaced by exactly one corrective reply, stored unchecked;
   * a required option without value or default takes the first accepted
   * reply; a missing value with a default takes the default text, unchecked;
   * anything else is kept and no reply is read.
   */
  lemma OptionOutcomeCases(o: OptionMeta, supplied: Reply, matches: (string, PromptType) -> bool,
                           script: seq<Reply>, from: nat)
    ensures var r := OptionOutcome(o, supplied, matches, script, from);
      (Invalid(o, supplied, matches) ==>
        r.events == RetryEvents(o, supplied.value)
        && (r.exhausted <==> from >= |script|)
        && (!r.exhausted ==> r.next == from + 1 && r.value == script[from]))
      && (MustAsk(o, supplied) ==>
        (r.exhausted <==> forall j :: from <= j < |script| ==> !Accepted(script[j]))
        && (!r.exhausted ==> from < r.next && r.value == script[r.next - 1] && Accepted(r.value))
        && (forall j :: from <= j < r.next - 1 ==> !Accepted(script[j]))
        && r.events != [] && r.events[0] == Prompted(PromptFor(o), Label(o)))
      && (supplied.None? && o.defaultValue.Some? ==>
        r == Outcome(Some(Text(o.defaultValue.value)), from, [], false))
      && ((supplied.Some? && !Invalid(o, supplied, matches))
          || (supplied.None? && !o.required && o.defaultValue.None?) ==>
        r == Outcome(supplied, from, [], false))
  {
    if MustAsk(o, supplied) {
      AskRequiredTakesFirstAccepted(PromptFor(o), Label(o), script, from);
    }
  }

  /** Resolves one option against the shell; the body of the loop over options. */
  method ResolveOption(o: OptionMeta, supplied: Reply, matches: (string, PromptType) -> bool, shell: Shell)
    returns (value: Reply, ok: bool)
    modifies shell
    ensures var out := OptionOutcome(o, supplied, matches, shell.replies, old(shell.next));
      value == out.value && ok == !out.exhausted
      && shell.next == out.next && shell.log == old(shell.log) + out.events
  {
    value := supplied;
    ok := true;
    var caption := Label(o);
    if value.Some? && !matches(Render(value.value), o.promptType) {
      shell.Println(CouldNotParse(value.value));
      var reply := shell.Ask(CommonPrompt(o.promptType), caption);
      if reply.None? {
        value, ok := None, false;
      } else {
        value := reply.value;
      }
    } else if o.required && value.None? && o.defaultValue.None? {
      var variant := PromptFor(o);
      ghost var log0 := shell.log;
      ghost var total := AskRequired(variant, caption, shell.replies, shell.next);
      ghost var shown: seq<Event> := [];
      while value.None? && ok
        invariant shell.log == log0 + shown
        invariant value.None? && ok ==>
          var now := AskRequired(variant, caption, shell.replies, shell.next);
          now == Outcome(total.value, total.next, now.events, total.exhausted)
          && total.events == shown + now.events
        invariant !(value.None? && ok) ==>
          value == total.value && ok == !total.exhausted
          && shell.next == total.next && shown == total.events
        decreases |shell.replies| - shell.next, if value.None? && ok then 1 else 0
      {
        ghost var now := AskRequired(variant, caption, shell.replies, shell.next);
        var reply := shell.Ask(variant, caption);
        if reply.None? {
          ok := false;
          shown := shown + [Prompted(variant, caption)];
        } else {
          value := reply.value;
          ghost var said: seq<Event> := [];
          if value.Some? && IsBlank(Render(value.value)) {
            shell.Println(RequiredMessage);
            value := None;
            said := [Printed(RequiredMessage)];
          }
          if value.None? {
            ghost var later := AskRequired(variant, caption, shell.replies, shell.next);
            assert now.events == [Prompted(variant, caption)] + said + later.events;
            Associative(shown, [Prompted(variant, caption)], said, later.events);
          }
          Associative(log0, shown, [Prompted(variant, caption)], said);
          shown := shown + [Prompted(variant, caption)] + said;
        }
      }
    } else if value.None? && o.defaultValue.Some? {
      value := Some(Text(o.defaultValue.value));
    }
  }

  // ---------------------------------------------------------------------------
  // Resolution of all options and the parameter array
  // ---------------------------------------------------------------------------

  /** Every option's index addresses a slot of an array sized to the option count. */
  predicate IndicesInRange(c: CommandMeta)
  {
    forall k :: 0 <= k < |c.options| ==> c.options[k].index < |c.options|
  }

  /** No two options share an index. */
  predicate IndicesDistinct(opts: seq<OptionMeta>)
  {
    forall a, b :: 0 <= a < b < |opts| ==> opts[a].index != opts[b].index
  }

  /** The options resolved so far, the cursor, what was shown, and whether the script ran out. */
  datatype Run = Run(outcomes: seq<Outcome>, next: nat, events: seq<Event>, exhausted: bool)

  /**
   * Resolves options in declaration order, each from where the previous one
   * left the cursor, stopping at the first that runs out of script.
   */
  function ParametersRun(opts: seq<OptionMeta>, values: map<OptionMeta, Value>,
                         matches: (string, PromptType) -> bool, script: seq<Reply>, from: nat): (r: Run)
    ensures |r.outcomes| <= |opts|
    ensures !r.exhausted ==> |r.outcomes| == |opts|
    ensures from <= r.next <= End(script, from)
    decreases |opts|
  {
    if opts == [] then Run([], from, [], false)
    else
      var prev := ParametersRun(opts[..|opts| - 1], values, matches, script, from);
      if prev.exhausted then prev
      else
        var o := opts[|opts| - 1];
        var out := OptionOutcome(o, Lookup(values, o), matches, script, prev.next);
        Run(prev.outcomes + [out], out.next, prev.events + out.events, out.exhausted)
  }

  /** The cursor before the k-th option of a run. */
  function CursorBefore(outs: seq<Outcome>, from: nat, k: nat): nat
    requires k <= |outs|
  {
    if k == 0 then from else outs[k - 1].next
  }

  /** A run ends at the cursor its last outcome left; only its last outcome can have run out of script. */
  lemma {:induction false} RunShape(opts: seq<OptionMeta>, values: map<OptionMeta, Value>,
                                  matches: (string, PromptType) -> bool, script: seq<Reply>, from: nat)
    ensures var r := ParametersRun(opts, values, matches, script, from);
      r.next == CursorBefore(r.outcomes, from, |r.outcomes|)
      && (r.exhausted ==> r.outcomes != [])
      && (forall k :: 0 <= k < |r.outcomes| ==>
        (r.outcomes[k].exhausted <==> r.exhausted && k == |r.outcomes| - 1))
    decreases |opts|
  {
    if opts != [] {
      var shorter := opts[..|opts| - 1];
      RunShape(shorter, values, matches, script, from);
      var prev := ParametersRun(shorter, values, matches, script, from);
      if !prev.exhausted {
        var r := ParametersRun(opts, values, matches, script, from);
        assert forall k :: 0 <= k < |prev.outcomes| ==> r.outcomes[k] == prev.outcomes[k];
      }
    }
  }

  /** The k-th outcome of a run is the state machine applied to the k-th option at the cursor before it. */
  lemma {:induction false} RunOutcomeAt(opts: seq<OptionMeta>, values: map<OptionMeta, Value>,
                                      matches: (string, PromptType) -> bool, script: seq<Reply>, from: nat, k: nat)
    requires k < |ParametersRun(opts, values, matches, script, from).outcomes|
    ensures var r := ParametersRun(opts, values, matches, script, from);
      r.outcomes[k] == OptionOutcome(opts[k], Lookup(values, opts[k]), matches, script,
                                     CursorBefore(r.outcomes, from, k))
    decreases |opts|
  {
    var shorter := opts[..|opts| - 1];
    var prev := ParametersRun(shorter, values, matches, script, from);
    var r := ParametersRun(opts, values, matches, script, from);
    if prev.exhausted {
      RunOutcomeAt(shorter, values, matches, script, from, k);
    } else if k < |prev.outcomes| {
      RunOutcomeAt(shorter, values, matches, script, from, k);
      assert r.outcomes[k] == prev.outcomes[k] && opts[k] == shorter[k];
      assert CursorBefore(r.outcomes, from, k) == CursorBefore(prev.outcomes, from, k);
    } else {
      RunShape(shorter, values, matches, script, from);
    }
  }

  /**
   * Each option is resolved by the state machine from the cursor the previous
   * one left; only the last outcome of an exhausted run ran out of script.
   */
  lemma RunResolvesInOrder(opts: seq<OptionMeta>, values: map<OptionMeta, Value>,
                           matches: (string, PromptType) -> bool, script: seq<Reply>, from: nat)
    ensures var r := ParametersRun(opts, values, matches, script, from);
      r.next == CursorBefore(r.outcomes, from, |r.outcomes|)
      && (r.exhausted ==> r.outcomes != [])
      && (forall k :: 0 <= k < |r.outcomes| ==>
        (r.outcomes[k].exhausted <==> r.exhausted && k == |r.outcomes| - 1))
      && (forall k :: 0 <= k < |r.outcomes| ==>
        r.outcomes[k] == OptionOutcome(opts[k], Lookup(values, opts[k]), matches, script,
                                       CursorBefore(r.outcomes, from, k)))
  {
    RunShape(opts, values, matches, script, from);
    forall k | 0 <= k < |ParametersRun(opts, values, matches, script, from).outcomes| {
      RunOutcomeAt(opts, values, matches, script, from, k);
    }
  }

  /** The all-null array Java allocates. */
  function Nulls(n: nat): (r: seq<Reply>)
    ensures |r| == n && forall i :: 0 <= i < n ==> r[i] == None
  {
    seq(n, _ => None)
  }

  /** The slots after storing each outcome at its option's index, in order. */
  function Store(slots: seq<Reply>, opts: seq<OptionMeta>, outs: seq<Outcome>): (r: seq<Reply>)
    requires |outs| <= |opts|
    requires forall k :: 0 <= k < |opts| ==> opts[k].index < |slots|
    ensures |r| == |slots|
    decreases |outs|
  {
    if outs == [] then slots
    else Store(slots, opts, outs[..|outs| - 1])[opts[|outs| - 1].index := outs[|outs| - 1].value]
  }

  /** With distinct indices, each option's outcome sits at its index and untouched slots keep their value. */
  lemma {:induction false} StoreAtIndex(slots: seq<Reply>, opts: seq<OptionMeta>, outs: seq<Outcome>)
    requires |outs| <= |opts|
    requires forall k :: 0 <= k < |opts| ==> opts[k].index < |slots|
    requires IndicesDistinct(opts)
    ensures forall k :: 0 <= k < |outs| ==> Store(slots, opts, outs)[opts[k].index] == outs[k].value
    ensures forall i :: 0 <= i < |slots| && (forall k :: 0 <= k < |outs| ==> opts[k].index != i) ==>
      Store(slots, opts, outs)[i] == slots[i]
    decreases |outs|
  {
    if outs != [] {
      var n := |outs| - 1;
      StoreAtIndex(slots, opts, outs[..n]);
      assert forall k :: 0 <= k < n ==> outs[..n][k] == outs[k];
    }
  }

  /** One more option extends a run that has not run out by that option's outcome. */
  lemma RunStep(opts: seq<OptionMeta>, i: nat, values: map<OptionMeta, Value>,
                matches: (string, PromptType) -> bool, script: seq<Reply>, from: nat)
    requires i < |opts|
    requires !ParametersRun(opts[..i], values, matches, script, from).exhausted
    ensures var prev := ParametersRun(opts[..i], values, matches, script, from);
      var out := OptionOutcome(opts[i], Lookup(values, opts[i]), matches, script, prev.next);
      ParametersRun(opts[..i + 1], values, matches, script, from)
        == Run(prev.outcomes + [out], out.next, prev.events + out.events, out.exhausted)
  {
    assert opts[..i + 1][..i] == opts[..i];
  }

  /** Storing one more outcome writes its option's slot. */
  lemma StoreStep(slots: seq<Reply>, opts: seq<OptionMeta>, outs: seq<Outcome>, out: Outcome)
    requires |outs| < |opts|
    requires forall k :: 0 <= k < |opts| ==> opts[k].index < |slots|
    ensures Store(slots, opts, outs + [out]) == Store(slots, opts, outs)[opts[|outs|].index := out.value]
  {
    assert (outs + [out])[..|outs|] == outs;
  }

  /** Once the script runs out, later options change nothing. */
  lemma {:induction false} RunStopsWhenExhausted(opts: seq<OptionMeta>, values: map<OptionMeta, Value>,
                                               matches: (string, PromptType) -> bool, script: seq<Reply>,
                                               from: nat, j: nat)
    requires j <= |opts|
    requires ParametersRun(opts[..j], values, matches, script, from).exhausted
    ensures ParametersRun(opts, values, matches, script, from) == ParametersRun(opts[..j], values, matches, script, from)
    decreases |opts| - j
  {
    if j < |opts| {
      var shorter := opts[..|opts| - 1];
      assert shorter[..j] == opts[..j];
      RunStopsWhenExhausted(shorter, values, matches, script, from, j);
    } else {
      assert opts[..j] == opts;
    }
  }

  /**
   * What each option's slot holds after a complete run over a command whose
   * option indices are distinct and in range.
   */
  lemma ParameterSlots(c: CommandMeta, values: map<OptionMeta, Value>,
                       matches: (string, PromptType) -> bool, script: seq<Reply>, from: nat)
    requires IndicesInRange(c) && IndicesDistinct(c.options)
    requires !ParametersRun(c.options, values, matches, script, from).exhausted
    ensures var run := ParametersRun(c.options, values, matches, script, from);
      var slots := Store(Nulls(|c.options|), c.options, run.outcomes);
      |slots| == |c.options|
      && forall k :: 0 <= k < |c.options| ==>
        var o, supplied := c.options[k], Lookup(values, c.options[k]);
        var at := CursorBefore(run.outcomes, from, k);
        (supplied.Some? && !Invalid(o, supplied, matches) ==> slots[o.index] == supplied)
        && (Invalid(o, supplied, matches) ==> at < |script| && slots[o.index] == script[at])
        && (MustAsk(o, supplied) ==> Accepted(slots[o.index]))
        && (supplied.None? && o.defaultValue.Some? ==> slots[o.index] == Some(Text(o.defaultValue.value)))
        && (supplied.None? && !o.required && o.defaultValue.None? ==> slots[o.index] == None)
  {
    var run := ParametersRun(c.options, values, matches, script, from);
    StoreAtIndex(Nulls(|c.options|), c.options, run.outcomes);
    RunResolvesInOrder(c.options, values, matches, script, from);
    forall k | 0 <= k < |c.options| {
      OptionOutcomeCases(c.options[k], Lookup(values, c.options[k]), matches, script,
                         CursorBefore(run.outcomes, from, k));
    }
  }

  /**
   * The loop state of `ParseParameters` after the first `i` options, none of
   * which ran out of script: the slots, the cursor and the log so far.
   */
  predicate Filled(opts: seq<OptionMeta>, i: nat, values: map<OptionMeta, Value>,
                   matches: (string, PromptType) -> bool, script: seq<Reply>, from: nat, log0: seq<Event>,
                   slots: seq<Reply>, next: nat, log: seq<Event>)
    requires i <= |opts|
    requires forall k :: 0 <= k < |opts| ==> opts[k].index < |opts|
  {
    var run := ParametersRun(opts[..i], values, matches, script, from);
    !run.exhausted
    && slots == Store(Nulls(|opts|), opts, run.outcomes)
    && next == run.next
    && log == log0 + run.events
  }

  /** Resolving option `i` from a filled state either fills one more option or ends the whole run. */
  lemma FilledStep(opts: seq<OptionMeta>, i: nat, values: map<OptionMeta, Value>,
                   matches: (string, PromptType) -> bool, script: seq<Reply>, from: nat, log0: seq<Event>,
                   slots: seq<Reply>, next: nat, log: seq<Event>)
    requires i < |opts|
    requires forall k :: 0 <= k < |opts| ==> opts[k].index < |opts|
    requires Filled(opts, i, values, matches, script, from, log0, slots, next, log)
    ensures var out := OptionOutcome(opts[i], Lookup(values, opts[i]), matches, script, next);
      (!out.exhausted ==>
        Filled(opts, i + 1, values, matches, script, from, log0,
               slots[opts[i].index := out.value], out.next, log + out.events))
      && (out.exhausted ==>
        var run := ParametersRun(opts[..i + 1], values, matches, script, from);
        run.exhausted && run.next == out.next && log0 + run.events == log + out.events)
  {
    var prev := ParametersRun(opts[..i], values, matches, script, from);
    var out := OptionOutcome(opts[i], Lookup(values, opts[i]), matches, script, next);
    RunStep(opts, i, values, matches, script, from);
    assert log0 + (prev.events + out.events) == log + out.events;
    StoreStep(Nulls(|opts|), opts, prev.outcomes, out);
  }

  /**
   * One round of the loop over options: resolves option `i` and stores its
   * value at the option's index.
   */
  method ResolveSlot(opts: seq<OptionMeta>, i: nat, values: map<OptionMeta, Value>,
                     matches: (string, PromptType) -> bool, shell: Shell, parameters: array<Reply>,
                     ghost from: nat, ghost log0: seq<Event>)
    returns (ok: bool)
    requires i < |opts| && parameters.Length == |opts|
    requires forall k :: 0 <= k < |opts| ==> opts[k].index < |opts|
    requires Filled(opts, i, values, matches, shell.replies, from, log0, parameters[..], shell.next, shell.log)
    modifies shell, parameters
    ensures ok ==> Filled(opts, i + 1, values, matches, shell.replies, from, log0,
                          parameters[..], shell.next, shell.log)
    ensures !ok ==>
      var run := ParametersRun(opts[..i + 1], values, matches, shell.replies, from);
      run.exhausted && shell.next == run.next && shell.log == log0 + run.events
  {
    var option := opts[i];
    ghost var slots, next, log := parameters[..], shell.next, shell.log;
    FilledStep(opts, i, values, matches, shell.replies, from, log0, slots, next, log);
    var value;
    value, ok := ResolveOption(option, Lookup(values, option), matches, shell);
    if ok {
      parameters[option.index] := value;
      assert parameters[..] == slots[option.index := value];
    }
  }

  /**
   * Builds the parameter array: one slot per option, each option's value at
   * its index, resolving options in declaration order against the shell.
   */
  method ParseParameters(command: CommandMeta, tokens: seq<string>,
                         commandParser: (CommandMeta, seq<string>) -> map<OptionMeta, Value>,
                         matches: (string, PromptType) -> bool, shell: Shell)
    returns (parameters: array<Reply>, ok: bool)
    requires IndicesInRange(command)
    modifies shell
    ensures fresh(parameters) && parameters.Length == |command.options|
    ensures var run := ParametersRun(command.options, commandParser(command, tokens), matches,
                                     shell.replies, old(shell.next));
      ok == !run.exhausted
      && (ok ==> parameters[..] == Store(Nulls(|command.options|), command.options, run.outcomes))
      && shell.next == run.next
      && shell.log == old(shell.log) + run.events
  {
    var valueMap := commandParser(command, tokens);
    var opts := command.options;
    parameters := new Reply[|opts|](_ => None);
    ghost var from, log0 := shell.next, shell.log;
    ok := true;
    assert opts[..0] == [];
    for i := 0 to |opts|
      invariant Filled(opts, i, valueMap, matches, shell.replies, from, log0, parameters[..], shell.next, shell.log)
    {
      ok := ResolveSlot(opts, i, valueMap, matches, shell, parameters, from, log0);
      if !ok {
        RunStopsWhenExhausted(opts, valueMap, matches, shell.replies, from, i + 1);
        return;
      }
    }
    assert opts[..|opts|] == opts;
  }

  // ---------------------------------------------------------------------------
  // Parsing a line
  // ---------------------------------------------------------------------------

  /**
   * Parses one line: selects plugin and command from the leading tokens, then
   * resolves the command's parameters from the rest. An empty line or an
   * unknown plugin gives an Execution with no command.
   */
  method Parse(line: string, tokenize: string -> seq<string>, plugins: map<string, PluginMeta>,
               commandParser: (CommandMeta, seq<string>) -> map<OptionMeta, Value>,
               matches: (string, PromptType) -> bool, shell: Shell)
    returns (r: Result<Execution, ParseError>)
    requires var s := SelectCommand(plugins, tokenize(line)); s.Selected? ==> IndicesInRange(s.command)
    modifies shell
    ensures match SelectCommand(plugins, tokenize(line))
      case Unresolved =>
        r.Success? && fresh(r.value) && r.value.originalStatement == line
        && r.value.command == None && r.value.parameterArray == null
        && shell.next == old(shell.next) && shell.log == old(shell.log)
      case Missing(p) =>
        r == Failure(MissingCommand(p.name, p.commands.Keys))
        && shell.next == old(shell.next) && shell.log == old(shell.log)
      case Selected(p, c, rest) =>
        var run := ParametersRun(c.options, commandParser(c, rest), matches, shell.replies, old(shell.next));
        shell.next == run.next && shell.log == old(shell.log) + run.events
        && (r.Success? <==> !run.exhausted)
        && (r.Failure? ==> r.error == ScriptExhausted)
        && (r.Success? ==>
          fresh(r.value) && r.value.originalStatement == line && r.value.command == Some(c)
          && r.value.parameterArray != null && fresh(r.value.parameterArray)
          && r.value.parameterArray[..] == Store(Nulls(|c.options|), c.options, run.outcomes))
  {
    var tokens := tokenize(line);
    var execution := new Execution();
    execution.SetOriginalStatement(line);
    var command: Option<CommandMeta> := None;

    if tokens != [] {
      var first := tokens[0];
      tokens := tokens[1..];
      if first in plugins {
        var plugin := plugins[first];
        if tokens != [] {
          var second := tokens[0];
          command := if second in plugin.commands then Some(plugin.commands[second]) else None;
          if command.Some? {
            tokens := tokens[1..];
          }
        }
        if plugin.defaultCommand.Some? {
          command := plugin.defaultCommand;
        }
        if command.Some? {
          execution.SetCommand(command.value);
          var parameters, ok := ParseParameters(command.value, tokens, commandParser, matches, shell);
          if !ok {
            return Failure(ScriptExhausted);
          }
          execution.SetParameterArray(parameters);
        } else {
          return Failure(MissingCommand(plugin.name, plugin.commands.Keys));
        }
      }
    }
    return Success(execution);
  }
}
