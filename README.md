# ExecutionParser — a Dafny model of command-line resolution in the Seam Sidekick shell

The shell's `ExecutionParser` turns one typed line into an `Execution`:

- The first token names a plugin. An empty line or an unknown plugin gives an
  `Execution` with only the original statement set.
- The next token is consumed only if it names one of the plugin's commands.
- A plugin's default command replaces whatever the second token matched.
- No command at all is an error that names the plugin and its commands.
- For the chosen command, an array with one slot per option is filled. Each
  option's slot is its declared index. Each option goes through a small state
  machine:
  1. A supplied value that fails its prompt-type pattern gets one diagnostic
     and one corrective prompt. The reply is stored unchecked.
  2. A required option with no value and no default is prompted for until a
     non-null, non-blank reply arrives. The prompt kind is boolean, else file,
     else pattern-aware, else plain.
  3. A missing value with a default takes the default text.
  4. Anything else is kept as is.

The model has four modules:

- `Base` (`base.dfy`): `Option` and `Result`.
- `Metadata` (`metadata.dfy`): plugin, command and option descriptions;
  option values and their Java `toString()`; Java's "blank after `trim()`".
- `ScriptedShell` (`shell.dfy`): the interactive shell. It is a `Shell` class
  holding the replies the user will give, a cursor into them, and a log of
  everything printed or prompted.
- `ExecutionParser` (`execution_parser.dfy`):
  - the `Execution` class;
  - `Parse`, `ParseParameters`, `ResolveSlot` and `ResolveOption` as methods
    that mirror the Java control flow;
  - the specification functions `SelectCommand`, `OptionOutcome`,
    `AskRequired`, `ParametersRun` and `Store` that those methods are proved
    against;
  - lemmas stating what the specification functions mean.

The collaborators are parameters:

- the tokenizer is `tokenize: string -> seq<string>`;
- the plugin registry is a `map<string, PluginMeta>`;
- the composite option parser is `commandParser: (CommandMeta, seq<string>) -> map<OptionMeta, Value>`;
- `String.matches` against a prompt type's pattern is `matches: (string, PromptType) -> bool`.

## Model

| member | source | states |
|---|---|---|
| ExecutionParser.SelectCommand | shell/src/main/java/org/jboss/seam/sidekick/shell/command/ExecutionParser.java:74-96 | Nothing is selected exactly when the tokens are empty or the first names no plugin. The selected plugin is the first token's. The command is missing exactly when there is no default and the second token names no command. A default command always wins. Without one, the command is the one the second token names. The second token is consumed exactly when it names a command, even if the default then wins. |
| ExecutionParser.Parse | shell/src/main/java/org/jboss/seam/sidekick/shell/command/ExecutionParser.java:65-114 | No plugin gives a fresh Execution with the line, no command, no parameter array and no shell interaction. A missing command fails with the plugin's name and command names, and nothing is shown. A selected command gives an Execution with the line, that command, and the parameter array that parameter resolution over the remaining tokens builds. |
| ExecutionParser.ParseParameters | shell/src/main/java/org/jboss/seam/sidekick/shell/command/ExecutionParser.java:116-177 | Returns a fresh array whose length is the option count. Its contents are each option's outcome stored at that option's index, in declaration order, over all-null slots. The shell's cursor and log end where the in-order run of the per-option state machine leaves them. |
| ExecutionParser.ResolveSlot | shell/src/main/java/org/jboss/seam/sidekick/shell/command/ExecutionParser.java:125-173 | One round of the loop over options. It extends the run by the next option's outcome, writes that outcome to the option's index, and advances cursor and log by that option's replies and events. |
| ExecutionParser.ResolveOption | shell/src/main/java/org/jboss/seam/sidekick/shell/command/ExecutionParser.java:127-171 | The imperative if/else chain, including the `while` prompt loop, gives the value, cursor and printed or prompted events the per-option state machine defines. |
| ExecutionParser.OptionOutcomeCases | shell/src/main/java/org/jboss/seam/sidekick/shell/command/ExecutionParser.java:133-171 | An invalid supplied value shows exactly one diagnostic and one pattern-aware prompt, then stores the one reply read, unchecked. A required option with no value and no default stores the first accepted reply; it shows first the prompt `PromptFor` chooses. A missing value with a default takes the default text whether or not the option is required. A valid supplied value, or a missing optional one without a default, is kept and reads no reply. |
| ExecutionParser.AskRequiredTakesFirstAccepted | shell/src/main/java/org/jboss/seam/sidekick/shell/command/ExecutionParser.java:139-166 | The required-value loop stores the first non-null, non-blank reply. Every earlier reply was null or blank. The loop ends without a value only when no acceptable reply remains. |
| ExecutionParser.AskRequiredPromptCount | shell/src/main/java/org/jboss/seam/sidekick/shell/command/ExecutionParser.java:141-166 | The required-value loop shows exactly one prompt per reply it reads, plus one unanswered prompt when the replies run out. |
| ExecutionParser.PromptFor | shell/src/main/java/org/jboss/seam/sidekick/shell/command/ExecutionParser.java:143-159 | The prompt is boolean exactly for boolean options. It is file exactly for non-boolean options whose boxed type is `File` or a subclass. It is pattern-aware, with the option's own prompt type, exactly for the remaining options whose prompt type is not ANY. Otherwise it is plain. |
| ExecutionParser.RunResolvesInOrder | shell/src/main/java/org/jboss/seam/sidekick/shell/command/ExecutionParser.java:125-174 | Resolving all options processes them in declaration order. Each option is handled by the state machine from the reply where the previous one stopped. Only the last outcome of a stopped run can have run out of replies. |
| ExecutionParser.RunShape | shell/src/main/java/org/jboss/seam/sidekick/shell/command/ExecutionParser.java:125-174 | A run ends at the reply where its last resolved option stopped. A run that ran out of replies resolved at least one option, and only its last outcome ran out. |
| ExecutionParser.RunOutcomeAt | shell/src/main/java/org/jboss/seam/sidekick/shell/command/ExecutionParser.java:125-173 | The k-th option's outcome is the per-option state machine applied to that option's supplied value, starting from the reply where option k-1 stopped. |
| ExecutionParser.StoreAtIndex | shell/src/main/java/org/jboss/seam/sidekick/shell/command/ExecutionParser.java:173 | With distinct indices, every option's final value sits at exactly its index. Slots no option addresses keep their initial value. |
| ExecutionParser.ParameterSlots | shell/src/main/java/org/jboss/seam/sidekick/shell/command/ExecutionParser.java:124-173 | After a complete run over a command with distinct in-range indices, the array has the option count as its length. For each option, its slot holds one of five things. A valid supplied value stays unchanged. An invalid one becomes the corrective reply read at that point. A required option with nothing supplied and no default gets a non-null, non-blank reply. A missing value takes the default text when there is a default. A missing optional value with no default stays null. |

## Left out

- Tokenizer: `Tokenizer.tokenize` is not part of this model; the token sequence is the result of the `tokenize` parameter.
- Option parsing: `CompositeCommandParser` and its six strategy parsers are not part of this model; their result is the `commandParser` parameter.
- Pattern matching: `String.matches` with `PromptType.getPattern` is the `matches` parameter.
- Reflection and MVEL: the option's declared type is reduced to `JavaType`. `unboxPrimitive` becomes `UnboxedType`, `getBoxedType` becomes `BoxedType`, and `File.class.isAssignableFrom` becomes `IsFileOption`.
- `OptionMetadata`, `CommandMetadata`, `PluginMetadata`: these classes are not part of this model. `hasDefaultValue` is taken to mean that a default is present, and `getCommand` is map lookup.
- CDI: `@Inject` and `Instance<Execution>` are replaced by allocating a new `Execution`.
- Terminal I/O: the shell's prompts take the next scripted reply without any validation of their own. Printing and prompting are recorded in a log. What a prompt does inside the real shell is not modelled.
- Running out of input: when the scripted replies end, a prompt returns nothing. Parsing then stops with `ScriptExhausted`. The Java code would instead wait for the user, so this error is a model artefact with no Java counterpart.
- `PluginExecutionException`: modelled as `MissingCommand(plugin name, set of command names)`. The message text and the Java rendering of the command collection are left out.
- Parse: requires the selected command's option indices to be below the option count. Java would throw `ArrayIndexOutOfBoundsException` for other indices, and that exception is not modelled.
- ParameterSlots: requires distinct option indices. With duplicate indices `Store` still models the Java behaviour, where the later option overwrites the earlier slot.
- Queue mutation: the token queue's `remove`/`peek` are modelled as sequence slicing in `SelectCommand`, and `Parse` reproduces the removals on a local sequence.
- Value types: parser values, booleans from `promptBoolean` and files from `promptFile` are all `Value`s. A default is always stored as its text.
