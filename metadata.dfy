/**
 * Read-only descriptions of plugins, commands and options, and the values
 * that the shell's parsers and prompts produce for options.
 */
module Metadata {
  import opened Base

  /** The kind of pattern an option value must match; Any accepts every text. */
  datatype PromptType = Any | Typed(name: string)

  /** The declared Java type of an option, reduced to the distinctions the resolver makes. */
  datatype JavaType =
    | BooleanPrimitive
    | BooleanBoxed
    | FileClass
    | FileSubclass(name: string)
    | OtherClass(name: string)

  /** The boxed counterpart of a type: `boolean` boxes to `Boolean`, every class is its own box. */
  function BoxedType(t: JavaType): JavaType
  {
    if t == BooleanPrimitive then BooleanBoxed else t
  }

  /** The primitive counterpart of a type: `Boolean` unboxes to `boolean`. */
  function UnboxedType(t: JavaType): JavaType
  {
    if t == BooleanBoxed then BooleanPrimitive else t
  }

  /** One declared parameter of a command. `index` is its slot in the parameter array. */
  datatype OptionMeta = OptionMeta(
    name: string,
    index: nat,
    javaType: JavaType,
    required: bool,
    defaultValue: Option<string>,
    promptType: PromptType,
    descriptor: string)

  /** A command and its options, in declaration order. */
  datatype CommandMeta = CommandMeta(name: string, options: seq<OptionMeta>)

  /** A plugin: its commands by name and an optional default command. */
  datatype PluginMeta = PluginMeta(
    name: string,
    commands: map<string, CommandMeta>,
    defaultCommand: Option<CommandMeta>)

  /** A resolved option value: parser text, a vararg list, a boolean or a file path. */
  datatype Value =
    | Text(text: string)
    | Texts(items: seq<string>)
    | Flag(flag: bool)
    | Path(path: string)

  /** Items separated by ", ", as a Java list prints them between its brackets. */
  function Join(items: seq<string>): string
    decreases |items|
  {
    if items == [] then ""
    else if |items| == 1 then items[0]
    else items[0] + ", " + Join(items[1..])
  }

  /** The `toString()` of a value: the text itself, `[a, b]`, `true`/`false`, or the path. */
  function Render(v: Value): string
  {
    match v
    case Text(s) => s
    case Texts(items) => "[" + Join(items) + "]"
    case Flag(b) => if b then "true" else "false"
    case Path(p) => p
  }

  /** Holds when Java's `trim()` leaves nothing: every character is at most U+0020. */
  predicate IsBlank(s: string)
  {
    forall i :: 0 <= i < |s| ==> s[i] <= ' '
  }
}
