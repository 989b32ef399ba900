/**
 * The interactive shell as a script: the replies the user will give, consumed
 * front to back through a cursor, and a log of everything printed or prompted.
 */
module ScriptedShell {
  import opened Base
  import opened Metadata

  /** What one prompt returns: a value, or null. */
  type Reply = Option<Value>

  /** The four prompt calls of the shell. */
  datatype PromptVariant =
    | BooleanPrompt
    | FilePrompt
    | CommonPrompt(promptType: PromptType)
    | PlainPrompt

  /** One visible interaction: a printed line or a prompt shown with its caption. */
  datatype Event = Printed(text: string) | Prompted(variant: PromptVariant, caption: string)

  class Shell {
    /** Every reply the user will give, in order. */
    const replies: seq<Reply>
    /** How many replies have been taken so far: the next one is `replies[next]`. */
    var next: nat
    /** Everything shown so far, oldest first. */
    var log: seq<Event>

    constructor (script: seq<Reply>)
      ensures replies == script && next == 0 && log == []
    {
      replies := script;
      next := 0;
      log := [];
    }

    /** Prints one line. */
    method Println(text: string)
      modifies this
      ensures next == old(next)
      ensures log == old(log) + [Printed(text)]
    {
      log := log + [Printed(text)];
    }

    /**
     * Shows a prompt and takes the next reply. `None` means the script has run
     * out, where a real user would still be expected to answer.
     */
    method Ask(variant: PromptVariant, caption: string) returns (reply: Option<Reply>)
      modifies this
      ensures log == old(log) + [Prompted(variant, caption)]
      ensures old(next) < |replies| ==> reply == Some(replies[old(next)]) && next == old(next) + 1
      ensures old(next) >= |replies| ==> reply == None && next == old(next)
    {
      log := log + [Prompted(variant, caption)];
      if next < |replies| {
        reply := Some(replies[next]);
        next := next + 1;
      } else {
        reply := None;
      }
    }
  }
}
