/**
  The PreToolUse hook of agent/client.py: validate_bash_command, which lets
  every tool but Bash through and runs each Bash command past the gate of
  agent/security.py.
 */
module Client {
  import opened Wrappers
  import opened PyStr
  import opened Security

  /** The message sent back when the gate refuses a command. */
  function BlockMessage(reason: string, listing: seq<string>): (m: string)
    ensures |m| == |"Command blocked: "| + |reason| + |". Allowed commands: "| + |Join(listing, ", ")|
    ensures m[..17] == "Command blocked: " && m[17..17 + |reason|] == reason
    ensures m[17 + |reason|..17 + |reason| + 20] == ". Allowed commands: "
    ensures m[|m| - |Join(listing, ", ")|..] == Join(listing, ", ")
  {
    "Command blocked: " + reason + ". Allowed commands: " + Join(listing, ", ")
  }

  /**
    validate_bash_command for a given allowlist, list of blocked patterns
    and printed listing: None lets the tool call run, Some(message) blocks it.
    A missing "command" key reads as the empty command.
   */
  function Validate(toolName: string, toolInput: map<string, string>,
                    allowed: set<string>, patterns: seq<string>, listing: seq<string>): (r: Option<string>)
    ensures toolName != "Bash" ==> r == None
    ensures toolName == "Bash" && ("command" !in toolInput || toolInput["command"] == "") ==>
              r == Some("Empty command not allowed")
    ensures r.None? <==> toolName != "Bash" || ("command" in toolInput && Gate(toolInput["command"], allowed, patterns).allowed)
  {
    if toolName != "Bash" then None
    else
      var command := if "command" in toolInput then toolInput["command"] else "";
      if |command| == 0 then Some("Empty command not allowed")
      else
        var d := Gate(command, allowed, patterns);
        if !d.allowed then Some(BlockMessage(d.reason, listing))
        else None
  }

  /**
    validate_bash_command with the allowlist and patterns of agent/security.py:
    a Bash call runs exactly when is_command_allowed accepts its command, and
    a refused non-empty command is answered with the gate's reason and the
    sorted allowlist.
   */
  function ValidateBashCommand(toolName: string, toolInput: map<string, string>): (r: Option<string>)
    ensures r.None? <==> toolName != "Bash" || ("command" in toolInput && IsCommandAllowed(toolInput["command"]).allowed)
    ensures toolName == "Bash" && "command" in toolInput && toolInput["command"] != "" && r.Some? ==>
              r.value == BlockMessage(IsCommandAllowed(toolInput["command"]).reason, GetAllowedCommandsList())
  {
    HookOverAllowlist(toolName, toolInput, GetAllowedCommandsList());
    Validate(toolName, toolInput, AllowedCommands, BlockedPatterns, GetAllowedCommandsList())
  }

  /** The hook over ALLOWED_COMMANDS and BLOCKED_PATTERNS follows is_command_allowed, whatever listing it prints. */
  lemma HookOverAllowlist(toolName: string, toolInput: map<string, string>, listing: seq<string>)
    ensures var r := Validate(toolName, toolInput, AllowedCommands, BlockedPatterns, listing);
      && (r.None? <==> toolName != "Bash" || ("command" in toolInput && IsCommandAllowed(toolInput["command"]).allowed))
      && (toolName == "Bash" && "command" in toolInput && toolInput["command"] != "" && r.Some? ==>
            r.value == BlockMessage(IsCommandAllowed(toolInput["command"]).reason, listing))
  {
  }

  /**
    On a non-empty Bash command the hook agrees with the gate: it lets the
    command run exactly when the gate allows it, and otherwise passes the
    gate's reason on together with the listing.
   */
  lemma HookFollowsGate(command: string, toolInput: map<string, string>,
                        allowed: set<string>, patterns: seq<string>, listing: seq<string>)
    requires "command" in toolInput && toolInput["command"] == command && command != ""
    ensures var d := Gate(command, allowed, patterns);
      Validate("Bash", toolInput, allowed, patterns, listing) ==
        if d.allowed then None else Some(BlockMessage(d.reason, listing))
  {
  }

  /**
    Two different refusals of an empty command: the hook's own for the
    empty string, and the gate's, relayed, for whitespace.
   */
  lemma WhitespaceBlockedByGate(command: string, toolInput: map<string, string>,
                                allowed: set<string>, patterns: seq<string>, listing: seq<string>)
    requires "command" in toolInput && toolInput["command"] == command
    requires command != "" && IsBlank(command)
    ensures Validate("Bash", toolInput, allowed, patterns, listing) == Some(BlockMessage("Empty command", listing))
  {
    EmptyCommandDenied(command, allowed, patterns);
  }

  /**
    A non-empty Bash command containing a blocked pattern is refused with
    the first such pattern named in the message.
   */
  lemma BlockedPatternReported(command: string, toolInput: map<string, string>,
                               allowed: set<string>, patterns: seq<string>, listing: seq<string>, k: int)
    requires "command" in toolInput && toolInput["command"] == command && !IsBlank(command)
    requires 0 <= k < |patterns| && Contains(Lower(command), Lower(patterns[k]))
    requires forall j | 0 <= j < k :: !Contains(Lower(command), Lower(patterns[j]))
    ensures Validate("Bash", toolInput, allowed, patterns, listing) ==
              Some(BlockMessage("Contains blocked pattern: " + patterns[k], listing))
  {
    BlockedPatternWins(command, allowed, patterns, k);
  }

  /** Whatever the input, the message of a block starts with the hook's prefix or is the empty-command message. */
  lemma BlockMessageShape(toolName: string, toolInput: map<string, string>,
                          allowed: set<string>, patterns: seq<string>, listing: seq<string>)
    ensures var r := Validate(toolName, toolInput, allowed, patterns, listing);
      r.Some? ==> r.value == "Empty command not allowed" || r.value[..17] == "Command blocked: "
  {
  }
}
