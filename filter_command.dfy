// The command filter of the second generation (src/filters/command.rs):
// parsing "/command@mention arg1 arg2" into a command object, and the
// checks of its prefix, mention and command against the filter's settings.

/** The parsed command (`CommandObject` and its `extract`). */
module CommandObjects {
  import opened Wrappers
  import opened StrUtil

  datatype CommandObject = CommandObject(
    command: string,          // without prefix and mention
    prefix: string,
    mention: Option<string>,
    args: seq<string>)

  /** A text that is not empty once trimmed. */
  predicate NonBlank(text: string) {
    |Trim(text)| > 0
  }

  /** The texts `extract` as written handles without panicking: it slices
      the first token at byte 1, which panics when the trimmed text is empty
      or starts with a character wider than one UTF-8 byte. Those texts are
      non-blank. */
  predicate CanExtract(text: string): (b: bool)
    ensures b ==> NonBlank(text)
  {
    var t := Trim(text);
    |t| > 0 && (t[0] as int) < 0x80
  }

  /** `CommandObject::extract`, corrected to take the first character as
      the prefix rather than the first byte, so that it handles every
      non-blank text: the trimmed text is split on spaces; the first token
      is the prefix (its first character), then the command, then an
      optional mention after '@'; the other tokens are the arguments. On the
      texts `CanExtract` admits, the first byte is the first character, so
      this is also `extract` as written. */
  function Extract(text: string): (r: CommandObject)
    requires NonBlank(text)
    ensures r.prefix == [Trim(text)[0]]
    ensures r.args == Split(Trim(text), ' ')[1..]
    ensures ' ' !in r.command && '@' !in r.command
    ensures r.mention.Some? ==> r.mention.value != [] && ' ' !in r.mention.value && '@' !in r.mention.value
  {
    var tokens := Split(Trim(text), ' ');
    FromTokens(tokens[0], tokens[1..])
  }

  /** The object made of the first token (prefix, command and mention)
      and the remaining tokens. */
  function FromTokens(full: string, args: seq<string>): (r: CommandObject)
    requires |full| > 0 && ' ' !in full
    ensures r.prefix == [full[0]] && r.args == args
    ensures ' ' !in r.command && '@' !in r.command
    ensures r.mention.Some? ==> r.mention.value != [] && ' ' !in r.mention.value && '@' !in r.mention.value
  {
    var rest := full[1..];
    if '@' in rest then
      var parts := Split(rest, '@');
      assert ' ' !in parts[0] && ' ' !in parts[1] by {
        SplitKeepsAbsent(rest, '@', ' ');
      }
      CommandObject(parts[0], [full[0]], if parts[1] == [] then None else Some(parts[1]), args)
    else
      CommandObject(rest, [full[0]], None, args)
  }

  /** The text a command object is written as. */
  function Compose(prefix: char, command: string, mention: Option<string>, args: seq<string>): string {
    Join([[prefix] + command + (if mention.Some? then "@" + mention.value else "")] + args, ' ')
  }

  predicate NoWhitespace(s: string) {
    forall i | 0 <= i < |s| :: !IsWhitespace(s[i])
  }

  /** Parsing the written form of a well-formed command gives it back: a
      one-byte prefix, a command and a non-empty mention free of '@' and
      white space, and non-empty arguments free of white space. */
  lemma {:induction false} ExtractRoundTrip(prefix: char, command: string, mention: Option<string>, args: seq<string>)
    requires (prefix as int) < 0x80 && !IsWhitespace(prefix)
    requires NoWhitespace(command) && '@' !in command
    requires mention.Some? ==> mention.value != [] && NoWhitespace(mention.value) && '@' !in mention.value
    requires forall i | 0 <= i < |args| :: args[i] != [] && NoWhitespace(args[i])
    ensures CanExtract(Compose(prefix, command, mention, args))
    ensures Extract(Compose(prefix, command, mention, args)) == CommandObject(command, [prefix], mention, args)
  {
    var full := [prefix] + command + (if mention.Some? then "@" + mention.value else "");
    var text := Compose(prefix, command, mention, args);
    ComposeIsTrimmed(prefix, command, mention, args);
    assert full[0] == prefix;
    ExtractOfTokens(text, full, args);
    FromTokensOfParts(prefix, command, mention, args);
  }

  /** Extraction reads the space-separated tokens of the trimmed text. */
  lemma ExtractOfTokens(text: string, full: string, args: seq<string>)
    requires Trim(text) == text && Split(text, ' ') == [full] + args
    requires |full| > 0 && (full[0] as int) < 0x80
    ensures CanExtract(text) && Extract(text) == FromTokens(full, args)
  {
    assert text[0] == full[0];
  }

  /** A text starting with a two-byte character: `extract` as written
      panics on it, while the corrected extraction reads "П" as the prefix
      and "ривет" as the command. */
  lemma MultiBytePrefixCounterexample()
    ensures NonBlank("Привет") && !CanExtract("Привет")
    ensures Extract("Привет") == CommandObject("ривет", "П", None, [])
  {
    PrivetIsTrimmed();
    PrivetIsOneToken();
    PrivetFirstToken();
  }

  lemma PrivetIsTrimmed()
    ensures Trim("Привет") == "Привет"
  {
    var t := "Привет";
    assert t[0] == 'П' && t[|t| - 1] == 'т';
    TrimmedIsFixed(t);
  }

  lemma PrivetIsOneToken()
    ensures Split("Привет", ' ') == ["Привет"]
  {
    var t := "Привет";
    assert ' ' !in t by {
      forall i | 0 <= i < |t| ensures t[i] != ' ' { }
    }
  }

  lemma PrivetFirstToken()
    ensures FromTokens("Привет", []) == CommandObject("ривет", "П", None, [])
  {
    var t := "Привет";
    assert ' ' !in t by {
      forall i | 0 <= i < |t| ensures t[i] != ' ' { }
    }
    assert '@' !in t[1..] by {
      forall i | 0 <= i < |t[1..]| ensures t[1..][i] != '@' { }
    }
    assert t[1..] == "ривет";
  }

  /** The first token of a well-formed command gives back its parts. */
  lemma FromTokensOfParts(prefix: char, command: string, mention: Option<string>, args: seq<string>)
    requires prefix != ' '
    requires ' ' !in command && '@' !in command
    requires mention.Some? ==> mention.value != [] && ' ' !in mention.value && '@' !in mention.value
    ensures var full := [prefix] + command + (if mention.Some? then "@" + mention.value else "");
      FromTokens(full, args) == CommandObject(command, [prefix], mention, args)
  {
    var tail := command + (if mention.Some? then "@" + mention.value else "");
    var full := [prefix] + command + (if mention.Some? then "@" + mention.value else "");
    assert full[1..] == tail;
    TailSplits(command, mention);
  }

  /** A string free of white space has no space. */
  lemma NoSpace(s: string)
    requires NoWhitespace(s)
    ensures ' ' !in s
  {
  }

  /** The written form neither starts nor ends with white space, and its
      space-separated tokens are the first token and the arguments. */
  lemma {:induction false} ComposeIsTrimmed(prefix: char, command: string, mention: Option<string>, args: seq<string>)
    requires !IsWhitespace(prefix)
    requires NoWhitespace(command)
    requires mention.Some? ==> mention.value != [] && NoWhitespace(mention.value)
    requires forall i | 0 <= i < |args| :: args[i] != [] && NoWhitespace(args[i])
    ensures var text := Compose(prefix, command, mention, args);
      Trim(text) == text
      && Split(text, ' ') == [[prefix] + command + (if mention.Some? then "@" + mention.value else "")] + args
  {
    var full := [prefix] + command + (if mention.Some? then "@" + mention.value else "");
    var tokens := [full] + args;
    var text := Compose(prefix, command, mention, args);
    FirstTokenHasNoWhitespace(prefix, command, mention);
    TokensHaveNoSpace(full, args);
    SplitJoin(tokens, ' ');
    var last := tokens[|tokens| - 1];
    assert |last| > 0 && !IsWhitespace(last[|last| - 1]);
    assert text[|text| - 1] == last[|last| - 1];
    assert text[0] == prefix;
    TrimmedIsFixed(text);
  }

  lemma FirstTokenHasNoWhitespace(prefix: char, command: string, mention: Option<string>)
    requires !IsWhitespace(prefix)
    requires NoWhitespace(command)
    requires mention.Some? ==> NoWhitespace(mention.value)
    ensures NoWhitespace([prefix] + command + (if mention.Some? then "@" + mention.value else ""))
  {
  }

  lemma TokensHaveNoSpace(full: string, args: seq<string>)
    requires NoWhitespace(full)
    requires forall i | 0 <= i < |args| :: NoWhitespace(args[i])
    ensures forall i | 0 <= i < |[full] + args| :: ' ' !in ([full] + args)[i]
  {
    var tokens := [full] + args;
    forall i | 0 <= i < |tokens|
      ensures ' ' !in tokens[i]
    {
      if i == 0 {
        NoSpace(full);
      } else {
        assert tokens[i] == args[i - 1];
        NoSpace(args[i - 1]);
      }
    }
  }

  /** After the prefix, a mention is split off at its '@'. */
  lemma TailSplits(command: string, mention: Option<string>)
    requires '@' !in command
    requires mention.Some? ==> mention.value != [] && '@' !in mention.value
    ensures var tail := command + (if mention.Some? then "@" + mention.value else "");
      (mention.None? ==> '@' !in tail && tail == command)
      && (mention.Some? ==> '@' in tail && Split(tail, '@') == [command, mention.value])
  {
    if mention.Some? {
      MentionSplitsOff(command, mention.value);
    }
  }

  lemma MentionSplitsOff(command: string, m: string)
    requires '@' !in command && '@' !in m
    ensures '@' in command + ("@" + m) && Split(command + ("@" + m), '@') == [command, m]
  {
    var tail := command + ("@" + m);
    assert tail == command + ['@'] + m;
    SplitPrefix(command, '@', m);
    assert Split(m, '@') == [m];
    assert tail[|command|] == '@';
  }
}

/** The filter (`Command`) and its validators. */
module FilterCommand {
  import opened Wrappers
  import opened StrUtil
  import opened CommandObjects
  import SrcTypes
  import SrcMessage
  import RequestContext

  /** `BotCommand`: a command as registered with Telegram. */
  datatype BotCommand = BotCommand(command: string, description: string)

  /** `CommandPatternType`. A regular expression is modelled by its match
      predicate (`Regex::is_match`). */
  datatype CommandPattern =
    | TextPattern(text: string)
    | ObjectPattern(botCommand: BotCommand)
    | RegexPattern(isMatch: string -> bool)

  datatype Command = Command(
    commands: seq<CommandPattern>,
    prefix: string,
    ignoreCase: bool,
    ignoreMention: bool)

  datatype CommandError = InvalidPrefix | InvalidMention | InvalidCommand

  /** `validate_prefix`: the prefix must equal the configured one. */
  function ValidatePrefix(c: Command, cmd: CommandObject): (r: Result<(), CommandError>)
    ensures r.Ok? <==> cmd.prefix == c.prefix
    ensures r.Err? ==> r.error == InvalidPrefix
  {
    if cmd.prefix == c.prefix then Ok(()) else Err(InvalidPrefix)
  }

  /** `validate_mention`; `botUsername` is the username of the bot's
      cached `get_me` answer. A command addressed to a bot is accepted only
      when it names this bot, unless mentions are ignored. */
  function ValidateMention(c: Command, cmd: CommandObject, botUsername: Option<string>): (r: Result<(), CommandError>)
    ensures r.Ok? <==>
      c.ignoreMention || cmd.mention.None? || (botUsername.Some? && cmd.mention.value == botUsername.value)
    ensures r.Err? ==> r.error == InvalidMention
  {
    if c.ignoreMention then Ok(())
    else if cmd.mention.Some? then
      if botUsername.Some? then
        if cmd.mention.value == botUsername.value then Ok(()) else Err(InvalidMention)
      else Err(InvalidMention)
    else Ok(())
  }

  /** The command as compared: lowercased when case is ignored. */
  function Normalized(c: Command, command: string): string {
    if c.ignoreCase then Lower(command) else command
  }

  predicate PatternMatches(p: CommandPattern, command: string) {
    match p
    case TextPattern(t) => command == t
    case ObjectPattern(b) => command == b.command
    case RegexPattern(m) => m(command)
  }

  /** Some pattern accepts the (normalized) command. */
  predicate CommandMatches(c: Command, command: string) {
    exists i | 0 <= i < |c.commands| :: PatternMatches(c.commands[i], Normalized(c, command))
  }

  /** `validate_command`: tries the patterns in order and stops at the
      first that accepts the command. */
  method ValidateCommand(c: Command, cmd: CommandObject) returns (r: Result<(), CommandError>)
    ensures r.Ok? <==> CommandMatches(c, cmd.command)
    ensures r.Err? ==> r.error == InvalidCommand
  {
    var command := if c.ignoreCase then Lower(cmd.command) else cmd.command;
    var i := 0;
    while i < |c.commands|
      invariant 0 <= i <= |c.commands|
      invariant forall j | 0 <= j < i :: !PatternMatches(c.commands[j], command)
    {
      var matched;
      match c.commands[i] {
        case TextPattern(t) => matched := command == t;
        case ObjectPattern(b) => matched := command == b.command;
        case RegexPattern(m) => matched := m(command);
      }
      if matched {
        return Ok(());
      }
      i := i + 1;
    }
    return Err(InvalidCommand);
  }

  /** What `parse_command` yields: the first failing check, in the order
      prefix, mention, command, or the parsed command. */
  function ParseResult(c: Command, text: string, botUsername: Option<string>): Result<CommandObject, CommandError>
    requires NonBlank(text)
  {
    var cmd := Extract(text);
    if ValidatePrefix(c, cmd).Err? then Err(InvalidPrefix)
    else if ValidateMention(c, cmd, botUsername).Err? then Err(InvalidMention)
    else if !CommandMatches(c, cmd.command) then Err(InvalidCommand)
    else Ok(cmd)
  }

  /** `parse_command`. */
  method ParseCommand(c: Command, text: string, botUsername: Option<string>) returns (r: Result<CommandObject, CommandError>)
    requires NonBlank(text)
    ensures r == ParseResult(c, text, botUsername)
  {
    var cmd := Extract(text);
    var p := ValidatePrefix(c, cmd);
    if p.Err? {
      return Err(p.error);
    }
    var m := ValidateMention(c, cmd, botUsername);
    if m.Err? {
      return Err(m.error);
    }
    var v := ValidateCommand(c, cmd);
    if v.Err? {
      return Err(v.error);
    }
    return Ok(cmd);
  }

  /** A parse succeeds exactly when all three checks pass, and the error
      names the first check that fails. */
  lemma ParseResultCases(c: Command, text: string, botUsername: Option<string>)
    requires NonBlank(text)
    ensures ParseResult(c, text, botUsername).Ok? <==>
      (Extract(text).prefix == c.prefix
       && ValidateMention(c, Extract(text), botUsername).Ok?
       && CommandMatches(c, Extract(text).command))
    ensures ParseResult(c, text, botUsername).Ok? ==> ParseResult(c, text, botUsername).value == Extract(text)
    ensures Extract(text).prefix != c.prefix ==> ParseResult(c, text, botUsername) == Err(InvalidPrefix)
  {
  }

  /** With case ignored, a pattern written in lower case accepts the command
      in any case of its ASCII letters. */
  lemma IgnoreCaseAccepts(c: Command, command: string, i: int)
    requires c.ignoreCase && 0 <= i < |c.commands|
    requires c.commands[i] == TextPattern(Lower(command))
    ensures CommandMatches(c, command)
  {
    assert PatternMatches(c.commands[i], Normalized(c, command));
  }

  /** The text the filter parses: a message's text, else its caption. */
  function FilterText(u: SrcTypes.Update): Option<string> {
    if u.message.Some? then SrcMessage.TextOrCaption(u.message.value) else None
  }

  /** `Filter::check`. Only a message (not an edited message or a post) is
      considered; on success the parsed command is stored under "command".
      Extraction panics on a blank text, so that is excluded; a text whose
      trimmed form starts with a character wider than one byte is read with
      the corrected `Extract`, where the source panics. */
  method Check(c: Command, botUsername: Option<string>, u: SrcTypes.Update, ctx: RequestContext.Context) returns (b: bool)
    requires FilterText(u).Some? ==> NonBlank(FilterText(u).value)
    modifies ctx
    ensures b <==> FilterText(u).Some? && ParseResult(c, FilterText(u).value, botUsername).Ok?
    ensures b ==> (ctx.entries ==
      old(ctx.entries)["command" := RequestContext.CommandValue(ParseResult(c, FilterText(u).value, botUsername).value)])
    ensures !b ==> ctx.entries == old(ctx.entries)
  {
    if u.message.None? {
      return false;
    }
    var text := SrcMessage.TextOrCaption(u.message.value);
    if text.None? {
      return false;
    }
    var parsed := ParseCommand(c, text.value, botUsername);
    if parsed.Ok? {
      ctx.Insert("command", RequestContext.CommandValue(parsed.value));
      return true;
    }
    return false;
  }
}
