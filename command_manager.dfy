/** The command-line option and command registry (CommandManager). Options
    are kept in the order their names were first registered, as a
    LinkedHashMap keeps them. */
module CommandManager {
  import opened Wrappers

  /** OptionCli.ArgsType: DEFAULT and GENERAL, and the other kinds. */
  datatype ArgsType = Default | General | Other(kind: string)

  /** A command-line option (OptionCli): its name, whether it is a flag,
      and its argument type, which registration may change. */
  class OptionCli {
    const name: string
    const flag: bool
    var argsType: ArgsType
    /** Whether a parser has been attached (option.parser(this)). */
    var hasParser: bool

    constructor (name: string, flag: bool, argsType: ArgsType)
      ensures this.name == name && this.flag == flag && this.argsType == argsType && !hasParser
    {
      this.name := name;
      this.flag := flag;
      this.argsType := argsType;
      hasParser := false;
    }
  }

  predicate StartsWith(s: string, prefix: string)
  {
    |prefix| <= |s| && s[..|prefix|] == prefix
  }

  /** The key `option` registers a name under: names starting with '-' as
      they are, any other name behind "--". */
  function LongKey(name: string): (k: string)
    ensures StartsWith(k, "-")
    ensures StartsWith(name, "-") ==> k == name
    ensures !StartsWith(name, "-") ==> k == "--" + name
  {
    if StartsWith(name, "-") then name else "--" + name
  }

  /** Normalising twice is normalising once. */
  lemma LongKeyIdempotent(name: string)
    ensures LongKey(LongKey(name)) == LongKey(name)
  {
  }

  /** The type an option has once registered: DEFAULT becomes GENERAL. */
  function RegisteredType(t: ArgsType): (r: ArgsType)
    ensures t == Default ==> r == General
    ensures t != Default ==> r == t
    ensures r != Default
  {
    if t == Default then General else t
  }

  class CommandManager<C> {
    /** `_optionMap`'s keys in insertion order. */
    var keys: seq<string>
    /** `_optionMap`. */
    var options: map<string, OptionCli>
    /** `_commandMap`. */
    var commands: map<string, C>

    /** Each registered name appears once in the insertion order. */
    ghost predicate Valid()
      reads this
    {
      (forall i, j :: 0 <= i < j < |keys| ==> keys[i] != keys[j])
      && (forall k :: k in options <==> k in keys)
    }

    constructor ()
      ensures Valid() && keys == [] && options == map[] && commands == map[]
    {
      keys := [];
      options := map[];
      commands := map[];
    }

    /** isOption: whether an option is registered under `arg`. */
    function IsOption(arg: string): (r: bool)
      reads this
      ensures r <==> arg in options
    {
      arg in options
    }

    /** isFlag: false for an unregistered name, else the option's flag. */
    function IsFlag(arg: string): (r: bool)
      reads this, if arg in options then {options[arg]} else {}
      ensures arg !in options ==> !r
      ensures arg in options ==> r == options[arg].flag
    {
      arg in options && options[arg].flag
    }

    /** getOption. */
    function GetOption(name: string): (r: Option<OptionCli>)
      reads this
      ensures r.Some? <==> name in options
      ensures r.Some? ==> r.value == options[name]
    {
      if name in options then Some(options[name]) else None
    }

    /**
     * addOption: puts `option` under `name`, replacing any option already
     * there but keeping the name's first insertion position; attaches the
     * parser and turns a DEFAULT type into GENERAL.
     */
    method AddOption(name: string, option: OptionCli) returns (r: OptionCli)
      requires Valid()
      modifies this, option
      ensures Valid()
      ensures r == option && options == old(options)[name := option]
      ensures name in old(options) ==> keys == old(keys)
      ensures name !in old(options) ==> keys == old(keys) + [name]
      ensures option.argsType == RegisteredType(old(option.argsType)) && option.hasParser
      ensures commands == old(commands)
    {
      if name !in options {
        keys := keys + [name];
      }
      options := options[name := option];
      option.hasParser := true;
      if option.argsType == Default {
        option.argsType := General;
      }
      r := option;
    }

    /** option(OptionCli): registers under the name, put behind "--" unless it already
        starts with '-'. */
    method RegisterOption(option: OptionCli) returns (r: OptionCli)
      requires Valid()
      modifies this, option
      ensures Valid()
      ensures r == option && options == old(options)[LongKey(option.name) := option]
      ensures LongKey(option.name) !in old(options) ==> keys == old(keys) + [LongKey(option.name)]
      ensures LongKey(option.name) in old(options) ==> keys == old(keys)
      ensures option.argsType == RegisteredType(old(option.argsType)) && option.hasParser
      ensures commands == old(commands)
    {
      if StartsWith(option.name, "-") {
        r := AddOption(option.name, option);
      } else {
        r := AddOption("--" + option.name, option);
      }
    }

    /** addTinyOption: registers under "-" + name. */
    method AddTinyOption(option: OptionCli) returns (r: OptionCli)
      requires Valid()
      modifies this, option
      ensures Valid()
      ensures r == option && options == old(options)["-" + option.name := option]
      ensures "-" + option.name !in old(options) ==> keys == old(keys) + ["-" + option.name]
      ensures "-" + option.name in old(options) ==> keys == old(keys)
      ensures IsOption("-" + option.name)
      ensures option.argsType == RegisteredType(old(option.argsType)) && option.hasParser
      ensures commands == old(commands)
    {
      r := AddOption("-" + option.name, option);
    }

    /** fillOptions: appends the registered options in insertion order. */
    method FillOptions(out: seq<OptionCli>) returns (r: seq<OptionCli>)
      requires Valid()
      ensures |r| == |out| + |keys|
      ensures r[..|out|] == out
      ensures forall i :: 0 <= i < |keys| ==> r[|out| + i] == options[keys[i]]
    {
      r := out;
      var i := 0;
      while i < |keys|
        invariant 0 <= i <= |keys|
        invariant |r| == |out| + i && r[..|out|] == out
        invariant forall j :: 0 <= j < i ==> r[|out| + j] == options[keys[j]]
      {
        r := r + [options[keys[i]]];
        i := i + 1;
      }
    }

    /** getCommand. */
    function GetCommand(tailArg: string): (r: Option<C>)
      reads this
      ensures r.Some? <==> tailArg in commands
      ensures r.Some? ==> r.value == commands[tailArg]
    {
      if tailArg in commands then Some(commands[tailArg]) else None
    }

    /** command(name, command): registers the command under `name`. */
    method Command(name: string, c: C)
      modifies this`commands
      ensures commands == old(commands)[name := c]
      ensures GetCommand(name) == Some(c)
      ensures keys == old(keys) && options == old(options)
    {
      commands := commands[name := c];
    }

    /** command(command): registers the command under its own name. */
    method CommandNamed(c: C, cname: string) returns (r: C)
      modifies this`commands
      ensures r == c && commands == old(commands)[cname := c]
      ensures keys == old(keys) && options == old(options)
    {
      Command(cname, c);
      r := c;
    }
  }
}
