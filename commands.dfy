/** The management commands the extension adds to a Flask-Script manager:
    the table of command names, their installation, the argument clean-up
    `celeryd` does before it hands over to the Celery worker, and the
    command line `celeryctl` hands over to Celery's own control program. */
module Commands {
  import opened PyValues

  /** A keyword argument as the worker receives it: a non-empty list (an
      option given through the manager's parser, which collects values in a
      list) is replaced by its first element; anything else, an empty list
      included, passes as it is.  Exactly the non-empty lists change. */
  function Unwrapped(v: Value): (u: Value)
    ensures u != v <==> v.List? && v.items != []
    ensures v.List? && v.items != [] ==> u == v.items[0]
  {
    if v.List? && v.items != [] then v.items[0] else v
  }

  /** The keyword arguments `celeryd` passes on to the worker. */
  function RunKwargs(kwargs: map<string, Value>): map<string, Value>
  {
    map k | k in kwargs :: Unwrapped(kwargs[k])
  }

  /** The loop of `celeryd.run`: walks the argument names and rewrites each
      non-empty list in the (local) keyword dictionary to its first element. */
  method FlattenRunArgs(kwargs: map<string, Value>) returns (flat: map<string, Value>)
    ensures flat.Keys == kwargs.Keys
    ensures forall k :: k in flat ==> flat[k] == Unwrapped(kwargs[k])
    ensures flat == RunKwargs(kwargs)
  {
    flat := kwargs;
    var pending := kwargs.Keys;
    while pending != {}
      invariant pending <= kwargs.Keys
      invariant flat.Keys == kwargs.Keys
      invariant forall k :: k in flat && k !in pending ==> flat[k] == Unwrapped(kwargs[k])
      invariant forall k :: k in pending ==> flat[k] == kwargs[k]
      decreases pending
    {
      var name :| name in pending;
      var value := flat[name];
      if value.List? && value.items != [] {
        flat := flat[name := value.items[0]];
      }
      pending := pending - {name};
    }
  }

  /** A keyword argument holds a nested non-empty list: a non-empty list
      whose first element is itself a non-empty list. */
  predicate NestedList(v: Value)
  {
    v.List? && v.items != [] && v.items[0].List? && v.items[0].items != []
  }

  /** Without nested lists among the arguments, the worker never receives a
      non-empty list, and flattening a second time changes nothing. */
  lemma RunKwargsIdempotent(kwargs: map<string, Value>)
    requires forall k :: k in kwargs ==> !NestedList(kwargs[k])
    ensures forall k :: k in RunKwargs(kwargs) ==> !(RunKwargs(kwargs)[k].List? && RunKwargs(kwargs)[k].items != [])
    ensures RunKwargs(RunKwargs(kwargs)) == RunKwargs(kwargs)
  {
    var once := RunKwargs(kwargs);
    forall k | k in once
      ensures !(once[k].List? && once[k].items != [])
    {
      assert !NestedList(kwargs[k]);
    }
  }

  /** The command line `celeryctl` hands to Celery's control program: the
      program name followed by "celeryctl" as one word, then the remaining
      arguments, or "help" when there are none. */
  function CeleryctlArgv(prog: string, remainingArgs: seq<string>): (argv: seq<string>)
    ensures |argv| >= 2
    ensures argv[0] == prog + " celeryctl"
    ensures remainingArgs != [] ==> argv[1..] == remainingArgs
    ensures remainingArgs == [] ==> argv[1..] == ["help"]
  {
    var args := if remainingArgs == [] then ["help"] else remainingArgs;
    [prog + " celeryctl"] + args
  }

  /** The five command classes. */
  datatype CommandKind = Celeryd | Celerybeat | Celeryev | Celeryctl | Camqadm

  /** A command object: its class and the application it was made with. */
  datatype Command = Command(kind: CommandKind, app: Value)

  /** The `commands` table: command name to command class. */
  const CommandTable: map<string, CommandKind> :=
    map["celeryd" := Celeryd, "celerybeat" := Celerybeat, "celeryev" := Celeryev,
        "celeryctl" := Celeryctl, "camqadm" := Camqadm]

  /** The name under which the table registers each command class. */
  function KindName(kind: CommandKind): string
  {
    match kind
    case Celeryd => "celeryd"
    case Celerybeat => "celerybeat"
    case Celeryev => "celeryev"
    case Celeryctl => "celeryctl"
    case Camqadm => "camqadm"
  }

  /** The table registers every command class exactly once, each under its
      own class name, and holds nothing else. */
  lemma CommandTableNames()
    ensures CommandTable.Keys == {"celeryd", "celerybeat", "celeryev", "celeryctl", "camqadm"}
    ensures forall kind: CommandKind :: KindName(kind) in CommandTable && CommandTable[KindName(kind)] == kind
    ensures forall name :: name in CommandTable ==> KindName(CommandTable[name]) == name
  {
  }

  /** The commands `install_commands` registers, each made with `app`. */
  function Installed(app: Value): (cmds: map<string, Command>)
    ensures cmds.Keys == CommandTable.Keys
  {
    map name | name in CommandTable :: Command(CommandTable[name], app)
  }

  /** Every installed command is the table's class for its name, built with
      the manager's application. */
  lemma InstalledCommands(app: Value)
    ensures forall kind: CommandKind ::
              KindName(kind) in Installed(app) && Installed(app)[KindName(kind)] == Command(kind, app)
    ensures forall name :: name in Installed(app) ==> Installed(app)[name].app == app
  {
    CommandTableNames();
  }

  /** The Flask-Script manager as far as the extension uses it: the
      application and the registered commands by name. */
  class Manager {
    var app: Value
    var commands: map<string, Command>

    constructor (app: Value)
      ensures this.app == app && commands == map[]
    {
      this.app := app;
      commands := map[];
    }

    /** Registers `command` under `name`, replacing any command of that name. */
    method AddCommand(name: string, command: Command)
      modifies this
      ensures app == old(app)
      ensures commands == old(commands)[name := command]
    {
      commands := commands[name := command];
    }
  }

  /** Registers each command of the table, made with the manager's
      application; commands already registered under other names stay. */
  method InstallCommands(manager: Manager)
    modifies manager
    ensures manager.app == old(manager.app)
    ensures manager.commands == old(manager.commands) + Installed(manager.app)
  {
    var pending := CommandTable.Keys;
    while pending != {}
      invariant pending <= CommandTable.Keys
      invariant manager.app == old(manager.app)
      invariant manager.commands.Keys == old(manager.commands).Keys + (CommandTable.Keys - pending)
      invariant forall name :: name in manager.commands && name !in CommandTable ==>
                  manager.commands[name] == old(manager.commands)[name]
      invariant forall name :: name in CommandTable && name !in pending ==>
                  manager.commands[name] == Command(CommandTable[name], manager.app)
      invariant forall name :: name in pending && name in old(manager.commands) ==>
                  manager.commands[name] == old(manager.commands)[name]
      decreases pending
    {
      var name :| name in pending;
      manager.AddCommand(name, Command(CommandTable[name], manager.app));
      pending := pending - {name};
    }
  }
}
