# flask-celery, modelled in Dafny

flask-celery glues Celery to a Flask application. It does four things:

- **The Celery application.** `Celery` takes its configuration from the Flask application's `config`. Attaching a Flask application with `init_app` re-derives the backend, the configuration and the task class. It then copies eleven task settings onto every task already in Celery's task registry, and marks the loader as configured.
- **Pickling.** The application carries its Flask application through pickling. `__reduce_args__` puts the Flask application in front of Celery's own arguments. The pickler's `build_kwargs` stores it under `flask_app`.
- **Option translation.** `to_Option` turns an optparse option descriptor of a Celery command into the positional and keyword arguments of a Flask-Script option. It does so by rewriting the descriptor's own attribute dictionary in place:
  - type names become types;
  - callback attributes are popped;
  - the keys an action does not take are dropped;
  - optparse's "no default" marker becomes None;
  - a callback becomes a synthetic argparse action;
  - the short and long option strings become the positional arguments.
- **Management commands.** The extension adds five commands (`celeryd`, `celerybeat`, `celeryev`, `celeryctl` and `camqadm`) to a Flask-Script manager:
  - `celeryd.run` replaces every non-empty list argument by its first element before it starts the worker.
  - `celeryctl.handle` builds the command line for Celery's control program, with "help" when no arguments are given.
  - `install_commands` registers the whole table on a manager.

The model follows Python 2 semantics, which is what the code was written for. In particular, `map(kwargs.pop, keys)` is eager and stops at the first missing key with KeyError.

Files:

- `py_values.dfy` (module `PyValues`): the Python values the glue handles, with truth testing, hashability, `x or y`, `dict.get`, and the exceptions KeyError and TypeError.
- `option_translation.dfy` (module `OptionTranslation`): `to_Option`.
  - `Translate` is the whole translation as one function, step by step and including the dictionary left behind when a step raises.
  - `Kwargs` describes the resulting keywords key by key, independently of the order of the steps.
  - `TranslateOk` proves the two agree.
  - Class `OptionDescriptor` holds the attribute dictionary. Its methods rewrite that dictionary statement by statement, and they are proved against `Translate`.
- `celery_app.dfy` (module `CeleryApp`):
  - `Celery.init_app` and the task registry loop;
  - the constructor;
  - the `__reduce_args__` / `build_kwargs` pair.
- `commands.dfy` (module `Commands`): the `celeryd.run` loop, the `celeryctl` command line, the `commands` table and `install_commands`.

## Model

| member | source | states |
|---|---|---|
| OptionTranslation.OptionDescriptor.constructor | flask_celery.py:102 | the descriptor's attribute dictionary is the one the translation works on (`vars(option)`) |
| OptionTranslation.OptionDescriptor.ToOption | flask_celery.py:101-134 | rewriting the option's own dictionary in place returns exactly the result of `Translate`: the option arguments or the exception raised. It leaves the dictionary exactly as `Translate` says, including the partial changes made before an exception |
| OptionTranslation.OptionDescriptor.ApplyAction | flask_celery.py:114-133 | dropping the action's keys one by one, normalising the default, installing the callback action and collecting the option strings agree with `TranslateAction`, on success and on every KeyError/TypeError path |
| OptionTranslation.OptionDescriptor.PopOptionStrings | flask_celery.py:133 | popping `_short_opts` then `_long_opts` and adding them agrees with `CollectArgs`: KeyError for the first one missing, TypeError when they cannot be added, otherwise their sum as the positional arguments and the rest of the dictionary as keywords |
| OptionTranslation.Dropped | flask_celery.py:115-118 | the keys an action pops are distinct, so popping them one by one is well defined |
| OptionTranslation.CharsAppend | flask_celery.py:133 | spreading a joined string (`*args` of a string) gives the one-character strings of the first part followed by those of the second |
| OptionTranslation.ConcatInOrder | flask_celery.py:133 | the option strings add up to the short ones followed by the long ones, in order, whether both are lists, both tuples or both strings |
| OptionTranslation.PopEach | flask_celery.py:116 | the eager `map(d.pop, keys)` pops a prefix of the keys: all popped keys were present, the first key not popped is missing (KeyError), and the dictionary loses exactly the popped keys |
| OptionTranslation.PopEachStops | flask_celery.py:116 | when the first `i` keys are present and the next one is missing, exactly those `i` keys are popped |
| OptionTranslation.TranslateOk | flask_celery.py:101-134 | on a translatable descriptor, the step-by-step translation returns the option strings joined as positional arguments. Its keywords equal the key-by-key reference `Kwargs`, and they are equal to the descriptor's rewritten dictionary |
| OptionTranslation.TranslateSucceedsIff | flask_celery.py:101-134 | the translation succeeds if and only if every key it reads is present, the type is hashable and the option strings can be added |
| OptionTranslation.TranslateFails | flask_celery.py:105-133 | otherwise it raises. A KeyError names a key the descriptor lacks, either one of those read unconditionally or one the action drops. TypeError is raised exactly for an unhashable type, or when all keys are present but the option strings do not add |
| OptionTranslation.TranslateFailsEarly | flask_celery.py:105-118 | failures before the default is read: KeyError for a missing `type`, `action` or dropped key, and TypeError exactly when the type is unhashable |
| OptionTranslation.TranslateFailsLate | flask_celery.py:120-133 | failures after the keys are dropped: KeyError for a missing `default` or option string, and TypeError exactly when all of them are present |
| OptionTranslation.TranslateDropMissing | flask_celery.py:114-118 | if a key the action drops is missing, the translation raises KeyError for one such key |
| OptionTranslation.TranslateArgs | flask_celery.py:109-133 | on success the keywords are equal to the option's rewritten dictionary, with no `callback`, `callback_args`, `callback_kwargs`, `_short_opts` or `_long_opts` left. For list, tuple or string option strings, the positional arguments are the short ones followed by the long ones, a string spread into its characters |
| OptionTranslation.DefaultTypeMapConverts | flask_celery.py:101-106 | the default type map turns "int", "float" and "string" into int, float and str, and keeps every other type value, None included |
| OptionTranslation.TranslateType | flask_celery.py:105-106 | unless the action is `store_true`, the `type` keyword is the converted type |
| OptionTranslation.TranslateStoreTrue | flask_celery.py:115-116 | a `store_true` option loses `const`, `type`, `nargs`, `metavar` and `choices` |
| OptionTranslation.TranslateStore | flask_celery.py:117-118 | a `store` option loses `nargs` |
| OptionTranslation.TranslateDefault | flask_celery.py:120-121 | the ("NO", "DEFAULT") marker becomes None, and any other default passes unchanged |
| OptionTranslation.TranslateCallback | flask_celery.py:109-131 | a `callback` action becomes an action that calls the callback with its arguments, which are () or {} when missing or false. `nargs` becomes 0 only when absent. Any other action is kept |
| OptionTranslation.TranslatePassthrough | flask_celery.py:101-134 | every attribute the translation does not rewrite is passed on with its value, and no other key appears |
| OptionTranslation.TranslateConsumes | flask_celery.py:102-133 | because the option's own dictionary is rewritten, translating the same option a second time raises KeyError |
| CeleryApp.TaskSettings | flask_celery.py:70-82 | the eleven (attribute, value) pairs carry the eleven task attribute names, in order and distinct |
| CeleryApp.TaskSettingsNames | flask_celery.py:70-82 | the settings' names are exactly the task attribute names |
| CeleryApp.SetAttrsEffect | flask_celery.py:85-86 | `setattr` for distinct names in turn gives each name its value and leaves every other attribute as it was |
| CeleryApp.TaskSettingsApplied | flask_celery.py:70-86 | after the loop a task has `backend` and the ten configuration settings, each with its configured value, and its other attributes unchanged |
| CeleryApp.TaskRegistry.SetTaskAttrs | flask_celery.py:85-86 | the inner loop changes one registered task by those `setattr` calls and no other task |
| CeleryApp.Celery.constructor | flask_celery.py:50-52 | the application remembers the Flask application it is given, None when the argument is left out |
| CeleryApp.Celery.InitApp | flask_celery.py:54-89 | the application takes the Flask application, backend, configuration and task class. The registry keeps the same tasks, each with the task settings applied, and the loader ends up configured |
| CeleryApp.Celery.ReduceArgs | flask_celery.py:97-98 | the reduce arguments are the Flask application followed by exactly Celery's own arguments |
| CeleryApp.BuildKwargs | flask_celery.py:39-42 | the keywords are Celery's standard keywords of the remaining arguments with `flask_app` set to the first argument. Without any argument the call raises TypeError |
| CeleryApp.PickleRoundTrip | flask_celery.py:39-42 | building the keywords from the reduce arguments gives back the application's Flask application under `flask_app`, over Celery's keywords of its own arguments |
| Commands.Unwrapped | flask_celery.py:152-153 | an argument changes exactly when it is a non-empty list, and then it becomes its first element |
| Commands.FlattenRunArgs | flask_celery.py:150-153 | the loop keeps the set of argument names and replaces each non-empty list by its first element; it computes `RunKwargs` |
| Commands.RunKwargsIdempotent | flask_celery.py:150-153 | without nested lists, the worker never receives a non-empty list, and flattening again changes nothing |
| Commands.CeleryctlArgv | flask_celery.py:198-203 | the command line is "<prog> celeryctl" followed by the remaining arguments, or by "help" when there are none |
| Commands.CommandTableNames | flask_celery.py:217-221 | the table holds exactly the five command names, each mapped to the class of that name |
| Commands.Installed | flask_celery.py:224-226 | the commands installed are exactly one per table entry |
| Commands.InstalledCommands | flask_celery.py:217-226 | each installed command is the table's class for its name, built with the manager's application |
| Commands.Manager.AddCommand | flask_celery.py:226 | registering a command puts it under its name and changes nothing else |
| Commands.InstallCommands | flask_celery.py:224-226 | after installation the manager holds its previous commands overridden by the five table commands, each made with the manager's application |

## Left out

- The delegated command execution (`WorkerCommand.run`, `BeatCommand.run`, `EvCommand.run`, `celeryctl(...).execute_from_commandline`, `AMQPAdminCommand(...).run`, flask_celery.py:154, 169, 185, 201-203, 212-214) runs code in Celery that is not part of this model. The model stops at the arguments handed over: `FlattenRunArgs` and `CeleryctlArgv`. `celerybeat.run`, `celeryev.run` and `camqadm.handle` pass their arguments on untouched, so they have nothing to model.
- `config_from_object`, `_get_backend`, `_get_config` and `create_task_cls` (flask_celery.py:59, 62-64) are Celery internals. `InitApp` takes their results (backend, configuration, task class) as parameters.
- `FlaskLoader.read_configuration` (flask_celery.py:28-34) and `Celery.AsyncResult` (flask_celery.py:91-95) are this module's own overrides. They are left out because they hand over to Celery. `read_configuration` returns `{}` without a Flask application; otherwise it marks the loader configured and returns what Celery's `setup_settings` makes of the Flask `config`. `AsyncResult` calls Celery's `AsyncResult` with `backend=self.backend`.
- `Celery.InitApp` does not model the read of `self.flask_app.config` (flask_celery.py:59). For a Flask application without `config`, None for example, that read raises AttributeError after `flask_app` has already been assigned. `InitApp` always completes.
- `Celery.constructor` models lines 50-51 (the `flask_app` argument, None by default). The rest of construction is Celery's own `App.__init__`, whose derived values are parameters.
- `super().__reduce_args__` and `build_standard_kwargs` are Celery's. `ReduceArgs` takes the inherited arguments as a parameter, and `BuildKwargs` takes Celery's keyword builder as a function parameter. Actual pickling is left out.
- The argparse action class made for a callback (flask_celery.py:125-128) is the value `CallbackAction(callback, args, kwargs)`, and `script.Option(*args, **kwargs)` is the pair `OptionCall(args, kwargs)`. What those classes then do is Flask-Script's and argparse's.
- The `get_options` methods of `celeryd`, `celerybeat` and `celeryev` (flask_celery.py:147-148, 165-166, 181-182) map `to_Option` over options that come from the Celery commands and filter them by the truth of Flask-Script option objects. Both are outside this model. `to_Option` itself is modelled per option. The `get_options` methods of `celeryctl` and `camqadm` (flask_celery.py:195-196, 209-210) return an empty tuple.
- `cached_property`, `current_celery()` and the `Command.__init__` call to Flask-Script are runtime and library behaviour. A command is the value `Command(kind, app)`.
- `Manager.AddCommand` is a stand-in for Flask-Script's `add_command`, which stores the command in the manager's table by name. Nothing else of that method is modelled.
- Python values are modelled only as far as the glue tells them apart. Floats and unicode strings are missing. Equality treats `1`, `1.0` and `True` as different values, and a string as different from a unicode string.
- A custom type map can only map names to int, float or str. The map is a parameter of `Translate` and `ToOption`.
- `script.Option(*args, **kwargs)` receives a copy of the rewritten dictionary, so the keywords are an equal value, as in the model. The option's own dictionary stays rewritten (`TranslateConsumes`).
- Dictionary iteration order is not modelled. The loops over registry tasks, keyword arguments and the command table visit every key once in some order, and each step touches only its own key, so the result does not depend on the order.
- The registry maps a task name to that task's attributes. One task object registered under two names would be two entries here.
