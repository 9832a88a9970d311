/** The Celery application that takes its configuration from a Flask
    application: attaching the Flask application re-derives the settings and
    copies them onto every task already registered, and the Flask application
    travels with the Celery application when it is pickled. */
module CeleryApp {
  import opened PyValues

  /** The Celery settings `init_app` copies onto the tasks, as read from the
      configuration Celery derives from the Flask configuration. */
  datatype Conf = Conf(
    defaultExchangeType: Value,
    defaultDeliveryMode: Value,
    sendTaskErrorEmails: Value,
    taskErrorWhitelist: Value,
    taskSerializer: Value,
    defaultRateLimit: Value,
    trackStarted: Value,
    acksLate: Value,
    ignoreResult: Value,
    storeErrorsEvenIfIgnored: Value)

  /** The task attributes `init_app` sets, in the order it sets them. */
  const TaskAttributeNames: seq<string> :=
    ["backend", "exchange_type", "delivery_mode", "send_error_emails", "error_whitelist",
     "serializer", "rate_limit", "track_started", "acks_late", "ignore_result",
     "store_errors_even_if_ignored"]

  /** The names of a list of (attribute, value) pairs. */
  function Names(vals: seq<(string, Value)>): set<string>
  {
    set i | 0 <= i < |vals| :: vals[i].0
  }

  predicate DistinctNames(vals: seq<(string, Value)>)
  {
    forall i, j :: 0 <= i < j < |vals| ==> vals[i].0 != vals[j].0
  }

  /** The (attribute, value) pairs for the tasks: the backend and ten
      settings of the configuration, each under the attribute the task reads. */
  function TaskSettings(backend: Value, conf: Conf): (vals: seq<(string, Value)>)
    ensures |vals| == |TaskAttributeNames|
    ensures forall i :: 0 <= i < |vals| ==> vals[i].0 == TaskAttributeNames[i]
    ensures DistinctNames(vals)
  {
    [("backend", backend),
     ("exchange_type", conf.defaultExchangeType),
     ("delivery_mode", conf.defaultDeliveryMode),
     ("send_error_emails", conf.sendTaskErrorEmails),
     ("error_whitelist", conf.taskErrorWhitelist),
     ("serializer", conf.taskSerializer),
     ("rate_limit", conf.defaultRateLimit),
     ("track_started", conf.trackStarted),
     ("acks_late", conf.acksLate),
     ("ignore_result", conf.ignoreResult),
     ("store_errors_even_if_ignored", conf.storeErrorsEvenIfIgnored)]
  }

  /** A task's attributes after `setattr` for each pair in turn. */
  function SetAttrs(attrs: map<string, Value>, vals: seq<(string, Value)>): map<string, Value>
  {
    if vals == [] then attrs
    else
      var last := vals[|vals| - 1];
      SetAttrs(attrs, vals[..|vals| - 1])[last.0 := last.1]
  }

  /** The names of a non-empty list are those of all but its last pair,
      plus the last pair's name. */
  lemma NamesSnoc(vals: seq<(string, Value)>)
    requires vals != []
    ensures Names(vals) == Names(vals[..|vals| - 1]) + {vals[|vals| - 1].0}
  {
    var init := vals[..|vals| - 1];
    forall k | k in Names(vals) ensures k in Names(init) + {vals[|vals| - 1].0} {
      var i :| 0 <= i < |vals| && vals[i].0 == k;
      if i < |vals| - 1 {
        assert init[i].0 == k;
      }
    }
    forall k | k in Names(init) ensures k in Names(vals) {
      var i :| 0 <= i < |init| && init[i].0 == k;
      assert vals[i].0 == k;
    }
  }

  /** Setting distinct attributes one after another: each named attribute
      ends up with its value, and every other attribute is untouched. */
  lemma {:induction false} SetAttrsEffect(attrs: map<string, Value>, vals: seq<(string, Value)>)
    requires DistinctNames(vals)
    ensures SetAttrs(attrs, vals).Keys == attrs.Keys + Names(vals)
    ensures forall i :: 0 <= i < |vals| ==> SetAttrs(attrs, vals)[vals[i].0] == vals[i].1
    ensures forall k :: k in attrs && k !in Names(vals) ==> SetAttrs(attrs, vals)[k] == attrs[k]
  {
    if vals != [] {
      var init := vals[..|vals| - 1];
      SetAttrsEffect(attrs, init);
      NamesSnoc(vals);
      forall i | 0 <= i < |vals|
        ensures SetAttrs(attrs, vals)[vals[i].0] == vals[i].1
      {
        if i < |vals| - 1 {
          assert init[i] == vals[i];
        }
      }
    }
  }

  /** The names the task settings carry are exactly the task attribute names. */
  lemma TaskSettingsNames(backend: Value, conf: Conf)
    ensures Names(TaskSettings(backend, conf)) == set n | n in TaskAttributeNames
  {
    var vals := TaskSettings(backend, conf);
    forall n | n in TaskAttributeNames ensures n in Names(vals) {
      var i :| 0 <= i < |TaskAttributeNames| && TaskAttributeNames[i] == n;
      assert vals[i].0 == n;
    }
  }

  /** The task attributes `init_app` leaves on a registered task: the
      configured backend and settings, every other attribute as it was. */
  lemma TaskSettingsApplied(attrs: map<string, Value>, backend: Value, conf: Conf)
    ensures var t := SetAttrs(attrs, TaskSettings(backend, conf));
            t.Keys == attrs.Keys + (set n | n in TaskAttributeNames)
    ensures var t := SetAttrs(attrs, TaskSettings(backend, conf));
            && "backend" in t && t["backend"] == backend
            && "exchange_type" in t && t["exchange_type"] == conf.defaultExchangeType
            && "delivery_mode" in t && t["delivery_mode"] == conf.defaultDeliveryMode
            && "send_error_emails" in t && t["send_error_emails"] == conf.sendTaskErrorEmails
            && "error_whitelist" in t && t["error_whitelist"] == conf.taskErrorWhitelist
            && "serializer" in t && t["serializer"] == conf.taskSerializer
    ensures var t := SetAttrs(attrs, TaskSettings(backend, conf));
            && "rate_limit" in t && t["rate_limit"] == conf.defaultRateLimit
            && "track_started" in t && t["track_started"] == conf.trackStarted
            && "acks_late" in t && t["acks_late"] == conf.acksLate
            && "ignore_result" in t && t["ignore_result"] == conf.ignoreResult
            && "store_errors_even_if_ignored" in t && t["store_errors_even_if_ignored"] == conf.storeErrorsEvenIfIgnored
    ensures var t := SetAttrs(attrs, TaskSettings(backend, conf));
            forall k :: k in attrs && k !in TaskAttributeNames ==> k in t && t[k] == attrs[k]
  {
    var vals := TaskSettings(backend, conf);
    SetAttrsEffect(attrs, vals);
    TaskSettingsNames(backend, conf);
    assert vals[0].0 == "backend" && vals[1].0 == "exchange_type" && vals[2].0 == "delivery_mode";
    assert vals[3].0 == "send_error_emails" && vals[4].0 == "error_whitelist" && vals[5].0 == "serializer";
    assert vals[6].0 == "rate_limit" && vals[7].0 == "track_started" && vals[8].0 == "acks_late";
    assert vals[9].0 == "ignore_result" && vals[10].0 == "store_errors_even_if_ignored";
  }

  /** Celery's loader; `configured` says whether it has read a configuration. */
  class Loader {
    var configured: bool

    constructor ()
      ensures !configured
    {
      configured := false;
    }
  }

  /** Celery's global task registry: task name to the task's attributes. */
  class TaskRegistry {
    var tasks: map<string, map<string, Value>>

    constructor (tasks: map<string, map<string, Value>>)
      ensures this.tasks == tasks
    {
      this.tasks := tasks;
    }

    /** Calls `setattr` on the task registered as `name` for each
        (attribute, value) pair in turn; no other task changes. */
    method SetTaskAttrs(name: string, vals: seq<(string, Value)>)
      requires name in tasks
      modifies this
      ensures tasks == old(tasks)[name := SetAttrs(old(tasks)[name], vals)]
    {
      ghost var before := tasks;
      for j := 0 to |vals|
        invariant tasks == before[name := SetAttrs(before[name], vals[..j])]
      {
        var (key, value) := vals[j];
        tasks := tasks[name := tasks[name][key := value]];
        assert vals[..j + 1][..j] == vals[..j];
      }
      assert vals[..|vals|] == vals;
    }
  }

  /** The Celery application bound to a Flask application.  `backend`,
      `conf` and `taskCls` are the values Celery derives from its
      configuration; here they are given. */
  class Celery {
    var flaskApp: Value
    var backend: Value
    var conf: Conf
    var taskCls: Value
    const loader: Loader

    /** Remembers the Flask application (None when none is given yet); the
        rest of the set-up is Celery's own. */
    constructor (loader: Loader, backend: Value, conf: Conf, taskCls: Value, flaskApp: Value := NoneValue)
      ensures this.flaskApp == flaskApp && this.loader == loader
      ensures this.backend == backend && this.conf == conf && this.taskCls == taskCls
    {
      this.flaskApp := flaskApp;
      this.loader := loader;
      this.backend := backend;
      this.conf := conf;
      this.taskCls := taskCls;
    }

    /** Attaches the Flask application, takes the backend, configuration and
        task class derived from its configuration, copies the task settings
        onto every registered task, and marks the loader configured. */
    method InitApp(flaskApp: Value, backend: Value, conf: Conf, taskCls: Value, registry: TaskRegistry)
      modifies this, registry, loader
      ensures this.flaskApp == flaskApp && this.backend == backend
      ensures this.conf == conf && this.taskCls == taskCls
      ensures registry.tasks.Keys == old(registry.tasks).Keys
      ensures forall name :: name in registry.tasks ==>
                registry.tasks[name] == SetAttrs(old(registry.tasks)[name], TaskSettings(backend, conf))
      ensures loader.configured
    {
      this.flaskApp := flaskApp;
      this.backend := backend;
      this.conf := conf;
      this.taskCls := taskCls;

      var vals := TaskSettings(this.backend, this.conf);
      var pending := registry.tasks.Keys;
      while pending != {}
        invariant pending <= registry.tasks.Keys
        invariant registry.tasks.Keys == old(registry.tasks).Keys
        invariant forall name :: name in registry.tasks && name !in pending ==>
                    registry.tasks[name] == SetAttrs(old(registry.tasks)[name], vals)
        invariant forall name :: name in pending ==> registry.tasks[name] == old(registry.tasks)[name]
        invariant this.flaskApp == flaskApp && this.backend == backend
        invariant this.conf == conf && this.taskCls == taskCls
        decreases pending
      {
        var name :| name in pending;
        registry.SetTaskAttrs(name, vals);
        pending := pending - {name};
      }
      loader.configured := true;
    }

    /** The arguments that rebuild the application when unpickled: the
        Flask application in front of the arguments Celery itself records. */
    function ReduceArgs(inherited: seq<Value>): (args: seq<Value>)
      reads this
      ensures |args| == |inherited| + 1
      ensures args[0] == flaskApp && args[1..] == inherited
    {
      [flaskApp] + inherited
    }
  }

  /** The keyword arguments the pickler rebuilds the application from: the
      first argument is the Flask application, stored under "flask_app" over
      what Celery's own pickler makes of the others.  Without any argument
      the call raises TypeError. */
  function BuildKwargs(args: seq<Value>, standardKwargs: seq<Value> -> map<string, Value>)
    : (r: Result<map<string, Value>>)
    ensures r.Ok? <==> |args| >= 1
    ensures r.Err? ==> r.error == TypeError
    ensures r.Ok? ==> && "flask_app" in r.value && r.value["flask_app"] == args[0]
                      && r.value.Keys == standardKwargs(args[1..]).Keys + {"flask_app"}
                      && forall k :: k in r.value && k != "flask_app" ==> r.value[k] == standardKwargs(args[1..])[k]
  {
    if args == [] then Err(TypeError)
    else Ok(standardKwargs(args[1..])["flask_app" := args[0]])
  }

  /** Pickling round trip: unpickling the reduced arguments gives back the
      Flask application under "flask_app" and hands exactly Celery's own
      arguments to Celery's pickler. */
  lemma PickleRoundTrip(app: Celery, inherited: seq<Value>, standardKwargs: seq<Value> -> map<string, Value>)
    ensures BuildKwargs(app.ReduceArgs(inherited), standardKwargs)
         == Ok(standardKwargs(inherited)["flask_app" := app.flaskApp])
  {
    assert app.ReduceArgs(inherited)[1..] == inherited;
  }
}
