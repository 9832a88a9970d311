/** Translation of an optparse option descriptor (the attribute dictionary of
    a Celery command-line option) into the positional and keyword arguments
    of a Flask-Script option.  The translation rewrites the descriptor's own
    attribute dictionary in place; the keywords are equal to what is left. */
module OptionTranslation {
  import opened PyValues

  /** The type map the translator uses unless a caller passes its own. */
  const DefaultTypeMap: map<string, PyType> :=
    map["int" := IntType, "float" := FloatType, "string" := StrType]

  /** optparse's marker for "no default was given". */
  const NoDefault: Value := Tuple([Str("NO"), Str("DEFAULT")])

  /** The optparse callback attributes, which argparse does not know. */
  const CallbackKeys: set<string> := {"callback", "callback_args", "callback_kwargs"}

  /** The attributes that mean nothing to a `store_true` argparse option. */
  const StoreTrueDropped: seq<string> := ["const", "type", "nargs", "metavar", "choices"]

  /** The positional arguments and keywords handed to the Flask-Script option. */
  datatype OptionCall = OptionCall(args: seq<Value>, kwargs: map<string, Value>)

  /** The descriptor's attribute dictionary after the translation, and either
      the option arguments or the exception that interrupted it. */
  datatype Outcome = Outcome(attrs: map<string, Value>, result: Result<OptionCall>)

  /** A dictionary together with how many keys of a list were popped from it. */
  datatype Popped = Popped(attrs: map<string, Value>, count: nat)

  predicate Distinct(keys: seq<string>)
  {
    forall i, j :: 0 <= i < j < |keys| ==> keys[i] != keys[j]
  }

  /** The keys removed for an action before the default is normalised. */
  function Dropped(action: Value): (keys: seq<string>)
    ensures Distinct(keys)
  {
    if action == Str("store_true") then StoreTrueDropped
    else if action == Str("store") then ["nargs"]
    else []
  }

  /** `typemap.get(t) or t`, for a hashable `t`: a type name the map knows
      becomes the type itself (a type object is always true). */
  function ConvertType(t: Value, typemap: map<string, PyType>): Value
  {
    if t.Str? && t.s in typemap then TypeObject(typemap[t.s]) else t
  }

  /** The characters of a string, each as a one-character string. */
  function Chars(s: string): seq<Value>
  {
    seq(|s|, i requires 0 <= i < |s| => Str([s[i]]))
  }

  /** Spreading a joined string gives the characters of the first part
      followed by those of the second. */
  lemma CharsAppend(a: string, b: string)
    ensures Chars(a + b) == Chars(a) + Chars(b)
  {
    assert forall i :: 0 <= i < |a| + |b| ==> Chars(a + b)[i] == (Chars(a) + Chars(b))[i];
  }

  /** The positional arguments of `Option(*(short + long))`: lists and tuples
      concatenate, strings concatenate and then spread into their characters,
      and any other pair raises TypeError. */
  function Concat(short: Value, long: Value): Result<seq<Value>>
  {
    if short.List? && long.List? then Ok(short.items + long.items)
    else if short.Tuple? && long.Tuple? then Ok(short.items + long.items)
    else if short.Str? && long.Str? then Ok(Chars(short.s + long.s))
    else Err(TypeError)
  }

  /** The option strings add up to the short ones followed by the long ones,
      in order, whether they are both lists, both tuples or both strings. */
  lemma ConcatInOrder(short: Value, long: Value)
    ensures short.List? && long.List? ==> Concat(short, long) == Ok(short.items + long.items)
    ensures short.Tuple? && long.Tuple? ==> Concat(short, long) == Ok(short.items + long.items)
    ensures short.Str? && long.Str? ==> Concat(short, long) == Ok(Chars(short.s) + Chars(long.s))
  {
    if short.Str? && long.Str? {
      CharsAppend(short.s, long.s);
    }
  }

  /** Pops `keys` one after another from `d`, as an eager `map(d.pop, keys)`
      does, stopping at the first key that is missing (KeyError). */
  function PopEach(d: map<string, Value>, keys: seq<string>): (p: Popped)
    requires Distinct(keys)
    ensures p.count <= |keys|
    ensures forall j :: 0 <= j < p.count ==> keys[j] in d
    ensures p.count < |keys| ==> keys[p.count] !in d
    ensures p.attrs == d - (set j | 0 <= j < p.count :: keys[j])
    decreases |keys|
  {
    if keys == [] || keys[0] !in d then Popped(d, 0)
    else
      var rest := PopEach(d - {keys[0]}, keys[1..]);
      assert d - {keys[0]} - (set j | 0 <= j < rest.count :: keys[1..][j])
          == d - (set j | 0 <= j < rest.count + 1 :: keys[j]);
      Popped(rest.attrs, rest.count + 1)
  }

  /** The descriptor with its type name replaced by the type it names. */
  function Typed(d: map<string, Value>, typemap: map<string, PyType>): map<string, Value>
    requires "type" in d
  {
    d["type" := ConvertType(d["type"], typemap)]
  }

  /** The argparse action that stands for an optparse callback: it calls the
      callback with its positional arguments (an empty tuple when missing or
      false) and keyword arguments (an empty dict when missing or false). */
  function CallbackOf(d: map<string, Value>): Value
  {
    CallbackAction(Get(d, "callback", NoneValue),
                   Or(Get(d, "callback_args", NoneValue), Tuple([])),
                   Or(Get(d, "callback_kwargs", NoneValue), Dict(map[])))
  }

  /** optparse's "no default" marker replaced by None. */
  function Normalized(d: map<string, Value>): map<string, Value>
    requires "default" in d
  {
    if d["default"] == NoDefault then d["default" := NoneValue] else d
  }

  /** A callback option gets the synthetic action; it takes no values unless
      the descriptor says otherwise. */
  function WithCallbackAction(d: map<string, Value>, act: Value): map<string, Value>
  {
    var acting := d["action" := act];
    if "nargs" in acting then acting else acting["nargs" := Int(0)]
  }

  /** The default normalised and, for a callback, the action replaced. */
  function Acting(d: map<string, Value>, action: Value, act: Value): map<string, Value>
    requires "default" in d
  {
    var defaulted := Normalized(d);
    if action == Str("callback") then WithCallbackAction(defaulted, act) else defaulted
  }

  /** The last step: pop the short and the long option strings and join them. */
  function CollectArgs(d: map<string, Value>): Outcome
  {
    if "_short_opts" !in d then Outcome(d, Err(KeyError("_short_opts")))
    else
      var rest := d - {"_short_opts"};
      if "_long_opts" !in rest then Outcome(rest, Err(KeyError("_long_opts")))
      else
        var kwargs := rest - {"_long_opts"};
        match Concat(d["_short_opts"], rest["_long_opts"])
        case Err(e) => Outcome(kwargs, Err(e))
        case Ok(args) => Outcome(kwargs, Ok(OptionCall(args, kwargs)))
  }

  /** The translation from the point where the action is known: the action's
      keys are dropped, the default normalised, a callback replaced. */
  function TranslateAction(plain: map<string, Value>, action: Value, act: Value): Outcome
  {
    var dropped := Dropped(action);
    var popped := PopEach(plain, dropped);
    if popped.count < |dropped| then Outcome(popped.attrs, Err(KeyError(dropped[popped.count])))
    else if "default" !in popped.attrs then Outcome(popped.attrs, Err(KeyError("default")))
    else CollectArgs(Acting(popped.attrs, action, act))
  }

  /** The whole translation of the descriptor `d`, in the order the steps
      happen, with the dictionary as it is left when a step raises. */
  function Translate(d: map<string, Value>, typemap: map<string, PyType>): Outcome
  {
    if "type" !in d then Outcome(d, Err(KeyError("type")))
    else if !Hashable(d["type"]) then Outcome(d, Err(TypeError))
    else
      var typed := Typed(d, typemap);
      var plain := typed - CallbackKeys;
      if "action" !in plain then Outcome(plain, Err(KeyError("action")))
      else TranslateAction(plain, plain["action"], CallbackOf(typed))
  }

  /** The keys the translation reads or writes for a given action; every other
      attribute of the descriptor is passed on as it is. */
  function Rewritten(action: Value): set<string>
  {
    {"type", "action", "default", "_short_opts", "_long_opts"} + CallbackKeys
    + (set k | k in Dropped(action))
    + (if action == Str("callback") then {"nargs"} else {})
  }

  /** The descriptors on which the translation gets as far as the default:
      the type is there and hashable, the action is there, and so is every
      key the action drops. */
  predicate ReachesDefault(d: map<string, Value>)
  {
    && "type" in d && Hashable(d["type"])
    && "action" in d
    && (forall k :: k in Dropped(d["action"]) ==> k in d)
  }

  /** The descriptors the translation accepts: every key it reads is there,
      the type is hashable, and the option strings can be concatenated. */
  predicate Translatable(d: map<string, Value>)
  {
    && ReachesDefault(d)
    && "default" in d
    && "_short_opts" in d && "_long_opts" in d
    && Concat(d["_short_opts"], d["_long_opts"]).Ok?
  }

  /** The keys of the translated keywords: the descriptor's keys without the
      callback attributes, the option strings and the keys the action drops,
      plus `nargs` for a callback. */
  function KwargKeys(d: map<string, Value>): set<string>
    requires "action" in d
  {
    (d.Keys - CallbackKeys - {"_short_opts", "_long_opts"} - (set k | k in Dropped(d["action"])))
    + (if d["action"] == Str("callback") then {"nargs"} else {})
  }

  /** The translated keywords described key by key, independently of the
      order of the steps. */
  function Kwargs(d: map<string, Value>, typemap: map<string, PyType>): map<string, Value>
    requires Translatable(d)
  {
    var callback := d["action"] == Str("callback");
    map k | k in KwargKeys(d) ::
      if k == "type" then ConvertType(d["type"], typemap)
      else if k == "default" then (if d["default"] == NoDefault then NoneValue else d["default"])
      else if k == "action" && callback then CallbackOf(d)
      else if k == "nargs" && callback then Get(d, "nargs", Int(0))
      else d[k]
  }

  /** The descriptor with the type converted and the callback attributes
      and the keys the action drops removed. */
  function Plain(d: map<string, Value>, typemap: map<string, PyType>): map<string, Value>
    requires "type" in d && "action" in d
  {
    Typed(d, typemap) - CallbackKeys - (set k | k in Dropped(d["action"]))
  }

  /** The dictionary just before the option strings are popped, for a
      translatable descriptor. */
  function Prepared(d: map<string, Value>, typemap: map<string, PyType>): map<string, Value>
    requires Translatable(d)
  {
    PlainAt(d, typemap);
    Acting(Plain(d, typemap), d["action"], CallbackOf(d))
  }

  lemma DroppedAmong(action: Value, k: string)
    requires k in Dropped(action)
    ensures k == "const" || k == "type" || k == "nargs" || k == "metavar" || k == "choices"
  {
  }

  lemma DroppedNotCallback(action: Value)
    ensures forall k :: k in Dropped(action) ==> k !in CallbackKeys
  {
    forall k | k in Dropped(action) ensures k !in CallbackKeys { DroppedAmong(action, k); }
  }

  /** Once the type is known to be hashable and the action is present, what
      is left of the translation is the action-specific part. */
  lemma TranslateUnfold(d: map<string, Value>, typemap: map<string, PyType>)
    requires "type" in d && Hashable(d["type"]) && "action" in d
    ensures var plain := Typed(d, typemap) - CallbackKeys;
            && "action" in plain && plain["action"] == d["action"]
            && (forall k :: k in Dropped(d["action"]) ==> (k in plain <==> k in d))
            && Translate(d, typemap) == TranslateAction(plain, d["action"], CallbackOf(d))
  {
    var typed := Typed(d, typemap);
    assert CallbackOf(typed) == CallbackOf(d);
    DroppedNotCallback(d["action"]);
  }

  lemma PlainAt(d: map<string, Value>, typemap: map<string, PyType>)
    requires "type" in d && "action" in d
    ensures var plain := Plain(d, typemap);
            && (forall k :: k in plain <==> k in d && k !in CallbackKeys && k !in Dropped(d["action"]))
            && (forall k :: k in plain && k != "type" ==> plain[k] == d[k])
            && ("type" in plain ==> plain["type"] == ConvertType(d["type"], typemap))
            && "action" in plain
            && ("default" in plain <==> "default" in d)
            && ("_short_opts" in plain <==> "_short_opts" in d)
            && ("_long_opts" in plain <==> "_long_opts" in d)
  {
    var typed := Typed(d, typemap);
    var dropped := set k | k in Dropped(d["action"]);
    var plain := Plain(d, typemap);
    assert plain == typed - CallbackKeys - dropped;
    forall k | k in ["action", "default", "_short_opts", "_long_opts"]
      ensures k !in dropped && k !in CallbackKeys
    {
      if k in dropped {
        DroppedAmong(d["action"], k);
      }
    }
  }

  lemma PopEachAll(d: map<string, Value>, keys: seq<string>)
    requires Distinct(keys)
    requires forall k :: k in keys ==> k in d
    ensures PopEach(d, keys) == Popped(d - (set k | k in keys), |keys|)
  {
    var p := PopEach(d, keys);
    assert (set j | 0 <= j < p.count :: keys[j]) == set k | k in keys;
  }

  lemma ActingAt(m: map<string, Value>, action: Value, act: Value)
    requires "default" in m && "action" in m
    ensures var r := Acting(m, action, act);
            && (forall k :: k in r <==> k in m || (k == "nargs" && action == Str("callback")))
            && r["default"] == (if m["default"] == NoDefault then NoneValue else m["default"])
            && r["action"] == (if action == Str("callback") then act else m["action"])
            && (action == Str("callback") ==> r["nargs"] == Get(m, "nargs", Int(0)))
            && (forall k :: (k in m && k != "default" && k != "action" && (k != "nargs" || action != Str("callback")))
                              ==> r[k] == m[k])
  {
  }

  /** Popping stops at the first missing key: when the first `i` keys are
      present and the next is not (or there is none), exactly `i` are popped. */
  lemma PopEachStops(d: map<string, Value>, keys: seq<string>, i: nat)
    requires Distinct(keys) && i <= |keys|
    requires forall j :: 0 <= j < i ==> keys[j] in d
    requires i < |keys| ==> keys[i] !in d
    ensures PopEach(d, keys) == Popped(d - (set j | 0 <= j < i :: keys[j]), i)
  {
  }

  lemma TranslateThroughDrops(d: map<string, Value>, typemap: map<string, PyType>)
    requires ReachesDefault(d)
    ensures Translate(d, typemap)
         == if "default" !in d then Outcome(Plain(d, typemap), Err(KeyError("default")))
            else CollectArgs(Acting(Plain(d, typemap), d["action"], CallbackOf(d)))
  {
    TranslateUnfold(d, typemap);
    var plain := Typed(d, typemap) - CallbackKeys;
    var dropped := Dropped(d["action"]);
    PopEachAll(plain, dropped);
    assert plain - (set k | k in dropped) == Plain(d, typemap);
    PlainAt(d, typemap);
  }

  lemma TranslatePrepared(d: map<string, Value>, typemap: map<string, PyType>)
    requires Translatable(d)
    ensures Translate(d, typemap) == CollectArgs(Prepared(d, typemap))
  {
    TranslateThroughDrops(d, typemap);
  }

  lemma CollectArgsOk(m: map<string, Value>)
    requires "_short_opts" in m && "_long_opts" in m
    requires Concat(m["_short_opts"], m["_long_opts"]).Ok?
    ensures CollectArgs(m)
         == Outcome(m - {"_short_opts", "_long_opts"},
                    Ok(OptionCall(Concat(m["_short_opts"], m["_long_opts"]).value,
                                  m - {"_short_opts", "_long_opts"})))
  {
    assert m - {"_short_opts"} - {"_long_opts"} == m - {"_short_opts", "_long_opts"};
  }

  lemma PreparedAt(d: map<string, Value>, typemap: map<string, PyType>, k: string)
    requires Translatable(d)
    requires k != "_short_opts" && k != "_long_opts"
    ensures k in Prepared(d, typemap) <==> k in KwargKeys(d)
    ensures k in Prepared(d, typemap) ==> Prepared(d, typemap)[k] == Kwargs(d, typemap)[k]
  {
    if k in {"type", "default", "action", "nargs"} {
      PreparedAtRewritten(d, typemap, k);
    } else {
      PreparedAtOther(d, typemap, k);
    }
  }

  lemma PreparedAtRewritten(d: map<string, Value>, typemap: map<string, PyType>, k: string)
    requires Translatable(d)
    requires k in {"type", "default", "action", "nargs"}
    ensures k in Prepared(d, typemap) <==> k in KwargKeys(d)
    ensures k in Prepared(d, typemap) ==> Prepared(d, typemap)[k] == Kwargs(d, typemap)[k]
  {
    PlainAt(d, typemap);
    ActingAt(Plain(d, typemap), d["action"], CallbackOf(d));
    if k == "type" {
    } else if k == "default" {
    } else if k == "action" {
    } else {
    }
  }

  lemma PreparedAtOther(d: map<string, Value>, typemap: map<string, PyType>, k: string)
    requires Translatable(d)
    requires k !in {"type", "default", "action", "nargs", "_short_opts", "_long_opts"}
    ensures k in Prepared(d, typemap) <==> k in KwargKeys(d)
    ensures k in Prepared(d, typemap) ==> Prepared(d, typemap)[k] == Kwargs(d, typemap)[k]
  {
    PlainAt(d, typemap);
    ActingAt(Plain(d, typemap), d["action"], CallbackOf(d));
  }

  lemma ActingOpts(d: map<string, Value>, typemap: map<string, PyType>)
    requires ReachesDefault(d) && "default" in d
    ensures var m := Acting(Plain(d, typemap), d["action"], CallbackOf(d));
            && ("_short_opts" in m <==> "_short_opts" in d)
            && ("_long_opts" in m <==> "_long_opts" in d)
            && ("_short_opts" in m ==> m["_short_opts"] == d["_short_opts"])
            && ("_long_opts" in m ==> m["_long_opts"] == d["_long_opts"])
  {
    PlainAt(d, typemap);
    ActingAt(Plain(d, typemap), d["action"], CallbackOf(d));
  }

  lemma PreparedKwargs(d: map<string, Value>, typemap: map<string, PyType>)
    requires Translatable(d)
    ensures Prepared(d, typemap) - {"_short_opts", "_long_opts"} == Kwargs(d, typemap)
  {
    var kwargs := Prepared(d, typemap) - {"_short_opts", "_long_opts"};
    var kw := Kwargs(d, typemap);
    forall k
      ensures k in kwargs <==> k in kw
      ensures k in kwargs ==> kwargs[k] == kw[k]
    {
      if k != "_short_opts" && k != "_long_opts" {
        PreparedAt(d, typemap, k);
      }
    }
  }

  /** The step-by-step translation of a translatable descriptor leaves its
      dictionary equal to the key-by-key description, passes keywords equal
      to that dictionary, and passes the joined option strings. */
  lemma TranslateOk(d: map<string, Value>, typemap: map<string, PyType>)
    requires Translatable(d)
    ensures Translate(d, typemap)
         == Outcome(Kwargs(d, typemap),
                    Ok(OptionCall(Concat(d["_short_opts"], d["_long_opts"]).value, Kwargs(d, typemap))))
  {
    TranslatePrepared(d, typemap);
    ActingOpts(d, typemap);
    PreparedKwargs(d, typemap);
    CollectArgsOk(Prepared(d, typemap));
  }

  /** The translation succeeds exactly on the translatable descriptors. */
  lemma TranslateSucceedsIff(d: map<string, Value>, typemap: map<string, PyType>)
    ensures Translate(d, typemap).result.Ok? <==> Translatable(d)
  {
    if Translatable(d) {
      TranslateOk(d, typemap);
    } else {
      TranslateFails(d, typemap);
    }
  }

  /** On an untranslatable descriptor the translation raises: a KeyError for
      a key it needs and the descriptor lacks, or a TypeError for an
      unhashable type or option strings that do not concatenate. */
  lemma TranslateFails(d: map<string, Value>, typemap: map<string, PyType>)
    requires !Translatable(d)
    ensures Translate(d, typemap).result.Err?
    ensures var e := Translate(d, typemap).result.error;
            && (e.KeyError? ==> e.key !in d)
            && (e.KeyError? ==> e.key in {"type", "action", "default", "_short_opts", "_long_opts"}
                                || ("action" in d && e.key in Dropped(d["action"])))
            && (e.TypeError? <==> "type" in d &&
                                  (!Hashable(d["type"]) ||
                                   (ReachesDefault(d) && "default" in d && "_short_opts" in d && "_long_opts" in d)))
  {
    if !ReachesDefault(d) {
      TranslateFailsEarly(d, typemap);
    } else {
      TranslateFailsLate(d, typemap);
    }
  }

  lemma TranslateFailsLate(d: map<string, Value>, typemap: map<string, PyType>)
    requires ReachesDefault(d) && !Translatable(d)
    ensures Translate(d, typemap).result.Err?
    ensures var e := Translate(d, typemap).result.error;
            && (e.KeyError? ==> e.key !in d && e.key in {"default", "_short_opts", "_long_opts"})
            && (e.TypeError? <==> "default" in d && "_short_opts" in d && "_long_opts" in d)
  {
    TranslateThroughDrops(d, typemap);
    if "default" in d {
      ActingOpts(d, typemap);
    }
  }

  lemma TranslateFailsEarly(d: map<string, Value>, typemap: map<string, PyType>)
    requires !ReachesDefault(d)
    ensures Translate(d, typemap).result.Err?
    ensures var e := Translate(d, typemap).result.error;
            && (e.KeyError? ==> e.key !in d)
            && (e.KeyError? ==> e.key in {"type", "action"} || ("action" in d && e.key in Dropped(d["action"])))
            && (e.TypeError? <==> "type" in d && !Hashable(d["type"]))
  {
    if "type" in d && Hashable(d["type"]) && "action" in d {
      TranslateDropMissing(d, typemap);
    }
  }

  lemma TranslateDropMissing(d: map<string, Value>, typemap: map<string, PyType>)
    requires "type" in d && Hashable(d["type"]) && "action" in d
    requires exists k :: k in Dropped(d["action"]) && k !in d
    ensures Translate(d, typemap).result.Err?
    ensures var e := Translate(d, typemap).result.error;
            e.KeyError? && e.key !in d && e.key in Dropped(d["action"])
  {
    TranslateUnfold(d, typemap);
    var plain := Typed(d, typemap) - CallbackKeys;
    var dropped := Dropped(d["action"]);
    var popped := PopEach(plain, dropped);
    assert popped.count < |dropped|;
  }

  /** On success the keywords are equal to the descriptor's rewritten dictionary;
      neither callback attributes nor option strings are left in it, and the
      positional arguments are the short option strings followed by the long
      ones. */
  lemma TranslateArgs(d: map<string, Value>, typemap: map<string, PyType>)
    requires Translatable(d)
    ensures var o := Translate(d, typemap);
            && o.result.Ok?
            && o.attrs == o.result.value.kwargs
            && (forall k :: k in CallbackKeys + {"_short_opts", "_long_opts"} ==> k !in o.attrs)
            && (d["_short_opts"].List? && d["_long_opts"].List? ==>
                  o.result.value.args == d["_short_opts"].items + d["_long_opts"].items)
            && (d["_short_opts"].Tuple? && d["_long_opts"].Tuple? ==>
                  o.result.value.args == d["_short_opts"].items + d["_long_opts"].items)
            && (d["_short_opts"].Str? && d["_long_opts"].Str? ==>
                  o.result.value.args == Chars(d["_short_opts"].s) + Chars(d["_long_opts"].s))
  {
    TranslateOk(d, typemap);
    ConcatInOrder(d["_short_opts"], d["_long_opts"]);
  }

  /** The default type map turns the three optparse type names into types and
      leaves every other type value, None included, as it is. */
  lemma DefaultTypeMapConverts(t: Value)
    ensures ConvertType(Str("int"), DefaultTypeMap) == TypeObject(IntType)
    ensures ConvertType(Str("float"), DefaultTypeMap) == TypeObject(FloatType)
    ensures ConvertType(Str("string"), DefaultTypeMap) == TypeObject(StrType)
    ensures t != Str("int") && t != Str("float") && t != Str("string") ==>
              ConvertType(t, DefaultTypeMap) == t
  {
  }

  /** A `store_true` option loses `const`, `type`, `nargs`, `metavar` and
      `choices`. */
  lemma TranslateStoreTrue(d: map<string, Value>, typemap: map<string, PyType>)
    requires Translatable(d) && d["action"] == Str("store_true")
    ensures forall k :: k in StoreTrueDropped ==> k !in Translate(d, typemap).attrs
  {
    TranslateOk(d, typemap);
    assert forall k :: k in StoreTrueDropped ==> k !in KwargKeys(d);
  }

  /** A `store` option loses `nargs` (and, by TranslatePassthrough, keeps
      `const`, `metavar` and `choices` as they are). */
  lemma TranslateStore(d: map<string, Value>, typemap: map<string, PyType>)
    requires Translatable(d) && d["action"] == Str("store")
    ensures "nargs" !in Translate(d, typemap).attrs
  {
    TranslateOk(d, typemap);
    assert Dropped(d["action"]) == ["nargs"];
  }

  /** Unless the action is `store_true`, the `type` keyword is the type the
      descriptor's type name maps to (or the type value itself). */
  lemma TranslateType(d: map<string, Value>, typemap: map<string, PyType>)
    requires Translatable(d) && d["action"] != Str("store_true")
    ensures var kw := Translate(d, typemap).attrs;
            "type" in kw && kw["type"] == ConvertType(d["type"], typemap)
  {
    TranslateOk(d, typemap);
    assert "type" !in Dropped(d["action"]);
  }

  /** optparse's "no default" marker becomes None; any other default is kept. */
  lemma TranslateDefault(d: map<string, Value>, typemap: map<string, PyType>)
    requires Translatable(d)
    ensures var kw := Translate(d, typemap).attrs;
            && "default" in kw
            && kw["default"] == if d["default"] == NoDefault then NoneValue else d["default"]
  {
    TranslateOk(d, typemap);
  }

  lemma KwargsCallback(d: map<string, Value>, typemap: map<string, PyType>)
    requires Translatable(d)
    ensures var kw := Kwargs(d, typemap);
            && "action" in kw
            && (d["action"] == Str("callback") ==>
                  && kw["action"] == CallbackOf(d)
                  && "nargs" in kw
                  && kw["nargs"] == Get(d, "nargs", Int(0)))
            && (d["action"] != Str("callback") ==> kw["action"] == d["action"])
  {
    assert "action" in KwargKeys(d);
    if d["action"] == Str("callback") {
      assert "nargs" in KwargKeys(d);
    }
  }

  /** A `callback` action is replaced by an action that calls the callback
      with its arguments (empty when missing or false), and `nargs` is 0
      unless the descriptor has one; any other action is kept. */
  lemma TranslateCallback(d: map<string, Value>, typemap: map<string, PyType>)
    requires Translatable(d)
    ensures var kw := Translate(d, typemap).attrs;
            && "action" in kw
            && (d["action"] == Str("callback") ==>
                  && kw["action"] == CallbackAction(Get(d, "callback", NoneValue),
                                                    Or(Get(d, "callback_args", NoneValue), Tuple([])),
                                                    Or(Get(d, "callback_kwargs", NoneValue), Dict(map[])))
                  && "nargs" in kw
                  && kw["nargs"] == if "nargs" in d then d["nargs"] else Int(0))
            && (d["action"] != Str("callback") ==> kw["action"] == d["action"])
  {
    TranslateOk(d, typemap);
    KwargsCallback(d, typemap);
  }

  /** Every attribute the translation does not rewrite is passed on unchanged,
      and none is invented. */
  lemma TranslatePassthrough(d: map<string, Value>, typemap: map<string, PyType>, k: string)
    requires Translatable(d)
    requires k !in Rewritten(d["action"])
    ensures var kw := Translate(d, typemap).attrs;
            (k in kw <==> k in d) && (k in kw ==> kw[k] == d[k])
  {
    TranslateOk(d, typemap);
  }

  /** The translation consumes the descriptor: its dictionary, rewritten in
      place, no longer holds the option strings, so translating the same
      option a second time raises KeyError. */
  lemma TranslateConsumes(d: map<string, Value>, typemap: map<string, PyType>)
    requires Translatable(d)
    ensures var again := Translate(Translate(d, typemap).attrs, typemap).result;
            again.Err? && again.error.KeyError?
  {
    TranslateOk(d, typemap);
    var kw := Kwargs(d, typemap);
    assert "_short_opts" !in kw;
    TranslateFails(kw, typemap);
  }

  /** An optparse option object; its attribute dictionary is what the
      translation rewrites. */
  class OptionDescriptor {
    var attrs: map<string, Value>

    constructor (attrs: map<string, Value>)
      ensures this.attrs == attrs
    {
      this.attrs := attrs;
    }

    /** Rewrites the attribute dictionary in place and returns the arguments
        for the Flask-Script option, or the exception raised on the way (the
        dictionary then keeps the changes made before it). */
    method ToOption(typemap: map<string, PyType>) returns (r: Result<OptionCall>)
      modifies this
      ensures r == Translate(old(attrs), typemap).result
      ensures attrs == Translate(old(attrs), typemap).attrs
    {
      ghost var d := attrs;
      if "type" !in attrs {
        return Err(KeyError("type"));
      }
      var type_ := attrs["type"];
      if !Hashable(type_) {
        return Err(TypeError);
      }
      attrs := attrs["type" := ConvertType(type_, typemap)];

      var cb := Get(attrs, "callback", NoneValue);
      attrs := attrs - {"callback"};
      var cbArgs := Or(Get(attrs, "callback_args", NoneValue), Tuple([]));
      attrs := attrs - {"callback_args"};
      var cbKwargs := Or(Get(attrs, "callback_kwargs", NoneValue), Dict(map[]));
      attrs := attrs - {"callback_kwargs"};
      assert attrs == Typed(d, typemap) - CallbackKeys;
      assert CallbackAction(cb, cbArgs, cbKwargs) == CallbackOf(Typed(d, typemap));

      if "action" !in attrs {
        return Err(KeyError("action"));
      }
      var action := attrs["action"];
      assert Translate(d, typemap) == TranslateAction(attrs, action, CallbackAction(cb, cbArgs, cbKwargs));
      r := ApplyAction(action, CallbackAction(cb, cbArgs, cbKwargs));
    }

    /** The action-specific part: drops the keys the action does not take,
        normalises the default, and installs the callback action. */
    method ApplyAction(action: Value, act: Value) returns (r: Result<OptionCall>)
      modifies this
      ensures r == TranslateAction(old(attrs), action, act).result
      ensures attrs == TranslateAction(old(attrs), action, act).attrs
    {
      ghost var plain := attrs;
      var dropped := Dropped(action);
      for i := 0 to |dropped|
        invariant forall j :: 0 <= j < i ==> dropped[j] in plain
        invariant attrs == plain - (set j | 0 <= j < i :: dropped[j])
      {
        if dropped[i] !in attrs {
          PopEachStops(plain, dropped, i);
          return Err(KeyError(dropped[i]));
        }
        attrs := attrs - {dropped[i]};
      }
      PopEachStops(plain, dropped, |dropped|);

      if "default" !in attrs {
        return Err(KeyError("default"));
      }
      if attrs["default"] == NoDefault {
        attrs := attrs["default" := NoneValue];
      }

      if action == Str("callback") {
        attrs := attrs["action" := act];
        if "nargs" !in attrs {
          attrs := attrs["nargs" := Int(0)];
        }
      }
      r := PopOptionStrings();
    }

    /** Pops the short and then the long option strings and joins them into
        the positional arguments; the rest of the dictionary is the keywords. */
    method PopOptionStrings() returns (r: Result<OptionCall>)
      modifies this
      ensures r == CollectArgs(old(attrs)).result
      ensures attrs == CollectArgs(old(attrs)).attrs
    {
      if "_short_opts" !in attrs {
        return Err(KeyError("_short_opts"));
      }
      var short := attrs["_short_opts"];
      attrs := attrs - {"_short_opts"};
      if "_long_opts" !in attrs {
        return Err(KeyError("_long_opts"));
      }
      var long := attrs["_long_opts"];
      attrs := attrs - {"_long_opts"};
      var args := Concat(short, long);
      if args.Err? {
        return Err(args.error);
      }
      r := Ok(OptionCall(args.value, attrs));
    }
  }
}
