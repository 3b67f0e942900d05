/**
 * emailworker/main.py: the command line entry point. It assembles the
 * configuration from an optional Python file and a RabbitMQ INI file,
 * rewrites the argparse namespace and binds it to the chosen sub-command,
 * `start_worker` or `send`. Argparse itself is not modelled: the namespace
 * it produces is the input.
 */
module Cli {
  import opened Types
  import opened Dicts
  import opened Effects
  import Util
  import ConfigModel
  import WorkerModel

  /** What the process sees of its environment. */
  datatype Env = Env(
    pathExists: string -> bool,                      // Path(p).exists()
    script: string -> map<string, Value>,         // the bindings executing the file at p leaves
    ini: string -> IniFile,                       // ConfigParser.read(p); a missing file reads as empty
    serialize: Value -> string,                   // json.dumps
    deserialize: string -> Option<Items<Value>>,  // json.loads, None unless the text is a JSON object
    deliveries: seq<Delivery>,                    // what the broker delivers to the worker
    smtp: nat -> SmtpServer)                      // how the SMTP server answers the j-th session

  /** A ConfigParser seen as a mapping: `DEFAULT` and every section, each a
      section whose options fall back to the defaults. */
  function IniLayer(ini: IniFile): (layer: map<string, Value>)
    ensures layer.Keys == {"DEFAULT"} + ini.sections.Keys
    ensures forall s :: s in layer ==> layer[s].Section?
  {
    map s | s in {"DEFAULT"} + ini.sections.Keys ::
      if s == "DEFAULT" then Section(ini.defaults) else Section(ini.defaults + ini.sections[s])
  }

  /** The entries `load_config(config, rabbitmq_config)` returns: an empty
      Config, the Python file's UPPERCASE bindings if the file exists, then
      every INI section. */
  function AssembledConfig(env: Env, config: string, rabbitmqConfig: string): map<string, Value>
  {
    var pyLayer := if env.pathExists(config)
                   then ConfigModel.ApplyObject(map[], ConfigModel.ModuleNamespace(config, env.script(config)))
                   else map[];
    pyLayer + IniLayer(env.ini(rabbitmqConfig))
  }

  /** `load_config(config, rabbitmq_config)` */
  method LoadConfig(env: Env, config: string, rabbitmqConfig: string) returns (c: ConfigModel.Config)
    ensures fresh(c)
    ensures c.entries == AssembledConfig(env, config, rabbitmqConfig)
  {
    c := new ConfigModel.Config();
    if env.pathExists(config) {
      var _ := c.FromPyfile(config, env.script(config));
    }
    c.Update(IniLayer(env.ini(rabbitmqConfig)));
  }

  /** The configuration holds exactly the Python file's UPPERCASE bindings
      (when the file exists), `DEFAULT` and the INI sections: in particular
      no DefaultConfig setting appears unless a file supplies it. */
  lemma AssembledKeys(env: Env, config: string, rabbitmqConfig: string, k: string)
    ensures k in AssembledConfig(env, config, rabbitmqConfig) <==>
              || (env.pathExists(config) && k in env.script(config) && ConfigModel.IsUpperName(k))
              || k == "DEFAULT"
              || k in env.ini(rabbitmqConfig).sections
  {
    if env.pathExists(config) {
      ConfigModel.PyfileTakesScriptOnly(config, env.script(config));
    }
  }

  /** Without the Python file the configuration is the INI layer alone. */
  lemma MissingPyfileSkipped(env: Env, config: string, rabbitmqConfig: string)
    requires !env.pathExists(config)
    ensures AssembledConfig(env, config, rabbitmqConfig) == IniLayer(env.ini(rabbitmqConfig))
  {
  }

  /** An INI section overrides a same-named binding of the Python file, and
      a binding no section shadows keeps the file's value. */
  lemma LaterLayerWins(env: Env, config: string, rabbitmqConfig: string, k: string)
    ensures var ini := env.ini(rabbitmqConfig);
      k in ini.sections && k != "DEFAULT" ==>
        AssembledConfig(env, config, rabbitmqConfig)[k] == Section(ini.defaults + ini.sections[k])
    ensures var ini := env.ini(rabbitmqConfig);
      env.pathExists(config) && k in env.script(config) && ConfigModel.IsUpperName(k) &&
      k != "DEFAULT" && k !in ini.sections ==>
        AssembledConfig(env, config, rabbitmqConfig)[k] == env.script(config)[k]
  {
    if env.pathExists(config) {
      ConfigModel.PyfileTakesScriptOnly(config, env.script(config));
    }
  }

  /** `value[key]` on a mapping value: a section yields its option text,
      falling back to the defaults; a missing key raises KeyError and a
      value that is not a mapping raises TypeError. */
  function Subscript(value: Value, key: string): (r: Result<Value, Exc>)
    ensures r.Err? ==> r.error == Error(KeyError(key)) || r.error == Error(TypeError("not subscriptable"))
    ensures r.Err? && (value.Dict? || value.Section?) ==> r.error == Error(KeyError(key))
  {
    match value
    case Dict(e) => if key in e then Ok(e[key]) else Err(Error(KeyError(key)))
    case Section(o) => if key in o then Ok(Str(o[key])) else Err(Error(KeyError(key)))
    case _ => Err(Error(TypeError("not subscriptable")))
  }

  /** `value[outer][inner]` */
  function Lookup2(value: Value, outer: string, inner: string): Result<Value, Exc>
  {
    match Subscript(value, outer)
    case Err(e) => Err(e)
    case Ok(v) => Subscript(v, inner)
  }

  /** The six lookups `start_worker` makes, in the order it makes them. */
  function SettingLookups(config: Value): seq<Result<Value, Exc>>
  {
    [Lookup2(config, "connection_parameters", "host"),
     Lookup2(config, "connection_parameters", "virtual_host"),
     Lookup2(config, "credentials", "username"),
     Lookup2(config, "credentials", "password"),
     Lookup2(config, "queue_bind", "exchange"),
     Subscript(config, "SMTP_HOST")]
  }

  /** The six constructor arguments `start_worker` reads, in the order it
      reads them; the first failing lookup is raised. */
  function WorkerSettings(config: Value): (r: Result<WorkerModel.Settings, Exc>)
    ensures r.Ok? <==>
              && Lookup2(config, "connection_parameters", "host").Ok?
              && Lookup2(config, "connection_parameters", "virtual_host").Ok?
              && Lookup2(config, "credentials", "username").Ok?
              && Lookup2(config, "credentials", "password").Ok?
              && Lookup2(config, "queue_bind", "exchange").Ok?
              && Subscript(config, "SMTP_HOST").Ok?
    ensures forall k :: 0 <= k < 6 && SettingLookups(config)[k].Err? &&
                        (forall j :: 0 <= j < k ==> SettingLookups(config)[j].Ok?) ==>
              r == Err(SettingLookups(config)[k].error)
  {
    var host := Lookup2(config, "connection_parameters", "host");
    var vhost := Lookup2(config, "connection_parameters", "virtual_host");
    var user := Lookup2(config, "credentials", "username");
    var password := Lookup2(config, "credentials", "password");
    var queue := Lookup2(config, "queue_bind", "exchange");
    var smtpHost := Subscript(config, "SMTP_HOST");
    var lookups := SettingLookups(config);
    assert lookups == [host, vhost, user, password, queue, smtpHost];
    assert lookups[0] == host && lookups[1] == vhost && lookups[2] == user;
    assert lookups[3] == password && lookups[4] == queue && lookups[5] == smtpHost;
    if host.Err? then Err(host.error)
    else if vhost.Err? then Err(vhost.error)
    else if user.Err? then Err(user.error)
    else if password.Err? then Err(password.error)
    else if queue.Err? then Err(queue.error)
    else if smtpHost.Err? then Err(smtpHost.error)
    else Ok(WorkerModel.Settings(host.value, vhost.value, user.value, password.value, queue.value, smtpHost.value))
  }

  /** The worker is built from the connection parameters, the credentials,
      the exchange of `queue_bind` as its queue and `SMTP_HOST`. */
  lemma StartWorkerProjection(config: Value)
    requires WorkerSettings(config).Ok?
    ensures var s := WorkerSettings(config).value;
      && Lookup2(config, "connection_parameters", "host") == Ok(s.rabbitmqHost)
      && Lookup2(config, "connection_parameters", "virtual_host") == Ok(s.rabbitmqVirtualHost)
      && Lookup2(config, "credentials", "username") == Ok(s.rabbitmqUsername)
      && Lookup2(config, "credentials", "password") == Ok(s.rabbitmqPassword)
      && Lookup2(config, "queue_bind", "exchange") == Ok(s.queue)
      && Subscript(config, "SMTP_HOST") == Ok(s.smtpHost)
  {
  }

  /** What `start_worker(config)` does. */
  function StartWorkerOutcome(env: Env, config: Value): Outcome
  {
    match WorkerSettings(config)
    case Err(e) => Outcome([], Some(e))
    case Ok(s) => WorkerModel.StartOutcome(s, env.deserialize, env.deliveries, env.smtp)
  }

  /** `start_worker(config)` */
  method StartWorker(rt: Runtime, env: Env, config: Value) returns (raised: Option<Exc>)
    modifies rt
    ensures var o := StartWorkerOutcome(env, config);
      rt.events == old(rt.events) + o.events && raised == o.raised
  {
    var settings := WorkerSettings(config);
    if settings.Err? {
      return Some(settings.error);
    }
    var s := settings.value;
    var worker := new WorkerModel.Worker(s.rabbitmqHost, s.rabbitmqVirtualHost, s.rabbitmqUsername,
                                         s.rabbitmqPassword, s.queue, s.smtpHost);
    raised := worker.Start(rt, env.deserialize, env.deliveries, env.smtp);
  }

  /** The connection parameters `send` builds, looked up in source order. */
  function SendConnection(config: Value): Result<ConnectionParams, Exc>
  {
    var host := Lookup2(config, "connection_parameters", "host");
    var vhost := Lookup2(config, "connection_parameters", "virtual_host");
    var user := Lookup2(config, "credentials", "username");
    var password := Lookup2(config, "credentials", "password");
    if host.Err? then Err(host.error)
    else if vhost.Err? then Err(vhost.error)
    else if user.Err? then Err(user.error)
    else if password.Err? then Err(password.error)
    else Ok(ConnectionParams(host.value, Some(vhost.value), Some((user.value, password.value))))
  }

  /** `n` identical publications. */
  function Publishes(exchange: Value, body: string, n: nat): (r: seq<Event>)
    ensures |r| == n
    ensures forall i :: 0 <= i < n ==> r[i] == BasicPublish(exchange, exchange, body)
  {
    if n == 0 then [] else Publishes(exchange, body, n - 1) + [BasicPublish(exchange, exchange, body)]
  }

  /** The number of rounds `range(count)` gives: an int, or a bool as 0 or 1;
      any other value makes `range` raise TypeError. */
  function RangeBound(count: Value): Option<int>
  {
    match count
    case Int(n) => Some(n)
    case Bool(b) => Some(if b then 1 else 0)
    case _ => None
  }

  /** What `send(config, messagebody, count)` does: connect, then publish
      the serialized body `count` times (no time for a count below one) to
      the exchange of `queue_bind`, looked up at each publication. */
  function SendOutcome(config: Value, messagebody: Value, count: Value, serialize: Value -> string): Outcome
  {
    match SendConnection(config)
    case Err(e) => Outcome([], Some(e))
    case Ok(p) =>
      match RangeBound(count)
      case None => Outcome([BrokerConnect(p)], Some(Error(TypeError("count"))))
      case Some(n) =>
        if n <= 0 then Outcome([BrokerConnect(p)], None)
        else
          match Lookup2(config, "queue_bind", "exchange")
          case Err(e) => Outcome([BrokerConnect(p)], Some(e))
          case Ok(exchange) => Outcome([BrokerConnect(p)] + Publishes(exchange, serialize(messagebody), n), None)
  }

  /** A successful `send` publishes exactly `count` copies of the same body,
      with the exchange of `queue_bind` as exchange and routing key. */
  lemma SendPublishesCount(config: Value, messagebody: Value, count: int, serialize: Value -> string)
    requires SendOutcome(config, messagebody, Int(count), serialize).raised.None?
    ensures var o := SendOutcome(config, messagebody, Int(count), serialize);
      && |o.events| == 1 + (if count > 0 then count else 0)
      && o.events[0].BrokerConnect?
      && forall i :: 1 <= i < |o.events| ==>
           Lookup2(config, "queue_bind", "exchange").Ok? &&
           o.events[i] == BasicPublish(Lookup2(config, "queue_bind", "exchange").value,
                                       Lookup2(config, "queue_bind", "exchange").value,
                                       serialize(messagebody))
  {
  }

  /** `send(config, messagebody, count=1)` */
  method Send(rt: Runtime, config: Value, messagebody: Value, count: Value, serialize: Value -> string)
    returns (raised: Option<Exc>)
    modifies rt
    ensures var o := SendOutcome(config, messagebody, count, serialize);
      rt.events == old(rt.events) + o.events && raised == o.raised
  {
    var connection := SendConnection(config);
    if connection.Err? {
      return Some(connection.error);
    }
    rt.Emit(BrokerConnect(connection.value));
    var rounds := RangeBound(count);
    if rounds.None? {
      return Some(Error(TypeError("count")));
    }
    var n := rounds.value;
    ghost var start := rt.events;
    var i := 0;
    while i < n
      invariant n <= 0 ==> i == 0
      invariant n > 0 ==> 0 <= i <= n
      invariant i > 0 ==> Lookup2(config, "queue_bind", "exchange").Ok?
      invariant i > 0 ==> rt.events == start + Publishes(Lookup2(config, "queue_bind", "exchange").value,
                                                          serialize(messagebody), i)
      invariant i == 0 ==> rt.events == start
    {
      var exchange := Lookup2(config, "queue_bind", "exchange");
      if exchange.Err? {
        return Some(exchange.error);
      }
      rt.Emit(BasicPublish(exchange.value, exchange.value, serialize(messagebody)));
      i := i + 1;
    }
    raised := None;
  }

  /** The two sub-commands argparse can select. */
  datatype Command = StartWorkerCmd | SendCmd

  /** An attribute of the `main.py` namespace. */
  type Arg = Attr<Command>

  /** The parameter lists of `start_worker(config)` and
      `send(config, messagebody, count=1)`. */
  function CommandSignature(cmd: Command): Util.Signature
  {
    match cmd
    case StartWorkerCmd => [Util.Param("config", true)]
    case SendCmd => [Util.Param("config", true), Util.Param("messagebody", true), Util.Param("count", false)]
  }

  /** `dict(section.items())`: the options of a section, defaults included,
      as a dict of strings. */
  function SectionItems(section: Value): (d: Value)
    requires section.Section?
    ensures d.Dict? && d.entries.Keys == section.options.Keys
    ensures forall k :: k in d.entries ==> d.entries[k] == Str(section.options[k])
  {
    Dict(map k | k in section.options :: Str(section.options[k]))
  }

  /** A successful binding supplies every required parameter of the command. */
  lemma BoundCommandArguments(cmd: Command, data: Items<Arg>, kw: map<string, Arg>)
    requires Util.BindAndCall(CommandSignature(cmd), data) == Ok(kw)
    ensures "config" in kw
    ensures cmd == SendCmd ==> "messagebody" in kw
  {
    var sig := CommandSignature(cmd);
    assert sig[0] == Util.Param("config", true);
    if cmd == SendCmd {
      assert sig[1] == Util.Param("messagebody", true);
    }
  }

  /** Calling the bound command: `start_worker(**kw)` or `send(**kw)`, the
      latter with `count` defaulting to 1. */
  function Call(env: Env, cmd: Command, kw: map<string, Arg>): Outcome
    requires "config" in kw
    requires cmd == SendCmd ==> "messagebody" in kw
  {
    match cmd
    case StartWorkerCmd => StartWorkerOutcome(env, ArgValue(kw["config"]))
    case SendCmd =>
      var count := if "count" in kw then ArgValue(kw["count"]) else Int(1);
      SendOutcome(ArgValue(kw["config"]), ArgValue(kw["messagebody"]), count, env.serialize)
  }

  /** A `send` call without `count` publishes once. */
  lemma CountDefaultsToOne(env: Env, kw: map<string, Arg>)
    requires "config" in kw && "messagebody" in kw && "count" !in kw
    ensures Call(env, SendCmd, kw) == SendOutcome(ArgValue(kw["config"]), ArgValue(kw["messagebody"]), Int(1), env.serialize)
  {
  }

  /** Where `main` stands once it is done with the namespace: it returned,
      or raised, without calling anything (`Returned`), or it is about to
      call `func` with the namespace (`Calling`). Either way `func` is the
      function it picked and `ns` the namespace as it left it. */
  datatype Stage =
    | Returned(func: Arg, ns: Items<Arg>, raised: Option<Exc>)
    | Calling(func: Arg, ns: Items<Arg>)

  /** `main()` after `parser.parse_args()` returned the namespace `ns`:
      default `func` to `start_worker` and delete it, then take the
      `message` path when the namespace has that attribute and the
      configuration path otherwise. */
  function Rewrite(env: Env, ns: Items<Arg>): Stage
  {
    var withFunc := if "func" in Keys(ns) then ns else Assign(ns, "func", Func(StartWorkerCmd));
    var func := Get(withFunc, "func").value;
    var args := Remove(withFunc, "func");
    if "message" in Keys(args) then MessageStage(env, func, args) else ConfigStage(env, func, args)
  }

  /** The `message` path: `messagebody` becomes the parser, then the items of
      its `email` section (KeyError when it has none); `message` is deleted
      and `main` returns without calling `func`. */
  function MessageStage(env: Env, func: Arg, args: Items<Arg>): (r: Stage)
    requires "message" in Keys(args)
    ensures r.Returned? && r.func == func
  {
    var parser := Dict(IniLayer(env.ini(ArgText(Get(args, "message").value))));
    var parsed := Assign(args, "messagebody", Val(parser));
    match Subscript(parser, "email")
    case Err(e) => Returned(func, parsed, Some(e))
    case Ok(section) =>
      Returned(func, Remove(Assign(parsed, "messagebody", Val(SectionItems(section))), "message"), None)
  }

  /** The configuration path: `config` becomes the loaded configuration and
      `rabbitmq_config` is deleted; reading a missing attribute raises
      AttributeError. */
  function ConfigStage(env: Env, func: Arg, args: Items<Arg>): (r: Stage)
    ensures r.func == func
  {
    if "config" !in Keys(args) then
      Returned(func, args, Some(Error(AttributeError("config"))))
    else if "rabbitmq_config" !in Keys(args) then
      Returned(func, args, Some(Error(AttributeError("rabbitmq_config"))))
    else
      var loaded := AssembledConfig(env, ArgText(Get(args, "config").value), ArgText(Get(args, "rabbitmq_config").value));
      Calling(func, Remove(Assign(args, "config", Val(Dict(loaded))), "rabbitmq_config"))
  }

  /** `bind_and_call(func, vars(args))`: a value that is not a function is
      not callable; a binding failure is the TypeError of `Signature.bind`. */
  function CallOutcome(env: Env, func: Arg, bound: Items<Arg>): Outcome
  {
    match func
    case Val(_) => Outcome([], Some(Error(TypeError("not callable"))))
    case Func(cmd) =>
      match Util.BindAndCall(CommandSignature(cmd), bound)
      case Err(why) => Outcome([], Some(Error(BindingFailed(why))))
      case Ok(kw) => BoundCommandArguments(cmd, bound, kw); Call(env, cmd, kw)
  }

  /** What `main()` does from the parsed namespace on. */
  function MainOutcome(env: Env, ns: Items<Arg>): Outcome
  {
    match Rewrite(env, ns)
    case Returned(_, _, raised) => Outcome([], raised)
    case Calling(func, bound) => CallOutcome(env, func, bound)
  }

  /** With no sub-command `func` is `start_worker`; a chosen sub-command
      keeps its function. */
  lemma FuncDefaultsToStartWorker(env: Env, ns: Items<Arg>)
    requires DistinctKeys(ns)
    ensures "func" !in Keys(ns) ==> Rewrite(env, ns).func == Func(StartWorkerCmd)
    ensures "func" in Keys(ns) ==> Get(ns, "func") == Some(Rewrite(env, ns).func)
  {
    var withFunc := if "func" in Keys(ns) then ns else Assign(ns, "func", Func(StartWorkerCmd));
    assert Rewrite(env, ns).func == Get(withFunc, "func").value;
    if "func" !in Keys(ns) {
      GetAssign(ns, "func", Func(StartWorkerCmd), "func");
    }
  }

  /** `main` splits into its two paths on the namespace without `func`,
      which agrees with the parsed one on every other attribute. */
  lemma MainPaths(env: Env, ns: Items<Arg>)
    requires DistinctKeys(ns)
    ensures var withFunc := if "func" in Keys(ns) then ns else Assign(ns, "func", Func(StartWorkerCmd));
      var args := Remove(withFunc, "func");
      && DistinctKeys(args)
      && Keys(args) == Keys(ns) - {"func"}
      && (forall x :: x != "func" ==> Get(args, x) == Get(ns, x))
      && Rewrite(env, ns) == if "message" in Keys(ns) then MessageStage(env, Rewrite(env, ns).func, args)
                             else ConfigStage(env, Rewrite(env, ns).func, args)
  {
    var withFunc := if "func" in Keys(ns) then ns else Assign(ns, "func", Func(StartWorkerCmd));
    if "func" !in Keys(ns) {
      AssignDistinct(ns, "func", Func(StartWorkerCmd));
      forall x | x != "func" ensures Get(withFunc, x) == Get(ns, x) {
        GetAssign(ns, "func", Func(StartWorkerCmd), x);
      }
    }
    RemoveDistinct(withFunc, "func");
  }

  /** The key set after deleting `func`, assigning `config` and deleting
      `rabbitmq_config`, as plain set algebra. */
  lemma ConfigPathKeys(parsed: set<string>, args: set<string>, bound: set<string>)
    requires "config" in parsed
    requires args == parsed - {"func"}
    requires bound == args + {"config"} - {"rabbitmq_config"}
    ensures bound == parsed - {"func", "rabbitmq_config"}
  {
  }

  /** The configuration path on a namespace without `func`, when both
      paths are there. */
  lemma ConfigRewrite(env: Env, func: Arg, args: Items<Arg>)
    requires DistinctKeys(args)
    requires "config" in Keys(args) && "rabbitmq_config" in Keys(args)
    ensures var r := ConfigStage(env, func, args);
      && r.Calling?
      && DistinctKeys(r.ns)
      && Keys(r.ns) == Keys(args) + {"config"} - {"rabbitmq_config"}
      && Get(r.ns, "config") == Some(Val(Dict(AssembledConfig(env, ArgText(Get(args, "config").value),
                                                                ArgText(Get(args, "rabbitmq_config").value)))))
  {
    var loaded := AssembledConfig(env, ArgText(Get(args, "config").value), ArgText(Get(args, "rabbitmq_config").value));
    AssignThenRemove(args, "config", Val(Dict(loaded)), "rabbitmq_config");
    AssignDistinct(args, "config", Val(Dict(loaded)));
    RemoveDistinct(Assign(args, "config", Val(Dict(loaded))), "rabbitmq_config");
  }

  /** Without `message`, `main` goes on to call `func`: `func` and
      `rabbitmq_config` are deleted, `config` holds the configuration loaded
      from the two paths. */
  lemma NamespaceRewrite(env: Env, ns: Items<Arg>)
    requires DistinctKeys(ns)
    requires "message" !in Keys(ns) && "config" in Keys(ns) && "rabbitmq_config" in Keys(ns)
    ensures var r := Rewrite(env, ns);
      && r.Calling?
      && DistinctKeys(r.ns)
      && Keys(r.ns) == Keys(ns) - {"func", "rabbitmq_config"}
      && Get(r.ns, "config") == Some(Val(Dict(AssembledConfig(env, ArgText(Get(ns, "config").value),
                                                                ArgText(Get(ns, "rabbitmq_config").value)))))
  {
    MainPaths(env, ns);
    var withFunc := if "func" in Keys(ns) then ns else Assign(ns, "func", Func(StartWorkerCmd));
    var args := Remove(withFunc, "func");
    var func := Rewrite(env, ns).func;
    assert Get(args, "config") == Get(ns, "config");
    assert Get(args, "rabbitmq_config") == Get(ns, "rabbitmq_config");
    assert Rewrite(env, ns) == ConfigStage(env, func, args);
    ConfigRewrite(env, func, args);
    ConfigPathKeys(Keys(ns), Keys(args), Keys(ConfigStage(env, func, args).ns));
  }

  /** On the configuration path every attribute other than `func`, `config`
      and `rabbitmq_config` reaches `func` unchanged. */
  lemma OtherAttributesKept(env: Env, ns: Items<Arg>, k: string)
    requires DistinctKeys(ns)
    requires "message" !in Keys(ns) && "config" in Keys(ns) && "rabbitmq_config" in Keys(ns)
    requires k != "func" && k != "config" && k != "rabbitmq_config"
    ensures Get(Rewrite(env, ns).ns, k) == Get(ns, k)
  {
    MainPaths(env, ns);
    var withFunc := if "func" in Keys(ns) then ns else Assign(ns, "func", Func(StartWorkerCmd));
    var args := Remove(withFunc, "func");
    var func := Rewrite(env, ns).func;
    assert Get(args, k) == Get(ns, k);
    assert Rewrite(env, ns) == ConfigStage(env, func, args);
    var loaded := AssembledConfig(env, ArgText(Get(args, "config").value), ArgText(Get(args, "rabbitmq_config").value));
    GetAssign(args, "config", Val(Dict(loaded)), k);
  }

  /** Once the namespace is rewritten, `main` binds exactly that namespace
      to `func`. */
  lemma CallsWithRewritten(env: Env, ns: Items<Arg>)
    requires Rewrite(env, ns).Calling?
    ensures MainOutcome(env, ns) == CallOutcome(env, Rewrite(env, ns).func, Rewrite(env, ns).ns)
  {
  }

  /** A namespace holding only `config`, as a keyword mapping. */
  lemma ConfigOnlyArguments(bound: Items<Arg>)
    requires DistinctKeys(bound) && Keys(bound) == {"config"}
    ensures ToMap(bound) == map["config" := Get(bound, "config").value]
  {
    ToMapGet(bound, "config");
    var m := ToMap(bound);
    assert m.Keys == {"config"};
  }

  /** Every item of a namespace holding only `config` has that key. */
  lemma ConfigKeyOnly(bound: Items<Arg>)
    requires Keys(bound) == {"config"}
    ensures forall i :: 0 <= i < |bound| ==> '-' !in bound[i].0
  {
    forall i | 0 <= i < |bound| ensures bound[i].0 == "config" {
      assert bound[i].0 in Keys(bound);
    }
  }

  /** `start_worker` accepts a lone `config` keyword. */
  lemma BindConfigKeyword(v: Arg)
    ensures Util.Bind(CommandSignature(StartWorkerCmd), map["config" := v]) == Ok(map["config" := v])
  {
    var sig := CommandSignature(StartWorkerCmd);
    assert sig[0].name == "config";
    assert Util.ParamNames(sig) == {"config"};
  }

  /** A namespace holding only `config` binds to `start_worker(config)`. */
  lemma BindConfigOnly(bound: Items<Arg>)
    requires DistinctKeys(bound) && Keys(bound) == {"config"}
    ensures Util.BindAndCall(CommandSignature(StartWorkerCmd), bound) == Ok(map["config" := Get(bound, "config").value])
  {
    ConfigOnlyArguments(bound);
    ConfigKeyOnly(bound);
    Util.NormalizedWithoutDashes(bound);
    BindConfigKeyword(Get(bound, "config").value);
  }

  /** Run with no sub-command, or with `start`, `main` calls `start_worker`
      with the configuration loaded from the two paths and does nothing else. */
  lemma StartRunsWorker(env: Env, ns: Items<Arg>)
    requires DistinctKeys(ns)
    requires Keys(ns) - {"func"} == {"config", "rabbitmq_config"}
    requires "func" in Keys(ns) ==> Get(ns, "func") == Some(Func(StartWorkerCmd))
    ensures MainOutcome(env, ns) ==
      StartWorkerOutcome(env, Dict(AssembledConfig(env, ArgText(Get(ns, "config").value),
                                                        ArgText(Get(ns, "rabbitmq_config").value))))
  {
    StartKeys(Keys(ns));
    NamespaceRewrite(env, ns);
    FuncDefaultsToStartWorker(env, ns);
    var r := Rewrite(env, ns);
    CallsWithRewritten(env, ns);
    BindConfigOnly(r.ns);
  }

  /** The attributes argparse gives `main` without a sub-command or with
      `start`, as plain set algebra. */
  lemma StartKeys(parsed: set<string>)
    requires parsed - {"func"} == {"config", "rabbitmq_config"}
    ensures "config" in parsed && "rabbitmq_config" in parsed && "message" !in parsed
    ensures parsed - {"func", "rabbitmq_config"} == {"config"}
  {
    assert |"message"| == 7 && |"config"| == 6 && |"func"| == 4 && |"rabbitmq_config"| == 15;
    assert "config" in parsed - {"func"};
    assert "rabbitmq_config" in parsed - {"func"};
    assert "message" !in {"config", "rabbitmq_config"};
    assert "message" !in parsed - {"func"};
    forall x | x in parsed - {"func", "rabbitmq_config"} ensures x == "config" {
      assert x in parsed - {"func"};
    }
  }

  /** `parser['email']` is the `email` section with the defaults folded in,
      or KeyError when the file has no such section. */
  lemma EmailSection(ini: IniFile)
    ensures Subscript(Dict(IniLayer(ini)), "email") ==
      if "email" in ini.sections then Ok(Section(ini.defaults + ini.sections["email"]))
      else Err(Error(KeyError("email")))
  {
    assert "email" in IniLayer(ini) <==> "email" in ini.sections;
  }

  /** The `message` path on a namespace without `func`. */
  lemma MessageRewrite(env: Env, func: Arg, args: Items<Arg>)
    requires DistinctKeys(args)
    requires "message" in Keys(args)
    ensures var r := MessageStage(env, func, args);
      var ini := env.ini(ArgText(Get(args, "message").value));
      && r.Returned?
      && (r.raised.None? <==> "email" in ini.sections)
      && (r.raised.Some? ==> r.raised == Some(Error(KeyError("email"))))
      && ("email" in ini.sections ==>
            && Keys(r.ns) == Keys(args) - {"message"} + {"messagebody"}
            && Get(r.ns, "messagebody") == Some(Val(SectionItems(Section(ini.defaults + ini.sections["email"])))))
  {
    var ini := env.ini(ArgText(Get(args, "message").value));
    var parser := Dict(IniLayer(ini));
    var parsed := Assign(args, "messagebody", Val(parser));
    var r := MessageStage(env, func, args);
    AssignDistinct(args, "messagebody", Val(parser));
    EmailSection(ini);
    if "email" in ini.sections {
      var body := SectionItems(Section(ini.defaults + ini.sections["email"]));
      assert r == Returned(func, Remove(Assign(parsed, "messagebody", Val(body)), "message"), None);
      AssignThenRemove(parsed, "messagebody", Val(body), "message");
      MessagePathKeys(Keys(args), Keys(parsed), Keys(r.ns));
    } else {
      assert r == Returned(func, parsed, Some(Error(KeyError("email"))));
    }
  }

  /** The key set after assigning `messagebody` twice and deleting
      `message`, as plain set algebra. */
  lemma MessagePathKeys(args: set<string>, parsed: set<string>, result: set<string>)
    requires parsed == args + {"messagebody"}
    requires result == parsed + {"messagebody"} - {"message"}
    ensures result == args - {"message"} + {"messagebody"}
  {
  }

  /** With `message`, `main` returns before loading any configuration or
      calling `func`, so nothing reaches the broker: `messagebody` holds the
      `email` section of that file, defaults included, and `message` is gone;
      without such a section it raises KeyError. */
  lemma MessageReturnsEarly(env: Env, ns: Items<Arg>)
    requires DistinctKeys(ns)
    requires "message" in Keys(ns)
    ensures var r := Rewrite(env, ns);
      var ini := env.ini(ArgText(Get(ns, "message").value));
      && r.Returned?
      && MainOutcome(env, ns) == Outcome([], r.raised)
      && (r.raised.None? <==> "email" in ini.sections)
      && (r.raised.Some? ==> r.raised == Some(Error(KeyError("email"))))
      && ("email" in ini.sections ==>
            && Keys(r.ns) == Keys(ns) - {"func", "message"} + {"messagebody"}
            && Get(r.ns, "messagebody") == Some(Val(SectionItems(Section(ini.defaults + ini.sections["email"])))))
  {
    MainPaths(env, ns);
    var withFunc := if "func" in Keys(ns) then ns else Assign(ns, "func", Func(StartWorkerCmd));
    var args := Remove(withFunc, "func");
    var func := Rewrite(env, ns).func;
    assert Get(args, "message") == Get(ns, "message");
    assert Rewrite(env, ns) == MessageStage(env, func, args);
    MessageRewrite(env, func, args);
    var r := MessageStage(env, func, args);
    if r.raised.None? {
      FuncMessageKeys(Keys(ns), Keys(args), Keys(r.ns));
    }
  }

  /** The key set of the `message` path, from the parsed namespace's. */
  lemma FuncMessageKeys(parsed: set<string>, args: set<string>, result: set<string>)
    requires args == parsed - {"func"}
    requires result == args - {"message"} + {"messagebody"}
    ensures result == parsed - {"func", "message"} + {"messagebody"}
  {
  }

  /** The `send` sub-command always has a `message` attribute (its default
      is a path), so `main` picks `send` but returns before calling it:
      nothing is published. */
  lemma SendSubcommandPublishesNothing(env: Env, ns: Items<Arg>)
    requires DistinctKeys(ns)
    requires Get(ns, "func") == Some(Func(SendCmd)) && "message" in Keys(ns)
    ensures Rewrite(env, ns).func == Func(SendCmd)
    ensures Rewrite(env, ns).Returned? && MainOutcome(env, ns).events == []
  {
    FuncDefaultsToStartWorker(env, ns);
    MessageReturnsEarly(env, ns);
  }

  /** `main()`, from the parsed namespace on. */
  method RunMain(rt: Runtime, env: Env, args: Namespace<Command>) returns (raised: Option<Exc>)
    modifies rt, args
    ensures args.attrs == Rewrite(env, old(args.attrs)).ns
    ensures var o := MainOutcome(env, old(args.attrs));
      rt.events == old(rt.events) + o.events && raised == o.raised
  {
    ghost var parsed := args.attrs;
    if "func" !in Keys(args.attrs) {
      args.attrs := Assign(args.attrs, "func", Func(StartWorkerCmd));
    }
    var func := Get(args.attrs, "func").value;
    args.attrs := Remove(args.attrs, "func");
    if "message" in Keys(args.attrs) {
      assert Rewrite(env, parsed) == MessageStage(env, func, args.attrs);
      raised := ReadMessage(env, func, args);
      return;
    }
    ghost var stage := ConfigStage(env, func, args.attrs);
    assert Rewrite(env, parsed) == stage;
    raised := LoadConfigInto(env, func, args);
    if raised.Some? {
      return;
    }
    assert stage == Calling(func, args.attrs);
    raised := BindAndCall(rt, env, func, args.attrs);
  }

  /** The `message` branch of `main()`. */
  method ReadMessage(env: Env, func: Arg, args: Namespace<Command>) returns (raised: Option<Exc>)
    requires "message" in Keys(args.attrs)
    modifies args
    ensures var r := MessageStage(env, func, old(args.attrs));
      r.Returned? && args.attrs == r.ns && raised == r.raised
  {
    var parser := Dict(IniLayer(env.ini(ArgText(Get(args.attrs, "message").value))));
    args.attrs := Assign(args.attrs, "messagebody", Val(parser));
    var section := Subscript(parser, "email");
    if section.Err? {
      return Some(section.error);
    }
    args.attrs := Assign(args.attrs, "messagebody", Val(SectionItems(section.value)));
    args.attrs := Remove(args.attrs, "message");
    raised := None;
  }

  /** The configuration branch of `main()` up to the call: the exception
      raised, or None when `main` goes on to call `func`. */
  method LoadConfigInto(env: Env, func: Arg, args: Namespace<Command>) returns (raised: Option<Exc>)
    modifies args
    ensures var r := ConfigStage(env, func, old(args.attrs));
      && args.attrs == r.ns
      && (r.Returned? ==> raised == r.raised && raised.Some?)
      && (r.Calling? ==> raised.None?)
  {
    var config := Get(args.attrs, "config");
    if config.None? {
      return Some(Error(AttributeError("config")));
    }
    var rabbitmqConfig := Get(args.attrs, "rabbitmq_config");
    if rabbitmqConfig.None? {
      return Some(Error(AttributeError("rabbitmq_config")));
    }
    var loaded := LoadConfig(env, ArgText(config.value), ArgText(rabbitmqConfig.value));
    args.attrs := Assign(args.attrs, "config", Val(Dict(loaded.entries)));
    args.attrs := Remove(args.attrs, "rabbitmq_config");
    raised := None;
  }

  /** `bind_and_call(func, vars(args))` */
  method BindAndCall(rt: Runtime, env: Env, func: Arg, bound: Items<Arg>) returns (raised: Option<Exc>)
    modifies rt
    ensures var o := CallOutcome(env, func, bound);
      rt.events == old(rt.events) + o.events && raised == o.raised
  {
    if func.Val? {
      return Some(Error(TypeError("not callable")));
    }
    var binding := Util.BindAndCall(CommandSignature(func.cmd), bound);
    if binding.Err? {
      return Some(Error(BindingFailed(binding.error)));
    }
    var kw := binding.value;
    BoundCommandArguments(func.cmd, bound, kw);
    match func.cmd
    case StartWorkerCmd =>
      raised := StartWorker(rt, env, ArgValue(kw["config"]));
    case SendCmd =>
      var count := if "count" in kw then ArgValue(kw["count"]) else Int(1);
      raised := Send(rt, ArgValue(kw["config"]), ArgValue(kw["messagebody"]), count, env.serialize);
  }
}
