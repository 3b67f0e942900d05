# emailworker, modelled in Dafny

emailworker is a small RabbitMQ consumer that sends e-mail. A producer puts a
JSON object such as `{"fromaddr": …, "toaddrs": …, "body": …, "subject": …}`
on a queue. The worker acknowledges each delivery, decodes it, adds the
configured SMTP host and calls `sendemail` with the object's keys as keyword
arguments. `sendemail` builds one message and sends it in one SMTP session.
A command line entry point assembles the configuration from an optional
Python file and a RabbitMQ INI file. It then starts the worker (`start`) or
sends a test message (`send`). The package also keeps an older, self-contained
variant in `emailworker/__init__.py`. That variant has a module-level
ConfigParser, a `--dryrun` flag, `publish` and `start` sub-commands, and a
worker that acknowledges only after a successful send.

The model has one module per source file:

| module | file | source |
|---|---|---|
| `Types`, `Dicts`, `Effects` | types.dfy, dicts.dfy, effects.dfy | shared data: Python values, dicts as ordered item lists, the trace of broker and SMTP effects |
| `Util` | util.dfy | emailworker/util.py |
| `ConfigModel` | config.dfy | emailworker/config.py |
| `Email` | email.dfy | emailworker/email.py |
| `WorkerModel` | worker.dfy | emailworker/worker.py |
| `Cli` | main.dfy | emailworker/main.py |
| `LegacyConfig`, `Legacy` | legacy_config.dfy, legacy.dfy | emailworker/__init__.py |

How the model represents the source:

- **Dicts.** A Python dict whose order matters is an item list
  (`Dicts.Items`): the `**data` of the binder, the argparse namespace and a
  decoded payload. Otherwise a dict is a `map`.
- **Effects.** Calls into pika and smtplib, and the legacy send log line, are
  events appended to `Effects.Runtime.events`.
- **Exceptions.** An operation's result is an `Outcome`: the events it
  produces and the exception it ends with, if any. Each method is proved to
  append exactly the events of a specification function and to raise
  exactly that function's exception.
- **Classes.** The `Config` dict subclass is a class whose methods update its
  fields. The `Worker` object is a class too. Only its constructor sets its
  six settings, and its methods append to the `Runtime` trace.
- **Legacy state.** The legacy module-level ConfigParser is the field of
  class `Legacy.App`.
- **Environment.** Everything from outside the process is an input. That is
  the file system, executing `config.py`, parsing INI files, JSON, what the
  broker delivers and how the SMTP server answers.

Behaviour of the code worth knowing:

- **Malformed deliveries stop the worker.** `ack_and_send_email` decodes the
  body before its `try` (emailworker/worker.py:42). A body that is not a JSON
  object therefore raises out of `start_consuming` and stops the worker after
  the acknowledgement. It is not caught and logged.
- **No default configuration.** `load_config` starts from an empty `Config`
  (emailworker/main.py:28). `DefaultConfig` is never applied there.
- **DEFAULT is always a key.** A ConfigParser seen as a mapping always has the
  key `DEFAULT`, so the loaded configuration always has it too.
- **`send` is never called from the command line.** The `--message` option of
  `send` has a default, so the namespace of `send` always has `message`.
  `main` then prints the message body and returns before binding
  (emailworker/main.py:132-138). `Cli.SendSubcommandPublishesNothing` states
  this. `Cli.Send` models `send` itself.

## Model

| member | source | states |
|---|---|---|
| Dicts.Get | emailworker/main.py:125 | a lookup finds a value exactly when the key is present, and the value found is one stored under that key |
| Dicts.Assign | emailworker/main.py:126 | setting an attribute replaces the value in place, or appends the pair for a new key; the keys become the old keys plus the new one |
| Dicts.Remove | emailworker/main.py:129 | deleting an attribute removes exactly that key and leaves every other lookup unchanged |
| Dicts.ToMap | emailworker/util.py:18-19 | the dict built from the items has exactly the items' keys |
| Dicts.ToMapLastWins | emailworker/util.py:18-19 | in a dict built from items, a key's value is the one given last for it |
| Dicts.ToMapValueFrom | emailworker/util.py:18-19 | every value in the built dict comes from an item with that key |
| Dicts.ToMapGet | emailworker/util.py:18-19 | with distinct keys, lookup in the item list and in the built dict agree |
| Dicts.ToMapAssign | emailworker/worker.py:43 | setting a key in the item list sets it in the built dict and changes nothing else |
| Dicts.ToMapRemove | emailworker/main.py:144 | deleting a key removes it from the built dict and changes nothing else |
| Dicts.GetAssign | emailworker/main.py:126 | after setting a key, reading it gives the new value and reading any other key gives the old one |
| Dicts.AssignThenRemove | emailworker/main.py:143-144 | setting one attribute then deleting another: the new key set, the new value, and every other attribute unchanged |
| Dicts.AssignDistinct | emailworker/main.py:126 | setting an attribute keeps the names unique |
| Dicts.RemoveDistinct | emailworker/main.py:129 | deleting an attribute keeps the names unique |
| Dicts.Namespace.constructor | emailworker/main.py:123 | a namespace holds exactly the attributes it was given |
| Util.NormalizeKey | emailworker/util.py:18 | `key.replace('-', '_')`: same length, every dash becomes an underscore, every other character is kept |
| Util.NormalizeKeyNoDash | emailworker/util.py:18 | a normalised key has no dash |
| Util.NormalizeKeyIdempotent | emailworker/util.py:18 | normalising twice is normalising once |
| Util.NormalizeKeyUnchanged | emailworker/util.py:18 | a key without dashes is left as it is |
| Util.NormalizeKeyExact | emailworker/util.py:18 | for a name with neither dash nor underscore, only the name itself normalises to it |
| Util.RenameKeys | emailworker/util.py:18-19 | every item keeps its value and position and gets its key normalised |
| Util.NormalizedArguments | emailworker/util.py:18-19 | the keyword dict has no key with a dash |
| Util.NormalizedKeys | emailworker/util.py:18-19 | a key is in the keyword dict exactly when some given key normalises to it |
| Util.NormalizedLastWins | emailworker/util.py:18-19 | when several keys normalise to the same name, the last one's value is kept |
| Util.NormalizedValueFrom | emailworker/util.py:18-19 | every keyword value comes from a given item whose key normalises to that keyword |
| Util.NormalizedWithoutDashes | emailworker/util.py:18-19 | without dashes, normalising is just building the dict |
| Util.NormalizeAssign | emailworker/worker.py:43 | setting a plain key before normalising is the same as setting it after normalising |
| Util.FirstMissing | emailworker/util.py:20 | no name is reported exactly when every required parameter is given; a reported name is the first required parameter, in declaration order, that was not given |
| Util.Bind | emailworker/util.py:20 | `Signature.bind(**args)` succeeds exactly when every required parameter is given and no unknown keyword is; it then binds the arguments unchanged. A missing required parameter is reported before any unknown keyword, and it is the first one missing in declaration order. Otherwise the failure lists the unknown keywords |
| Util.BindAndCall | emailworker/util.py:7-21 | a successful call receives exactly the normalised keyword dict |
| Util.BindAndCallSucceedsIff | emailworker/util.py:7-21 | the call succeeds exactly when the normalised keywords are bindable |
| Util.ExampleSignature | emailworker/util.py:20 | the example signature `f(a, b, c=None)` names exactly a, b and c |
| Util.BindAllRequired | emailworker/util.py:7-21 | `f(a, b, c=None)` called with a and b binds exactly a and b |
| Util.BindMissingB | emailworker/util.py:7-21 | leaving out b reports b as missing |
| Util.BindUnknownD | emailworker/util.py:7-21 | an unknown keyword d is reported as unexpected |
| Util.BindExtraKey | emailworker/util.py:20 | binding a, b and the unknown d reports exactly {d} |
| Util.BindDashedKey | emailworker/util.py:18-21 | a dashed key `a-b` binds to parameter `a_b` |
| Util.StripKeys | emailworker/util.py:23-24 | the result has no listed key and keeps every other entry with its value |
| Effects.AckedTagsAppend | emailworker/worker.py:40 | the acknowledgements of two traces in a row are those of the first, then those of the second |
| Effects.NoAckedTags | emailworker/worker.py:40 | a trace without basic_ack acknowledges nothing |
| Effects.Runtime.Emit | emailworker/worker.py:40 | each effect is appended to the trace |
| Email.SendEmailSignature | emailworker/email.py:4 | of the five parameters exactly `subject` is optional |
| Email.SendEmailParameters | emailworker/email.py:4 | `sendemail` accepts exactly the keywords host, fromaddr, toaddrs, body and subject |
| Email.BuildMessage | emailworker/email.py:24-28 | the message is built exactly when the body is text; otherwise `set_content` raises a KeyError naming the body's type. From, To and the content are the arguments as given; a subject of None becomes the empty string, any other subject is kept |
| Email.OmittedSubjectIsEmpty | emailworker/email.py:27 | leaving out the subject gives an empty Subject header |
| Email.NonTextBodyRejected | emailworker/email.py:28 | an integer body and a None body raise a KeyError naming `builtins.int` and `builtins.NoneType` |
| Email.BoundSendEmailArguments | emailworker/email.py:4 | a successful binding to `sendemail` supplies host, fromaddr, toaddrs and body |
| Email.SmtpSession | emailworker/email.py:29-31 | the session is a prefix of connect, send, quit that stops at the first step that raises; it raises that step's exception; it succeeds exactly when no step fails, and is then all three steps |
| Email.SessionOrder | emailworker/email.py:29-31 | a session opens exactly one connection, to the given host, first; a clean session is connect, send this message, quit |
| Email.SendEmailOutcome | emailworker/email.py:24-31 | a non-text body raises the KeyError before any SMTP effect. A text body opens a session to the given host first and raises the session's first failure. The send succeeds exactly when the body is text and no SMTP step fails |
| Email.SendsBuiltMessage | emailworker/email.py:24-31 | with text and a healthy server, `sendemail` connects, sends the message with the given headers and quits |
| Email.SendEmail | emailworker/email.py:4-31 | `sendemail` appends exactly the events of `SendEmailOutcome` and raises exactly its exception |
| ConfigModel.UpperAttributes | emailworker/config.py:27-29 | the selected attributes are exactly the upper-case names of the object, with their values |
| ConfigModel.FromObjectWritesUpper | emailworker/config.py:27-29 | every upper-case attribute of the object is stored with the object's value |
| ConfigModel.FromObjectKeepsOthers | emailworker/config.py:27-29 | no entry is removed, only upper-case attributes are added, and entries the object does not override keep their values |
| ConfigModel.FromObjectIdempotent | emailworker/config.py:21-29 | applying the same object twice is applying it once |
| ConfigModel.UncasedIsNotUpper | emailworker/config.py:28 | a name without upper-case letters is not upper-case (so `_1` is skipped) |
| ConfigModel.LowerIsNotUpper | emailworker/config.py:28 | a name with a lower-case letter is not upper-case |
| ConfigModel.UpperNameExamples | emailworker/config.py:28-38 | SMTP_HOST, RABBITMQ_HOST and QUEUE are upper-case names; `__file__`, `Queue` and `_1` are not |
| ConfigModel.ModuleNamespace | emailworker/config.py:14-17 | every binding the executed file leaves is an attribute of the module, with its value |
| ConfigModel.ModuleAttributesNotUpper | emailworker/config.py:14-15 | the attributes a fresh module brings (`__file__` and the like) are never upper-case |
| ConfigModel.PyfileTakesScriptOnly | emailworker/config.py:14-18 | `from_pyfile` picks up exactly the upper-case bindings of the executed file |
| ConfigModel.DefaultConfigValues | emailworker/config.py:32-38 | loading `DefaultConfig` into an empty config gives RABBITMQ_HOST and SMTP_HOST `localhost` and QUEUE `emails`, and nothing else |
| ConfigModel.Config.constructor | emailworker/main.py:28 | a new config is empty |
| ConfigModel.Config.FromObject | emailworker/config.py:21-29 | the loop over `dir(obj)` leaves the entries equal to the old ones with the object's upper-case attributes stored over them |
| ConfigModel.Config.FromPyfile | emailworker/config.py:7-19 | returns True and stores the upper-case attributes of the module the file defines |
| ConfigModel.Config.Update | emailworker/main.py:38 | `update` stores every entry of the layer over the old ones |
| WorkerModel.HostOverride | emailworker/worker.py:42-43 | setting `host` on the decoded payload overrides any `host` it carried and keeps every other key, before and after key normalisation |
| WorkerModel.SendStep | emailworker/worker.py:45-52 | once bound, the send's failures are swallowed, including the KeyError for a non-text body. Only a KeyboardInterrupt from the SMTP server is re-raised |
| WorkerModel.SendAcksNothing | emailworker/worker.py:46 | `sendemail` acknowledges nothing, whatever its body |
| WorkerModel.SendStepConnects | emailworker/worker.py:45-50 | with a text body, the SMTP connection comes right after the acknowledgement and goes to the bound host; with any other body the step is the acknowledgement alone |
| WorkerModel.AckAndSendEmailOutcome | emailworker/worker.py:34-52 | the callback first acknowledges the delivery; it raises only KeyboardInterrupt or, exactly when the body does not decode to a JSON object, the decoding error |
| WorkerModel.AcksExactlyOnce | emailworker/worker.py:40 | every delivery is acknowledged exactly once, with its own tag, whatever happens next |
| WorkerModel.SessionAcksNothing | emailworker/email.py:29-31 | an SMTP session acknowledges nothing |
| WorkerModel.SendsToSmtpHost | emailworker/worker.py:43-46 | after a successful binding with a text body, the SMTP connection goes to the worker's `smtp_host`, whatever `host` the payload held. A non-text body leaves the acknowledgement as the only effect |
| WorkerModel.BindFailureIsDropped | emailworker/worker.py:45-50 | a payload that does not bind to `sendemail` is acknowledged and dropped without raising |
| WorkerModel.BindSuccessSends | emailworker/worker.py:45-46 | a payload that binds supplies every required argument and leads to the send step |
| WorkerModel.SendFailureIsDropped | emailworker/worker.py:45-50 | the callback completes exactly when the body is not text or the SMTP server did not raise KeyboardInterrupt |
| WorkerModel.Tags | emailworker/worker.py:40 | the tags of a delivery sequence, in order |
| WorkerModel.ConsumeEnds | emailworker/worker.py:83-87 | the consumer loop either raises the decoding error of a malformed body or ends with the channel closed |
| WorkerModel.ConsumeAcks | emailworker/worker.py:40-87 | the tags acknowledged from one delivery on are that delivery's tag, then, if its callback completed, the tags acknowledged after it |
| WorkerModel.AckedTagsArePrefix | emailworker/worker.py:40-84 | deliveries are acknowledged in order, each at most once: the acknowledged tags are a prefix of the delivered tags, and a delivery that arrives is always acknowledged |
| WorkerModel.AllDeliveriesAcked | emailworker/worker.py:40-84 | when every body decodes and nobody interrupts, every delivery is acknowledged in order and the loop ends without raising |
| WorkerModel.MalformedBodyStops | emailworker/worker.py:40-42 | a body that is not a JSON object is acknowledged, then stops the consumer with the decoding error |
| WorkerModel.StartOutcome | emailworker/worker.py:54-87 | `start` first connects with the host, virtual host and credentials, declares the queue durable, binds it to the exchange of the same name and subscribes; it then raises only a decoding error, or ends by closing the channel |
| WorkerModel.ScenarioBinds | emailworker/worker.py:42-46 | a payload with fromaddr, toaddrs, body and subject binds to `sendemail` with the worker's host added |
| WorkerModel.EndToEndDelivery | emailworker/worker.py:34-52 | that payload, with a healthy server, gives ack, connect to smtp_host, send the built message, quit |
| WorkerModel.ScenarioSend | emailworker/email.py:24-31 | the bound call sends a message whose From, To, Subject and content come from the payload |
| WorkerModel.MissingBodyFailsToBind | emailworker/worker.py:46 | a payload without body fails to bind, naming `body` as missing |
| WorkerModel.MissingBodyIsDropped | emailworker/worker.py:40-50 | such a payload is acknowledged and dropped, nothing is sent and nothing is raised |
| WorkerModel.Worker.constructor | emailworker/worker.py:13-32 | the worker keeps the six settings it was given |
| WorkerModel.Worker.AckAndSendEmail | emailworker/worker.py:34-52 | the callback appends exactly the events of `AckAndSendEmailOutcome` and raises its exception |
| WorkerModel.Worker.BindAndSend | emailworker/worker.py:43-52 | everything after the acknowledgement: setting the host, binding and sending, as the specification function says |
| WorkerModel.Worker.SendBound | emailworker/worker.py:45-52 | calling `sendemail` with bound arguments inside the try: the send's events, and only KeyboardInterrupt escapes |
| WorkerModel.Worker.Start | emailworker/worker.py:54-87 | `start` appends exactly the events of `StartOutcome` for the worker's settings |
| WorkerModel.Worker.StartConsuming | emailworker/worker.py:83-87 | the consumer loop appends exactly the events of the consumer specification from the first delivery |
| WorkerModel.Worker.ConsumeTurn | emailworker/worker.py:83-87 | one turn: either the loop stops with the whole remaining outcome, or the turn's events followed by the rest make up the remaining outcome |
| Cli.IniLayer | emailworker/main.py:36-38 | an INI file as a mapping has the key DEFAULT plus one key per section, each a section |
| Cli.LoadConfig | emailworker/main.py:16-40 | `load_config` returns a new Config holding the assembled entries |
| Cli.AssembledKeys | emailworker/main.py:28-38 | a key is in the loaded configuration exactly when it is an upper-case binding of an existing Python file, DEFAULT, or a section of the INI file |
| Cli.MissingPyfileSkipped | emailworker/main.py:30-31 | without the Python file, the configuration is the INI file alone |
| Cli.LaterLayerWins | emailworker/main.py:30-38 | an INI section overrides a Python binding of the same name; a Python binding with no INI section of that name is kept |
| Cli.Subscript | emailworker/main.py:50-55 | indexing fails with KeyError on a mapping without the key, and with TypeError on a value that is not a mapping |
| Cli.WorkerSettings | emailworker/main.py:49-56 | the worker can be built exactly when all six settings can be looked up; the first failing lookup is the one reported |
| Cli.StartWorkerProjection | emailworker/main.py:49-56 | each constructor argument of the worker is the configuration value its lookup names |
| Cli.StartWorker | emailworker/main.py:42-57 | `start_worker` builds the worker from the configuration and starts it, or raises the lookup error |
| Cli.Publishes | emailworker/main.py:76-81 | n publications, all of the same body with the exchange as exchange and routing key |
| Cli.SendPublishesCount | emailworker/main.py:59-81 | a successful `send` connects once, then publishes the serialized body `count` times, none when count is not positive |
| Cli.Send | emailworker/main.py:59-81 | `send` appends exactly the events of its specification and raises its exception |
| Cli.SectionItems | emailworker/main.py:135 | the dict of a section's items has the section's options with their text values |
| Cli.BoundCommandArguments | emailworker/main.py:42-59 | a successful binding supplies `config`, and for `send` also `messagebody` |
| Cli.CountDefaultsToOne | emailworker/main.py:114-120 | `send` without `count` publishes once |
| Cli.MessageStage | emailworker/main.py:132-138 | the `message` path always returns without calling the function it picked |
| Cli.ConfigStage | emailworker/main.py:143-145 | the configuration path keeps the function it picked |
| Cli.FuncDefaultsToStartWorker | emailworker/main.py:125-127 | without a sub-command the function is `start_worker`; a chosen sub-command keeps its function |
| Cli.MainPaths | emailworker/main.py:125-145 | after `func` is deleted the other attributes are unchanged; a namespace with `message` takes the message path, any other the configuration path |
| Cli.ConfigRewrite | emailworker/main.py:143-144 | the configuration path replaces `config` by the loaded configuration and deletes `rabbitmq_config` |
| Cli.NamespaceRewrite | emailworker/main.py:125-145 | the function is called with the namespace less `func` and `rabbitmq_config`, where `config` is the loaded configuration |
| Cli.OtherAttributesKept | emailworker/main.py:140-145 | every other attribute reaches the function unchanged |
| Cli.BindConfigOnly | emailworker/main.py:143-145 | a namespace holding only `config` binds to `start_worker` |
| Cli.StartRunsWorker | emailworker/main.py:123-145 | `emailworker [start]` with the two path options starts the worker on the loaded configuration |
| Cli.EmailSection | emailworker/main.py:135 | the `email` section of the message file is found, with the defaults under its own options, or KeyError |
| Cli.MessageRewrite | emailworker/main.py:132-138 | the message path raises KeyError exactly when the message file has no `email` section; otherwise `messagebody` holds that section's items and `message` is deleted |
| Cli.MessageReturnsEarly | emailworker/main.py:125-138 | with `message`, `main` has no effect but that error, and leaves the namespace less `func` and `message` plus `messagebody` |
| Cli.SendSubcommandPublishesNothing | emailworker/main.py:106-138 | the `send` sub-command keeps its function yet publishes nothing, because `message` always has a default |
| Cli.RunMain | emailworker/main.py:123-145 | `main` leaves the namespace as the rewrite says and appends exactly the events of the call |
| Cli.ReadMessage | emailworker/main.py:132-138 | the message path updates the namespace as `MessageStage` says |
| Cli.LoadConfigInto | emailworker/main.py:143-144 | the configuration path updates the namespace as `ConfigStage` says, raising only when it returns early |
| Cli.BindAndCall | emailworker/main.py:145 | binding and calling appends exactly the events of the call's specification |
| LegacyConfig.ReadIntoOption | emailworker/__init__.py:22 | reading a file: a section or option is present afterwards exactly when it was before or the file has it; the file's value wins, and the old value stays otherwise |
| LegacyConfig.SetupPrecedence | emailworker/__init__.py:22 | after `setup()` an option is the one `instance/config.cfg` sets, else the one `default.cfg` sets, else the one already there |
| LegacyConfig.MissingFilesSkipped | emailworker/__init__.py:22 | files that cannot be opened leave the parser unchanged |
| LegacyConfig.Setting | emailworker/__init__.py:38-52 | an option of `emailworker` is found exactly when the section exists and the section or DEFAULT has it; the section's own value comes first; otherwise KeyError names the missing section or option |
| LegacyConfig.SetOption | emailworker/__init__.py:115 | storing an option makes reading it return the stored text and leaves every other option and section unchanged |
| LegacyConfig.AsciiLower | emailworker/__init__.py:38 | lower-casing keeps the length and lowers each letter |
| LegacyConfig.LowerUnchanged | emailworker/__init__.py:38 | text without upper-case letters is its own lower case |
| LegacyConfig.ParseBoolean | emailworker/__init__.py:38 | `getboolean` accepts exactly 1/yes/true/on and 0/no/false/off in any case, true exactly for the first four, else ValueError |
| LegacyConfig.Dryrun | emailworker/__init__.py:38 | reading `dryrun`: KeyError without the section, None without the option, else the option read as a boolean |
| LegacyConfig.DryrunRoundTrip | emailworker/__init__.py:115 | the `yes` or `no` that `main` stores reads back as the flag |
| LegacyConfig.ParseBooleanIgnoresCase | emailworker/__init__.py:38 | YES and Off are read as true and false, `maybe` is an error |
| Legacy.LegacyBind | emailworker/__init__.py:14-16 | the legacy binder passes the data on unchanged, without renaming dashes |
| Legacy.DashedKeyRejected | emailworker/__init__.py:14-16 | a dashed key never binds to a parameter without dashes |
| Legacy.AgreesWithoutDashes | emailworker/__init__.py:14-16 | without dashes, the legacy binder and the one of util.py agree |
| Legacy.BoundMessageArguments | emailworker/__init__.py:34 | a successful binding to `sendemail` gives exactly fromaddr, toaddrs and msg |
| Legacy.SendmailSession | emailworker/__init__.py:39-41 | the session is a prefix of connect, sendmail, quit that stops at the first step that raises; it raises that step's exception, and a clean session is all three |
| Legacy.DryrunGate | emailworker/__init__.py:34-43 | with dryrun on, only the log line is produced; with dryrun off, the session connects to `smtp_host`; a send that completes ends with the log line |
| Legacy.SendsWhenNotDryrun | emailworker/__init__.py:38-43 | with dryrun off and a healthy server: connect to smtp_host, sendmail, quit, then the log line |
| Legacy.SendAcksNothing | emailworker/__init__.py:34-43 | sending acknowledges nothing |
| Legacy.PublishShape | emailworker/__init__.py:45-61 | `publish` completes exactly when rabbitmq_host and queue_name are set, else KeyError; it then connects, publishes the JSON of {fromaddr, toaddrs, msg} to the default exchange with queue_name as routing key, and closes |
| Legacy.PublishedPayloadBinds | emailworker/__init__.py:53-68 | the published object binds back to `sendemail` with the same three arguments |
| Legacy.AcksOnlyAfterSuccess | emailworker/__init__.py:63-70 | a delivery is acknowledged, last and exactly once, exactly when the send completed; otherwise it is not acknowledged |
| Legacy.AckPolicies | emailworker/__init__.py:68-69 | the current worker always acknowledges first; the legacy worker acknowledges exactly when it completes, and never for a malformed body |
| Legacy.ConsumeAcks | emailworker/__init__.py:69-88 | from one delivery on, the tags acknowledged are its tag then the rest when it completed, and none when it failed |
| Legacy.AckedTagsArePrefix | emailworker/__init__.py:69-86 | the acknowledged tags are a prefix of the delivered tags |
| Legacy.FailureStopsUnacked | emailworker/__init__.py:68-86 | a delivery whose handling fails stops the consumer with nothing acknowledged for it |
| Legacy.MalformedBodyUnacked | emailworker/__init__.py:68 | a body that is not a JSON object stops the consumer before any acknowledgement |
| Legacy.StartDeclaresDurable | emailworker/__init__.py:72-89 | `start` connects to rabbitmq_host, declares queue_name durable, subscribes to it, then runs the consumer loop |
| Legacy.ConsumeEnds | emailworker/__init__.py:85-88 | the legacy loop either raises an exception other than the interrupt or ends with the channel closed |
| Legacy.SubcommandRequired | emailworker/__init__.py:110-111 | without a sub-command `main` fails with a usage error before reading the configuration |
| Legacy.DryrunStored | emailworker/__init__.py:113-115 | `main` stores the flag as yes or no, `getboolean` reads it back, and every other option is as the files set it |
| Legacy.DryrunFlagSkipsSmtp | emailworker/__init__.py:115 | with `--dryrun`, sending only logs |
| Legacy.ArgumentsForwarded | emailworker/__init__.py:116-121 | the function receives the namespace less `dryrun` and `func`, every other attribute unchanged |
| Legacy.StartCommand | emailworker/__init__.py:105-121 | `emailworker start` runs the consumer on the configuration `main` prepared |
| Legacy.PublishCommand | emailworker/__init__.py:99-121 | `emailworker publish F T M` publishes F, T and M with the configuration `main` prepared |
| Legacy.PublishArguments | emailworker/__init__.py:121 | fromaddr, toaddrs and msg bind to `publish` unchanged |
| Legacy.App.constructor | emailworker/__init__.py:12 | the module-level parser starts empty |
| Legacy.App.Setup | emailworker/__init__.py:18-22 | `setup()` reads the two configuration files in order into the parser |
| Legacy.App.SendEmail | emailworker/__init__.py:34-43 | `sendemail` appends exactly the events of its specification |
| Legacy.App.Sendmail | emailworker/__init__.py:39-41 | the SMTP session appends exactly the session's events |
| Legacy.App.Publish | emailworker/__init__.py:45-61 | `publish` appends exactly the events of its specification |
| Legacy.App.Worker | emailworker/__init__.py:63-70 | the callback appends exactly the events of `WorkerOutcome` |
| Legacy.App.Start | emailworker/__init__.py:72-89 | `start` appends exactly the events of `StartOutcome` |
| Legacy.App.StartConsuming | emailworker/__init__.py:85-88 | the consumer loop appends exactly the events of the consumer specification |
| Legacy.App.ConsumeTurn | emailworker/__init__.py:85-88 | one turn: the loop stops with the whole remaining outcome, or the turn's events followed by the rest make it up |
| Legacy.App.RunMain | emailworker/__init__.py:91-121 | `main` leaves the parser and the namespace as `MainStage` says and appends exactly the events of the call |
| Legacy.App.Call | emailworker/__init__.py:121 | binding and calling appends exactly the events of `CallOutcome` |

## Left out

- JSON: `json.dumps` and `json.loads` are parameters. A body that is not a JSON object counts as the decoding error. For both workers this includes valid JSON that is not an object. Python reports that as a TypeError: in the current worker from `kwargs['host'] = …` (emailworker/worker.py:43), which is also outside the `try`.
- pika: broker connections, channels and publications are trace events. A broker that refuses a connection or fails mid-call is not modelled.
- smtplib: SMTP failures come from the `SmtpServer` parameter, one optional exception per step.
- Logging: `logging`, `dictConfig` (main.py:33-34), and `fileConfig` with its `'loggers' in config` test (__init__.py:23-24) are not modelled. The one log line of the legacy `sendemail` is an event, because it marks a completed send.
- argparse: parsing is not modelled; the parsed namespace is the input. `print`, `sys.exit` and the exit status are not modelled either.
- `parser.error` is a usage error. Its message and exit status are not modelled.
- `from_pyfile` does not execute `config.py`. Executing the file is given as the bindings it leaves. A file that exists but fails to execute is not modelled.
- ConfigParser file parsing: a file is given already parsed, as an `IniFile`. Syntax errors and interpolation are not modelled.
- `str.isupper` and `str.lower` cover ASCII letters only.
- Paths and non-values: a path that is not text is turned into text by a fixed rule. A function object used as a plain value reads as None.
- Util.Bind: an unknown keyword failure carries every unknown keyword, where `Signature.bind` names only the first one in argument order. Which keywords are unknown, and that the failure comes after the missing-parameter check, is modelled.
- Message headers: the e-mail library's header validation and encoding are not modelled.
- The consumer loop is a finite sequence of deliveries ended by an operator interrupt. A loop that runs forever, and redelivery of unacknowledged messages, are not modelled.
- `dir()` order: `dir(obj)` is sorted, but the model stores attributes as a map. Order cannot change the result, because each key is written once.
