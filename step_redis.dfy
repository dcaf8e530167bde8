/** The redis step (`step/src/step/redis.rs`): the factory resolves the url
    once per task when the url is task shared, the runner otherwise
    resolves it on every run; a run renders the command and its arguments,
    sends them and maps the reply to JSON. The redis client library is the
    collaborator: opening a url, connecting and querying are given as the
    replies of a `Server`. */
module StepRedis {
  import opened Common
  import opened JsonValue

  /** `redis::Value`; `Int` holds an `i64`. */
  datatype Reply =
    | Nil
    | Int(i: int)
    | Data(bytes: seq<bv8>)
    | Bulk(items: seq<Reply>)
    | Status(status: string)
    | Okay

  /** The text conversions the step relies on: `String::from_utf8_lossy`,
      `from_str` (None when the text is not JSON) and `Value::to_string`. */
  datatype Codec = Codec(lossy: seq<bv8> -> string, parse: string -> Option<Json>, display: Json -> string)

  /** The redis side: the error of `Client::open` for a url, the error of
      `get_async_connection` on a url, and the reply to a command with its
      arguments sent to a url. */
  datatype Server = Server(
    open: string -> Option<Error>,
    connect: string -> Option<Error>,
    query: (string, string, seq<string>) -> Result<Reply, Error>)

  /** A redis client, known by the url it was opened on. */
  datatype Client = Client(url: string)

  /** The runner: a client opened at creation, or none. */
  datatype Runner = Runner(client: Option<Client>)

  // ---------------------------------------------------------------- reply

  /** The reply as JSON: data is parsed as JSON text, falling back to the
      text itself; a bulk reply becomes an empty array. */
  function ReplyToJson(reply: Reply, codec: Codec): (r: Json)
    ensures reply.Nil? ==> r == Null
    ensures reply.Int? ==> r == Json.Int(reply.i)
    ensures reply.Data? && codec.parse(codec.lossy(reply.bytes)).Some? ==> r == codec.parse(codec.lossy(reply.bytes)).value
    ensures reply.Data? && codec.parse(codec.lossy(reply.bytes)).None? ==> r == Str(codec.lossy(reply.bytes))
    ensures reply.Status? ==> r == Str(reply.status)
    ensures reply.Okay? ==> r == Str("OK")
    ensures reply.Bulk? ==> r == Arr([])
  {
    match reply
    case Nil => Null
    case Int(i) => Json.Int(i)
    case Data(bytes) =>
      var text := codec.lossy(bytes);
      if codec.parse(text).Some? then codec.parse(text).value else Str(text)
    case Status(s) => Str(s)
    case Okay => Str("OK")
    case Bulk(_) => Arr([])
  }

  /** Which replies a JSON value can come from: a value that is not what a
      data reply's text parsed to names its reply, and only data replies
      depend on the codec. */
  lemma ReplyOrigin(reply: Reply, codec: Codec, other: Codec)
    ensures var r := ReplyToJson(reply, codec);
      && (!reply.Data? ==> ReplyToJson(reply, other) == r)
      && (r.Null? ==> reply.Nil? || (reply.Data? && codec.parse(codec.lossy(reply.bytes)) == Some(Null)))
      && (r.Int? ==> reply == Reply.Int(r.i) || (reply.Data? && codec.parse(codec.lossy(reply.bytes)) == Some(r)))
      && (r.Arr? ==> reply.Bulk? || (reply.Data? && codec.parse(codec.lossy(reply.bytes)) == Some(r)))
      && (r.Str? ==> reply == Status(r.s) || (reply.Okay? && r.s == "OK") ||
                     (reply.Data? && (codec.parse(codec.lossy(reply.bytes)) == Some(r) ||
                                      (codec.parse(codec.lossy(reply.bytes)).None? && r.s == codec.lossy(reply.bytes)))))
  {
  }

  // ---------------------------------------------------------------- command

  /** The arguments sent after the command: the text of each element when
      the rendered `args` is an array, in order; none otherwise. */
  function CommandArgs(args: Json, display: Json -> string): (r: seq<string>)
    ensures !args.Arr? ==> r == []
    ensures args.Arr? ==> |r| == |args.items|
  {
    if args.Arr? then seq(|args.items|, k requires 0 <= k < |args.items| => display(args.items[k])) else []
  }

  /** The loop of `run0` that appends each element's text to the command. */
  method PushArgs(args: Json, display: Json -> string) returns (command: seq<string>)
    ensures command == CommandArgs(args, display)
    ensures args.Arr? ==> forall k | 0 <= k < |args.items| :: command[k] == display(args.items[k])
  {
    command := [];
    var argVec := AsArray(args);
    if argVec.Some? {
      var items := argVec.value;
      for i := 0 to |items|
        invariant |command| == i
        invariant forall k | 0 <= k < i :: command[k] == display(items[k])
      {
        command := command + [display(items[i])];
      }
    }
  }

  /** `run0` as a function of its collaborators: the command, the
      connection, the rendered arguments, the query and the reply, each
      step's error ending the run. */
  function Run0Spec(client: Client, config: Json, renderStr: string -> Result<string, Error>,
                    renderValue: Json -> Result<Json, Error>, server: Server, codec: Codec): Result<Json, Error>
  {
    var cmd := AsStr(Get(config, "cmd"));
    if cmd.None? then Result.Err(Error("010", "missing cmd"))
    else if renderStr(cmd.value).Err? then Result.Err(renderStr(cmd.value).error)
    else if server.connect(client.url).Some? then Result.Err(server.connect(client.url).value)
    else if renderValue(Get(config, "args")).Err? then Result.Err(renderValue(Get(config, "args")).error)
    else
      var reply := server.query(client.url, renderStr(cmd.value).value,
                                CommandArgs(renderValue(Get(config, "args")).value, codec.display));
      if reply.Err? then Result.Err(reply.error) else Result.Ok(ReplyToJson(reply.value, codec))
  }

  /** `run0`: renders the command, connects, renders the arguments, sends
      them and maps the reply. */
  method Run0(client: Client, config: Json, renderStr: string -> Result<string, Error>,
              renderValue: Json -> Result<Json, Error>, server: Server, codec: Codec)
    returns (r: Result<Json, Error>)
    ensures r == Run0Spec(client, config, renderStr, renderValue, server, codec)
    ensures AsStr(Get(config, "cmd")).None? ==> r == Result.Err(Error("010", "missing cmd"))
    ensures r.Ok? ==> server.connect(client.url).None?
  {
    var cmdText := AsStr(Get(config, "cmd"));
    if cmdText.None? {
      return Result.Err(Error("010", "missing cmd"));
    }
    var cmd := renderStr(cmdText.value);
    if cmd.Err? {
      return Result.Err(cmd.error);
    }
    var con := server.connect(client.url);
    if con.Some? {
      return Result.Err(con.value);
    }
    var argsOpt := renderValue(Get(config, "args"));
    if argsOpt.Err? {
      return Result.Err(argsOpt.error);
    }
    var command := PushArgs(argsOpt.value, codec.display);
    var redisValue := server.query(client.url, cmd.value, command);
    if redisValue.Err? {
      return Result.Err(redisValue.error);
    }
    return Result.Ok(ReplyToJson(redisValue.value, codec));
  }

  // ---------------------------------------------------------------- runner

  /** The url of the configuration, rendered: "010" when it is missing. */
  function RenderedUrl(config: Json, renderStr: string -> Result<string, Error>): (r: Result<string, Error>)
    ensures AsStr(Get(config, "url")).None? ==> r == Result.Err(Error("010", "missing url"))
    ensures AsStr(Get(config, "url")).Some? ==> r == renderStr(Get(config, "url").s)
  {
    match AsStr(Get(config, "url"))
    case None => Result.Err(Error("010", "missing url"))
    case Some(s) => renderStr(s)
  }

  /** `Factory::create`: a task-shared url is opened once, here; any other
      url is left for each run, and is not opened now. */
  function Create(config: Json, renderStr: string -> Result<string, Error>, isTaskShared: string -> bool,
                  server: Server): (r: Result<Runner, Error>)
    ensures RenderedUrl(config, renderStr).Err? ==> r == Result.Err(RenderedUrl(config, renderStr).error)
    ensures RenderedUrl(config, renderStr).Ok? ==>
      var url := RenderedUrl(config, renderStr).value;
      && (!isTaskShared(url) ==> r == Result.Ok(Runner(None)))
      && (isTaskShared(url) && server.open(url).Some? ==> r == Result.Err(server.open(url).value))
      && (isTaskShared(url) && server.open(url).None? ==> r == Result.Ok(Runner(Some(Client(url)))))
  {
    match RenderedUrl(config, renderStr)
    case Err(e) => Result.Err(e)
    case Ok(url) =>
      if !isTaskShared(url) then Result.Ok(Runner(None))
      else if server.open(url).Some? then Result.Err(server.open(url).value)
      else Result.Ok(Runner(Some(Client(url))))
  }

  /** `Runner::run` as a function: the opened client, or the url resolved
      and opened again for this run. */
  function RunSpec(runner: Runner, config: Json, renderStr: string -> Result<string, Error>,
                   renderValue: Json -> Result<Json, Error>, server: Server, codec: Codec): Result<Json, Error>
  {
    match runner.client
    case Some(c) => Run0Spec(c, config, renderStr, renderValue, server, codec)
    case None =>
      match RenderedUrl(config, renderStr)
      case Err(e) => Result.Err(e)
      case Ok(url) =>
        if server.open(url).Some? then Result.Err(server.open(url).value)
        else Run0Spec(Client(url), config, renderStr, renderValue, server, codec)
  }

  /** `Runner::run`. */
  method Run(runner: Runner, config: Json, renderStr: string -> Result<string, Error>,
             renderValue: Json -> Result<Json, Error>, server: Server, codec: Codec)
    returns (r: Result<Json, Error>)
    ensures r == RunSpec(runner, config, renderStr, renderValue, server, codec)
    ensures runner.client.None? && AsStr(Get(config, "url")).None? ==> r == Result.Err(Error("010", "missing url"))
  {
    if runner.client.Some? {
      r := Run0(runner.client.value, config, renderStr, renderValue, server, codec);
      return;
    }
    var url := RenderedUrl(config, renderStr);
    if url.Err? {
      return Result.Err(url.error);
    }
    var open := server.open(url.value);
    if open.Some? {
      return Result.Err(open.value);
    }
    r := Run0(Client(url.value), config, renderStr, renderValue, server, codec);
  }

  /** Opening the url once per task changes no result: when a run renders
      the url as the factory did, the runner holding the client answers as
      a runner that resolves the url itself. */
  lemma SharedClientAgrees(config: Json, createRender: string -> Result<string, Error>, isTaskShared: string -> bool,
                           renderStr: string -> Result<string, Error>, renderValue: Json -> Result<Json, Error>,
                           server: Server, codec: Codec)
    requires Create(config, createRender, isTaskShared, server).Ok?
    requires RenderedUrl(config, renderStr) == RenderedUrl(config, createRender)
    ensures RunSpec(Create(config, createRender, isTaskShared, server).value, config, renderStr, renderValue, server, codec)
            == RunSpec(Runner(None), config, renderStr, renderValue, server, codec)
  {
  }

  /** A runner without a client still answers "missing url" for a missing
      url, and fails on a url that cannot be opened before anything is
      sent; with a client the url is never looked at again. */
  lemma UnsharedChecksUrl(config: Json, renderStr: string -> Result<string, Error>,
                          renderValue: Json -> Result<Json, Error>, server: Server, codec: Codec, client: Client)
    ensures AsStr(Get(config, "url")).None? ==>
      RunSpec(Runner(None), config, renderStr, renderValue, server, codec) == Result.Err(Error("010", "missing url"))
    ensures RunSpec(Runner(Some(client)), config, renderStr, renderValue, server, codec)
            == Run0Spec(client, config, renderStr, renderValue, server, codec)
  {
  }
}
