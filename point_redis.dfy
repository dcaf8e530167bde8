/** The redis point of the point revision (`point/src/point/redis.rs`): the
    url and the command are rendered from the point's configuration, the
    arguments are the configured array as it stands, and the reply is
    mapped to JSON as the redis step maps it. */
module PointRedis {
  import opened Common
  import opened JsonValue
  import opened StepRedis

  /** The point runner; it holds nothing. */
  datatype RedisPoint = RedisPoint

  /** `create`: the configuration is not looked at and creation never
      fails. */
  function Create(config: Json): (r: Result<RedisPoint, Error>)
    ensures r == Result.Ok(RedisPoint)
  {
    Result.Ok(RedisPoint)
  }

  /** `run` as a function of the point argument (`config_rendered` and
      `config`) and the redis side. */
  function RunSpec(configRendered: seq<string> -> Option<string>, config: Json, server: Server, codec: Codec): Result<Json, Error>
  {
    var url := configRendered(["url"]);
    var cmd := configRendered(["cmd"]);
    if url.None? then Result.Err(Error("010", "missing url"))
    else if cmd.None? then Result.Err(Error("012", "missing cmd"))
    else if server.open(url.value).Some? then Result.Err(server.open(url.value).value)
    else if server.connect(url.value).Some? then Result.Err(server.connect(url.value).value)
    else
      var reply := server.query(url.value, cmd.value, CommandArgs(Get(config, "args"), codec.display));
      if reply.Err? then Result.Err(reply.error) else Result.Ok(ReplyToJson(reply.value, codec))
  }

  /** `run`: url, then command, then the client, the connection, the
      configured arguments in order, the query and the reply. */
  method Run(configRendered: seq<string> -> Option<string>, config: Json, server: Server, codec: Codec)
    returns (r: Result<Json, Error>)
    ensures r == RunSpec(configRendered, config, server, codec)
    ensures configRendered(["url"]).None? ==> r == Result.Err(Error("010", "missing url"))
    ensures configRendered(["url"]).Some? && configRendered(["cmd"]).None? ==> r == Result.Err(Error("012", "missing cmd"))
  {
    var url := configRendered(["url"]);
    if url.None? {
      return Result.Err(Error("010", "missing url"));
    }
    var cmd := configRendered(["cmd"]);
    if cmd.None? {
      return Result.Err(Error("012", "missing cmd"));
    }
    var open := server.open(url.value);
    if open.Some? {
      return Result.Err(open.value);
    }
    var con := server.connect(url.value);
    if con.Some? {
      return Result.Err(con.value);
    }
    var command := PushArgs(Get(config, "args"), codec.display);
    var redisValue := server.query(url.value, cmd.value, command);
    if redisValue.Err? {
      return Result.Err(redisValue.error);
    }
    return Result.Ok(ReplyToJson(redisValue.value, codec));
  }

  /** The point and the step agree: for a client on the point's url, a
      step whose rendering leaves the command as the point rendered it and
      the arguments as configured answers as the point does. */
  lemma AgreesWithStep(configRendered: seq<string> -> Option<string>, config: Json, renderStr: string -> Result<string, Error>,
                       renderValue: Json -> Result<Json, Error>, server: Server, codec: Codec)
    requires configRendered(["url"]).Some? && server.open(configRendered(["url"]).value).None?
    requires Get(config, "cmd").Str? && configRendered(["cmd"]).Some?
    requires renderStr(Get(config, "cmd").s) == Result.Ok(configRendered(["cmd"]).value)
    requires renderValue(Get(config, "args")) == Result.Ok(Get(config, "args"))
    ensures RunSpec(configRendered, config, server, codec)
            == Run0Spec(Client(configRendered(["url"]).value), config, renderStr, renderValue, server, codec)
  {
  }
}
