/** The command-line configuration (`cmd/src/conf.rs`): lookups into the
    configuration document with their defaults. */
module CmdConf {
  import opened Common
  import opened JsonValue

  const DefaultLogPath: string := "/data/chord/job/output/cmd.log"

  /** `{"csv": {"dir": "/data/chord/job/output"}}`. */
  const ReportDefault: Json := Obj(map["csv" := Obj(map["dir" := Str("/data/chord/job/output")])])

  datatype Config = Config(conf: Json, reportDefault: Json)

  /** `Config::new`: the document as given, beside the default report. */
  function NewConfig(conf: Json): (c: Config)
    ensures c.conf == conf && c.reportDefault == ReportDefault
  {
    Config(conf, ReportDefault)
  }

  /** `log_path`: `log.path` when it is a string, the default path
      otherwise. */
  function LogPath(c: Config): (p: string)
    ensures Get(Get(c.conf, "log"), "path").Str? ==> p == Get(Get(c.conf, "log"), "path").s
    ensures !Get(Get(c.conf, "log"), "path").Str? ==> p == DefaultLogPath
  {
    match AsStr(Get(Get(c.conf, "log"), "path"))
    case Some(s) => s
    case None => DefaultLogPath
  }

  /** No key is listed twice. */
  predicate Distinct(keys: seq<string>)
  {
    forall i, j | 0 <= i < j < |keys| :: keys[i] != keys[j]
  }

  /** The string-valued entries of `fields` met along `keys`, as pairs, in
      the order of `keys`. */
  function StringEntries(fields: map<string, Json>, keys: seq<string>): (r: seq<(string, string)>)
    ensures |r| <= |keys|
    ensures forall k | 0 <= k < |r| :: r[k].0 in keys && r[k].0 in fields && fields[r[k].0] == Str(r[k].1)
    ensures forall key | key in keys && key in fields && fields[key].Str? :: (key, fields[key].s) in r
    ensures Distinct(keys) ==> forall i, j | 0 <= i < j < |r| :: r[i].0 != r[j].0
    decreases |keys|
  {
    if keys == [] then []
    else
      var rest := StringEntries(fields, keys[1..]);
      var key := keys[0];
      assert forall k | 0 <= k < |rest| :: rest[k].0 in keys;
      assert Distinct(keys) ==> Distinct(keys[1..]) && key !in keys[1..];
      if key in fields && fields[key].Str? then [(key, fields[key].s)] + rest else rest
  }

  /** `log_level`: the string-valued entries of `log.level`, in the map's
      iteration order `order` (each of its keys listed once); nothing when the
      entry is missing or not an object. */
  function LogLevel(c: Config, order: seq<string>): (r: seq<(string, string)>)
    requires var level := Get(Get(c.conf, "log"), "level");
             level.Obj? ==> Distinct(order) && forall key :: key in order <==> key in level.fields
    ensures !Get(Get(c.conf, "log"), "level").Obj? ==> r == []
    ensures var level := Get(Get(c.conf, "log"), "level");
            level.Obj? ==>
              (forall k | 0 <= k < |r| :: r[k].0 in level.fields && level.fields[r[k].0] == Str(r[k].1)) &&
              (forall key | key in level.fields && level.fields[key].Str? :: (key, level.fields[key].s) in r)
    ensures forall i, j | 0 <= i < j < |r| :: r[i].0 != r[j].0
  {
    match Get(Get(c.conf, "log"), "level")
    case Obj(fields) => StringEntries(fields, order)
    case _ => []
  }

  /** `action`: the `action` entry, absent when the document has none. */
  function Action(c: Config): (r: Option<Json>)
    ensures r.Some? <==> c.conf.Obj? && "action" in c.conf.fields
    ensures r.Some? ==> r.value == c.conf.fields["action"]
  {
    GetOpt(c.conf, "action")
  }

  /** `report`: the `report` entry, or the default report; never absent. */
  function Report(c: Config): (r: Option<Json>)
    ensures r.Some?
    ensures c.conf.Obj? && "report" in c.conf.fields ==> r.value == c.conf.fields["report"]
    ensures !(c.conf.Obj? && "report" in c.conf.fields) ==> r.value == c.reportDefault
  {
    var report := GetOpt(c.conf, "report");
    if report.Some? then report else Some(c.reportDefault)
  }

  /** A configuration built by `new` without a report entry reports to the
      csv directory "/data/chord/job/output". */
  lemma DefaultReportDir(conf: Json)
    requires !(conf.Obj? && "report" in conf.fields)
    ensures Get(Get(Report(NewConfig(conf)).value, "csv"), "dir") == Str("/data/chord/job/output")
  {
  }
}
