/** The Dubbo step of the step revision (`step/src/step/dubbo/java.rs`):
    the factory validates its configuration and starts a local gateway; a
    run parses the method signature `interface#method(type, ...)`, renders
    the arguments and posts a generic invocation to the gateway. The child
    process and the HTTP call are collaborators given as parameters. */
module DubboJava {
  import opened Common
  import opened JsonValue

  /** The run argument of this revision: the step's config and its template
      rendering. */
  datatype DubboArg = DubboArg(config: Json, render: string -> Result<string, Error>)

  /** serde_json as the step uses it: pretty printing (which may fail),
      parsing, and `Display` of a value. */
  datatype Serde = Serde(pretty: Json -> Option<string>, parse: string -> Result<Json, Error>, display: Json -> string)

  // ---------------------------------------------------------------- method

  /** The characters the method string is split on. */
  predicate IsSeparator(c: char)
  {
    c == '#' || c == '(' || c == ',' || c == ')'
  }

  /** `char::is_whitespace`: the Unicode White_Space characters. */
  predicate IsWhitespace(c: char)
  {
    var n := c as int;
    (0x09 <= n <= 0x0D) || n == 0x20 || n == 0x85 || n == 0xA0 || n == 0x1680 ||
    (0x2000 <= n <= 0x200A) || n == 0x2028 || n == 0x2029 || n == 0x202F || n == 0x205F || n == 0x3000
  }

  /** `str::split` on the separators, with `current` the piece being read:
      one piece more than there are separators. */
  function SplitFrom(s: string, current: string): (pieces: seq<string>)
  {
    if s == [] then [current]
    else if IsSeparator(s[0]) then [current] + SplitFrom(s[1..], "")
    else SplitFrom(s[1..], current + [s[0]])
  }

  function Split(s: string): seq<string>
  {
    SplitFrom(s, "")
  }

  function TrimStart(s: string): (r: string)
    ensures |r| <= |s| && r == s[|s| - |r|..]
    ensures r == [] || !IsWhitespace(r[0])
    ensures forall k | 0 <= k < |s| - |r| :: IsWhitespace(s[k])
  {
    if s != [] && IsWhitespace(s[0]) then TrimStart(s[1..]) else s
  }

  function TrimEnd(s: string): (r: string)
    ensures |r| <= |s| && r == s[..|r|]
    ensures r == [] || !IsWhitespace(r[|r| - 1])
    ensures forall k | |r| <= k < |s| :: IsWhitespace(s[k])
  {
    if s != [] && IsWhitespace(s[|s| - 1]) then TrimEnd(s[..|s| - 1]) else s
  }

  /** `str::trim`. */
  function Trim(s: string): (r: string)
    ensures r == [] || (!IsWhitespace(r[0]) && !IsWhitespace(r[|r| - 1]))
  {
    TrimEnd(TrimStart(s))
  }

  /** The trimmed pieces that are not empty, in order. */
  function NonEmptyTrimmed(pieces: seq<string>): (parts: seq<string>)
    ensures |parts| <= |pieces|
    ensures forall k | 0 <= k < |parts| :: parts[k] != []
  {
    if pieces == [] then []
    else
      var t := Trim(pieces[0]);
      (if t == [] then [] else [t]) + NonEmptyTrimmed(pieces[1..])
  }

  /** The parts of a method string: split on the separators, trimmed, the
      empty ones dropped. */
  function MethodParts(methodLong: string): (parts: seq<string>)
  {
    NonEmptyTrimmed(Split(methodLong))
  }

  /** A name that survives the parse unchanged: not empty, no separator,
      no white space at either end. */
  predicate Clean(name: string)
  {
    name != [] && !IsWhitespace(name[0]) && !IsWhitespace(name[|name| - 1]) &&
    forall c | c in name :: !IsSeparator(c)
  }

  /** `interface#method(t1,t2,...)` for the argument types `types`. */
  function Signature(iface: string, op: string, types: seq<string>): string
  {
    iface + "#" + op + "(" + JoinTypes(types) + ")"
  }

  function JoinTypes(types: seq<string>): string
  {
    if types == [] then ""
    else if |types| == 1 then types[0]
    else types[0] + "," + JoinTypes(types[1..])
  }

  /** Reading on past a piece in the making: its characters are kept. */
  lemma {:induction false} SplitFromClean(name: string, rest: string, current: string)
    requires forall c | c in name :: !IsSeparator(c)
    ensures SplitFrom(name + rest, current) == SplitFrom(rest, current + name)
    decreases |name|
  {
    if name != [] {
      assert name[0] in name;
      assert (name + rest)[0] == name[0] && (name + rest)[1..] == name[1..] + rest;
      SplitFromClean(name[1..], rest, current + [name[0]]);
      assert current + [name[0]] + name[1..] == current + name;
    } else {
      assert name + rest == rest && current + name == current;
    }
  }

  /** The pieces of a separated run of names. */
  lemma {:induction false} SplitTypes(types: seq<string>, rest: string)
    requires forall k | 0 <= k < |types| :: Clean(types[k])
    requires types != []
    ensures SplitFrom(JoinTypes(types) + rest, "") == types[..|types| - 1] + SplitFrom(rest, types[|types| - 1])
    decreases |types|
  {
    var first := types[0];
    assert Clean(first);
    assert "" + first == first;
    if |types| == 1 {
      assert JoinTypes(types) == first;
      SplitFromClean(first, rest, "");
      assert types[..0] == [];
      assert [] + SplitFrom(rest, first) == SplitFrom(rest, first);
    } else {
      var tail := types[1..];
      var more := JoinTypes(tail) + rest;
      assert JoinTypes(types) + rest == first + ("," + more);
      SplitFromClean(first, "," + more, "");
      assert ("," + more)[0] == ',' && ("," + more)[1..] == more;
      assert SplitFrom("," + more, first) == [first] + SplitFrom(more, "");
      assert forall k | 0 <= k < |tail| :: tail[k] == types[k + 1];
      SplitTypes(tail, rest);
      assert types[..|types| - 1] == [first] + tail[..|tail| - 1];
      assert tail[|tail| - 1] == types[|types| - 1];
    }
  }

  lemma ConcatAssoc<T>(x: seq<T>, y: seq<T>, z: seq<T>)
    ensures x + (y + z) == (x + y) + z
  {
  }

  /** A clean name is its own trim. */
  lemma TrimClean(name: string)
    requires Clean(name)
    ensures Trim(name) == name
  {
  }

  lemma {:induction false} NonEmptyTrimmedAppend(a: seq<string>, b: seq<string>)
    ensures NonEmptyTrimmed(a + b) == NonEmptyTrimmed(a) + NonEmptyTrimmed(b)
    decreases |a|
  {
    if a != [] {
      assert (a + b)[0] == a[0] && (a + b)[1..] == a[1..] + b;
      NonEmptyTrimmedAppend(a[1..], b);
      var t := Trim(a[0]);
      var head: seq<string> := if t == [] then [] else [t];
      assert NonEmptyTrimmed(a + b) == head + NonEmptyTrimmed(a[1..] + b);
      assert NonEmptyTrimmed(a) == head + NonEmptyTrimmed(a[1..]);
      ConcatAssoc(head, NonEmptyTrimmed(a[1..]), NonEmptyTrimmed(b));
    } else {
      assert a + b == b;
    }
  }

  lemma {:induction false} NonEmptyTrimmedClean(names: seq<string>)
    requires forall k | 0 <= k < |names| :: Clean(names[k])
    ensures NonEmptyTrimmed(names) == names
    decreases |names|
  {
    if names != [] {
      TrimClean(names[0]);
      NonEmptyTrimmedClean(names[1..]);
    }
  }

  /** Parsing a signature built from clean names gives back the interface,
      the method and the argument types, in order. */
  lemma SignatureParts(iface: string, op: string, types: seq<string>)
    requires Clean(iface) && Clean(op)
    requires forall k | 0 <= k < |types| :: Clean(types[k])
    ensures MethodParts(Signature(iface, op, types)) == [iface, op] + types
  {
    var afterParen := JoinTypes(types) + ")";
    assert Signature(iface, op, types) == iface + ("#" + (op + ("(" + afterParen)));
    SplitAfterHead(iface, op, afterParen);
    var tail := SplitFrom(afterParen, "");
    NonEmptyTrimmedAppend([iface, op], tail);
    NonEmptyTrimmedPair(iface, op);
    TypeParts(types);
  }

  lemma NonEmptyTrimmedPair(a: string, b: string)
    requires Clean(a) && Clean(b)
    ensures NonEmptyTrimmed([a, b]) == [a, b]
  {
    TrimClean(a);
    TrimClean(b);
    assert [a, b][1..] == [b];
    assert [b][1..] == [];
  }

  /** The pieces after the opening parenthesis give back the argument
      types. */
  lemma TypeParts(types: seq<string>)
    requires forall k | 0 <= k < |types| :: Clean(types[k])
    ensures NonEmptyTrimmed(SplitFrom(JoinTypes(types) + ")", "")) == types
  {
    var tail := SplitFrom(JoinTypes(types) + ")", "");
    if types == [] {
      assert JoinTypes(types) + ")" == ")";
      CloseParen("");
      NonEmptyTrimmedBlanks();
    } else {
      TypePieces(types);
      NonEmptyTrimmedAppend(types, [""]);
      NonEmptyTrimmedClean(types);
      NonEmptyTrimmedBlank();
      assert types + [] == types;
    }
  }

  /** The pieces of the argument types: the types, then the empty piece
      after the closing parenthesis. */
  lemma TypePieces(types: seq<string>)
    requires forall k | 0 <= k < |types| :: Clean(types[k])
    requires types != []
    ensures SplitFrom(JoinTypes(types) + ")", "") == types + [""]
  {
    SplitTypes(types, ")");
    CloseParen(types[|types| - 1]);
    InitLast(types, "");
  }

  /** A non-empty sequence is its front followed by its last element. */
  lemma InitLast<T>(s: seq<T>, x: T)
    requires s != []
    ensures s[..|s| - 1] + [s[|s| - 1], x] == s + [x]
  {
    assert s[..|s| - 1] + [s[|s| - 1]] == s;
  }

  lemma CloseParen(current: string)
    ensures SplitFrom(")", current) == [current, ""]
  {
    assert ")"[1..] == "";
  }

  lemma NonEmptyTrimmedBlank()
    ensures NonEmptyTrimmed([""]) == []
  {
    assert [""][1..] == [];
  }

  lemma NonEmptyTrimmedBlanks()
    ensures NonEmptyTrimmed(["", ""]) == []
  {
    assert ["", ""][1..] == [""];
    NonEmptyTrimmedBlank();
  }

  /** The first two pieces of a signature are its interface and method. */
  lemma SplitAfterHead(iface: string, op: string, afterParen: string)
    requires Clean(iface) && Clean(op)
    ensures Split(iface + ("#" + (op + ("(" + afterParen)))) == [iface, op] + SplitFrom(afterParen, "")
  {
    assert "" + iface == iface && "" + op == op;
    SplitFromClean(iface, "#" + (op + ("(" + afterParen)), "");
    assert ("#" + (op + ("(" + afterParen)))[0] == '#';
    assert ("#" + (op + ("(" + afterParen)))[1..] == op + ("(" + afterParen);
    SplitFromClean(op, "(" + afterParen, "");
    assert ("(" + afterParen)[0] == '(';
    assert ("(" + afterParen)[1..] == afterParen;
  }

  // ---------------------------------------------------------------- render

  /** `render`: null stays null; a string is the template itself, anything
      else is pretty printed first; the rendered text is parsed back. */
  function Render(arg: DubboArg, serde: Serde, content: Json): (r: Result<Json, Error>)
    ensures content.Null? ==> r == Result.Ok(Null)
    ensures content.Str? ==>
      r == match arg.render(content.s) { case Ok(t) => serde.parse(t) case Err(e) => Result.Err(e) }
    ensures !content.Null? && !content.Str? && serde.pretty(content).None? ==>
      r == Result.Err(Error("032", "invalid content"))
    ensures !content.Null? && !content.Str? && serde.pretty(content).Some? ==>
      r == match arg.render(serde.pretty(content).value) { case Ok(t) => serde.parse(t) case Err(e) => Result.Err(e) }
  {
    if content.Null? then Result.Ok(Null)
    else
      var body := if content.Str? then Some(content.s) else serde.pretty(content);
      match body
      case None => Result.Err(Error("032", "invalid content"))
      case Some(b) =>
        match arg.render(b)
        case Err(e) => Result.Err(e)
        case Ok(t) => serde.parse(t)
  }

  /** Rendering the elements of an argument array in order, stopping at the
      first error. */
  function RenderAll(arg: DubboArg, serde: Serde, items: seq<Json>): Result<seq<Json>, Error>
    decreases |items|
  {
    if items == [] then Result.Ok([])
    else
      match Render(arg, serde, items[0])
      case Err(e) => Result.Err(e)
      case Ok(v) =>
        match RenderAll(arg, serde, items[1..])
        case Err(e) => Result.Err(e)
        case Ok(rest) => Result.Ok([v] + rest)
  }

  /** The rendered arguments are the elements rendered one by one, in
      order; an error is that of the first element that fails. */
  lemma {:induction false} RenderAllSpec(arg: DubboArg, serde: Serde, items: seq<Json>)
    ensures var r := RenderAll(arg, serde, items);
      && (r.Ok? ==> (|r.value| == |items| &&
            forall k | 0 <= k < |items| :: Render(arg, serde, items[k]) == Result.Ok(r.value[k])))
      && (r.Err? ==> exists k | 0 <= k < |items| ::
            Render(arg, serde, items[k]) == Result.Err(r.error) &&
            forall j | 0 <= j < k :: Render(arg, serde, items[j]).Ok?)
    decreases |items|
  {
    if items != [] && Render(arg, serde, items[0]).Ok? {
      var tail := items[1..];
      RenderAllSpec(arg, serde, tail);
      assert forall k | 1 <= k < |items| :: items[k] == tail[k - 1];
      var rest := RenderAll(arg, serde, tail);
      if rest.Err? {
        var k :| 0 <= k < |tail| && Render(arg, serde, tail[k]) == Result.Err(rest.error) &&
                 forall j | 0 <= j < k :: Render(arg, serde, tail[j]).Ok?;
        assert Render(arg, serde, items[k + 1]) == Result.Err(rest.error);
      } else {
        var v := Render(arg, serde, items[0]).value;
        assert forall k | 1 <= k < |items| :: ([v] + rest.value)[k] == rest.value[k - 1];
      }
    } else if items != [] {
      assert Render(arg, serde, items[0]) == Result.Err(RenderAll(arg, serde, items).error);
    }
  }

  /** The loop over an argument array. */
  method RenderArgs(arg: DubboArg, serde: Serde, items: seq<Json>) returns (r: Result<seq<Json>, Error>)
    ensures r == RenderAll(arg, serde, items)
  {
    var rendered: seq<Json> := [];
    assert items[0..] == items;
    assert RenderAll(arg, serde, items).Ok? ==> rendered + RenderAll(arg, serde, items).value == RenderAll(arg, serde, items).value;
    for i := 0 to |items|
      invariant RenderAll(arg, serde, items) ==
                match RenderAll(arg, serde, items[i..])
                case Ok(rest) => Result.Ok(rendered + rest)
                case Err(e) => Result.Err(e)
    {
      assert items[i..][0] == items[i] && items[i..][1..] == items[i + 1..];
      var ar := Render(arg, serde, items[i]);
      if ar.Err? {
        return Result.Err(ar.error);
      }
      assert RenderAll(arg, serde, items[i + 1..]).Ok? ==>
             rendered + ([ar.value] + RenderAll(arg, serde, items[i + 1..]).value) ==
             (rendered + [ar.value]) + RenderAll(arg, serde, items[i + 1..]).value;
      rendered := rendered + [ar.value];
    }
    assert items[|items|..] == [];
    assert rendered + [] == rendered;
    return Result.Ok(rendered);
  }

  /** The arguments of a call: an array is rendered element by element;
      anything else is rendered whole and must give an array, else the call
      fails with "010" "missing args". */
  function ArgsOf(arg: DubboArg, serde: Serde): (r: Result<seq<Json>, Error>)
    ensures Get(arg.config, "args").Arr? ==> r == RenderAll(arg, serde, Get(arg.config, "args").items)
    ensures !Get(arg.config, "args").Arr? ==>
      var whole := Render(arg, serde, Get(arg.config, "args"));
      && (whole.Err? ==> r == Result.Err(whole.error))
      && (whole.Ok? && whole.value.Arr? ==> r == Result.Ok(whole.value.items))
      && (whole.Ok? && !whole.value.Arr? ==> r == Result.Err(Error("010", "missing args")))
  {
    var raw := Get(arg.config, "args");
    if raw.Arr? then RenderAll(arg, serde, raw.items)
    else match Render(arg, serde, raw)
      case Err(e) => Result.Err(e)
      case Ok(v) => if v.Arr? then Result.Ok(v.items) else Result.Err(Error("010", "missing args"))
  }

  /** The argument loop of `run`. */
  method Args(arg: DubboArg, serde: Serde) returns (r: Result<seq<Json>, Error>)
    ensures r == ArgsOf(arg, serde)
  {
    var raw := Get(arg.config, "args");
    if raw.Arr? {
      r := RenderArgs(arg, serde, raw.items);
      return;
    }
    var whole := Render(arg, serde, raw);
    if whole.Err? {
      return Result.Err(whole.error);
    }
    if !whole.value.Arr? {
      return Result.Err(Error("010", "missing args"));
    }
    return Result.Ok(whole.value.items);
  }

  // ---------------------------------------------------------------- run

  /** The body posted to the gateway. */
  datatype GenericInvoke = GenericInvoke(
    iface: string, application: string, protocol: string, address: string,
    methodName: string, argTypes: seq<string>, args: seq<Json>)

  /** `Runner`: the registry and the gateway port of the factory. */
  datatype Runner = Runner(protocol: string, address: string, port: nat)

  /** `run`: the method signature, the arguments, the invocation through
      `invoke` (the gateway's reply or the transport error), then the
      reply's verdict. */
  method Run(runner: Runner, arg: DubboArg, serde: Serde, invoke: (nat, GenericInvoke) -> Result<Json, Error>)
    returns (r: Result<Json, Error>)
    ensures AsStr(Get(arg.config, "method")).None? ==> r == Result.Err(Error("010", "missing method"))
    ensures AsStr(Get(arg.config, "method")).Some? && |MethodParts(Get(arg.config, "method").s)| < 2 ==>
      r == Result.Err(Error("010", "invalid method"))
    ensures r.Ok? ==>
      var parts := MethodParts(Get(arg.config, "method").s);
      |parts| >= 2 &&
      exists args: seq<Json> ::
        var call := GenericInvoke(parts[0], "chord", runner.protocol, runner.address, parts[1], parts[2..], args);
        invoke(runner.port, call).Ok? &&
        AsBool(Get(invoke(runner.port, call).value, "success")) == Some(true) &&
        r.value == Get(invoke(runner.port, call).value, "data")
    ensures AsStr(Get(arg.config, "method")).Some? && |MethodParts(Get(arg.config, "method").s)| >= 2 ==>
      var parts := MethodParts(Get(arg.config, "method").s);
      var args := ArgsOf(arg, serde);
      && (args.Err? ==> r == Result.Err(args.error))
      && (args.Ok? ==>
            var reply := invoke(runner.port, GenericInvoke(parts[0], "chord", runner.protocol, runner.address,
                                                           parts[1], parts[2..], args.value));
            && (reply.Err? ==> r == Result.Err(reply.error))
            && (reply.Ok? ==> r == Verdict(reply.value, serde)))
  {
    var methodLong := AsStr(Get(arg.config, "method"));
    if methodLong.None? {
      return Result.Err(Error("010", "missing method"));
    }
    var parts := MethodParts(methodLong.value);
    if |parts| < 2 {
      return Result.Err(Error("010", "invalid method"));
    }
    var args := Args(arg, serde);
    if args.Err? {
      return Result.Err(args.error);
    }
    var call := GenericInvoke(parts[0], "chord", runner.protocol, runner.address, parts[1], parts[2..], args.value);
    var value := invoke(runner.port, call);
    if value.Err? {
      return Result.Err(value.error);
    }
    r := Verdict(value.value, serde);
  }

  /** The gateway's reply: `data` when `success` is true, otherwise a
      "dubbo" error naming the reply's code and message. */
  function Verdict(value: Json, serde: Serde): (r: Result<Json, Error>)
    ensures r.Ok? <==> AsBool(Get(value, "success")) == Some(true)
    ensures r.Ok? ==> r.value == Get(value, "data")
    ensures r.Err? ==> r.error == Error("dubbo", serde.display(Get(value, "code")) + "::" + serde.display(Get(value, "message")))
  {
    var success := AsBool(Get(value, "success"));
    if success.Some? && success.value then Result.Ok(Get(value, "data"))
    else Result.Err(Error("dubbo", serde.display(Get(value, "code")) + "::" + serde.display(Get(value, "message"))))
  }

  // ---------------------------------------------------------------- factory

  /** The settings `Factory::new` reads from its configuration. */
  datatype Settings = Settings(jarPath: string, port: nat, protocol: string, address: string)

  /** `Factory::new` up to starting the gateway: a config is required;
      the jar path, the port and the registry address must be present; the
      registry protocol defaults to zookeeper. */
  function FactorySettings(config: Option<Json>): (r: Result<Settings, Error>)
    ensures (config.None? || config.value.Null?) ==> r == Result.Err(Error("010", "missing config"))
    ensures r.Ok? ==> config.Some? && AsStr(Get(config.value, "jar_path")) == Some(r.value.jarPath)
    ensures r.Ok? ==> AsU64(Get(config.value, "port")) == Some(r.value.port)
    ensures r.Ok? ==> AsStr(Get(Get(config.value, "registry"), "address")) == Some(r.value.address)
    ensures r.Ok? ==> var protocol := Get(Get(config.value, "registry"), "protocol");
                      r.value.protocol == if protocol.Str? then protocol.s else "zookeeper"
    ensures r.Err? && config.Some? && !config.value.Null? ==> r.error.code == "010"
    ensures config.Some? && !config.value.Null? && AsStr(Get(config.value, "jar_path")).None? ==>
      r == Result.Err(Error("010", "missing jar_path"))
    ensures config.Some? && AsStr(Get(config.value, "jar_path")).Some? && AsU64(Get(config.value, "port")).None? ==>
      r == Result.Err(Error("010", "missing port"))
    ensures config.Some? && AsStr(Get(config.value, "jar_path")).Some? && AsU64(Get(config.value, "port")).Some? &&
            AsStr(Get(Get(config.value, "registry"), "address")).None? ==>
      r == Result.Err(Error("010", "missing registry_address"))
  {
    if config.None? || config.value.Null? then Result.Err(Error("010", "missing config"))
    else
      var c := config.value;
      match AsStr(Get(c, "jar_path"))
      case None => Result.Err(Error("010", "missing jar_path"))
      case Some(jarPath) =>
        match AsU64(Get(c, "port"))
        case None => Result.Err(Error("010", "missing port"))
        case Some(port) =>
          var protocol := match AsStr(Get(Get(c, "registry"), "protocol")) { case Some(p) => p case None => "zookeeper" };
          match AsStr(Get(Get(c, "registry"), "address"))
          case None => Result.Err(Error("010", "missing registry_address"))
          case Some(address) => Result.Ok(Settings(jarPath, port, protocol, address))
  }

  /** `Factory::new` and `create`: the settings, then the gateway start
      (its failure is given as `start`); every runner created carries the
      registry and the port. */
  function NewRunner(config: Option<Json>, start: Option<Error>): (r: Result<Runner, Error>)
    ensures FactorySettings(config).Err? ==> r == Result.Err(FactorySettings(config).error)
    ensures FactorySettings(config).Ok? && start.Some? ==> r == Result.Err(start.value)
    ensures FactorySettings(config).Ok? && start.None? ==>
      var s := FactorySettings(config).value;
      r == Result.Ok(Runner(s.protocol, s.address, s.port))
  {
    match FactorySettings(config)
    case Err(e) => Result.Err(e)
    case Ok(s) => if start.Some? then Result.Err(start.value) else Result.Ok(Runner(s.protocol, s.address, s.port))
  }
}
