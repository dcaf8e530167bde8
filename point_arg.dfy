/** The per-point argument of the point revision (`flow/src/flow/point/arg.rs`):
    lookups into the point's entry of the flow document, rendered through
    the template engine, and the assertion wrapper. */
module PointArg {
  import opened Common
  import opened JsonValue

  /** Handlebars: renders a template text against context data, or fails
      with an error whose display text is given. */
  type Handlebars = (string, Json) -> Result<string, string>

  /** `PointArgStruct`: the flow document, the row, the point id, the
      template engine and the case's render context data. */
  datatype PointArgStruct = PointArgStruct(
    flow: Json,
    data: map<string, string>,
    pointId: string,
    handlebars: Handlebars,
    renderContext: Json)

  /** The point's entry `flow["point"][point_id]`. */
  function PointEntry(p: PointArgStruct): Json
  {
    Fold(p.flow, ["point", p.pointId])
  }

  /** `render_inner`: template errors become code "tpl" with the engine's
      message. */
  function RenderInner(p: PointArgStruct, text: string): (r: Result<string, Error>)
    ensures r.Ok? <==> p.handlebars(text, p.renderContext).Ok?
    ensures r.Ok? ==> r.value == p.handlebars(text, p.renderContext).value
    ensures r.Err? ==> r.error == Error("tpl", p.handlebars(text, p.renderContext).error)
  {
    match p.handlebars(text, p.renderContext)
    case Ok(s) => Result.Ok(s)
    case Err(e) => Result.Err(Error("tpl", e))
  }

  /** A string found by a path lookup under `root`, rendered; `None` when
      the target is not a string or rendering fails. */
  function RenderedAt(p: PointArgStruct, root: Json, path: seq<string>): (r: Option<string>)
    ensures r.Some? <==> Fold(root, path).Str? && RenderInner(p, Fold(root, path).s).Ok?
    ensures r.Some? ==> r.value == RenderInner(p, Fold(root, path).s).value
  {
    match AsStr(Fold(root, path))
    case Some(s) => (match RenderInner(p, s) case Ok(t) => Some(t) case Err(_) => None)
    case None => None
  }

  /** `get_meta_str`: the path is folded from the point's entry. */
  function GetMetaStr(p: PointArgStruct, path: seq<string>): (r: Option<string>)
    ensures r.Some? <==> Fold(p.flow, ["point", p.pointId] + path).Str? &&
                         p.handlebars(Fold(p.flow, ["point", p.pointId] + path).s, p.renderContext).Ok?
    ensures r.Some? ==> r.value == p.handlebars(Fold(p.flow, ["point", p.pointId] + path).s, p.renderContext).value
  {
    FoldAppend(p.flow, ["point", p.pointId], path);
    RenderedAt(p, PointEntry(p), path)
  }

  /** `get_config`: the point's "config" member. */
  function GetConfig(p: PointArgStruct): (r: Json)
    ensures r == Fold(p.flow, ["point", p.pointId, "config"])
  {
    FoldAppend(p.flow, ["point", p.pointId], ["config"]);
    Get(PointEntry(p), "config")
  }

  /** `get_config_rendered`: the path is folded from the point's config. */
  function GetConfigRendered(p: PointArgStruct, path: seq<string>): (r: Option<string>)
    ensures r.Some? ==> Fold(GetConfig(p), path).Str?
  {
    RenderedAt(p, GetConfig(p), path)
  }

  /** A rendered config lookup is the meta lookup under "config". */
  lemma GetConfigRenderedIsMeta(p: PointArgStruct, path: seq<string>)
    ensures GetConfigRendered(p, path) == GetMetaStr(p, ["config"] + path)
  {
    FoldAppend(p.flow, ["point", p.pointId], ["config"] + path);
    FoldAppend(PointEntry(p), ["config"], path);
  }

  /** The render context data with `name` bound to `value`; data that is not
      an object is left as it is. */
  function WithBinding(ctx: Json, name: string, value: Json): (r: Json)
    ensures ctx.Obj? ==> r.Obj? && r.fields == ctx.fields[name := value]
    ensures !ctx.Obj? ==> r == ctx
  {
    if ctx.Obj? then Obj(ctx.fields[name := value]) else ctx
  }

  /** `render_inner_with`: renders against a copy of the context data with
      one extra binding; the argument's own context is not touched. */
  function RenderInnerWith(p: PointArgStruct, text: string, name: string, value: Json): (r: Result<string, Error>)
    ensures r.Ok? <==> p.handlebars(text, WithBinding(p.renderContext, name, value)).Ok?
    ensures r.Ok? ==> r.value == p.handlebars(text, WithBinding(p.renderContext, name, value)).value
    ensures r.Err? ==> r.error.code == "tpl"
  {
    match p.handlebars(text, WithBinding(p.renderContext, name, value))
    case Ok(s) => Result.Ok(s)
    case Err(e) => Result.Err(Error("tpl", e))
  }

  /** The template `{{#if C}}true{{else}}false{{/if}}`. */
  function IfTemplate(condition: string): (t: string)
    ensures |t| == |condition| + 32
    ensures t[..6] == "{{#if " && t[6..6 + |condition|] == condition
    ensures t[6 + |condition|..] == "}}true{{else}}false{{/if}}"
  {
    "{{#if " + condition + "}}true{{else}}false{{/if}}"
  }

  /** Different conditions give different templates. */
  lemma IfTemplateInjective(c1: string, c2: string)
    requires IfTemplate(c1) == IfTemplate(c2)
    ensures c1 == c2
  {
    var t := IfTemplate(c1);
    assert |c1| == |t| - 32 == |c2|;
    assert c1 == t[6..6 + |c1|] == c2;
  }

  /** `assert`: true exactly when the if-template, rendered with the value
      bound as "res", prints "true"; a template error counts as false. */
  function Assert(p: PointArgStruct, condition: string, value: Json): (r: bool)
    ensures r <==> p.handlebars(IfTemplate(condition), WithBinding(p.renderContext, "res", value)) == Result.Ok("true")
  {
    match RenderInnerWith(p, IfTemplate(condition), "res", value)
    case Ok(s) => s == "true"
    case Err(_) => false
  }

  /** The template engine sees the asserted value under "res" and the rest
      of the case's context data unchanged. */
  lemma AssertBinding(ctx: Json, value: Json)
    requires ctx.Obj?
    ensures Get(WithBinding(ctx, "res", value), "res") == value
    ensures forall k :: k in ctx.fields && k != "res" ==> Get(WithBinding(ctx, "res", value), k) == ctx.fields[k]
  {
  }
}
