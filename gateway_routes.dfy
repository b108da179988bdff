// The gateway's routes (gateway/server.js): its own bearer check, the tolerant
// merge of `action` and `args`, the forwarding routes (/mcp, /mcp.flat, /exec)
// and how the bridge's answer becomes the gateway's reply.

module GatewayRoutes {
  import opened Text
  import opened Json
  import opened JsNum
  import opened GatewayNames
  import opened GatewayArgs
  import Bridge

  // ---------------------------------------------------------------------------
  // The gateway's own bearer check
  // ---------------------------------------------------------------------------

  /** /health and /openapi.json are open; with a key set every other path needs exactly "Bearer <key>". */
  predicate GatewayAdmits(path: string, authorization: Option<string>, publicBearer: string)
  {
    path == "/health" || path == "/openapi.json" || publicBearer == [] ||
    (if authorization.Some? then authorization.value else "") == "Bearer " + publicBearer
  }

  /** Unlike the bridge, the gateway compares the whole header, case included. */
  lemma GatewayBearerIsExact(key: string)
    requires key != [] && !IsSpace(key[0]) && !IsSpace(key[|key| - 1])
    ensures !GatewayAdmits("/mcp", Some("bearer " + key), key)
    ensures Bridge.Authorized(Some("bearer " + key), key)
  {
    assert ("bearer " + key)[0] != ("Bearer " + key)[0];
    var lower := "bearer ";
    assert forall i :: 0 <= i < |lower| ==> LowerChar(lower[i]) == LowerChar(Bridge.BearerPrefix[i]);
    Bridge.AuthExact(lower, key, key);
    TrimNoSpaceEnds(key);
  }

  // ---------------------------------------------------------------------------
  // mergeArgsTolerant
  // ---------------------------------------------------------------------------

  datatype Merged = Merged(action: Option<Json>, args: Fields)

  /**
   * What `args` contributes: a non-empty string is parsed as JSON (nothing when it
   * is not JSON), an object or array is copied; anything else contributes nothing.
   * `parse` is JSON.parse, None when it throws.
   */
  function ArgsEntries(args: Option<Json>, parse: string -> Option<Json>): Fields
  {
    if Truthy(args) && args.value.Str? then
      match parse(args.value.s)
      case Some(v) => Entries(v)
      case None => []
    else if Truthy(args) && IsObjectLike(args.value) then Entries(args.value)
    else []
  }

  /** `const { action, args, ...rest } = src; return { action, args: { ...rest, ...merged } }`. */
  function MergeArgsTolerant(src: Fields, parse: string -> Option<Json>): (m: Merged)
    ensures m.action == Get(src, "action")
  {
    var rest := Remove(Remove(src, "action"), "args");
    Merged(Get(src, "action"), Spread(Spread([], rest), ArgsEntries(Get(src, "args"), parse)))
  }

  ghost predicate ParsesUnique(parse: string -> Option<Json>)
  {
    forall t :: parse(t).Some? ==> ShallowUnique(parse(t).value)
  }

  lemma ArgsEntriesUnique(args: Option<Json>, parse: string -> Option<Json>)
    requires ParsesUnique(parse)
    requires args.Some? ==> ShallowUnique(args.value)
    ensures UniqueKeys(ArgsEntries(args, parse))
  {
    if Truthy(args) && args.value.Str? {
      if parse(args.value.s).Some? {
        EntriesUnique(parse(args.value.s).value);
      }
    } else if Truthy(args) && IsObjectLike(args.value) {
      EntriesUnique(args.value);
    }
  }

  /**
   * The merged args: a key from `args` wins over the same key given flat; every
   * other flat key is kept, except `action` and `args` themselves.
   */
  lemma MergeArgsWins(src: Fields, parse: string -> Option<Json>, k: string)
    requires UniqueKeys(src) && ParsesUnique(parse)
    requires Get(src, "args").Some? ==> ShallowUnique(Get(src, "args").value)
    ensures var e := ArgsEntries(Get(src, "args"), parse);
      Get(MergeArgsTolerant(src, parse).args, k) ==
        if HasKey(e, k) then Get(e, k)
        else if k == "action" || k == "args" then None
        else Get(src, k)
  {
    var e := ArgsEntries(Get(src, "args"), parse);
    var r1 := Remove(src, "action");
    var rest := Remove(r1, "args");
    RemoveUnique(src, "action");
    RemoveUnique(r1, "args");
    ArgsEntriesUnique(Get(src, "args"), parse);
    SpreadGet(Spread([], rest), e, k);
    SpreadGet([], rest, k);
    RemoveGet(src, "action", k);
    RemoveGet(r1, "args", k);
  }

  /** Args that are not JSON are dropped and the flat keys stand alone. */
  lemma MergeInvalidJson(src: Fields, parse: string -> Option<Json>, k: string)
    requires UniqueKeys(src) && ParsesUnique(parse)
    requires Get(src, "args").Some? && Get(src, "args").value.Str?
    requires parse(Get(src, "args").value.s).None?
    ensures Get(MergeArgsTolerant(src, parse).args, k) ==
      if k == "action" || k == "args" then None else Get(src, k)
  {
    MergeArgsWins(src, parse, k);
  }

  // ---------------------------------------------------------------------------
  // Calling the bridge
  // ---------------------------------------------------------------------------

  /** What fetch gave back: an HTTP status and the body if it was JSON, a timeout, or another failure. */
  datatype BridgeCall = Answered(status: nat, body: Option<Json>) | TimedOut | Failed(message: Option<string>)

  function FailureReply(message: string): Json
  {
    Obj([("ok", Bool(false)), ("message", Str(message))])
  }

  /**
   * callBridge's result: a 2xx body as it came (an unreadable one as `{}`); otherwise
   * `ok: false` and a message naming the status, the timeout or the error.
   */
  function BridgeResult(c: BridgeCall): (r: Json)
    ensures c.Answered? && 200 <= c.status <= 299 ==> r == (if c.body.Some? then c.body.value else Obj([]))
    ensures !(c.Answered? && 200 <= c.status <= 299) ==>
      r.Obj? && Get(r.fields, "ok") == Some(Bool(false)) && Get(r.fields, "message").Some? &&
      Get(r.fields, "message").value.Str? && Get(r.fields, "message").value.s != []
  {
    match c
    case Answered(status, body) =>
      var json := if body.Some? then body.value else Obj([]);
      if 200 <= status <= 299 then json
      else
        Obj([("ok", Bool(false)), ("message", Str("Bridge HTTP " + NatToString(status))),
             ("detail", if Truthy(Some(json)) then json else Null)])
    case TimedOut => FailureReply("Bridge timeout")
    case Failed(m) => FailureReply(if m.Some? && m.value != [] then m.value else "Bridge error")
  }

  /** The message of a non-2xx reply. */
  lemma BridgeStatusMessage(status: nat, body: Option<Json>)
    requires !(200 <= status <= 299)
    ensures Get(BridgeResult(Answered(status, body)).fields, "message") == Some(Str("Bridge HTTP " + NatToString(status)))
  {
  }

  lemma SplitAt(p: string, t: string)
    ensures (p + t)[..|p|] == p && (p + t)[|p|..] == t + []
  {
  }

  /** A non-2xx reply names its status, which reads back as a number. */
  lemma BridgeStatusInMessage(status: nat, body: Option<Json>)
    requires !(200 <= status <= 299)
    ensures var m := Get(BridgeResult(Answered(status, body)).fields, "message").value.s;
      |m| >= 12 && m[..12] == "Bridge HTTP " && ParseInt10(m[12..]) == Some(status)
  {
    BridgeStatusMessage(status, body);
    SplitAt("Bridge HTTP ", NatToString(status));
    ParseIntOfNat(status, []);
  }

  /** The request callBridge sends: POST to the bridge's /mcp with `{ action, args }` and its own key. */
  function OutgoingRequest(action: string, args: Fields, mcpKey: string): (req: Bridge.Request)
    ensures req.httpMethod == "POST" && req.path == "/mcp"
  {
    Bridge.Request("POST", "/mcp", if mcpKey != [] then Some("Bearer " + mcpKey) else None,
                   Ok(Some(Bridge.Envelope(Some(action), Some(args)))))
  }

  /**
   * With the same key on both sides the bridge lets the gateway's requests through
   * its bearer check, whatever the action and args.
   */
  lemma BridgeAdmitsGateway<H>(action: string, args: Fields, key: string, reg: Bridge.Registry,
                               build: (string, Fields) -> Result<H -> Bridge.Outcome<H>>)
    requires key != [] && !IsSpace(key[0]) && !IsSpace(key[|key| - 1])
    ensures var d := Bridge.Route(OutgoingRequest(action, args, key), Some(key), reg, build);
      !(d.Reply? && d.reply.status == 401)
  {
    var h := "Bearer " + key;
    assert h[..|Bridge.BearerPrefix|] == Bridge.BearerPrefix;
    assert h[|Bridge.BearerPrefix|..] == key;
    TrimNoSpaceEnds(key);
    assert !IsSpace(h[0]);
    assert Bridge.Authorized(Some(h), key);
  }

  // ---------------------------------------------------------------------------
  // The forwarding routes
  // ---------------------------------------------------------------------------

  datatype GatewayRequest = GatewayRequest(httpMethod: string, path: string, authorization: Option<string>,
                                           body: Fields, query: Fields)

  /** The source the route reads `action` and `args` from; None for the routes that do not forward. */
  function Source(req: GatewayRequest): Option<Fields>
  {
    if req.httpMethod == "POST" && (req.path == "/mcp" || req.path == "/mcp.flat") then Some(req.body)
    else if req.httpMethod == "GET" && req.path == "/exec" then Some(req.query)
    else if req.httpMethod == "POST" && req.path == "/exec" then Some(Spread(Spread([], req.body), req.query))
    else None
  }

  /** POST /exec reads the query over the body. */
  lemma ExecQueryWins(req: GatewayRequest, k: string)
    requires req.httpMethod == "POST" && req.path == "/exec"
    requires UniqueKeys(req.body) && UniqueKeys(req.query)
    ensures Get(Source(req).value, k) == if HasKey(req.query, k) then Get(req.query, k) else Get(req.body, k)
  {
    SpreadGet(Spread([], req.body), req.query, k);
    SpreadGet([], req.body, k);
  }

  datatype GatewayOutcome =
    | Unauthorized
    | MissingAction
    | Forwarded(action: string, args: Json, reply: Json)
    | NotForwarding

  /**
   * A forwarding route: merge, demand an action, normalise its name against the
   * bridge's action list, coerce the args for it, call the bridge. `show` is
   * `String(x)` for an action that is not a string; `call` is the bridge round trip.
   */
  function Handle(req: GatewayRequest, publicBearer: string, known: seq<string>,
                  parse: string -> Option<Json>, show: Json -> string,
                  call: (string, Json) -> BridgeCall): (o: GatewayOutcome)
    ensures o.Forwarded? ==> GatewayAdmits(req.path, req.authorization, publicBearer) && Source(req).Some?
    ensures o.Forwarded? ==> Truthy(Get(Source(req).value, "action"))
    ensures o.Forwarded? ==> o.reply == BridgeResult(call(o.action, o.args))
  {
    if !GatewayAdmits(req.path, req.authorization, publicBearer) then Unauthorized
    else if Source(req).None? then NotForwarding
    else
      var m := MergeArgsTolerant(Source(req).value, parse);
      if !Truthy(m.action) then MissingAction
      else
        var text := if m.action.value.Str? then m.action.value.s else show(m.action.value);
        var name := ActionName(text, known);
        var args := CoercedArgs(name, Some(Obj(m.args)));
        Forwarded(name, args, BridgeResult(call(name, args)))
  }

  lemma CoerceEachShape(action: string, f: Fields)
    requires AliasShape(action, f)
    ensures CamelKeys(CoerceEach(f)) && UniqueKeys(CoerceEach(f))
  {
    var r := CoerceEach(f);
    assert forall i :: 0 <= i < |f| ==> r[i].0 == f[i].0;
  }

  /**
   * What reaches the bridge is an object with camel-cased, distinct keys, the
   * action name after normalisation, and the args' entries each coerced in place.
   */
  lemma ForwardedArgsShape(req: GatewayRequest, publicBearer: string, known: seq<string>,
                           parse: string -> Option<Json>, show: Json -> string,
                           call: (string, Json) -> BridgeCall)
    requires Handle(req, publicBearer, known, parse, show, call).Forwarded?
    ensures var o := Handle(req, publicBearer, known, parse, show, call);
      o.args.Obj? && CamelKeys(o.args.fields) && UniqueKeys(o.args.fields)
  {
    var o := Handle(req, publicBearer, known, parse, show, call);
    var m := MergeArgsTolerant(Source(req).value, parse);
    var raw := Some(Obj(m.args));
    CoercedArgsPointwise(o.action, raw);
    ArgsAliasesShape(o.action, raw);
    CoerceEachShape(o.action, ArgsAliases(o.action, raw));
  }

  /** The name sent is the name the client wrote when it is one of the bridge's actions. */
  lemma ForwardsKnownName(req: GatewayRequest, publicBearer: string, known: seq<string>,
                          parse: string -> Option<Json>, show: Json -> string,
                          call: (string, Json) -> BridgeCall, name: string)
    requires Handle(req, publicBearer, known, parse, show, call).Forwarded?
    requires Get(Source(req).value, "action") == Some(Str(name))
    requires name in known && Trim(name) == name && OwnAlias(name).None?
    ensures Handle(req, publicBearer, known, parse, show, call).action == name
  {
    KnownNamePassesThrough(name, known);
  }
}
