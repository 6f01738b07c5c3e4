/**
 * The request handling of utils/server_utils/server.py: `interact` checks
 * the JSON body of a request against the model's argument names and
 * reshapes it into the model's batch, and `get_server_params` merges the
 * server configuration's common defaults with the model's own defaults.
 *
 * The model is a parameter; Flask, logging and reading the JSON files are
 * not modelled.
 */
module Server {
  import opened Wrappers
  import opened Json

  // ---------------------------------------------------------------------
  // interact
  // ---------------------------------------------------------------------

  /** The reasons a request is answered with status 400. */
  datatype RequestError =
    | NotJson                                  // the Content-Type is not application/json
    | NonEmptyArrayExpected(name: string, value: Json)
    | EmptyRequest                             // every argument is None
    | SeveralBatchSizes                        // the arguments' lists differ in length

  /** What the model is called with: one argument as it came, or one tuple per batch element. */
  datatype ModelArgs = Arg(value: Json) | Rows(rows: seq<seq<Json>>)

  datatype Body = ErrorBody(error: RequestError) | Prediction(value: Json)

  datatype Response = Response(status: int, body: Body)

  /** None (also a missing key), or a non-empty list. */
  predicate Acceptable(v: Json) {
    v.JNull? || (v.JList? && |v.items| > 0)
  }

  /** The position of the first name whose argument is not acceptable. */
  function FirstUnacceptable(data: map<string, Json>, names: seq<string>): (r: Option<nat>)
    ensures r.None? <==> forall k :: 0 <= k < |names| ==> Acceptable(Get(data, names[k]))
    ensures r.Some? ==> r.value < |names| && !Acceptable(Get(data, names[r.value]))
    ensures r.Some? ==> forall k :: 0 <= k < r.value ==> Acceptable(Get(data, names[k]))
  {
    if names == [] then None
    else if !Acceptable(Get(data, names[0])) then Some(0)
    else
      var r := FirstUnacceptable(data, names[1..]);
      if r.None? then None else Some(r.value + 1)
  }

  /** The arguments, one per name, in name order. */
  function Args(data: map<string, Json>, names: seq<string>): (args: seq<Json>)
    ensures |args| == |names| && forall k :: 0 <= k < |names| ==> args[k] == Get(data, names[k])
  {
    seq(|names|, k requires 0 <= k < |names| => Get(data, names[k]))
  }

  /** `{len(i) for i in model_args if i is not None}`. */
  function Lengths(args: seq<Json>): set<nat> {
    set k | 0 <= k < |args| && args[k].JList? :: |args[k].items|
  }

  /** The length of the first list argument: `list(lengths)[0]` once there is only one. */
  function FirstLength(args: seq<Json>): (b: nat)
    ensures Lengths(args) != {} ==> b in Lengths(args)
  {
    if args == [] then 0
    else if args[0].JList? then |args[0].items|
    else
      var b := FirstLength(args[1..]);
      assert Lengths(args[1..]) != {} ==> Lengths(args[1..]) <= Lengths(args) by {
        forall x | x in Lengths(args[1..]) ensures x in Lengths(args) {
          var k :| 0 <= k < |args[1..]| && args[1..][k].JList? && x == |args[1..][k].items|;
          assert args[k + 1] == args[1..][k];
        }
      }
      assert Lengths(args) != {} ==> Lengths(args[1..]) != {} by {
        if Lengths(args) != {} {
          var x :| x in Lengths(args);
          var k :| 0 <= k < |args| && args[k].JList? && x == |args[k].items|;
          assert args[1..][k - 1] == args[k];
        }
      }
      b
  }

  /** A set with at most one element holds each of its elements only once. */
  lemma OneLength(s: set<nat>, x: nat, y: nat)
    requires x in s && y in s && |s| <= 1
    ensures x == y
  {
    if x != y {
      SubsetCard({x, y}, s);
    }
  }

  /** `arg or [None] * batch_size` for each argument, as lists. */
  function Padded(args: seq<Json>, batch: nat): (cols: seq<seq<Json>>)
    requires forall k :: 0 <= k < |args| ==> args[k].JNull? || args[k].JList?
    ensures |cols| == |args|
  {
    seq(|args|, k requires 0 <= k < |args| => if args[k].JNull? then seq(batch, _ => JNull) else args[k].items)
  }

  /** `list(zip(*cols))` for columns of one length: row `i` holds element `i` of every column. */
  function Transposed(cols: seq<seq<Json>>, batch: nat): (rows: seq<seq<Json>>)
    requires forall k :: 0 <= k < |cols| ==> |cols[k]| == batch
  {
    seq(batch, i requires 0 <= i < batch => seq(|cols|, k requires 0 <= k < |cols| => cols[k][i]))
  }

  /** The model's input for a request, or why the request is refused. */
  function RequestArgs(isJson: bool, data: map<string, Json>, names: seq<string>): Result<ModelArgs, RequestError> {
    if !isJson then Failure(NotJson)
    else
      var bad := FirstUnacceptable(data, names);
      if bad.Some? then Failure(NonEmptyArrayExpected(names[bad.value], Get(data, names[bad.value])))
      else
        var args := Args(data, names);
        var lengths := Lengths(args);
        if lengths == {} then Failure(EmptyRequest)
        else if |lengths| > 1 then Failure(SeveralBatchSizes)
        else if |names| == 1 then Success(Arg(args[0]))
        else
          var b := FirstLength(args);
          PaddedUniform(args, b);
          Success(Rows(Transposed(Padded(args, b), b)))
  }

  /** With a single length among the lists, every padded argument has that length. */
  lemma PaddedUniform(args: seq<Json>, b: nat)
    requires forall k :: 0 <= k < |args| ==> args[k].JNull? || args[k].JList?
    requires b in Lengths(args) && |Lengths(args)| <= 1
    ensures forall k :: 0 <= k < |args| ==> |Padded(args, b)[k]| == b
  {
    forall k | 0 <= k < |args| && args[k].JList? ensures |args[k].items| == b {
      OneLength(Lengths(args), |args[k].items|, b);
    }
  }

  /** One length only: every list argument has it. */
  lemma SingleLength(args: seq<Json>, b: nat)
    requires Lengths(args) == {b}
    ensures forall k :: 0 <= k < |args| && args[k].JList? ==> |args[k].items| == b
  {
    forall k | 0 <= k < |args| && args[k].JList? ensures |args[k].items| == b {
      assert |args[k].items| in Lengths(args);
    }
  }

  /**
   * A JSON request is refused exactly when an argument is neither None nor
   * a non-empty list (the first such one is reported), when all are None,
   * or when their lists have different lengths.
   */
  lemma RequestErrors(data: map<string, Json>, names: seq<string>)
    ensures var r := RequestArgs(true, data, names);
      && (r.Failure? && r.error.NonEmptyArrayExpected? <==> exists k :: 0 <= k < |names| && !Acceptable(Get(data, names[k])))
      && ((forall k :: 0 <= k < |names| ==> Get(data, names[k]).JNull?) ==> r == Failure(EmptyRequest))
      && ((forall k :: 0 <= k < |names| ==> Acceptable(Get(data, names[k])))
            && (exists i, j :: 0 <= i < |names| && 0 <= j < |names| && Get(data, names[i]).JList? && Get(data, names[j]).JList?
                  && |Get(data, names[i]).items| != |Get(data, names[j]).items|)
          ==> r == Failure(SeveralBatchSizes))
  {
    var args := Args(data, names);
    if forall k :: 0 <= k < |names| ==> Get(data, names[k]).JNull? {
      assert Lengths(args) == {};
    }
    if (forall k :: 0 <= k < |names| ==> Acceptable(Get(data, names[k])))
      && (exists i, j :: 0 <= i < |names| && 0 <= j < |names| && Get(data, names[i]).JList? && Get(data, names[j]).JList?
            && |Get(data, names[i]).items| != |Get(data, names[j]).items|) {
      var i, j :| 0 <= i < |names| && 0 <= j < |names| && Get(data, names[i]).JList? && Get(data, names[j]).JList?
        && |Get(data, names[i]).items| != |Get(data, names[j]).items|;
      assert |args[i].items| in Lengths(args) && |args[j].items| in Lengths(args);
      assert {|args[i].items|, |args[j].items|} <= Lengths(args);
      assert |{|args[i].items|, |args[j].items|}| == 2;
      SubsetCard({|args[i].items|, |args[j].items|}, Lengths(args));
    }
  }

  lemma SubsetCard(a: set<nat>, b: set<nat>)
    requires a <= b
    ensures |a| <= |b|
  {
    assert b == a + (b - a);
  }

  /** With one name, the model is called with that argument as it came. */
  lemma OneName(data: map<string, Json>, name: string)
    requires Get(data, name).JList? && |Get(data, name).items| > 0
    ensures RequestArgs(true, data, [name]) == Success(Arg(Get(data, name)))
  {
    var args := Args(data, [name]);
    assert |args[0].items| in Lengths(args);
    assert Lengths(args) == {|args[0].items|};
  }

  /**
   * With several names the model gets one row per batch element; row `i`
   * holds every argument's element `i` in name order, None for an argument
   * left out.
   */
  lemma SeveralNames(data: map<string, Json>, names: seq<string>)
    requires |names| > 1 && RequestArgs(true, data, names).Success?
    ensures RequestArgs(true, data, names).value.Rows?
    ensures var rows := RequestArgs(true, data, names).value.rows;
      && |rows| > 0
      && (forall k :: 0 <= k < |names| && Get(data, names[k]).JList? ==> |Get(data, names[k]).items| == |rows|)
      && forall i :: 0 <= i < |rows| ==> |rows[i]| == |names|
    ensures var rows := RequestArgs(true, data, names).value.rows;
      forall i, k :: 0 <= i < |rows| && 0 <= k < |names| ==>
        rows[i][k] == (if Get(data, names[k]).JNull? then JNull else Get(data, names[k]).items[i])
  {
    var args := Args(data, names);
    var lengths := Lengths(args);
    var b := FirstLength(args);
    assert lengths == {b} by {
      forall x | x in lengths ensures x == b {
        OneLength(lengths, x, b);
      }
    }
    SingleLength(args, b);
    var k0 :| 0 <= k0 < |args| && args[k0].JList? && |args[k0].items| == b;
    assert b > 0 by {
      assert Acceptable(Get(data, names[k0]));
    }
    var r := RequestArgs(true, data, names).value;
    assert r == Rows(Transposed(Padded(args, b), b));
  }

  /** `interact`: the model's prediction with status 200, or the refusal with status 400. */
  method Interact(model: ModelArgs -> Json, names: seq<string>, isJson: bool, data: map<string, Json>)
    returns (resp: Response)
    ensures RequestArgs(isJson, data, names).Failure? ==>
      resp == Response(400, ErrorBody(RequestArgs(isJson, data, names).error))
    ensures RequestArgs(isJson, data, names).Success? ==>
      resp == Response(200, Prediction(model(RequestArgs(isJson, data, names).value)))
  {
    if !isJson {
      return Response(400, ErrorBody(NotJson));
    }
    var args: seq<Json> := [];
    var k := 0;
    while k < |names|
      invariant 0 <= k <= |names|
      invariant forall j :: 0 <= j < k ==> Acceptable(Get(data, names[j]))
      invariant args == Args(data, names[..k])
    {
      var v := Get(data, names[k]);
      if !Acceptable(v) {
        FirstAt(data, names, k);
        return Response(400, ErrorBody(NonEmptyArrayExpected(names[k], v)));
      }
      args := args + [v];
      k := k + 1;
    }
    assert names[..k] == names;
    var lengths := set j | 0 <= j < |args| && args[j].JList? :: |args[j].items|;
    if lengths == {} {
      return Response(400, ErrorBody(EmptyRequest));
    } else if |lengths| > 1 {
      return Response(400, ErrorBody(SeveralBatchSizes));
    }
    var modelArgs: ModelArgs;
    if |names| == 1 {
      modelArgs := Arg(args[0]);
    } else {
      var b :| b in lengths;
      assert lengths == Lengths(args);
      PaddedUniform(args, b);
      modelArgs := Rows(Transposed(Padded(args, b), b));
      OneLength(lengths, b, FirstLength(args));
    }
    resp := Response(200, Prediction(model(modelArgs)));
  }

  /** The first unacceptable argument is the one the loop stops at. */
  lemma FirstAt(data: map<string, Json>, names: seq<string>, k: nat)
    requires k < |names| && !Acceptable(Get(data, names[k]))
    requires forall j :: 0 <= j < k ==> Acceptable(Get(data, names[j]))
    ensures FirstUnacceptable(data, names) == Some(k)
  {
    if k > 0 {
      FirstAt(data, names[1..], k - 1);
    }
  }

  // ---------------------------------------------------------------------
  // get_server_params
  // ---------------------------------------------------------------------

  /** The server configuration: `common_defaults`, and `model_defaults` per model tag. */
  datatype ServerConfig = ServerConfig(commonDefaults: map<string, Json>, modelDefaults: map<string, map<string, Json>>)

  /** `sys.exit(1)` after a parameter is left unset. */
  datatype ServerError = SystemExit(code: int)

  /** `model_config['metadata']['labels']['server_utils']`, when every level is there. */
  function ModelTag(modelConfig: map<string, Json>): Option<Json> {
    var m := Get(modelConfig, "metadata");
    if "metadata" in modelConfig && m.JObject? then
      var l := Get(m.fields, "labels");
      if "labels" in m.fields && l.JObject? && "server_utils" in l.fields then Some(l.fields["server_utils"])
      else None
    else None
  }

  /** The model's defaults, when the model's tag names a `model_defaults` section. */
  function ModelDefaults(cfg: ServerConfig, modelConfig: map<string, Json>): map<string, Json> {
    var tag := ModelTag(modelConfig);
    if tag.Some? && tag.value.JStr? && tag.value.s in cfg.modelDefaults then cfg.modelDefaults[tag.value.s] else map[]
  }

  /** The common defaults overridden by every truthy model default. */
  function Overridden(common: map<string, Json>, md: map<string, Json>): map<string, Json> {
    common + map k | k in md && Truthy(md[k]) :: md[k]
  }

  /** The parameters, or an exit when one of them is falsy. */
  function ServerParams(cfg: ServerConfig, modelConfig: map<string, Json>): Result<map<string, Json>, ServerError> {
    var p := Overridden(cfg.commonDefaults, ModelDefaults(cfg, modelConfig));
    if exists k :: k in p && !Truthy(p[k]) then Failure(SystemExit(1)) else Success(p)
  }

  /**
   * The parameters are the common defaults' and the model's truthy
   * defaults' names; a truthy model default wins, any other keeps the
   * common value; the server starts only when every value is truthy.
   */
  lemma ServerParamsMeaning(cfg: ServerConfig, modelConfig: map<string, Json>)
    ensures var md := ModelDefaults(cfg, modelConfig); var r := ServerParams(cfg, modelConfig);
      && (r.Success? <==>
            forall k :: k in cfg.commonDefaults && !Truthy(cfg.commonDefaults[k]) ==> k in md && Truthy(md[k]))
      && (r.Success? ==>
            && r.value.Keys == cfg.commonDefaults.Keys + (set k | k in md && Truthy(md[k]))
            && (forall k :: k in r.value ==> Truthy(r.value[k]))
            && (forall k :: k in md && Truthy(md[k]) ==> r.value[k] == md[k])
            && (forall k :: k in cfg.commonDefaults && !(k in md && Truthy(md[k])) ==> r.value[k] == cfg.commonDefaults[k]))
  {
  }

  /** `get_server_params` on the configurations once read. */
  method GetServerParams(cfg: ServerConfig, modelConfig: map<string, Json>) returns (r: Result<map<string, Json>, ServerError>)
    ensures r == ServerParams(cfg, modelConfig)
  {
    var params := cfg.commonDefaults;
    var tag := ModelTag(modelConfig);
    if tag.Some? && tag.value.JStr? && tag.value.s in cfg.modelDefaults {
      params := ApplyDefaults(params, cfg.modelDefaults[tag.value.s]);
    } else {
      assert params == Overridden(cfg.commonDefaults, map[]);
    }
    r := CheckParams(params);
  }

  /** The loop over the model defaults: every truthy one replaces the common value. */
  method ApplyDefaults(common: map<string, Json>, md: map<string, Json>) returns (params: map<string, Json>)
    ensures params == Overridden(common, md)
  {
    params := common;
    var todo := md.Keys;
    while todo != {}
      invariant todo <= md.Keys
      invariant forall k :: k in params <==> k in common || (k in md && k !in todo && Truthy(md[k]))
      invariant forall k :: k in params ==>
        params[k] == if k in md && k !in todo && Truthy(md[k]) then md[k] else common[k]
      decreases |todo|
    {
      var name :| name in todo;
      if Truthy(md[name]) {
        params := params[name := md[name]];
      }
      todo := todo - {name};
    }
  }

  /** The loop over the parameters: the first falsy one ends the program. */
  method CheckParams(params: map<string, Json>) returns (r: Result<map<string, Json>, ServerError>)
    ensures r.Success? <==> forall k :: k in params ==> Truthy(params[k])
    ensures r.Success? ==> r.value == params
    ensures r.Failure? ==> r.error == SystemExit(1)
  {
    var check := params.Keys;
    while check != {}
      invariant check <= params.Keys
      invariant forall k :: k in params && k !in check ==> Truthy(params[k])
      decreases |check|
    {
      var name :| name in check;
      if !Truthy(params[name]) {
        return Failure(SystemExit(1));
      }
      check := check - {name};
    }
    r := Success(params);
  }
}
