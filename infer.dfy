/**
 * The config-rewriting half of the pipeline builder in
 * deeppavlov/core/commands/infer.py: `build_model_from_config` and the
 * argument shaping of `interact_model`.
 *
 * The component factory `from_params`, the `Chainer` and the model's
 * `reset` are parameters: a component is whatever `build` returns for its
 * (rewritten) config, and a built pipeline records what was handed to the
 * chainer. Console input is a list of lines.
 */
module Infer {
  import opened Wrappers
  import opened Text
  import opened Json

  type Config = map<string, Json>

  /** `config[key]` on a missing key, or a config part of the wrong JSON type. */
  datatype BuildError = KeyError(key: string) | TypeError

  // ---------------------------------------------------------------------
  // load_path renewal
  // ---------------------------------------------------------------------

  /** A trained component: one that is fitted (`fit_on`) or supervised (`in_y`). */
  predicate Trained(cc: Config) {
    "fit_on" in cc || "in_y" in cc
  }

  /** With `load_trained`, a trained component that has a `save_path` reads its weights from there. */
  predicate Renews(loadTrained: bool, cc: Config) {
    loadTrained && Trained(cc) && "save_path" in cc
  }

  /** `component_config['load_path'] = component_config['save_path']` when the component renews. */
  function Renew(loadTrained: bool, cc: Config): (r: Config)
    ensures r.Keys == cc.Keys + (if Renews(loadTrained, cc) then {"load_path"} else {})
    ensures forall k :: k in cc && k != "load_path" ==> r[k] == cc[k]
    ensures Renews(loadTrained, cc) ==> r["load_path"] == cc["save_path"]
    ensures !Renews(loadTrained, cc) ==> r == cc
  {
    if Renews(loadTrained, cc) then cc["load_path" := cc["save_path"]] else cc
  }

  /** A trained component without `save_path` under `load_trained`: its `load_path` stays, with a warning. */
  predicate Unrenewable(loadTrained: bool, cc: Config) {
    loadTrained && Trained(cc) && "save_path" !in cc
  }

  /** The name the warning gives: `name`, else `ref`, else `UNKNOWN`. */
  function ComponentName(cc: Config): Json {
    if "name" in cc then cc["name"] else if "ref" in cc then cc["ref"] else JStr("UNKNOWN")
  }

  // ---------------------------------------------------------------------
  // The chainer branch
  // ---------------------------------------------------------------------

  /** The arguments of `model.append(c_in, c_out, component, in_y, main)`. */
  datatype Binding<C> = Binding(inputs: Json, outputs: Json, component: C, inY: Json, main: Json)

  /** The binding of a component with `in`: `in_y` defaults to None and `main` to False. */
  function BindingOf<C>(cc: Config, component: C): (b: Binding<C>)
    requires "in" in cc && "out" in cc
    ensures b.inputs == cc["in"] && b.outputs == cc["out"] && b.component == component
    ensures b.inY == (if "in_y" in cc then cc["in_y"] else JNull)
    ensures b.main == (if "main" in cc then cc["main"] else JBool(false))
  {
    Binding(cc["in"], cc["out"], component, Get(cc, "in_y"), if "main" in cc then cc["main"] else JBool(false))
  }

  /**
   * What the pipe loop leaves: the rewritten component configs, the built
   * components, the bindings appended to the chainer and the names warned about.
   */
  datatype Pipeline<C> = Pipeline(pipe: seq<Config>, components: seq<C>, bindings: seq<Binding<C>>, warnings: seq<Json>)

  /** The positions of the components that have `in`, in declaration order. */
  function Bound(pipe: seq<Config>): (ps: seq<nat>)
    ensures forall k :: 0 <= k < |ps| ==> ps[k] < |pipe| && "in" in pipe[ps[k]]
  {
    if pipe == [] then [] else Bound(pipe[..|pipe| - 1]) + (if "in" in pipe[|pipe| - 1] then [|pipe| - 1] else [])
  }

  /** `Bound` lists exactly the components with `in`, in increasing order. */
  lemma {:induction false} BoundMeaning(pipe: seq<Config>)
    ensures Increasing(Bound(pipe))
    ensures forall i :: i in Bound(pipe) <==> 0 <= i < |pipe| && "in" in pipe[i]
  {
    if pipe != [] {
      var init := pipe[..|pipe| - 1];
      BoundMeaning(init);
      assert forall i :: 0 <= i < |init| ==> init[i] == pipe[i];
    }
  }

  /** A component with `in` but no `out`: `component_config['out']` raises on it. */
  predicate MissingOut(pipe: seq<Config>) {
    exists i :: 0 <= i < |pipe| && "in" in pipe[i] && "out" !in pipe[i]
  }

  /** The bindings of the components with `in`, in order. */
  function Bindings<C>(pipe: seq<Config>, comps: seq<C>): (bs: seq<Binding<C>>)
    requires |comps| == |pipe| && !MissingOut(pipe)
    ensures |bs| == |Bound(pipe)|
  {
    var ps := Bound(pipe);
    seq(|ps|, k requires 0 <= k < |ps| => BindingOf(pipe[ps[k]], comps[ps[k]]))
  }

  /** The names of the trained components whose `load_path` could not be renewed, in order. */
  function Warnings(loadTrained: bool, pipe: seq<Config>): seq<Json> {
    if pipe == [] then []
    else Warnings(loadTrained, pipe[..|pipe| - 1])
         + (if Unrenewable(loadTrained, pipe[|pipe| - 1]) then [ComponentName(pipe[|pipe| - 1])] else [])
  }

  /** Every config renewed, every component built from its renewed config, in order. */
  function Assembled<C>(pipe: seq<Config>, loadTrained: bool, build: (Config, string) -> C, mode: string): Pipeline<C>
    requires !MissingOut(pipe)
  {
    var rw := seq(|pipe|, i requires 0 <= i < |pipe| => Renew(loadTrained, pipe[i]));
    var comps := seq(|pipe|, i requires 0 <= i < |pipe| => build(rw[i], mode));
    assert !MissingOut(rw) by {
      forall i | 0 <= i < |pipe| ensures ("in" in rw[i] <==> "in" in pipe[i]) && ("out" in rw[i] <==> "out" in pipe[i]) { }
    }
    Pipeline(rw, comps, Bindings(rw, comps), Warnings(loadTrained, pipe))
  }

  /**
   * The loop over `model_config['pipe']`: renew, build, and append a binding
   * for each component with `in`. It raises `KeyError('out')` at the first
   * component with `in` but no `out`.
   */
  method BuildPipe<C>(pipe: seq<Config>, loadTrained: bool, build: (Config, string) -> C, mode: string)
    returns (r: Result<Pipeline<C>, BuildError>)
    ensures r.Failure? <==> MissingOut(pipe)
    ensures r.Failure? ==> r.error == KeyError("out")
    ensures r.Success? ==> r.value == Assembled(pipe, loadTrained, build, mode)
  {
    var rw: seq<Config> := [];
    var comps: seq<C> := [];
    var bindings: seq<Binding<C>> := [];
    var warnings: seq<Json> := [];
    var i := 0;
    while i < |pipe|
      invariant 0 <= i <= |pipe|
      invariant BuiltUpTo(pipe, loadTrained, build, mode, i, rw, comps, bindings, warnings)
    {
      var missing;
      missing, rw, comps, bindings, warnings := BuildNext(pipe, loadTrained, build, mode, i, rw, comps, bindings, warnings);
      if missing {
        return Failure(KeyError("out"));
      }
      i := i + 1;
    }
    assert pipe[..i] == pipe;
    AssembledFrom(pipe, loadTrained, build, mode, rw, comps);
    r := Success(Pipeline(rw, comps, bindings, warnings));
  }

  /** What the loop of `BuildPipe` holds after the first `i` components. */
  ghost predicate BuiltUpTo<C>(pipe: seq<Config>, loadTrained: bool, build: (Config, string) -> C, mode: string, i: nat,
                               rw: seq<Config>, comps: seq<C>, bindings: seq<Binding<C>>, warnings: seq<Json>)
    requires i <= |pipe|
  {
    && !MissingOut(pipe[..i])
    && |rw| == i && |comps| == i
    && (forall j :: 0 <= j < i ==> rw[j] == Renew(loadTrained, pipe[j]) && comps[j] == build(rw[j], mode))
    && !MissingOut(rw)
    && bindings == Bindings(rw, comps)
    && warnings == Warnings(loadTrained, pipe[..i])
  }

  /** One pass of the loop of `BuildPipe`: component `i` is renewed and built, or its missing `out` is reported. */
  method BuildNext<C>(pipe: seq<Config>, loadTrained: bool, build: (Config, string) -> C, mode: string, i: nat,
                      rw: seq<Config>, comps: seq<C>, bindings: seq<Binding<C>>, warnings: seq<Json>)
    returns (missing: bool, rw': seq<Config>, comps': seq<C>, bindings': seq<Binding<C>>, warnings': seq<Json>)
    requires i < |pipe| && BuiltUpTo(pipe, loadTrained, build, mode, i, rw, comps, bindings, warnings)
    ensures missing <==> "in" in pipe[i] && "out" !in pipe[i]
    ensures missing ==> MissingOut(pipe)
    ensures !missing ==> BuiltUpTo(pipe, loadTrained, build, mode, i + 1, rw', comps', bindings', warnings')
  {
    var cc := pipe[i];
    PipeStep(pipe, loadTrained, i);
    warnings' := warnings;
    if Unrenewable(loadTrained, cc) {
      warnings' := warnings + [ComponentName(cc)];
    }
    cc := Renew(loadTrained, cc);
    var component := build(cc, mode);
    bindings' := bindings;
    if "in" in cc {
      if "out" !in cc {
        return true, rw, comps, bindings, warnings;
      }
      bindings' := bindings + [BindingOf(cc, component)];
    }
    BindingsAppend(rw, comps, cc, component);
    rw' := rw + [cc];
    comps' := comps + [component];
    missing := false;
  }

  /** One more component of the pipe: its own `in`/`out` decide whether a key is missing, and its warning, if any, is added. */
  lemma PipeStep(pipe: seq<Config>, loadTrained: bool, i: nat)
    requires i < |pipe| && !MissingOut(pipe[..i])
    ensures MissingOut(pipe[..i + 1]) <==> "in" in pipe[i] && "out" !in pipe[i]
    ensures "in" in pipe[i] && "out" !in pipe[i] ==> MissingOut(pipe)
    ensures Warnings(loadTrained, pipe[..i + 1])
        == Warnings(loadTrained, pipe[..i]) + (if Unrenewable(loadTrained, pipe[i]) then [ComponentName(pipe[i])] else [])
  {
    var p := pipe[..i + 1];
    assert p[..i] == pipe[..i];
    assert forall j :: 0 <= j < i ==> p[j] == pipe[..i][j];
    assert p[i] == pipe[i];
  }

  /** `Assembled` is the pipeline of any renewed configs and components that agree with it position by position. */
  lemma AssembledFrom<C>(pipe: seq<Config>, loadTrained: bool, build: (Config, string) -> C, mode: string,
                         rw: seq<Config>, comps: seq<C>)
    requires !MissingOut(pipe) && !MissingOut(rw)
    requires |rw| == |pipe| && |comps| == |pipe|
    requires forall j :: 0 <= j < |pipe| ==> rw[j] == Renew(loadTrained, pipe[j]) && comps[j] == build(rw[j], mode)
    ensures Assembled(pipe, loadTrained, build, mode) == Pipeline(rw, comps, Bindings(rw, comps), Warnings(loadTrained, pipe))
  {
    var a := Assembled(pipe, loadTrained, build, mode);
    assert a.pipe == rw;
    assert a.components == comps;
  }

  /** Appending one component extends the bindings by its own binding, if it has `in`. */
  lemma BindingsAppend<C>(pipe: seq<Config>, comps: seq<C>, cc: Config, component: C)
    requires |comps| == |pipe| && !MissingOut(pipe)
    requires "in" in cc ==> "out" in cc
    ensures !MissingOut(pipe + [cc])
    ensures Bindings(pipe + [cc], comps + [component])
        == Bindings(pipe, comps) + (if "in" in cc then [BindingOf(cc, component)] else [])
  {
    var p := pipe + [cc];
    assert p[..|p| - 1] == pipe;
    assert forall i :: 0 <= i < |pipe| ==> p[i] == pipe[i];
    assert !MissingOut(p) by {
      forall i | 0 <= i < |p| && "in" in p[i] ensures "out" in p[i] {
        if i < |pipe| {
          assert p[i] == pipe[i];
        }
      }
    }
  }

  /**
   * The pipeline keeps every component in declaration order, and binds
   * exactly those with `in`, in that same order.
   */
  lemma AssembledMeaning<C>(pipe: seq<Config>, loadTrained: bool, build: (Config, string) -> C, mode: string)
    requires !MissingOut(pipe)
    ensures var a := Assembled(pipe, loadTrained, build, mode);
      && |a.pipe| == |pipe| == |a.components|
      && (forall i :: 0 <= i < |pipe| ==> a.pipe[i] == Renew(loadTrained, pipe[i]) && a.components[i] == build(a.pipe[i], mode))
      && |a.bindings| == |Bound(pipe)|
      && Increasing(Bound(pipe))
      && (forall i :: i in Bound(pipe) <==> 0 <= i < |pipe| && "in" in pipe[i])
      && (forall k :: 0 <= k < |a.bindings| ==>
            a.bindings[k] == BindingOf(a.pipe[Bound(pipe)[k]], a.components[Bound(pipe)[k]]))
  {
    var a := Assembled(pipe, loadTrained, build, mode);
    BoundSameKeys(pipe, a.pipe);
    BoundMeaning(pipe);
  }

  /** Components with `in` sit at the same positions after renewal, which never touches `in`. */
  lemma {:induction false} BoundSameKeys(pipe: seq<Config>, rw: seq<Config>)
    requires |rw| == |pipe| && forall i :: 0 <= i < |pipe| ==> ("in" in rw[i] <==> "in" in pipe[i])
    ensures Bound(rw) == Bound(pipe)
  {
    if pipe != [] {
      BoundSameKeys(pipe[..|pipe| - 1], rw[..|rw| - 1]);
    }
  }

  /** Without `load_trained` nothing is rewritten and nothing is warned about. */
  lemma {:induction false} NoRewriteWithoutLoadTrained<C>(pipe: seq<Config>, build: (Config, string) -> C, mode: string)
    requires !MissingOut(pipe)
    ensures Assembled(pipe, false, build, mode).pipe == pipe
    ensures Warnings(false, pipe) == []
  {
    if pipe != [] {
      NoRewriteWithoutLoadTrained(pipe[..|pipe| - 1], build, mode);
    }
  }

  // ---------------------------------------------------------------------
  // build_model_from_config
  // ---------------------------------------------------------------------

  /** What `build_model_from_config` returns. */
  datatype Built<C, V> =
    | Chained(inputs: Json, outputs: Json, inY: Json, asComponent: bool, pipeline: Pipeline<C>)
      // `Chainer(in, out, in_y, as_component)` with the pipe appended
    | Single(config: Config, vocabs: map<string, V>, model: C, warned: bool)
      // the legacy `model` branch: the model built over the vocabularies, then reset

  /** The list items as dicts, if every item is one. */
  function Objects(items: seq<Json>): (r: Option<seq<Config>>)
    ensures r.Some? <==> forall i :: 0 <= i < |items| ==> items[i].JObject?
    ensures r.Some? ==> |r.value| == |items| && forall i :: 0 <= i < |items| ==> r.value[i] == items[i].fields
  {
    if forall i :: 0 <= i < |items| ==> items[i].JObject? then
      Some(seq(|items|, i requires 0 <= i < |items| => items[i].fields))
    else None
  }

  /** `model_config['load_path'] = model_config['save_path']` in the legacy branch, which needs no `fit_on`. */
  function RenewModel(loadTrained: bool, cfg: Config): (r: Config)
    ensures loadTrained && "save_path" in cfg ==> r == cfg["load_path" := cfg["save_path"]]
    ensures !(loadTrained && "save_path" in cfg) ==> r == cfg
  {
    if loadTrained && "save_path" in cfg then cfg["load_path" := cfg["save_path"]] else cfg
  }

  /** Every vocabulary config is a dict. */
  predicate VocabConfigs(fields: map<string, Json>) {
    forall k :: k in fields ==> fields[k].JObject?
  }

  /** `vocabs[name] = from_params(vocab_config)` for every entry of `config['vocabs']`. */
  function BuiltVocabs<V>(fields: map<string, Json>, buildVocab: (Config, string) -> V, mode: string): (vs: map<string, V>)
    requires VocabConfigs(fields)
    ensures vs.Keys == fields.Keys
  {
    map k | k in fields :: buildVocab(fields[k].fields, mode)
  }

  /** `build_model_from_config(config, mode, load_trained, as_component)`, or the error it raises. */
  function BuildResult<C, V>(config: Config, mode: string, loadTrained: bool, asComponent: bool,
                             build: (Config, string) -> C, buildVocab: (Config, string) -> V,
                             buildModel: (Config, map<string, V>, string) -> C, reset: C -> C): Result<Built<C, V>, BuildError>
  {
    if "chainer" in config then
      if !config["chainer"].JObject? then Failure(TypeError)
      else
        var mc := config["chainer"].fields;
        if "in" !in mc then Failure(KeyError("in"))
        else if "out" !in mc then Failure(KeyError("out"))
        else if "pipe" !in mc then Failure(KeyError("pipe"))
        else if !mc["pipe"].JList? || Objects(mc["pipe"].items).None? then Failure(TypeError)
        else
          var pipe := Objects(mc["pipe"].items).value;
          if MissingOut(pipe) then Failure(KeyError("out"))
          else Success(Chained(mc["in"], mc["out"], Get(mc, "in_y"), asComponent, Assembled(pipe, loadTrained, build, mode)))
    else if "model" !in config then Failure(KeyError("model"))
    else if !config["model"].JObject? then Failure(TypeError)
    else
      var cfg := RenewModel(loadTrained, config["model"].fields);
      var warned := loadTrained && "save_path" !in config["model"].fields;
      if "vocabs" !in config then Success(Single(cfg, map[], reset(buildModel(cfg, map[], mode)), warned))
      else if !config["vocabs"].JObject? || !VocabConfigs(config["vocabs"].fields) then Failure(TypeError)
      else
        var vocabs := BuiltVocabs(config["vocabs"].fields, buildVocab, mode);
        Success(Single(cfg, vocabs, reset(buildModel(cfg, vocabs, mode)), warned))
  }

  /**
   * `build_model_from_config`: a chainer config builds its pipe; a legacy
   * `model` config builds its vocabularies, passes them to the model and
   * resets it once.
   */
  method BuildModelFromConfig<C, V>(config: Config, mode: string, loadTrained: bool, asComponent: bool,
                                    build: (Config, string) -> C, buildVocab: (Config, string) -> V,
                                    buildModel: (Config, map<string, V>, string) -> C, reset: C -> C)
    returns (r: Result<Built<C, V>, BuildError>)
    ensures r == BuildResult(config, mode, loadTrained, asComponent, build, buildVocab, buildModel, reset)
  {
    if "chainer" in config {
      if !config["chainer"].JObject? {
        return Failure(TypeError);
      }
      var mc := config["chainer"].fields;
      if "in" !in mc {
        return Failure(KeyError("in"));
      }
      if "out" !in mc {
        return Failure(KeyError("out"));
      }
      if "pipe" !in mc {
        return Failure(KeyError("pipe"));
      }
      if !mc["pipe"].JList? || Objects(mc["pipe"].items).None? {
        return Failure(TypeError);
      }
      var built := BuildPipe(Objects(mc["pipe"].items).value, loadTrained, build, mode);
      match built
      case Failure(e) => return Failure(e);
      case Success(p) => return Success(Chained(mc["in"], mc["out"], Get(mc, "in_y"), asComponent, p));
    }
    if "model" !in config {
      return Failure(KeyError("model"));
    }
    if !config["model"].JObject? {
      return Failure(TypeError);
    }
    var cfg := config["model"].fields;
    var warned := false;
    if loadTrained {
      if "save_path" in cfg {
        cfg := cfg["load_path" := cfg["save_path"]];
      } else {
        warned := true;
      }
    }
    var vocabs: map<string, V> := map[];
    if "vocabs" in config {
      if !config["vocabs"].JObject? {
        return Failure(TypeError);
      }
      var fields := config["vocabs"].fields;
      var todo := fields.Keys;
      while todo != {}
        invariant todo <= fields.Keys
        invariant forall k :: k in fields && k !in todo ==> fields[k].JObject?
        invariant vocabs.Keys == fields.Keys - todo
        invariant forall k :: k in vocabs ==> vocabs[k] == buildVocab(fields[k].fields, mode)
        decreases |todo|
      {
        var name :| name in todo;
        if !fields[name].JObject? {
          return Failure(TypeError);
        }
        vocabs := vocabs[name := buildVocab(fields[name].fields, mode)];
        todo := todo - {name};
      }
      assert vocabs == BuiltVocabs(fields, buildVocab, mode);
    }
    var model := buildModel(cfg, vocabs, mode);
    model := reset(model);
    r := Success(Single(cfg, vocabs, model, warned));
  }

  /**
   * In the legacy branch every `vocabs` entry is built and handed to the
   * model, which is reset exactly once; the config is renewed without any
   * `fit_on` condition.
   */
  lemma LegacyBuild<C, V>(config: Config, mode: string, loadTrained: bool, asComponent: bool,
                          build: (Config, string) -> C, buildVocab: (Config, string) -> V,
                          buildModel: (Config, map<string, V>, string) -> C, reset: C -> C)
    requires "chainer" !in config
    requires BuildResult(config, mode, loadTrained, asComponent, build, buildVocab, buildModel, reset).Success?
    ensures var b := BuildResult(config, mode, loadTrained, asComponent, build, buildVocab, buildModel, reset).value;
      && b.Single?
      && b.config == RenewModel(loadTrained, config["model"].fields)
      && b.vocabs.Keys == (if "vocabs" in config then config["vocabs"].fields.Keys else {})
      && (forall k :: k in b.vocabs ==> b.vocabs[k] == buildVocab(config["vocabs"].fields[k].fields, mode))
      && b.model == reset(buildModel(b.config, b.vocabs, mode))
      && (b.warned <==> loadTrained && "save_path" !in config["model"].fields)
  {
  }

  // ---------------------------------------------------------------------
  // interact_model
  // ---------------------------------------------------------------------

  /** The words that end the session. */
  predicate IsExitWord(s: string) {
    s == "exit" || s == "stop" || s == "quit" || s == "q"
  }

  predicate HasExitWord(lines: seq<string>) {
    exists k :: 0 <= k < |lines| && IsExitWord(lines[k])
  }

  /** What the model is called with: `args` itself for one input, `[args]` for several. */
  datatype ModelCall = Flat(args: seq<string>) | Wrapped(batch: seq<seq<string>>)

  function Shape(args: seq<string>): (c: ModelCall)
    ensures |args| == 1 ==> c == Flat(args)
    ensures |args| != 1 ==> c == Wrapped([args])
  {
    if |args| == 1 then Flat(args) else Wrapped([args])
  }

  /** The lines a call was made from. */
  function Typed(c: ModelCall): seq<string> {
    match c
    case Flat(args) => args
    case Wrapped(batch) => if |batch| == 1 then batch[0] else []
  }

  /** The lines of all calls, in order. */
  function Concat(calls: seq<ModelCall>): seq<string> {
    if calls == [] then [] else Typed(calls[0]) + Concat(calls[1..])
  }

  /**
   * How a session ends: at an exit word, when the input runs out (Python's
   * `input` raises EOFError), or never, when the model has no inputs and the
   * loop calls it with `[[]]` forever without reading anything.
   */
  datatype Ending = Exited | EndOfInput | Forever

  /** The model calls of a session, and how it ended. */
  datatype Session = Session(calls: seq<ModelCall>, ending: Ending)

  /** The session over the console lines `lines` for a model reading `width` inputs per round. */
  function Interaction(width: nat, lines: seq<string>): Session
    decreases |lines|
  {
    if width == 0 then Session([], Forever)
    else if HasExitWord(lines[..Min(width, |lines|)]) then Session([], Exited)
    else if |lines| < width then Session([], EndOfInput)
    else
      var rest := Interaction(width, lines[width..]);
      Session([Shape(lines[..width])] + rest.calls, rest.ending)
  }

  /** One round of `interact_model`: read one line per model input, stopping at an exit word. */
  method Round(width: nat, lines: seq<string>, pos: nat) returns (args: seq<string>, exited: bool)
    requires pos <= |lines|
    ensures exited <==> HasExitWord(lines[pos..][..Min(width, |lines| - pos)])
    ensures !exited ==> args == lines[pos..][..Min(width, |lines| - pos)]
  {
    args := [];
    var window := lines[pos..][..Min(width, |lines| - pos)];
    var k := 0;
    while k < |window|
      invariant 0 <= k <= |window|
      invariant args == window[..k]
      invariant !HasExitWord(args)
    {
      args := args + [window[k]];
      assert args == window[..k + 1];
      if IsExitWord(args[|args| - 1]) {
        assert HasExitWord(window) by {
          assert IsExitWord(window[k]);
        }
        return args, true;
      }
      k := k + 1;
    }
    assert args == window;
    exited := false;
  }

  /** `interact_model` with the console as a list of lines and the chainer's `in_x` of length `width`. */
  method InteractModel(width: nat, lines: seq<string>) returns (s: Session)
    ensures s == Interaction(width, lines)
  {
    if width == 0 {
      return Session([], Forever);
    }
    var calls: seq<ModelCall> := [];
    var pos := 0;
    while true
      invariant pos <= |lines|
      invariant Interaction(width, lines) == Session(calls + Interaction(width, lines[pos..]).calls, Interaction(width, lines[pos..]).ending)
      decreases |lines| - pos
    {
      var args, exited := Round(width, lines, pos);
      if exited {
        return Session(calls, Exited);
      }
      if |args| < width {
        return Session(calls, EndOfInput);
      }
      assert lines[pos..][width..] == lines[pos + width..];
      calls := calls + [Shape(args)];
      pos := pos + width;
    }
  }

  /**
   * Every model call gets one line per input, none of them an exit word,
   * and the calls' lines are the lines typed, in order.
   */
  lemma {:induction false} InteractionCalls(width: nat, lines: seq<string>)
    requires width > 0
    ensures var s := Interaction(width, lines);
      && (forall c :: c in s.calls ==> c == Shape(Typed(c)) && |Typed(c)| == width)
      && |Concat(s.calls)| <= |lines|
      && Concat(s.calls) == lines[..|Concat(s.calls)|]
      && !HasExitWord(Concat(s.calls))
    decreases |lines|
  {
    var s := Interaction(width, lines);
    if !HasExitWord(lines[..Min(width, |lines|)]) && |lines| >= width {
      var rest := lines[width..];
      InteractionCalls(width, rest);
      var r := Interaction(width, rest);
      var head := lines[..width];
      assert s.calls == [Shape(head)] + r.calls;
      assert Typed(Shape(head)) == head;
      assert (s.calls)[1..] == r.calls;
      var cr := Concat(r.calls);
      assert Concat(s.calls) == head + cr;
      assert head + cr == lines[..width + |cr|] by {
        assert rest[..|cr|] == lines[width..width + |cr|];
      }
      assert !HasExitWord(head + cr) by {
        forall k | 0 <= k < |head + cr| ensures !IsExitWord((head + cr)[k]) {
          if k < width {
            assert (head + cr)[k] == head[k];
          } else {
            assert (head + cr)[k] == cr[k - width];
          }
        }
      }
    }
  }

  /**
   * The session ends at an exit word exactly when one is typed in the round
   * after the last call, and runs out of input when that round is short.
   */
  lemma {:induction false} InteractionEnding(width: nat, lines: seq<string>)
    requires width > 0
    ensures var s := Interaction(width, lines);
      && |Concat(s.calls)| <= |lines|
      && var tail := lines[|Concat(s.calls)|..];
      && (s.ending == Exited <==> HasExitWord(tail[..Min(width, |tail|)]))
      && (s.ending == EndOfInput ==> |tail| < width)
      && s.ending != Forever
    decreases |lines|
  {
    InteractionCalls(width, lines);
    var s := Interaction(width, lines);
    if !HasExitWord(lines[..Min(width, |lines|)]) && |lines| >= width {
      var rest := lines[width..];
      InteractionEnding(width, rest);
      var r := Interaction(width, rest);
      assert (s.calls)[1..] == r.calls;
      assert Typed(Shape(lines[..width])) == lines[..width];
      assert |Concat(s.calls)| == width + |Concat(r.calls)|;
      assert lines[|Concat(s.calls)|..] == rest[|Concat(r.calls)|..];
    }
  }

  /** With one model input each call passes the line itself; with several, a batch of one row. */
  lemma ShapeOfCalls(width: nat, lines: seq<string>)
    requires width > 0
    ensures forall c :: c in Interaction(width, lines).calls ==>
      (width == 1 ==> c.Flat? && |c.args| == 1) && (width > 1 ==> c.Wrapped? && |c.batch| == 1 && |c.batch[0]| == width)
  {
    InteractionCalls(width, lines);
  }
}
