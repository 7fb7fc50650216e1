/** The NEST back end's connectors: how the synapse parameters of a projection
    are translated into the dictionary NEST's Connect expects, the rule
    dictionary each connector kind hands to NEST, and the connection-set
    (CSA) connector that lets NEST iterate a connection set itself.

    The native random generator, lazy-array evaluation and the
    transformation expressions are fixed functions in an Externals value;
    what csa.arity reports is the arity field of a ConnectionSet; calls into
    NEST and into the projection are recorded on Kernel and Projection. */
module NestConnectors {
  import opened Wrappers

  // ---------------------------------------------------------------------------
  // Parameter values
  // ---------------------------------------------------------------------------

  /** A value in a random-number generator's parameter dictionary. */
  datatype Param = Num(x: real) | Str(s: string)

  /** A random distribution as the user gave it: its name ('normal',
      'uniform', ...) and its parameters. */
  datatype RandomDistribution = RandomDistribution(name: string, parameters: map<string, Param>)

  /** What a synapse parameter was built from: a random distribution, or
      explicit values (a number, an array, a function), which the model does
      not look inside. */
  datatype Base = Random(dist: RandomDistribution) | Given(id: nat)

  /** A lazy array of synapse parameter values. An empty shape stands for a
      shape that is not set (None or ()). */
  datatype LazyArray = LazyArray(base: Base, homogeneous: bool, shape: seq<nat>)

  /** The outside pieces synapse_parameters relies on.
      - nestRdevTypes: the distribution names NEST can draw from natively;
      - transformations: per distribution, per parameter, the expression that
        converts that parameter into NEST's units;
      - nativeParameters: the parameter dictionary of NativeRNG(dist);
      - evalExpression: evaluating a transformation expression with the
        generator's parameters as its globals;
      - simplified: evaluate(simplify=True) of a homogeneous lazy array;
      - flattened: evaluate().flatten() of a shaped lazy array;
      - evaluateAt: evaluate() of a lazy array after its shape has been set
        to (rows, columns). */
  datatype Externals = Externals(
    nestRdevTypes: set<string>,
    transformations: map<string, map<string, string>>,
    nativeParameters: RandomDistribution -> map<string, Param>,
    evalExpression: (string, map<string, Param>) -> Result<Param, string>,
    simplified: LazyArray -> real,
    flattened: LazyArray -> seq<real>,
    evaluateAt: (LazyArray, nat, nat) -> seq<seq<real>>)

  /** One entry of the dictionary handed to NEST. */
  datatype Entry =
    | Text(s: string)                       // the synapse model name
    | Number(x: real)                       // a single value
    | Vector(xs: seq<real>)                 // a flattened array of values
    | Matrix(rows: seq<seq<real>>)          // a pre x post array of random values
    | Dict(params: map<string, Param>)      // a distribution NEST draws from itself

  /** Why synapse_parameters raised. */
  datatype ParameterError =
    | KeyError(key: string)                 // a missing transformation
    | AttributeError(attribute: string)     // the connector has no `post`
    | TypeError                             // float() of an array with more than one value
    | EvalError(message: string)            // the transformation expression raised

  /** The parameters NEST does not take and that are skipped. */
  const Dropped: set<string> := {"tau_minus", "dendritic_delay_fraction", "w_min_always_zero_in_NEST"}

  // ---------------------------------------------------------------------------
  // The projection and the NEST kernel
  // ---------------------------------------------------------------------------

  /** A connector kind with the fields its connect reads. */
  datatype Connector =
    | FixedProbability(allowSelfConnections: bool, withReplacement: bool, pConnect: real)
    | AllToAll(allowSelfConnections: bool)
    | OneToOne(allowSelfConnections: bool, withReplacement: bool)
    | FixedNumberPre(allowSelfConnections: bool, withReplacement: bool, n: int)
    | FixedNumberPost(allowSelfConnections: bool, withReplacement: bool, n: int)
    | FixedTotalNumber(allowSelfConnections: bool, withReplacement: bool, n: int)

  /** A value of a NEST rule dictionary. */
  datatype RuleValue = Flag(b: bool) | Name(s: string) | Probability(p: real) | Count(n: int)

  /** A connection set and its arity as csa.arity reports it. */
  datatype ConnectionSet = ConnectionSet(id: nat, arity: int)

  /** A call into NEST's kernel. */
  datatype NestCall =
    CGConnect(pre: seq<int>, post: seq<int>, cset: ConnectionSet, paramMap: Option<map<string, int>>, model: string)

  /** The NEST kernel: only the calls made into it are kept. */
  class Kernel {
    var calls: seq<NestCall>

    constructor ()
      ensures calls == []
    {
      calls := [];
    }
  }

  /** The parts of a NEST projection the connectors read and write. */
  class Projection {
    const synapseModel: string              // nest_synapse_model
    const receptorType: string
    const preCells: seq<int>                // pre.all_cells
    const postCells: seq<int>               // post.all_cells
    var connections: Option<seq<(int, int)>> // the cached connection list
    var sources: seq<int>
    var connectCalls: seq<(map<string, RuleValue>, map<string, Entry>)> // calls of _connect

    constructor (synapseModel: string, receptorType: string, preCells: seq<int>, postCells: seq<int>)
      ensures this.synapseModel == synapseModel && this.receptorType == receptorType
      ensures this.preCells == preCells && this.postCells == postCells
      ensures connections == None && sources == [] && connectCalls == []
    {
      this.synapseModel := synapseModel;
      this.receptorType := receptorType;
      this.preCells := preCells;
      this.postCells := postCells;
      connections := None;
      sources := [];
      connectCalls := [];
    }
  }

  // ---------------------------------------------------------------------------
  // synapse_parameters
  // ---------------------------------------------------------------------------

  /** The NEST-side dictionary of a distribution NEST draws from itself:
      the native generator's parameters, with only 'weight' rewritten by
      the distribution's transformation for it. */
  function NativeEntry(ext: Externals, dist: RandomDistribution): (r: Result<map<string, Param>, ParameterError>)
    ensures var ps := ext.nativeParameters(dist);
      && (r.Success? ==> r.value.Keys == ps.Keys && forall k :: k in ps && k != "weight" ==> r.value[k] == ps[k])
      && ("weight" !in ps ==> r == Success(ps))
      && (r.Success? && "weight" in ps ==>
            && dist.name in ext.transformations && "weight" in ext.transformations[dist.name]
            && ext.evalExpression(ext.transformations[dist.name]["weight"], ps).Success?
            && r.value["weight"] == ext.evalExpression(ext.transformations[dist.name]["weight"], ps).value)
      && (r.Failure? <==>
            "weight" in ps &&
            (dist.name !in ext.transformations || "weight" !in ext.transformations[dist.name] ||
             ext.evalExpression(ext.transformations[dist.name]["weight"], ps).Failure?))
  {
    var ps := ext.nativeParameters(dist);
    if "weight" !in ps then Success(ps)
    else if dist.name !in ext.transformations then Failure(KeyError(dist.name))
    else if "weight" !in ext.transformations[dist.name] then Failure(KeyError("weight"))
    else match ext.evalExpression(ext.transformations[dist.name]["weight"], ps)
      case Success(w) => Success(ps["weight" := w])
      case Failure(m) => Failure(EvalError(m))
  }

  /** Which error a failing native entry carries: KeyError of the
      distribution's name when it has no transformations, KeyError of 'weight'
      when it has none for 'weight', and otherwise the error the expression
      raised. */
  lemma NativeEntryErrors(ext: Externals, dist: RandomDistribution)
    ensures var r, ps := NativeEntry(ext, dist), ext.nativeParameters(dist);
      && (r.Failure? && dist.name !in ext.transformations ==> r.error == KeyError(dist.name))
      && (r.Failure? && dist.name in ext.transformations && "weight" !in ext.transformations[dist.name] ==>
            r.error == KeyError("weight"))
      && (r.Failure? && dist.name in ext.transformations && "weight" in ext.transformations[dist.name] ==>
            var evaluated := ext.evalExpression(ext.transformations[dist.name]["weight"], ps);
            evaluated.Failure? && r.error == EvalError(evaluated.error))
  {
  }

  /** The inner loop of synapse_parameters for a distribution NEST knows:
      walks the native generator's parameters and copies each, except that
      'weight' goes through its transformation expression. */
  method NativeDistributionParameters(ext: Externals, dist: RandomDistribution)
    returns (r: Result<map<string, Param>, ParameterError>)
    ensures r == NativeEntry(ext, dist)
  {
    var ps := ext.nativeParameters(dist);
    var distParams: map<string, Param> := map[];
    var pending := ps.Keys;
    while pending != {}
      invariant pending <= ps.Keys
      invariant distParams.Keys == ps.Keys - pending
      invariant forall k :: k in distParams && k != "weight" ==> distParams[k] == ps[k]
      invariant "weight" in distParams ==> NativeEntry(ext, dist) == Success(ps["weight" := distParams["weight"]])
      decreases pending
    {
      var rngName :| rngName in pending;
      var pval;
      if rngName == "distribution" || rngName != "weight" {
        pval := ps[rngName];
      } else {
        if dist.name !in ext.transformations {
          return Failure(KeyError(dist.name));
        }
        if rngName !in ext.transformations[dist.name] {
          return Failure(KeyError(rngName));
        }
        var evaluated := ext.evalExpression(ext.transformations[dist.name][rngName], ps);
        if evaluated.Failure? {
          return Failure(EvalError(evaluated.error));
        }
        pval := evaluated.value;
      }
      distParams := distParams[rngName := pval];
      pending := pending - {rngName};
    }
    if "weight" in ps {
      assert distParams == ps["weight" := distParams["weight"]];
    } else {
      assert distParams == ps;
    }
    r := Success(distParams);
  }

  /** Explicit values, before any change of sign: a homogeneous value is
      simplified to one number, a shaped one is flattened, and anything
      else is given the shape (1, 1) and converted to a single float, which
      fails unless exactly one value comes out. */
  function ExplicitEntry(ext: Externals, value: LazyArray): (r: Result<Entry, ParameterError>)
    ensures value.homogeneous ==> r == Success(Number(ext.simplified(value)))
    ensures !value.homogeneous && value.shape != [] ==> r == Success(Vector(ext.flattened(value)))
    ensures !value.homogeneous && value.shape == [] ==>
      var m := ext.evaluateAt(value, 1, 1);
      (r.Success? <==> |m| == 1 && |m[0]| == 1) && (r.Success? ==> r.value == Number(m[0][0]))
    ensures r.Failure? ==> r.error == TypeError
  {
    if value.homogeneous then Success(Number(ext.simplified(value)))
    else if value.shape != [] then Success(Vector(ext.flattened(value)))
    else
      var m := ext.evaluateAt(value, 1, 1);
      if |m| == 1 && |m[0]| == 1 then Success(Number(m[0][0])) else Failure(TypeError)
  }

  /** params[name] *= -1 on an explicit entry: a number changes sign, an
      array changes sign element by element. */
  function Negate(e: Entry): (r: Entry)
    ensures e.Number? ==> r == Number(-e.x)
    ensures e.Vector? ==> r.Vector? && |r.xs| == |e.xs| && forall i :: 0 <= i < |e.xs| ==> r.xs[i] == -e.xs[i]
  {
    match e
    case Number(x) => Number(-x)
    case Vector(xs) => Vector(seq(|xs|, i requires 0 <= i < |xs| => -xs[i]))
    case _ => e
  }

  /** Whether the weight of an explicit entry has its sign changed. NEST wants
      inhibitory weights negative, conductances included; the test reads
      `post.conductance_based` on the connector itself, given here as
      connectorPost (None when the connector has no `post`). */
  function WeightSign(proj: Projection, connectorPost: Option<bool>, name: string, e: Entry): (r: Result<Entry, ParameterError>)
  {
    if name == "weight" && proj.receptorType == "inhibitory" then
      match connectorPost
      case None => Failure(AttributeError("post"))
      case Some(conductanceBased) => if conductanceBased then Success(Negate(e)) else Success(e)
    else Success(e)
  }

  /** The entry synapse_parameters makes for one kept parameter. */
  function Encode(ext: Externals, proj: Projection, connectorPost: Option<bool>, name: string, value: LazyArray)
    : (r: Result<Entry, ParameterError>)
  {
    match value.base
    case Random(dist) =>
      if dist.name in ext.nestRdevTypes then
        match NativeEntry(ext, dist)
        case Success(d) => Success(Dict(d))
        case Failure(err) => Failure(err)
      else Success(Matrix(ext.evaluateAt(value, |proj.preCells|, |proj.postCells|)))
    case Given(_) =>
      match ExplicitEntry(ext, value)
      case Success(e) => WeightSign(proj, connectorPost, name, e)
      case Failure(err) => Failure(err)
  }

  /** The sign rule: an explicit weight is negated exactly when the receptor
      is 'inhibitory' and the connector's post is conductance-based (reading
      a missing `post` raises); no other explicit parameter is touched, and a
      random parameter's entry depends neither on its name nor on `post`. */
  lemma EncodeSign(ext: Externals, proj: Projection, connectorPost: Option<bool>, name: string, value: LazyArray)
    ensures value.base.Given? ==> match ExplicitEntry(ext, value)
      case Failure(err) => Encode(ext, proj, connectorPost, name, value) == Failure(err)
      case Success(e) =>
        var r := Encode(ext, proj, connectorPost, name, value);
        var inhibitoryWeight := name == "weight" && proj.receptorType == "inhibitory";
        && (inhibitoryWeight && connectorPost == Some(true) ==> r == Success(Negate(e)))
        && (inhibitoryWeight && connectorPost == Some(false) ==> r == Success(e))
        && (inhibitoryWeight && connectorPost == None ==> r == Failure(AttributeError("post")))
        && (!inhibitoryWeight ==> r == Success(e))
    ensures value.base.Random? ==> forall other: string, otherPost: Option<bool> ::
      Encode(ext, proj, otherPost, other, value) == Encode(ext, proj, connectorPost, name, value)
  {
  }

  /** The body of synapse_parameters' loop for one kept parameter. */
  method EncodeParameter(ext: Externals, proj: Projection, connectorPost: Option<bool>, name: string, value: LazyArray)
    returns (r: Result<Entry, ParameterError>)
    ensures r == Encode(ext, proj, connectorPost, name, value)
  {
    var entry: Entry;
    if value.base.Random? {
      if value.base.dist.name in ext.nestRdevTypes {
        var distParams := NativeDistributionParameters(ext, value.base.dist);
        if distParams.Failure? {
          return Failure(distParams.error);
        }
        entry := Dict(distParams.value);
      } else {
        entry := Matrix(ext.evaluateAt(value, |proj.preCells|, |proj.postCells|));
      }
    } else {
      if value.homogeneous {
        entry := Number(ext.simplified(value));
      } else if value.shape != [] {
        entry := Vector(ext.flattened(value));
      } else {
        var m := ext.evaluateAt(value, 1, 1);
        if !(|m| == 1 && |m[0]| == 1) {
          return Failure(TypeError);
        }
        entry := Number(m[0][0]);
      }
      if name == "weight" && proj.receptorType == "inhibitory" {
        if connectorPost.None? {
          return Failure(AttributeError("post"));
        }
        if connectorPost.value {
          entry := Negate(entry);
        }
      }
    }
    r := Success(entry);
  }

  /** Every kept parameter encodes without raising. */
  ghost predicate AllEncode(ext: Externals, proj: Projection, connectorPost: Option<bool>, space: map<string, LazyArray>)
  {
    forall n :: n in space && n !in Dropped ==> Encode(ext, proj, connectorPost, n, space[n]).Success?
  }

  /** The entries of the parameters in `names`, dropped ones left out. */
  ghost function Collected(ext: Externals, proj: Projection, connectorPost: Option<bool>, space: map<string, LazyArray>,
                           names: set<string>): (m: map<string, Entry>)
  {
    map n | n in names && n in space && n !in Dropped && Encode(ext, proj, connectorPost, n, space[n]).Success?
      :: Encode(ext, proj, connectorPost, n, space[n]).value
  }

  /** The dictionary synapse_parameters returns: 'model' first, then one entry
      per kept parameter (a parameter itself named 'model' replaces it). */
  ghost function SynapseParams(ext: Externals, proj: Projection, connectorPost: Option<bool>, space: map<string, LazyArray>)
    : (m: map<string, Entry>)
  {
    map["model" := Text(proj.synapseModel)] + Collected(ext, proj, connectorPost, space, space.Keys)
  }

  /** Encoding one more parameter extends the dictionary by its entry. */
  lemma CollectedStep(ext: Externals, proj: Projection, connectorPost: Option<bool>, space: map<string, LazyArray>,
                      names: set<string>, name: string, e: Entry)
    requires name in space && name !in Dropped && Encode(ext, proj, connectorPost, name, space[name]) == Success(e)
    ensures (map["model" := Text(proj.synapseModel)] + Collected(ext, proj, connectorPost, space, names))[name := e]
            == map["model" := Text(proj.synapseModel)] + Collected(ext, proj, connectorPost, space, names + {name})
  {
  }

  /** A dropped parameter adds nothing. */
  lemma CollectedSkip(ext: Externals, proj: Projection, connectorPost: Option<bool>, space: map<string, LazyArray>,
                      names: set<string>, name: string)
    requires name in Dropped
    ensures Collected(ext, proj, connectorPost, space, names + {name}) == Collected(ext, proj, connectorPost, space, names)
  {
  }

  /** One kept parameter that raises is enough for the whole translation to
      fail with its error. */
  lemma EncodeFails(ext: Externals, proj: Projection, connectorPost: Option<bool>, space: map<string, LazyArray>,
                    name: string, err: ParameterError)
    requires name in space && name !in Dropped && Encode(ext, proj, connectorPost, name, space[name]) == Failure(err)
    ensures !AllEncode(ext, proj, connectorPost, space)
    ensures exists n :: n in space && n !in Dropped && Encode(ext, proj, connectorPost, n, space[n]) == Failure(err)
  {
  }

  /** synapse_parameters(projection): starts from {'model': nest_synapse_model}
      and walks the parameter space, skipping the dropped names, encoding
      random and explicit values as NEST wants them. The first parameter that
      raises stops the walk; which one that is depends on the dictionary's
      order, so the contract only says it is one that raises. */
  method SynapseParameters(ext: Externals, proj: Projection, connectorPost: Option<bool>, space: map<string, LazyArray>)
    returns (r: Result<map<string, Entry>, ParameterError>)
    ensures r.Success? <==> AllEncode(ext, proj, connectorPost, space)
    ensures r.Success? ==> r.value == SynapseParams(ext, proj, connectorPost, space)
    ensures r.Failure? ==>
      exists n :: n in space && n !in Dropped && Encode(ext, proj, connectorPost, n, space[n]) == Failure(r.error)
  {
    var params: map<string, Entry> := map["model" := Text(proj.synapseModel)];
    var pending := space.Keys;
    ghost var done: set<string> := {};
    while pending != {}
      invariant pending <= space.Keys && done == space.Keys - pending
      invariant forall n :: n in done && n !in Dropped ==> Encode(ext, proj, connectorPost, n, space[n]).Success?
      invariant params == map["model" := Text(proj.synapseModel)] + Collected(ext, proj, connectorPost, space, done)
      decreases pending
    {
      var name :| name in pending;
      pending := pending - {name};
      var next := AddParameter(ext, proj, connectorPost, space, done, name, params);
      if next.Failure? {
        return Failure(next.error);
      }
      params := next.value;
      done := done + {name};
    }
    r := Success(params);
  }

  /** One pass of synapse_parameters' loop: skip a dropped name, otherwise
      encode the parameter and add its entry to the dictionary built so far. */
  method AddParameter(ext: Externals, proj: Projection, connectorPost: Option<bool>, space: map<string, LazyArray>,
                      ghost done: set<string>, name: string, params: map<string, Entry>)
    returns (r: Result<map<string, Entry>, ParameterError>)
    requires name in space
    requires params == map["model" := Text(proj.synapseModel)] + Collected(ext, proj, connectorPost, space, done)
    ensures r.Success? ==>
      && (name !in Dropped ==> Encode(ext, proj, connectorPost, name, space[name]).Success?)
      && r.value == map["model" := Text(proj.synapseModel)] + Collected(ext, proj, connectorPost, space, done + {name})
    ensures r.Failure? ==>
      && !AllEncode(ext, proj, connectorPost, space)
      && exists n :: n in space && n !in Dropped && Encode(ext, proj, connectorPost, n, space[n]) == Failure(r.error)
  {
    if name in Dropped {
      CollectedSkip(ext, proj, connectorPost, space, done, name);
      return Success(params);
    }
    var entry := EncodeParameter(ext, proj, connectorPost, name, space[name]);
    if entry.Failure? {
      EncodeFails(ext, proj, connectorPost, space, name, entry.error);
      return Failure(entry.error);
    }
    CollectedStep(ext, proj, connectorPost, space, done, name, entry.value);
    r := Success(params[name := entry.value]);
  }

  /** The keys of the result: 'model' and every parameter not dropped, and
      nothing else; in particular no dropped name ever reaches NEST. */
  lemma SynapseParamsKeys(ext: Externals, proj: Projection, connectorPost: Option<bool>, space: map<string, LazyArray>)
    requires AllEncode(ext, proj, connectorPost, space)
    ensures SynapseParams(ext, proj, connectorPost, space).Keys == {"model"} + (space.Keys - Dropped)
    ensures forall n :: n in Dropped ==> n !in SynapseParams(ext, proj, connectorPost, space)
  {
  }

  /** 'model' maps to the projection's NEST synapse model, unless the
      synapse type itself has a parameter named 'model', whose entry then
      takes its place. */
  lemma SynapseParamsModel(ext: Externals, proj: Projection, connectorPost: Option<bool>, space: map<string, LazyArray>)
    requires AllEncode(ext, proj, connectorPost, space)
    ensures "model" !in space ==> SynapseParams(ext, proj, connectorPost, space)["model"] == Text(proj.synapseModel)
    ensures "model" in space ==>
      SynapseParams(ext, proj, connectorPost, space)["model"] == Encode(ext, proj, connectorPost, "model", space["model"]).value
  {
  }

  /** Each kept parameter's entry: for a distribution NEST knows, a
      dictionary with exactly the keys of the native generator's parameters,
      all but 'weight' copied unchanged; for another distribution, the values
      drawn for every pre x post pair; for explicit values, the encoding by
      kind with the sign rule applied. */
  lemma SynapseParamsEntry(ext: Externals, proj: Projection, connectorPost: Option<bool>, space: map<string, LazyArray>,
                           name: string)
    requires AllEncode(ext, proj, connectorPost, space)
    requires name in space && name !in Dropped && name != "model"
    ensures var e := SynapseParams(ext, proj, connectorPost, space)[name]; var v := space[name];
      && (v.base.Random? && v.base.dist.name in ext.nestRdevTypes ==>
            NativeEntry(ext, v.base.dist).Success? && e == Dict(NativeEntry(ext, v.base.dist).value))
      && (v.base.Random? && v.base.dist.name !in ext.nestRdevTypes ==>
            e == Matrix(ext.evaluateAt(v, |proj.preCells|, |proj.postCells|)))
      && (v.base.Given? ==>
            ExplicitEntry(ext, v).Success? && WeightSign(proj, connectorPost, name, ExplicitEntry(ext, v).value) == Success(e))
  {
  }

  // ---------------------------------------------------------------------------
  // Rule dictionaries and connect
  // ---------------------------------------------------------------------------

  /** The keys of each connector's rule dictionary: the two flags and the
      rule name, and the one parameter its rule takes, if any. */
  function RuleKeys(c: Connector): set<string>
  {
    {"autapses", "multapses", "rule"} +
    match c
    case FixedProbability(_, _, _) => {"p"}
    case AllToAll(_) => {}
    case OneToOne(_, _) => {}
    case FixedNumberPre(_, _, _) => {"indegree"}
    case FixedNumberPost(_, _, _) => {"outdegree"}
    case FixedTotalNumber(_, _, _) => {"N"}
  }

  /** The rule dictionary each connector hands to NEST. */
  function RuleParams(c: Connector): (m: map<string, RuleValue>)
    ensures m.Keys == RuleKeys(c)
    ensures m["autapses"] == Flag(c.allowSelfConnections)
    ensures m["multapses"] == Flag(if c.AllToAll? then false else c.withReplacement)
  {
    match c
    case FixedProbability(a, w, p) =>
      map["autapses" := Flag(a), "multapses" := Flag(w), "rule" := Name("pairwise_bernoulli"), "p" := Probability(p)]
    case AllToAll(a) =>
      map["autapses" := Flag(a), "multapses" := Flag(false), "rule" := Name("all_to_all")]
    case OneToOne(a, w) =>
      map["autapses" := Flag(a), "multapses" := Flag(w), "rule" := Name("one_to_one")]
    case FixedNumberPre(a, w, n) =>
      map["autapses" := Flag(a), "multapses" := Flag(w), "rule" := Name("fixed_indegree"), "indegree" := Count(n)]
    case FixedNumberPost(a, w, n) =>
      map["autapses" := Flag(a), "multapses" := Flag(w), "rule" := Name("fixed_outdegree"), "outdegree" := Count(n)]
    case FixedTotalNumber(a, w, n) =>
      map["autapses" := Flag(a), "multapses" := Flag(w), "rule" := Name("fixed_total_number"), "N" := Count(n)]
  }

  /** Reads a connector back from a rule dictionary: the rule name picks the
      kind, and the flags and the extra key give its fields; a dictionary
      with any other key reads as nothing. */
  function ConnectorOfRule(m: map<string, RuleValue>): (c: Option<Connector>)
  {
    match ConnectorFields(m)
    case Some(c) => if m.Keys == RuleKeys(c) then Some(c) else None
    case None => None
  }

  function ConnectorFields(m: map<string, RuleValue>): Option<Connector>
  {
    if !("rule" in m && "autapses" in m && "multapses" in m) then None
    else if !(m["rule"].Name? && m["autapses"].Flag? && m["multapses"].Flag?) then None
    else
      var a, w := m["autapses"].b, m["multapses"].b;
      match m["rule"].s
      case "pairwise_bernoulli" =>
        if "p" in m && m["p"].Probability? then Some(FixedProbability(a, w, m["p"].p)) else None
      case "all_to_all" => if !w then Some(AllToAll(a)) else None
      case "one_to_one" => Some(OneToOne(a, w))
      case "fixed_indegree" =>
        if "indegree" in m && m["indegree"].Count? then Some(FixedNumberPre(a, w, m["indegree"].n)) else None
      case "fixed_outdegree" =>
        if "outdegree" in m && m["outdegree"].Count? then Some(FixedNumberPost(a, w, m["outdegree"].n)) else None
      case "fixed_total_number" =>
        if "N" in m && m["N"].Count? then Some(FixedTotalNumber(a, w, m["N"].n)) else None
      case _ => None
  }

  /** The rule dictionary loses nothing about the connector. */
  lemma RuleParamsRoundTrip(c: Connector)
    ensures ConnectorOfRule(RuleParams(c)) == Some(c)
  {
  }

  /** Different connectors give different rule dictionaries. */
  lemma RuleParamsInjective(c: Connector, d: Connector)
    requires RuleParams(c) == RuleParams(d)
    ensures c == d
  {
    RuleParamsRoundTrip(c);
    RuleParamsRoundTrip(d);
  }

  /** connect(projection) of a rule-based connector: translate the synapse
      parameters, then hand NEST the connector's rule dictionary with them.
      An exception from synapse_parameters leaves the projection as it was. */
  method Connect(c: Connector, ext: Externals, proj: Projection, connectorPost: Option<bool>, space: map<string, LazyArray>)
    returns (r: Result<(), ParameterError>)
    modifies proj`connectCalls
    ensures r.Success? <==> AllEncode(ext, proj, connectorPost, space)
    ensures r.Success? ==>
      proj.connectCalls == old(proj.connectCalls) + [(RuleParams(c), SynapseParams(ext, proj, connectorPost, space))]
    ensures r.Failure? ==> proj.connectCalls == old(proj.connectCalls)
    ensures r.Failure? ==>
      exists n :: n in space && n !in Dropped && Encode(ext, proj, connectorPost, n, space[n]) == Failure(r.error)
  {
    var synParams := SynapseParameters(ext, proj, connectorPost, space);
    if synParams.Failure? {
      return Failure(synParams.error);
    }
    var ruleParams := RuleParams(c);
    proj.connectCalls := proj.connectCalls + [(ruleParams, synParams.value)];
    r := Success(());
  }

  // ---------------------------------------------------------------------------
  // The fixed-probability connector's constructor
  // ---------------------------------------------------------------------------

  /** Why a connector could not be built. */
  datatype ConstructError =
    | NameError(name: string)     // a name the module never defines
    | AssertionError              // a connection set of the wrong arity
    | RuntimeError                // the csa module could not be imported

  /** FixedProbabilityConnector.__init__ as written: it stores the flags and
      float(p_connect), then calls _get_rng, which the module neither defines
      nor imports, so every construction raises. */
  function NewFixedProbabilityAsWritten(pConnect: real, allowSelfConnections: bool, withReplacement: bool)
    : (r: Result<Connector, ConstructError>)
  {
    Failure(NameError("_get_rng"))
  }

  /** No fixed-probability connector can be built as the module stands. */
  lemma FixedProbabilityNeverBuilt(pConnect: real, allowSelfConnections: bool, withReplacement: bool)
    ensures NewFixedProbabilityAsWritten(pConnect, allowSelfConnections, withReplacement).Failure?
  {
  }

  /** FixedProbabilityConnector.__init__ as intended: the connector keeps its
      flags and the connection probability. */
  function NewFixedProbability(pConnect: real, allowSelfConnections: bool, withReplacement: bool)
    : (r: Result<Connector, ConstructError>)
    ensures r.Success?
    ensures RuleParams(r.value)
            == map["autapses" := Flag(allowSelfConnections), "multapses" := Flag(withReplacement),
                   "rule" := Name("pairwise_bernoulli"), "p" := Probability(pConnect)]
  {
    Success(FixedProbability(allowSelfConnections, withReplacement, pConnect))
  }

  // ---------------------------------------------------------------------------
  // CSAConnector
  // ---------------------------------------------------------------------------

  /** A CSA connector holds its connection set. */
  datatype CsaConnector = CsaConnector(cset: ConnectionSet)

  /** CSAConnector(cset): without the csa module it raises at once;
      otherwise the connection set must be a mask (arity 0) or carry a
      weight and a delay (arity 2). */
  function NewCsaConnector(cset: ConnectionSet, haveCsa: bool): (r: Result<CsaConnector, ConstructError>)
    ensures r.Success? <==> haveCsa && (cset.arity == 0 || cset.arity == 2)
    ensures r.Success? ==> r.value.cset == cset
    ensures !haveCsa ==> r == Failure(RuntimeError)
    ensures haveCsa && r.Failure? ==> r == Failure(AssertionError)
  {
    if !haveCsa then Failure(RuntimeError)
    else if cset.arity in {0, 2} then Success(CsaConnector(cset))
    else Failure(AssertionError)
  }

  /** The call connect makes into NEST: the weight and delay come from the
      connection set's values 0 and 1 when it has two, otherwise NEST's
      defaults are used. */
  function CsaCall(conn: CsaConnector, proj: Projection): (call: NestCall)
    ensures call.pre == proj.preCells && call.post == proj.postCells
    ensures call.cset == conn.cset && call.model == proj.synapseModel
    ensures call.paramMap.Some? <==> conn.cset.arity == 2
    ensures call.paramMap.Some? ==> call.paramMap.value == map["weight" := 0, "delay" := 1]
  {
    if conn.cset.arity == 2 then
      CGConnect(proj.preCells, proj.postCells, conn.cset, Some(map["weight" := 0, "delay" := 1]), proj.synapseModel)
    else
      CGConnect(proj.preCells, proj.postCells, conn.cset, None, proj.synapseModel)
  }

  /** Every connector that could be built takes one of the two call shapes:
      a mask gets no parameter map, a two-valued set gets weight and delay. */
  lemma CsaCallShape(cset: ConnectionSet, haveCsa: bool, proj: Projection)
    requires NewCsaConnector(cset, haveCsa).Success?
    ensures var call := CsaCall(NewCsaConnector(cset, haveCsa).value, proj);
      (cset.arity == 0 ==> call.paramMap == None) &&
      (cset.arity == 2 ==> call.paramMap == Some(map["weight" := 0, "delay" := 1]))
  {
  }

  /** CSAConnector.connect(projection): one CGConnect call into NEST, then the
      projection forgets its cached connection list and records the
      presynaptic cells as sources. */
  method CsaConnect(conn: CsaConnector, proj: Projection, kernel: Kernel)
    modifies proj`connections, proj`sources, kernel
    ensures kernel.calls == old(kernel.calls) + [CsaCall(conn, proj)]
    ensures proj.connections == None
    ensures proj.sources == old(proj.sources) + proj.preCells
  {
    var presynapticCells := proj.preCells;
    var postsynapticCells := proj.postCells;
    if conn.cset.arity == 2 {
      var paramMap := map["weight" := 0, "delay" := 1];
      kernel.calls := kernel.calls + [CGConnect(presynapticCells, postsynapticCells, conn.cset, Some(paramMap), proj.synapseModel)];
    } else {
      kernel.calls := kernel.calls + [CGConnect(presynapticCells, postsynapticCells, conn.cset, None, proj.synapseModel)];
    }
    proj.connections := None;
    proj.sources := proj.sources + presynapticCells;
  }
}
