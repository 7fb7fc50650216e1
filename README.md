# PyNN: MultiSim, script and logging helpers, and the NEST connectors

A Dafny model of three parts of PyNN, the simulator-independent language
for building neuronal network models.

- `utility.dfy` (module `Utility`) covers two helpers. `get_script_args`
  picks a script's own arguments out of the command line. `init_logging`
  chooses the log file name and log level: with several MPI processes each
  rank gets its own `logfile.<rank>`.
- `multisim.dfy` (module `MultiSim`) covers `MultiSim`, which builds the same
  network once per simulator module. It broadcasts method calls to every
  built network, runs all simulators in lock-step with callbacks after each
  step, and ends them all. Every call MultiSim makes into outside code goes
  through a `World` object. The World records the call and answers it with a
  fixed function of all calls made before, so a failing or stateful backend
  is covered. The operations that call outside code (`__init__`,
  `__getattr__`'s broadcast, `run`, `end`) are methods with loops; `__iter__`
  is a function over the stored dictionary. Each method's contract ties the
  call log and the result to a specification function built on `Exec`, which
  runs a list of calls and stops at the first that raises. Lemmas state the
  properties of those functions.
- `nest_connectors.dfy` (module `NestConnectors`) covers the NEST back end's
  connectors:
  - `synapse_parameters` turns a projection's synapse parameters into the
    dictionary NEST's Connect takes;
  - each connector kind builds its rule dictionary;
  - the CSA connector hands a connection set to NEST's `CGConnect`.
  The native random generator, lazy-array evaluation and the transformation
  expressions are fixed functions in an `Externals` value. What `csa.arity`
  reports is the `arity` field of a `ConnectionSet`. Calls into NEST and into
  the projection are recorded on `Kernel` and `Projection` objects.
- `wrappers.dfy` holds `Option` and `Result`.

## Model

| member | source | states |
|---|---|---|
| Utility.IndexOf | src/utility.py:40 | the position of the first occurrence of the script in argv; absent exactly when the script is not in argv |
| Utility.GetScriptArgs | src/utility.py:39-44 | fails with ValueError exactly when the script is missing; succeeds exactly when `n_args` is non-negative and that many arguments follow the script, returning exactly those `n_args` arguments in order; otherwise raises with the required count and, as supplied count, the length of Python's slice `argv[i+1:i+1+n_args]`: all arguments after the script when `n_args` is non-negative, and for a negative `n_args` the clipped length its negative stop gives |
| Utility.ParseFormatInt | src/utility.py:48 | `'%d' % rank` loses nothing: the numeral reads back as the same integer, negative ranks included |
| Utility.LogFileName | src/utility.py:47-48 | with more than one process the name is the given file name, a dot, and the `'%d'` numeral of the rank: canonical (no leading zeros, no `-0`) and reading back as the rank; otherwise the name is unchanged |
| Utility.FormatParseInt | src/utility.py:48 | every canonical numeral is the `'%d'` numeral of the integer it reads as |
| Utility.CanonicalNumeralsUnique | src/utility.py:48 | two canonical numerals that read as the same integer are the same string, so the rank's suffix is the only one that names it |
| Utility.InitLogging | src/utility.py:46-58 | the level is DEBUG exactly when `debug` is set, else INFO; the file is the chosen name; format and file mode `'w'` are fixed |
| Utility.DistinctRanksDistinctLogFiles | src/utility.py:47-48 | with more than one process, two different ranks never write to the same log file |
| MultiSim.MultiSim.Create | src/utility.py:70-80 | `__init__` makes the factory calls of the build plan in order. If one raises, no object results and the log stops at that call. Otherwise the new object holds sim_list and the dictionary filled from the calls' results |
| MultiSim.BuildRegistry | src/utility.py:77-80 | after `__init__` the keys of `nets` are exactly the simulator names. For a name that repeats, the entry holds what the factory returned for the last simulator of that name. Success holds exactly when no factory call raises |
| MultiSim.ZipMapLastWins | src/utility.py:80 | filling a dictionary key by key, a key's value comes from its last assignment |
| MultiSim.MultiSim.Instances | src/utility.py:82-83 | iteration yields exactly the values of `nets`, as many as there are names, each value as often as there are names mapped to it |
| MultiSim.ValuesAlongCount | src/utility.py:82-83 | taking a dictionary's values along its distinct keys gives each value once per key that maps to it |
| MultiSim.MultiSim.Broadcast | src/utility.py:85-95 | calls the method on each net in turn, stopping at the first that raises, and returns the dictionary filled from the results |
| MultiSim.BroadcastCollects | src/utility.py:90-95 | on success, the result's keys are exactly those of `nets`, and each value is what that net's method returned for the same args and kwargs; when a net raises, its exception propagates, no dictionary is returned, and no net after it is called |
| MultiSim.MultiSim.Run | src/utility.py:97-109 | the call log and result are those of `steps` rounds of simulator runs and callbacks, stopped at the first exception; `steps == 0` raises ZeroDivisionError before any call |
| MultiSim.RunBehaviour | src/utility.py:104-109 | `steps == 0` raises ZeroDivisionError and makes no call. Negative `steps` makes no call and returns normally. Otherwise the calls are made in order up to and including the first that raises, whose exception is the result |
| MultiSim.RunPlanLength | src/utility.py:105-109 | a run in which nothing raises makes `steps * (len(sim_list) + len(callbacks))` calls (RunBehaviour ties this plan to the log) |
| MultiSim.RunPlanAt | src/utility.py:105-109 | in the plan of calls (the log of a run up to its first exception is a prefix of it), call number `i * width + j` is, in round `i`, the `j`-th simulator's `run(simtime/steps)` for `j < len(sim_list)`, and otherwise the matching callback. So in every round all simulators run, in list order, before any callback |
| MultiSim.SimRunCounts | src/utility.py:105-107 | over a run in which nothing raises, each simulator module gets `run(dt)` `steps` times for each time it occurs in sim_list |
| MultiSim.CallbackCounts | src/utility.py:105-109 | over a run in which nothing raises, each callback is called `steps` times for each time it was passed |
| MultiSim.MultiSim.End | src/utility.py:111-113 | the call log and result are those of `end()` on each simulator in list order, stopped at the first exception |
| MultiSim.EndStopsAtFirstFailure | src/utility.py:111-113 | end succeeds exactly when no `end()` raises. Otherwise the log stops at the first failing simulator, that simulator's exception is the result, and a module that occurs only after it is never ended |
| NestConnectors.NativeEntry | src/nest/connectors.py:110-121 | for a distribution NEST draws from itself: on success the dictionary has exactly the keys of the native generator's parameters and copies every key but `'weight'` unchanged, and `'weight'`, when present, holds the value of its transformation expression evaluated with the generator's parameters. It fails exactly when `'weight'` is present and its transformation is missing or raises |
| NestConnectors.NativeEntryErrors | src/nest/connectors.py:114-119 | which error a failing native entry carries: KeyError of the distribution name when the distribution has no transformations, KeyError of `'weight'` when it has none for `'weight'`, and the expression's own error when evaluating it raises |
| NestConnectors.NativeDistributionParameters | src/nest/connectors.py:112-121 | the loop over the generator's parameters produces exactly that dictionary or that error |
| NestConnectors.ExplicitEntry | src/nest/connectors.py:126-132 | a homogeneous value becomes its simplified evaluation, a shaped value its flattened evaluation, and any other value a single float from its (1, 1) evaluation, which raises TypeError unless exactly one value comes out; TypeError is the only error it raises |
| NestConnectors.Negate | src/nest/connectors.py:134 | `*= -1` changes the sign of a number, and of an array element by element |
| NestConnectors.EncodeSign | src/nest/connectors.py:109-134 | an explicit weight is negated exactly when the receptor is `'inhibitory'` and the connector's `post` is conductance-based, and reading a missing `post` raises. Every other explicit parameter keeps its sign. A random parameter's entry depends neither on its name nor on `post`, so it is never negated |
| NestConnectors.EncodeParameter | src/nest/connectors.py:109-134 | the loop body gives exactly the entry or error of the encoding by kind |
| NestConnectors.SynapseParameters | src/nest/connectors.py:103-135 | succeeds exactly when every non-dropped parameter encodes, and then returns the `'model'` entry plus one encoded entry per non-dropped parameter; a failure carries the error of a non-dropped parameter that raises |
| NestConnectors.SynapseParamsKeys | src/nest/connectors.py:104-108 | the result's keys are `'model'` and every parameter name except `tau_minus`, `dendritic_delay_fraction` and `w_min_always_zero_in_NEST`, and nothing else |
| NestConnectors.SynapseParamsModel | src/nest/connectors.py:104-106 | `'model'` maps to the projection's NEST synapse model, unless a parameter itself is named `'model'`, whose entry then replaces it |
| NestConnectors.SynapseParamsEntry | src/nest/connectors.py:109-134 | each kept parameter's entry. A distribution NEST knows gives the dictionary NativeEntry builds. Any other distribution gives values drawn for the pre x post shape. An explicit value gives its encoding by kind with the sign rule applied |
| NestConnectors.RuleParams | src/nest/connectors.py:148-235 | every rule dictionary has exactly the keys `autapses`, `multapses`, `rule` and the one its rule takes (`p`, `indegree`, `outdegree` or `N`; none for all-to-all and one-to-one); `autapses` comes from the connector's self-connection flag and `multapses` from its replacement flag, except all-to-all, whose `multapses` is always False |
| NestConnectors.RuleParamsRoundTrip | src/nest/connectors.py:148-235 | the connector kind, its flags and its `p` or `n` can be read back from its rule dictionary, by a decoder that also refuses any dictionary whose key set is not the one that kind's rule takes |
| NestConnectors.RuleParamsInjective | src/nest/connectors.py:148-235 | two connectors that differ give different rule dictionaries |
| NestConnectors.Connect | src/nest/connectors.py:148-235 | `connect` succeeds exactly when `synapse_parameters` does. It then hands the projection the connector's rule dictionary and the translated synapse parameters, and otherwise leaves the projection alone and lets the exception of a non-dropped parameter that raises in `synapse_parameters` propagate |
| NestConnectors.FixedProbabilityNeverBuilt | src/nest/connectors.py:140-146 | the constructor as written raises for every input |
| NestConnectors.NewFixedProbability | src/nest/connectors.py:140-153 | the intended constructor always succeeds, and its connector's rule dictionary is `pairwise_bernoulli` with the two flags and `p` |
| NestConnectors.NewCsaConnector | src/nest/connectors.py:71-81 | without csa the constructor raises RuntimeError; with it, construction succeeds exactly when the arity is 0 or 2 and raises AssertionError otherwise |
| NestConnectors.CsaCall | src/nest/connectors.py:86-95 | CGConnect gets the pre and post cells, the connection set and the synapse model, and gets the parameter map `{'weight': 0, 'delay': 1}` exactly when the arity is 2 |
| NestConnectors.CsaCallShape | src/nest/connectors.py:77-95 | every connector that can be built gets no parameter map for a mask (arity 0) and weight and delay for arity 2 |
| NestConnectors.CsaConnect | src/nest/connectors.py:83-98 | `connect` makes one CGConnect call, clears the projection's cached connection list, and appends the presynaptic cells to its sources |

## Left out

- Python 2 gives no order for iterating a dict. `nets` is modelled as iterating in first-insertion order, which decides which net a broadcast calls first and therefore which exception a broadcast reports when several nets would raise.
- MultiSim.MultiSim.Instances: states the number of values and which values occur, not their order, because `itervalues()` order is unspecified.
- NestConnectors.SynapseParameters: on failure it states only that the error is that of some non-dropped parameter that raises. Which one is reported depends on the dictionary's iteration order.
- `__getattr__` dispatches any unknown attribute name dynamically. It is modelled as an explicit `Broadcast(name, args, kwargs)`. An attribute that is not callable, or a wrong number of arguments, is simply an outside call that raises.
- `dt = float(simtime)/steps` is a real division. Floating-point rounding is not modelled, and neither is a `simtime` that `float()` rejects.
- The MultiSim docstring mentions parallel runs via threading or MPI, but the source does not implement them. Nothing concurrent is modelled.
- `sys.argv` is a parameter of `GetScriptArgs`.
- MultiSim keeps the caller's `sim_list` by reference, and `run` and `end` loop over that live list. The model copies it into a constant sequence, so a caller or a callback that changes the list between or during rounds is not modelled.
- Default arguments are not modelled: `steps=1` of `run`, and `debug=False`, `num_processes=1`, `rank=0` of `init_logging`. Every argument is passed explicitly.
- The `logger.warning` issued when NEST draws random values with its own generators is not modelled.
- `projection.pre.size` and `projection.post.size` are taken as the numbers of presynaptic and postsynaptic cells of the projection.
- The `logging.basicConfig` call is kept only as the configuration passed to it. Its effect on the logging system and the `logging.DEBUG`/`INFO` numbers are not modelled.
- `notify` (sends e-mail over SMTP) and the colour helpers are not part of this model.
- NEST (`nest.CGConnect`, `projection._connect`, `nest.version`, `nest.sli_func`) is outside the model. Calls to it are recorded, not executed.
- The module-level choice between this CSAConnector and PyNN's generic one (by NEST version and libneurosim support), and the messages printed then, are not modelled. So is the `print` of the fallback.
- `csa.arity`, `NativeRNG`, lazy-array evaluation and `eval` of the transformation strings are fixed functions of their inputs. The assignments to `value.shape` are passed to evaluation as the shape it evaluates at. The lasting change to the lazy array in the parameter space is not modelled: the model treats the parameter space as a value.
- `_parameters_from_synapse_type` is outside the model. Its result, the parameter space, is an argument.
- The `float()` of a single evaluated value is modelled for a nested list of values. A value that NumPy cannot convert for another reason is not.
- `self.post.conductance_based` is read from the connector itself, as the source does, not from the projection. It is an `Option<bool>`, where None means the connector has no `post` and reading it raises AttributeError.
- The `'int64'` cast of cell ids is not modelled. Ids are unbounded integers.
- `assert` in the CSA constructor is modelled as raising AssertionError. Running Python with `-O` would skip it.
- `safe` and `callback` and the rest of `Connector.__init__` are not modelled. Neither are the `rng` arguments the other constructors accept and ignore.
- FixedProbabilityConnector derives only from the mixin, so it also has no `_parameters_from_synapse_type`. Its `connect` is modelled as if it had one, like the other connectors.

## Findings

| source | as written | input that shows it | evidently intended | confidence | as-written member | corrected member |
|---|---|---|---|---|---|---|
| src/nest/connectors.py:146 | `FixedProbabilityConnector.__init__` calls `_get_rng`, which the module neither defines nor imports, so construction always raises NameError | `FixedProbabilityConnector(0.1)` | the connector keeps its flags and `float(p_connect)`, and `connect` sends the `pairwise_bernoulli` rule with `p` | high; not executed | NestConnectors.NewFixedProbabilityAsWritten (with FixedProbabilityNeverBuilt) | NestConnectors.NewFixedProbability |
