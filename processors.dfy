// datagrowth/processors/base.py: how a processor definition "Class.method" is
// taken apart, how a processor is created from its registered class, and how
// the argument type of one of its methods is chosen. The app registry that
// `get_processor_class` asks is a map from names to classes here.

module Processors {
  import opened Wrappers
  import opened Exceptions
  import opened Text
  import opened Json

  datatype ArgumentsType = Normal | Batch

  /** The class attributes a processor method lookup reads. */
  datatype ProcessorClass = ProcessorClass(
    name: string,
    defaultArgsType: ArgumentsType,
    argsNormalMethods: seq<string>,
    argsBatchMethods: seq<string>,
    methods: set<string>)

  /** The `config` argument: a dict, a `ConfigurationType`, or anything else. */
  datatype ConfigArgument = ConfigDict(fields: map<string, Json>) | ConfigurationType(namespace: string, fields: map<string, Json>) | OtherValue(value: Json)

  datatype Processor = Processor(cls: ProcessorClass, config: ConfigArgument)

  /** `Processor.__init__`: the configuration has to be a dict or a
      `ConfigurationType`. */
  function NewProcessor(cls: ProcessorClass, config: ConfigArgument): (r: Result<Processor, Exception>)
    ensures r.Ok? <==> !config.OtherValue?
    ensures r.Ok? ==> r.value == Processor(cls, config)
    ensures r.Err? ==> r.error == AssertionError
  {
    if config.OtherValue? then Err(AssertionError) else Ok(Processor(cls, config))
  }

  /** `get_processor_components`: a definition with exactly one dot gives the
      processor name and the method name; any other definition fails the
      two-name unpacking, which is reported as an AssertionError. */
  function GetProcessorComponents(definition: string): (r: Result<(string, string), Exception>)
    ensures r.Ok? <==> |Split(definition, '.')| == 2
    ensures r.Ok? ==> definition == r.value.0 + "." + r.value.1 && '.' !in r.value.0 && '.' !in r.value.1
    ensures r.Err? ==> r.error == AssertionError
  {
    var parts := Split(definition, '.');
    if |parts| == 2 then Ok((parts[0], parts[1])) else Err(AssertionError)
  }

  /** Any "Class.method" with dot-free names is taken apart into those two
      names. */
  lemma ComponentsOfDefinition(processorName: string, methodName: string)
    requires '.' !in processorName && '.' !in methodName
    ensures GetProcessorComponents(processorName + "." + methodName) == Ok((processorName, methodName))
  {
    SplitJoin([processorName, methodName], '.');
  }

  /** A definition that splits into two parts has exactly one dot. */
  lemma TwoPartsOneDot(definition: string)
    requires |Split(definition, '.')| == 2
    ensures '.' in definition
    ensures forall i, j :: 0 <= i < j < |definition| && definition[i] == '.' ==> definition[j] != '.'
  {
    var parts := Split(definition, '.');
    assert definition == parts[0] + "." + parts[1];
    assert definition[|parts[0]|] == '.';
    assert forall k :: 0 <= k < |parts[0]| ==> definition[k] == parts[0][k];
    assert forall k :: |parts[0]| < k < |definition| ==> definition[k] == parts[1][k - |parts[0]| - 1];
  }

  /** A definition without a dot, or with two, is refused. */
  lemma ComponentsRefused(definition: string)
    requires '.' !in definition || exists i, j :: 0 <= i < j < |definition| && definition[i] == '.' && definition[j] == '.'
    ensures GetProcessorComponents(definition) == Err(AssertionError)
  {
    if |Split(definition, '.')| == 2 {
      TwoPartsOneDot(definition);
    }
  }

  /** `create_processor`: the class registered under the name, built with
      the configuration; an unknown name is an AssertionError. */
  function CreateProcessor(registry: map<string, ProcessorClass>, processorName: string, config: ConfigArgument): (r: Result<Processor, Exception>)
    ensures processorName !in registry ==> r == Err(AssertionError)
    ensures processorName in registry ==> r == NewProcessor(registry[processorName], config)
    ensures r.Ok? ==> r.value.cls == registry[processorName] && r.value.config == config
  {
    if processorName !in registry then Err(AssertionError) else NewProcessor(registry[processorName], config)
  }

  /** `get_processor_method`: the method, by name, and its arguments type:
      normal when listed as such, else batch when listed as such, else the
      class default. A name that is not a method of the processor is an
      AttributeError. */
  function GetProcessorMethod(p: Processor, methodName: string): (r: Result<(string, ArgumentsType), Exception>)
    ensures r.Err? <==> methodName !in p.cls.methods
    ensures r.Err? ==> r.error == AttributeError
    ensures r.Ok? ==> r.value.0 == methodName
    ensures r.Ok? && methodName in p.cls.argsNormalMethods ==> r.value.1 == Normal
    ensures r.Ok? && methodName !in p.cls.argsNormalMethods && methodName in p.cls.argsBatchMethods ==> r.value.1 == Batch
    ensures r.Ok? && methodName !in p.cls.argsNormalMethods && methodName !in p.cls.argsBatchMethods ==> r.value.1 == p.cls.defaultArgsType
  {
    var argsType :=
      if methodName in p.cls.argsNormalMethods then Normal
      else if methodName in p.cls.argsBatchMethods then Batch
      else p.cls.defaultArgsType;
    if methodName in p.cls.methods then Ok((methodName, argsType)) else Err(AttributeError)
  }

  /** The arguments type only ever says batch for a batch-listed method or
      a class whose default is batch. */
  lemma BatchOnlyWhenListed(p: Processor, methodName: string)
    requires GetProcessorMethod(p, methodName).Ok? && GetProcessorMethod(p, methodName).value.1 == Batch
    ensures methodName in p.cls.argsBatchMethods || (methodName !in p.cls.argsNormalMethods && p.cls.defaultArgsType == Batch)
  {
  }
}
