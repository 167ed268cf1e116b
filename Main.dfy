/**
 * Validation of the command-line configuration. Parsing the arguments and
 * reading default keys from the environment are not modelled: the parsed
 * option values are the input, and the file system is represented by the set
 * of paths that exist.
 */
module Main {
  import opened Configuration

  /** The option values after parsing, with the parser's defaults 4 and 15. */
  datatype Options = Options(
    inputPath: PathName,
    outputPath: PathName,
    models: seq<Model>,
    openaiApiKey: string,
    antropicApiKey: string,
    workers: int := 4,
    maxAgentIterations: int := 15
  )

  /** `createConfig` either returns a configuration or throws `IllegalArgumentException`. */
  datatype ConfigOutcome = Created(config: Config) | IllegalArgument(message: string)

  const MissingKeyMessage := "Please provide at least one API key using -a or -A options."
  const MissingModelMessage := "Please provide at least one model using -m option."

  function MissingInputMessage(inputPath: PathName): string
  {
    "Input file does not exist: " + inputPath
  }

  predicate HasApiKey(o: Options)
  {
    o.openaiApiKey != "" || o.antropicApiKey != ""
  }

  /**
   * The checks run in the order keys, models, input file; the first failing
   * one is the error reported, and a configuration is produced only when all
   * three pass, with every field taken from the corresponding option. The
   * worker count is not checked.
   */
  function CreateConfig(o: Options, existingFiles: set<PathName>): (r: ConfigOutcome)
    ensures r.Created? <==> HasApiKey(o) && |o.models| > 0 && o.inputPath in existingFiles
    ensures !HasApiKey(o) ==> r == IllegalArgument(MissingKeyMessage)
    ensures HasApiKey(o) && |o.models| == 0 ==> r == IllegalArgument(MissingModelMessage)
    ensures HasApiKey(o) && |o.models| > 0 && o.inputPath !in existingFiles ==>
      r == IllegalArgument(MissingInputMessage(o.inputPath))
    ensures r.Created? ==>
      r.config.inputFile == o.inputPath && r.config.outputFile == o.outputPath &&
      r.config.models == o.models &&
      r.config.openaiApiKey == o.openaiApiKey && r.config.antropicApiKey == o.antropicApiKey &&
      r.config.workers == o.workers && r.config.maxAgentIterations == o.maxAgentIterations
  {
    if o.openaiApiKey == "" && o.antropicApiKey == "" then
      IllegalArgument(MissingKeyMessage)
    else if |o.models| == 0 then
      IllegalArgument(MissingModelMessage)
    else if o.inputPath !in existingFiles then
      IllegalArgument(MissingInputMessage(o.inputPath))
    else
      Created(Config(
        inputFile := o.inputPath,
        outputFile := o.outputPath,
        models := o.models,
        openaiApiKey := o.openaiApiKey,
        antropicApiKey := o.antropicApiKey,
        workers := o.workers,
        maxAgentIterations := o.maxAgentIterations))
  }

  /** Options left at their defaults give a configuration with 4 workers and 15 iterations. */
  lemma DefaultsReachConfig(inputPath: PathName, outputPath: PathName, models: seq<Model>,
                            openaiApiKey: string, antropicApiKey: string, existingFiles: set<PathName>)
    requires (openaiApiKey != "" || antropicApiKey != "") && |models| > 0 && inputPath in existingFiles
    ensures
      var r := CreateConfig(Options(inputPath, outputPath, models, openaiApiKey, antropicApiKey), existingFiles);
      r.Created? && r.config.workers == 4 && r.config.maxAgentIterations == 15
  {
  }

  /**
   * A worker count that is not positive passes validation and reaches the
   * configuration; the dispatcher only rejects it when it starts.
   */
  lemma NonPositiveWorkersAccepted(o: Options, existingFiles: set<PathName>)
    requires HasApiKey(o) && |o.models| > 0 && o.inputPath in existingFiles && o.workers < 1
    ensures CreateConfig(o, existingFiles).Created?
    ensures CreateConfig(o, existingFiles).config.workers < 1
  {
  }
}
