/**
 * The run configuration and the fixed set of supported models. The language
 * model each enum constant wraps is a library value and is not modelled; a
 * model is known to the rest of the system only by its constant name.
 */
module Configuration {

  datatype Model = GPT4_1 | GPT4o | GPT4oMini | O1Mini | O3Mini | O1 | O3 {

    /** Kotlin's `Enum.name`: the constant's identifier. */
    function Name(): string
    {
      match this
      case GPT4_1 => "GPT4_1"
      case GPT4o => "GPT4o"
      case GPT4oMini => "GPT4oMini"
      case O1Mini => "O1Mini"
      case O3Mini => "O3Mini"
      case O1 => "O1"
      case O3 => "O3"
    }
  }

  /** Distinct models have distinct names, so a result's `model` field identifies its model. */
  lemma NameInjective(m: Model, n: Model)
    ensures m.Name() == n.Name() <==> m == n
  {
  }

  /** Kotlin's `Path` is modelled by the path text. */
  type PathName = string

  /** `workers` defaults to 4 and `maxAgentIterations` to 15. */
  datatype Config = Config(
    inputFile: PathName,
    outputFile: PathName,
    models: seq<Model>,
    openaiApiKey: string,
    antropicApiKey: string,
    workers: int := 4,
    maxAgentIterations: int := 15
  )

  lemma ConfigDefaults(inputFile: PathName, outputFile: PathName, models: seq<Model>, openaiApiKey: string, antropicApiKey: string)
    ensures Config(inputFile, outputFile, models, openaiApiKey, antropicApiKey).workers == 4
    ensures Config(inputFile, outputFile, models, openaiApiKey, antropicApiKey).maxAgentIterations == 15
  {
  }
}
