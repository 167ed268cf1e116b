/**
 * The records exchanged between the batch input, the agent, the test runner
 * and the batch output. All three are Kotlin data classes: immutable values
 * whose equality is structural over every field, which is exactly Dafny's
 * datatype equality.
 */
module ApiChangeEntry {
  import opened Nullable

  /** Kotlin's 64-bit `Long`. */
  newtype Long = x: int | -0x8000_0000_0000_0000 <= x < 0x8000_0000_0000_0000

  /**
   * One described API change under evaluation. `documentation` is the only
   * nullable field; every other field must be present in the input.
   */
  datatype ApiChange = ApiChange(
    library: string,
    name: string,
    from_version: string,
    to_version: string,
    kind: string,          // the source's field `type`, a keyword in Dafny
    signature: string,
    documentation: Option<string>,
    changetype: string,
    source_code: string,
    query: string,
    function_signature: string,
    test_program: string
  )

  /** The outcome of one test case; `failure` defaults to null. */
  datatype TestExecutionResult = TestExecutionResult(
    testName: string,
    className: string,
    success: bool,
    duration: Long,
    failure: Option<string> := None
  )

  /**
   * The result of generating code and running the tests. Only `success` has
   * no default: the other fields default to null, and `testResults` to the
   * empty list.
   */
  datatype TestResult = TestResult(
    apiChange: Option<ApiChange> := None,
    generatedCode: Option<string> := None,
    gradleBuild: Option<string> := None,
    model: Option<string> := None,
    success: bool,
    output: Option<string> := None,
    errorOutput: Option<string> := None,
    testResults: seq<TestExecutionResult> := []
  )

  /**
   * Two API changes are equal exactly when all twelve fields agree; the
   * consistency guards of the agent and of the dispatcher rely on this.
   */
  lemma ApiChangeEqualityIsStructural(a: ApiChange, b: ApiChange)
    ensures a == b <==>
      a.library == b.library && a.name == b.name &&
      a.from_version == b.from_version && a.to_version == b.to_version &&
      a.kind == b.kind && a.signature == b.signature &&
      a.documentation == b.documentation && a.changetype == b.changetype &&
      a.source_code == b.source_code && a.query == b.query &&
      a.function_signature == b.function_signature &&
      a.test_program == b.test_program
  {
  }

  /** A result built from `success` alone has every other field at its default. */
  lemma TestResultDefaults(success: bool)
    ensures TestResult(success := success) ==
      TestResult(None, None, None, None, success, None, None, [])
    ensures TestResult(success := success).success == success
  {
  }

  /** A test case built without `failure` records no failure. */
  lemma TestExecutionResultDefaults(testName: string, className: string, success: bool, duration: Long)
    ensures TestExecutionResult(testName, className, success, duration).failure == None
  {
  }
}
