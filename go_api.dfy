/** The parts of the GoCD task-plugin API the plugin talks to (TaskConfig, ValidationResult,
    ValidationError, ExecutionResult), reduced to what the plugin uses of them. */
module GoApi {
  import opened JavaLang

  /** The values a task is configured with; a missing key is what `getValue` answers `null` to. */
  type Config = map<string, string>

  /** TaskConfig.getValue: the configured value, or `null` for a key that is not set. */
  function GetValue(config: Config, key: string): Option<string>
  {
    if key in config then Some(config[key]) else None
  }

  /** The plugin's test for a check box: `v != null && v.equals("true")`. */
  predicate IsTrue(v: Option<string>) {
    v == Some("true")
  }

  /** The schema a task declares: the keys added with `addProperty`, in order. */
  class TaskConfig {
    var keys: seq<string>

    constructor ()
      ensures keys == []
    {
      keys := [];
    }

    method AddProperty(key: string)
      modifies this
      ensures keys == old(keys) + [key]
    {
      keys := keys + [key];
    }
  }

  datatype ValidationError = ValidationError(key: string, message: string)

  /** The errors collected by a validation, in the order they were added. */
  class ValidationResult {
    var errors: seq<ValidationError>

    constructor ()
      ensures errors == []
    {
      errors := [];
    }

    method AddError(error: ValidationError)
      modifies this
      ensures errors == old(errors) + [error]
    {
      errors := errors + [error];
    }
  }

  /** What a task execution reports back to the server. */
  datatype ExecutionResult =
    | Success(message: string)
    | Failure(message: string, cause: Option<JavaException>)
}
