/** Values shared by every part of the template layer: optional values, the
    outcome of an operation that may throw, and the exceptions it throws. */
module Base {

  datatype Option<+T> = None | Some(value: T)

  /** The exceptions of the template layer. Each one stands for a PHP
      exception thrown with the message noted beside it. */
  datatype Error =
    | UndefinedNamespace(ns: string)       // "Template namespace '%s::' not defined"
    | TemplateNotFound(path: string)       // "Template file '%s' not found"
    | ReservedSectionName                  // 'The section name "content" is reserved.'
    | NestedSection                        // 'You cannot nest sections within other sections.'
    | NoActiveSection                      // 'You must start a section before you can stop it.'
    | UnknownFunction(fn: string)          // 'The batch function could not find the "%s" function.'
    | UnknownOption(key: string)           // 'The option "%s" does not have a matching ... setter'
    | OptionTypeMismatch(key: string)      // TypeError from a typed setter parameter
    | OutOfFuel                            // recursion deeper than the model's bound

  datatype Result<+T> = Ok(value: T) | Err(error: Error)

  /** The data array handed to a template; values are kept as strings. */
  type Data = map<string, string>

  /** PHP truthiness of a string: only "" and "0" are false. */
  predicate Truthy(s: string)
  {
    s != "" && s != "0"
  }

  /** PHP truthiness of a nullable string: null is false. */
  predicate TruthyOpt(s: Option<string>)
  {
    s.Some? && Truthy(s.value)
  }
}
