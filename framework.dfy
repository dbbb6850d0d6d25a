/**
 The few values of the infrastructure-as-code plugin framework that the
 provider's handlers touch: string attribute values with their null and
 unknown states, and the error diagnostics a handler appends to its response.
 */
module Framework {

  datatype Option<+T> = None | Some(value: T)

  /** The outcome of a remote call: a value, or the text of the client's error. */
  datatype Result<+T> = Ok(value: T) | Err(error: string)

  /**
   A string attribute value. The zero value of the framework's string type is
   the null one, so a record field that a handler leaves out of a struct
   literal reads back as Null.
   */
  datatype TfString = Null | Unknown | Known(value: string) {

    /** The string held, or "" when the value is null or unknown. */
    function ValueString(): string {
      if Known? then value else ""
    }

    /**
     The rendering used in messages: "<null>", "<unknown>", or the string in
     double quotes (escaping of the characters inside is not modelled).
     */
    function String(): string {
      match this
      case Null => "<null>"
      case Unknown => "<unknown>"
      case Known(s) => "\"" + s + "\""
    }
  }

  /** An error diagnostic: the attribute it is attached to (if any), a summary label and a detail text. */
  datatype Diagnostic = Diagnostic(attribute: Option<string>, summary: string, detail: string)

  /** What `AddError(summary, detail)` appends. */
  function Error(summary: string, detail: string): Diagnostic {
    Diagnostic(None, summary, detail)
  }

  /** What `AddAttributeError(path.Root(attribute), summary, detail)` appends. */
  function AttributeError(attribute: string, summary: string, detail: string): Diagnostic {
    Diagnostic(Some(attribute), summary, detail)
  }

  /** Every diagnostic these handlers append is an error, so any diagnostic at all means `HasError()`. */
  predicate HasError(diagnostics: seq<Diagnostic>) {
    |diagnostics| > 0
  }
}
