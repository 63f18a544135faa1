/** `validate_output` of src/utils.py: schema validation as an (ok, payload) pair. */
module Utils {
  import opened Wrappers
  import opened JsonValues
  import opened Schemas

  /** The second component: the validated record or the validation error. */
  datatype ModelOrError = Model(assessment: StartupAssessment) | ValidationError(errors: Errors)

  /** Never raises: a schema violation comes back as `(false, error)`. */
  function ValidateOutput(obj: Json): (r: (bool, ModelOrError))
    ensures r.0 <==> r.1.Model?
    ensures r.0 <==> Validate(obj).Success?
    ensures r.1.Model? ==> Validate(obj) == Success(r.1.assessment) && WellFormed(r.1.assessment)
    ensures r.1.ValidationError? ==> Validate(obj) == Failure(r.1.errors) && r.1.errors != []
  {
    match Validate(obj)
    case Success(a) => (true, Model(a))
    case Failure(e) => (false, ValidationError(e))
  }
}
