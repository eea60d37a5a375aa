/** The errors the query compiler throws, one constructor per `throw` site kind. */
module Errors {
  import opened Wrappers

  datatype Error =
    | ModelNotFound(modelName: string)                      // "Model X not found"
    | FiltersNotObject                                      // "Filters should be an object"
    | ConditionsNotObject                                   // "Conditions should be an object"
    | UnsupportedOperator(operator: string)                 // "Unsupported operator: X"
    | AssociationNotFound(alias: string, modelName: string) // "Association X not found for model Y"
    | FieldNotFound(field: string, modelName: string)       // "Field X not found in model Y"
    | UnsupportedAssociationType(associationType: string)   // "Unsupported association type: X"
    | UnsupportedHavingField(field: string)                 // "Unsupported field in HAVING clause: X"
    | TypeError                                             // a JavaScript TypeError: a property read on
                                                            // null, or .map/.forEach/.push on a non-array

  /** What every compilation step returns. */
  type Outcome<T> = Result<T, Error>
}
