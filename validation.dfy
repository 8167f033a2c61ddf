/** The validator base class of src/validation/base.py: `validate` delegates
    to the concrete `_validate` and turns any exception it raises into a
    ValidationError carrying the same message; the role validator accepts
    exactly the roles it was built with. */
module Validation {
  import opened Wrappers
  import opened PyStr

  /** `BaseValidator.validate`, given what the concrete `_validate` did. */
  function Validate(inner: Outcome<bool>): (r: Outcome<bool>)
    ensures inner.Returned? ==> r == inner
    ensures inner.Raised? ==> r == Raised(Exc("ValidationError", inner.exc.message))
  {
    match inner
    case Returned(b) => Returned(b)
    case Raised(e) => Raised(Exc("ValidationError", e.message))
  }

  /** A RoleValidator: the list of valid roles it was constructed with. */
  datatype RoleValidator = RoleValidator(validRoles: seq<string>)

  /** `RoleValidator._validate(role)` */
  function ValidateRoleInner(v: RoleValidator, role: string): (r: Outcome<bool>)
    ensures r.Returned? <==> role in v.validRoles
    ensures r.Returned? ==> r.value
    ensures r.Raised? ==> r.exc.kind == "ValueError"
  {
    if role !in v.validRoles then
      Raised(Exc("ValueError", "Role '" + role + "' is not valid. Allowed: " + ListRepr(v.validRoles)))
    else Returned(true)
  }

  /** `RoleValidator(...).validate(role)` */
  function ValidateRole(v: RoleValidator, role: string): Outcome<bool> {
    Validate(ValidateRoleInner(v, role))
  }

  /** The role validator returns True exactly for a valid role, never
      returns False, and otherwise raises ValidationError with the message
      of the ValueError its `_validate` raised. */
  lemma ValidateRoleMeaning(v: RoleValidator, role: string)
    ensures ValidateRole(v, role) == Returned(true) <==> role in v.validRoles
    ensures ValidateRole(v, role) != Returned(false)
    ensures role !in v.validRoles ==>
      ValidateRole(v, role) == Raised(Exc("ValidationError",
        "Role '" + role + "' is not valid. Allowed: " + ListRepr(v.validRoles)))
  {
  }
}
