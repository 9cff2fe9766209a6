/**
 * What the service-type update handler copies from the decoded body into
 * the stored type.
 */
module ServiceTypeRules {
  import opened Common
  import opened Models

  /** A service type update replaces the name and keeps the id. */
  function UpdateType(stored: ServiceType, body: ServiceType): (r: ServiceType)
    ensures r == body.(id := stored.id)
  {
    stored.(typeName := body.typeName)
  }

  /** Applying the same body twice is applying it once. */
  lemma UpdateTypeIdempotent(stored: ServiceType, body: ServiceType)
    ensures UpdateType(UpdateType(stored, body), body) == UpdateType(stored, body)
  {
  }
}
