/**
 * What the road update handler copies from the decoded body into the
 * stored road.
 */
module RoadRules {
  import opened Common
  import opened Models

  /** A road update replaces all six data fields and keeps the id. */
  function UpdateRoad(stored: Road, body: Road): (r: Road)
    ensures r == body.(id := stored.id)
  {
    stored.(address := body.address,
            amountOfLines := body.amountOfLines,
            bandwidth := body.bandwidth,
            description := body.description,
            length := body.length,
            maxAllowedSpeed := body.maxAllowedSpeed)
  }

  /** Applying the same body twice is applying it once. */
  lemma UpdateRoadIdempotent(stored: Road, body: Road)
    ensures UpdateRoad(UpdateRoad(stored, body), body) == UpdateRoad(stored, body)
  {
  }
}
