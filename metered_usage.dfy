/** A metered-usage event and the scrubbing applied when analytics are disabled. */
module MeteredUsage {
  import opened Wrappers
  import AirshipJson

  datatype MeteredUsageType = InAppExperienceImpression

  /** A `Date`, as seconds since the reference date. */
  datatype Date = Date(sinceReferenceDate: real)

  /** The record; equality is member-wise, as Swift's synthesized `Equatable`. */
  datatype MeteredUsageEvent = MeteredUsageEvent(
    eventID: string,
    entityID: Option<string>,
    usageType: MeteredUsageType,
    product: string,
    reportingContext: Option<AirshipJson.Json>,
    timestamp: Option<Date>,
    contactId: Option<string>)

  /** No analytics field is set. */
  predicate AnalyticsCleared(e: MeteredUsageEvent) {
    e.entityID.None? && e.reportingContext.None? && e.timestamp.None? && e.contactId.None?
  }

  /** `withDisabledAnalytics`: the same event with every analytics field cleared. */
  function WithDisabledAnalytics(e: MeteredUsageEvent): (r: MeteredUsageEvent)
    ensures r.eventID == e.eventID && r.usageType == e.usageType && r.product == e.product
    ensures AnalyticsCleared(r)
  {
    MeteredUsageEvent(e.eventID, None, e.usageType, e.product, None, None, None)
  }

  lemma DisabledAnalyticsIdempotent(e: MeteredUsageEvent)
    ensures WithDisabledAnalytics(WithDisabledAnalytics(e)) == WithDisabledAnalytics(e)
  {
  }

  /** An event is unchanged by scrubbing exactly when its analytics fields are already nil. */
  lemma DisabledAnalyticsFixpoint(e: MeteredUsageEvent)
    ensures WithDisabledAnalytics(e) == e <==> AnalyticsCleared(e)
  {
  }
}
