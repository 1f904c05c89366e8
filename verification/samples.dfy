/** The stored records the scorers read: the latest health entry and the
    latest environmental reading of a user. Every numeric field may be absent
    from the stored document, so each is optional. Only the fields the scorers
    and the dashboard read are kept. */
module Samples {
  import opened Js

  datatype HealthRecord = HealthRecord(
    glucose: Option<real>,     // mg/dL
    hrv: Option<real>,         // heart-rate variability, ms
    sleepHours: Option<real>,
    heartRate: Option<real>)   // bpm

  datatype EnvRecord = EnvRecord(
    aqi: Option<real>,         // air-quality index
    temperature: Option<real>) // degrees Fahrenheit

  /** The `{}` the server substitutes when a user has no health entry. */
  const NoHealth := HealthRecord(None, None, None, None)

  /** The `{}` the server substitutes when a user has no reading. */
  const NoEnv := EnvRecord(None, None)

  /** `latest || {}` */
  function HealthOrEmpty(h: Option<HealthRecord>): (r: HealthRecord)
    ensures h.Some? ==> r == h.value
    ensures h.None? ==> r == NoHealth
  {
    if h.Some? then h.value else NoHealth
  }

  /** `latest || {}` */
  function EnvOrEmpty(e: Option<EnvRecord>): (r: EnvRecord)
    ensures e.Some? ==> r == e.value
    ensures e.None? ==> r == NoEnv
  {
    if e.Some? then e.value else NoEnv
  }
}
