/** Admission policies and the configuration that assigns one to every credential. */
module Config {
  /** `enabled` is the switch of one credential; zero rate or concurrency switches off that limit only. */
  datatype Policy = Policy(
    enabled: bool,
    requestsPerMinute: nat,
    burst: nat,
    maxConcurrency: nat,
    maxQueue: nat,
    queueTimeoutMs: nat)
  {
    predicate Valid() {
      && 1 <= burst <= 1_000_000
      && requestsPerMinute <= 60_000_000
      && maxConcurrency <= 100_000
      && maxQueue <= 100_000
      && 1 <= queueTimeoutMs <= 300_000
    }
  }

  /** `otherChecksPass` is the verdict of the checks on parts that never reach the engine:
      error-mapping rules, reserved API-key policies and the spelling of override identifiers. */
  datatype Config = Config(
    enabled: bool,
    maxTrackedRequests: nat,
    maxCredentials: nat,
    fallback: Policy,
    overrides: map<string, Policy>,
    otherChecksPass: bool)
  {
    predicate Valid() {
      && otherChecksPass
      && 1 <= maxTrackedRequests <= 100_000
      && 1 <= maxCredentials <= 100_000
      && fallback.Valid()
      && |overrides| <= maxCredentials
      && forall id :: id in overrides ==> overrides[id].Valid()
    }

    function PolicyFor(credential: string): Policy {
      var policy := if credential in overrides then overrides[credential] else fallback;
      policy.(enabled := policy.enabled && enabled)
    }
  }
}
