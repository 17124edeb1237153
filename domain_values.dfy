/**
 * Value objects of the deployment domain used by the Target aggregate:
 * identifiers, URLs, provider configurations, uniqueness requirements,
 * the configuration state of a target and the domain errors.
 */
module DomainValues {
  import opened Wrappers

  type TargetId = string
  type UserId = string

  /** A target URL. Parsing and validation are not modelled: URLs are compared by equality only. */
  type Url = string

  /**
   * A provider configuration: opaque provider data together with the
   * fingerprint that identifies what it is bound to. Two configurations are
   * equal when both parts are equal.
   */
  datatype ProviderConfig = ProviderConfig(data: string, fingerprint: string)

  /** Errors returned by the Target aggregate. */
  datatype TargetError =
    | UrlAlreadyTaken
    | ConfigAlreadyTaken
    | ProviderUpdateNotPermitted
    | CleanupRequested
    | ConfigurationInProgress
    | ConfigurationFailed
    | InUse
    | RunningOrPendingDeployments
    | CleanupNeeded

  /**
   * A candidate value bundled with the precomputed answer to "is it unique
   * among the other targets?". The storage query that produces the answer is
   * outside the domain.
   */
  datatype Requirement<T> = Requirement(candidate: T, unique: bool) {

    /** The candidate if the requirement is met, `notMet` otherwise. */
    function Met(notMet: TargetError): (r: Result<T, TargetError>)
      ensures r.Ok? <==> unique
      ensures r.Ok? ==> r.value == candidate
      ensures r.Err? ==> r.error == notMet
    {
      if unique then Ok(candidate) else Err(notMet)
    }
  }

  datatype TargetStatus = Configuring | Ready | Failed

  /**
   * Configuration state of a target. `version` tags the configuration attempt
   * in progress (a timestamp in the system, an integer here) so that reports
   * about older attempts can be discarded; `errCode` is the error of the last
   * failed attempt; `everReady` records that a configuration attempt has
   * succeeded at least once.
   */
  datatype TargetState = TargetState(status: TargetStatus, version: int, errCode: Option<string>, everReady: bool) {

    /** The state after a new configuration attempt has been requested. */
    function Reconfigured(): (r: TargetState)
      ensures r.status == Configuring && r.errCode == None
      ensures r.version > version
      ensures r.everReady == everReady
    {
      TargetState(Configuring, version + 1, None, everReady)
    }

    /**
     * The state after the outcome `err` of the attempt tagged `v` has been
     * reported. A report about an attempt older than the current one is
     * ignored.
     */
    function AfterReport(v: int, err: Option<string>): (r: TargetState)
      ensures v < version ==> r == this
      ensures v >= version ==> r.status == (if err.None? then Ready else Failed)
      ensures v >= version ==> r.errCode == err && r.version == version
      ensures r.everReady <==> everReady || (v >= version && err.None?)
    {
      if v < version then this
      else if err.None? then TargetState(Ready, version, None, true)
      else TargetState(Failed, version, err, everReady)
    }
  }

  /** The state of a target that has just been created: its first configuration is pending. */
  const InitialState := TargetState(Configuring, 0, None, false)

  /** Reporting the same outcome twice changes nothing the second time. */
  lemma AfterReportIdempotent(s: TargetState, v: int, err: Option<string>)
    ensures s.AfterReport(v, err).AfterReport(v, err) == s.AfterReport(v, err)
  {
  }

  /** What must be done with a target's (or an app's) resources on cleanup. */
  datatype TargetCleanupStrategy = CleanupStrategyDefault | CleanupStrategySkip
}
