/**
 * The restarter: a webhook handler that restarts one application unless the
 * newest event shows it was already restarted within the cooldown.
 */
module Restarter {
  import opened Wrappers
  import opened Capi

  datatype Config = Config(appToRestart: string, vcap: VcapApplication)

  /** What `envstruct.Load` extracted from the environment. */
  datatype Environment = Environment(appToRestart: string, vcap: VcapApplication)

  /**
   * `LoadConfig`: the environment, then the CAPI address rewritten to plain
   * HTTP. A failed load ends the process (`log.Fatal`), modelled as `Failure`.
   */
  method LoadConfig(loaded: Result<Environment, string>) returns (r: Result<Config, string>)
    ensures loaded.Failure? <==> r.Failure?
    ensures loaded.Failure? ==> r.error == loaded.error
    ensures loaded.Success? ==>
      && r.value.appToRestart == loaded.value.appToRestart
      && r.value.vcap == loaded.value.vcap.(capiAddr := HttpAddr(loaded.value.vcap.capiAddr))
  {
    var cfg := Config("", VcapApplication("", "", "", "", []));
    if loaded.Failure? {
      return Failure(loaded.error);
    }
    cfg := cfg.(appToRestart := loaded.value.appToRestart, vcap := loaded.value.vcap);
    cfg := cfg.(vcap := cfg.vcap.(capiAddr := HttpAddr(cfg.vcap.capiAddr)));
    return Success(cfg);
  }

  /** The calls the handler makes on the CAPI client, in order. */
  datatype Call = LastEvent | Restart

  datatype HandlerError =
    | LastEventFailed(app: string, cause: string)
    | RestartFailed(app: string, cause: string)

  /** The calls made and the error returned (`None` is Go's `nil`). */
  datatype Reaction = Reaction(calls: seq<Call>, err: Option<HandlerError>)

  /** The event type a restart leaves behind. */
  const RestartEvent: string := "audit.app.restart"

  /**
   * The handler. `lastEvent` is what the `LastEvent` call returns and
   * `restartError` what `Restart` would return.
   */
  function Handle(cfg: Config, lastEvent: Result<seq<EventResource>, string>, now: Time, restartError: Option<string>): (r: Reaction)
    ensures |r.calls| >= 1 && r.calls[0] == LastEvent
    ensures Restart in r.calls <==> lastEvent.Success? && !RecentEventOfType(lastEvent.value, RestartEvent, now)
    ensures lastEvent.Failure? ==> r == Reaction([LastEvent], Some(LastEventFailed(cfg.appToRestart, lastEvent.error)))
    ensures Restart in r.calls ==>
      && r.calls == [LastEvent, Restart]
      && r.err == (if restartError.Some? then Some(RestartFailed(cfg.appToRestart, restartError.value)) else None)
    ensures lastEvent.Success? && Restart !in r.calls ==> r == Reaction([LastEvent], None)
  {
    match lastEvent
    case Failure(e) => Reaction([LastEvent], Some(LastEventFailed(cfg.appToRestart, e)))
    case Success(resources) =>
      if |resources| > 0 && resources[0].entityType == RestartEvent && resources[0].createdAt > now - Cooldown then
        Reaction([LastEvent], None)
      else
        Reaction([LastEvent, Restart], if restartError.Some? then Some(RestartFailed(cfg.appToRestart, restartError.value)) else None)
  }

  /** With no events at all the handler always goes on to restart. */
  lemma NoEventsRestarts(cfg: Config, now: Time, restartError: Option<string>)
    ensures Handle(cfg, Success([]), now, restartError).calls == [LastEvent, Restart]
  {
  }

  /** Only the first event resource is inspected: later ones never change the reaction. */
  lemma FirstResourceDecides(cfg: Config, e1: seq<EventResource>, e2: seq<EventResource>, now: Time, restartError: Option<string>)
    requires |e1| > 0 && |e2| > 0 && e1[0] == e2[0]
    ensures Handle(cfg, Success(e1), now, restartError) == Handle(cfg, Success(e2), now, restartError)
  {
  }
}
