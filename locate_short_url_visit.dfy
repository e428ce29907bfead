/**
 * The handler run after a visit has been recorded: it loads the visit, and
 * attaches a location to it, refreshing the geolocation database first and
 * absorbing every failure on the way into a log entry.
 *
 * The collaborators are inputs: the entity store is a map from visit ids to
 * visits, the database updater is the outcome of its check, and the resolver
 * is a function from addresses to resolutions. What the handler asks of them
 * and what it logs is recorded in a trace.
 */
module EventDispatcher {
  import opened Wrappers
  import opened Visits

  /** The event: a visit with this id has just been recorded. */
  datatype ShortUrlVisited = ShortUrlVisited(visitId: string)

  /** The updater's exception: the download failed, with or without an older database on disk. */
  datatype DbUpdateFailure = DbUpdateFailure(olderDbExists: bool)

  /** How the updater's check for a fresh database ends. */
  datatype DbCheck = DbUpToDate | DbUpdateFailed(failure: DbUpdateFailure)

  /** How the resolver answers for an address: a location, or a wrong-address exception. */
  datatype Resolution = Resolved(location: Location) | WrongIp

  /** The calls the handler makes on its collaborators. */
  datatype Call = Find(id: string) | CheckDbUpdate | ResolveIpLocation(ip: string) | Flush(id: string)

  /** What a log entry reports, with the visit id or the exception it carries. */
  datatype Message =
    | VisitNotFound(visitId: string)
    | AddressSeemsWrong(visitId: string)
    | UpdateFailedWithOldCopy(failure: DbUpdateFailure)
    | DownloadFailed(visitId: string, failure: DbUpdateFailure)

  datatype LogEntry = Warning(message: Message) | Error(message: Message)

  /** Everything one invocation does: its calls in order, its log entries, and the location it attaches, if any. */
  datatype Effect = Effect(calls: seq<Call>, logs: seq<LogEntry>, located: Option<VisitLocation>)

  /**
   * One invocation for visit `visitId`, whose visitor the store returns as
   * `found`, with the updater ending as `dbCheck` and the resolver answering
   * `resolve`.
   */
  function Handle(visitId: string, found: Option<Visitor>, dbCheck: DbCheck, resolve: string -> Resolution): (e: Effect)
    // The visit is looked up first, and only once.
    ensures |e.calls| > 0 && e.calls[0] == Find(visitId)
    ensures forall i :: 1 <= i < |e.calls| ==> !e.calls[i].Find?
    // At most one flush, of this visit, and only as the last call.
    ensures forall i :: 0 <= i < |e.calls| && e.calls[i].Flush? ==> e.calls[i] == Flush(visitId) && i == |e.calls| - 1
    // At most one log entry, except for a stale-database warning followed by a wrong-address warning.
    ensures |e.logs| <= 1 ||
      e.logs == [Warning(UpdateFailedWithOldCopy(DbUpdateFailure(true))), Warning(AddressSeemsWrong(visitId))]
    // An error is the only entry logged.
    ensures forall i :: 0 <= i < |e.logs| && e.logs[i].Error? ==> e.logs == [e.logs[i]]
    // A visit that does not exist is neither located nor persisted, and a warning names it.
    ensures found.None? ==> e.calls == [Find(visitId)] && e.logs == [Warning(VisitNotFound(visitId))] && e.located == None
    // A flush happens exactly when a real location was attached.
    ensures Flush(visitId) in e.calls <==> e.located.Some? && e.located.value.VisitLocation?
    // The resolver is asked only about the address of a locatable visitor, and only after the database check.
    ensures forall i :: 0 <= i < |e.calls| && e.calls[i].ResolveIpLocation? ==>
      && found.Some? && IsLocatable(found.value) && e.calls[i].ip == RemoteAddress(found.value)
      && i > 0 && e.calls[i - 1] == CheckDbUpdate
    // The location attached is the empty one for an address not worth resolving, and the resolver's otherwise.
    ensures e.located.Some? && e.located.value.VisitLocation? ==>
      found.Some? &&
      if IsLocatable(found.value) then resolve(RemoteAddress(found.value)) == Resolved(e.located.value.location)
      else e.located.value.location == EmptyLocation
    // A visit is marked unknown exactly when it could be located but no database copy is usable.
    ensures e.located == Some(UnknownVisitLocation) <==>
      found.Some? && IsLocatable(found.value) && dbCheck == DbUpdateFailed(DbUpdateFailure(false))
  {
    match found
    case None => Effect([Find(visitId)], [Warning(VisitNotFound(visitId))], None)
    case Some(visitor) =>
      if !IsLocatable(visitor) then
        Effect([Find(visitId), Flush(visitId)], [], Some(VisitLocation(EmptyLocation)))
      else
        if dbCheck.DbUpdateFailed? && !dbCheck.failure.olderDbExists then
          Effect([Find(visitId), CheckDbUpdate], [Error(DownloadFailed(visitId, dbCheck.failure))], Some(UnknownVisitLocation))
        else
          var warned := if dbCheck.DbUpdateFailed? then [Warning(UpdateFailedWithOldCopy(dbCheck.failure))] else [];
          var ip := RemoteAddress(visitor);
          var asked := [Find(visitId), CheckDbUpdate, ResolveIpLocation(ip)];
          match resolve(ip)
          case WrongIp => Effect(asked, warned + [Warning(AddressSeemsWrong(visitId))], None)
          case Resolved(location) => Effect(asked + [Flush(visitId)], warned, Some(VisitLocation(location)))
  }

  /** Each case the handler distinguishes, as its whole effect. */

  lemma VisitNotFoundLogsWarning(visitId: string, dbCheck: DbCheck, resolve: string -> Resolution)
    ensures Handle(visitId, None, dbCheck, resolve) == Effect([Find(visitId)], [Warning(VisitNotFound(visitId))], None)
  {
  }

  lemma WrongAddressLogsWarning(visitId: string, visitor: Visitor, resolve: string -> Resolution)
    requires IsLocatable(visitor) && resolve(RemoteAddress(visitor)) == WrongIp
    ensures Handle(visitId, Some(visitor), DbUpToDate, resolve) ==
      Effect([Find(visitId), CheckDbUpdate, ResolveIpLocation(RemoteAddress(visitor))],
             [Warning(AddressSeemsWrong(visitId))], None)
  {
  }

  lemma NonLocatableGetsEmptyLocation(visitId: string, visitor: Visitor, dbCheck: DbCheck, resolve: string -> Resolution)
    requires !IsLocatable(visitor)
    ensures Handle(visitId, Some(visitor), dbCheck, resolve) ==
      Effect([Find(visitId), Flush(visitId)], [], Some(VisitLocation(EmptyLocation)))
  {
  }

  /** A failed update with an old copy and a wrong address log one warning each. */
  lemma StaleDatabaseAndWrongAddressLogTwice(visitId: string, visitor: Visitor, resolve: string -> Resolution)
    requires IsLocatable(visitor) && resolve(RemoteAddress(visitor)) == WrongIp
    ensures Handle(visitId, Some(visitor), DbUpdateFailed(DbUpdateFailure(true)), resolve) ==
      Effect([Find(visitId), CheckDbUpdate, ResolveIpLocation(RemoteAddress(visitor))],
             [Warning(UpdateFailedWithOldCopy(DbUpdateFailure(true))), Warning(AddressSeemsWrong(visitId))], None)
  {
  }

  /** The three addresses that are not worth resolving. */
  lemma NonLocatableAddresses(referer: string, userAgent: string)
    ensures !IsLocatable(Visitor(referer, userAgent, None))
    ensures !IsLocatable(Visitor(referer, userAgent, Some("")))
    ensures !IsLocatable(Visitor(referer, userAgent, Some(Localhost)))
  {
  }

  lemma LocatableGetsResolvedLocation(visitId: string, visitor: Visitor, resolve: string -> Resolution, location: Location)
    requires IsLocatable(visitor) && resolve(RemoteAddress(visitor)) == Resolved(location)
    ensures Handle(visitId, Some(visitor), DbUpToDate, resolve) ==
      Effect([Find(visitId), CheckDbUpdate, ResolveIpLocation(RemoteAddress(visitor)), Flush(visitId)],
             [], Some(VisitLocation(location)))
  {
  }

  lemma FailedUpdateWithOldCopyProceeds(visitId: string, visitor: Visitor, resolve: string -> Resolution, location: Location)
    requires IsLocatable(visitor) && resolve(RemoteAddress(visitor)) == Resolved(location)
    ensures Handle(visitId, Some(visitor), DbUpdateFailed(DbUpdateFailure(true)), resolve) ==
      Effect([Find(visitId), CheckDbUpdate, ResolveIpLocation(RemoteAddress(visitor)), Flush(visitId)],
             [Warning(UpdateFailedWithOldCopy(DbUpdateFailure(true)))], Some(VisitLocation(location)))
  {
  }

  lemma FailedDownloadCancelsLocation(visitId: string, visitor: Visitor, resolve: string -> Resolution)
    requires IsLocatable(visitor)
    ensures Handle(visitId, Some(visitor), DbUpdateFailed(DbUpdateFailure(false)), resolve) ==
      Effect([Find(visitId), CheckDbUpdate], [Error(DownloadFailed(visitId, DbUpdateFailure(false)))],
             Some(UnknownVisitLocation))
  {
  }

  /** The handler object: its collaborators, and the trace of what it has asked of them and logged. */
  class LocateShortUrlVisit {
    /** The entity store: the visit `find` returns for each id. */
    const visits: map<string, Visit>
    /** How the database updater's check ends. */
    const dbCheck: DbCheck
    /** The IP location resolver. */
    const resolver: string -> Resolution
    var calls: seq<Call>
    var logs: seq<LogEntry>

    constructor (resolver: string -> Resolution, visits: map<string, Visit>, dbCheck: DbCheck)
      ensures this.resolver == resolver && this.visits == visits && this.dbCheck == dbCheck
      ensures calls == [] && logs == []
    {
      this.resolver := resolver;
      this.visits := visits;
      this.dbCheck := dbCheck;
      calls := [];
      logs := [];
    }

    /** The visitor of the visit the store returns for `id`, if there is one. */
    function Found(id: string): Option<Visitor>
      reads this, visits.Values
    {
      if id in visits then Some(visits[id].visitor) else None
    }

    /**
     * Handles one event: the trace grows by the calls and log entries of
     * `Handle`, and the visit found, if any, carries the location `Handle`
     * attaches; no other visit changes.
     */
    method Invoke(event: ShortUrlVisited)
      modifies this, if event.visitId in visits then {visits[event.visitId]} else {}
      ensures var e := Handle(event.visitId, Found(event.visitId), dbCheck, resolver);
        && calls == old(calls) + e.calls
        && logs == old(logs) + e.logs
        && (event.visitId in visits ==>
              visits[event.visitId].visitLocation ==
                if e.located.Some? then e.located else old(visits[event.visitId].visitLocation))
    {
      var visitId := event.visitId;
      calls := calls + [Find(visitId)];
      if visitId !in visits {
        logs := logs + [Warning(VisitNotFound(visitId))];
        return;
      }
      var visit := visits[visitId];
      if !IsLocatable(visit.visitor) {
        visit.Locate(VisitLocation(EmptyLocation));
        calls := calls + [Flush(visitId)];
        return;
      }
      calls := calls + [CheckDbUpdate];
      if dbCheck.DbUpdateFailed? {
        if !dbCheck.failure.olderDbExists {
          logs := logs + [Error(DownloadFailed(visitId, dbCheck.failure))];
          visit.Locate(UnknownVisitLocation);
          return;
        }
        logs := logs + [Warning(UpdateFailedWithOldCopy(dbCheck.failure))];
      }
      var ip := RemoteAddress(visit.visitor);
      calls := calls + [ResolveIpLocation(ip)];
      match resolver(ip)
      case WrongIp =>
        logs := logs + [Warning(AddressSeemsWrong(visitId))];
      case Resolved(location) =>
        visit.Locate(VisitLocation(location));
        calls := calls + [Flush(visitId)];
    }
  }
}
