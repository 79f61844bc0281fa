/** The per-process registry of live sandboxes and drivers (`ResourceManager`).
    Its lock only serialises calls, so the model runs them one after another.
    Handles are opaque; whether a driver's `quit` or a sandbox's `kill` fails
    is an input. */
module Resources {

  /** A live sandbox, known by the id the provisioning service gave it. */
  datatype SandboxHandle = SandboxHandle(externalId: string)

  /** A live automation driver session. */
  datatype DriverHandle = DriverHandle(sessionId: string)

  /** What one call of `cleanup_all` did. */
  datatype CleanupReport =
    | AlreadyDone
    | NothingRegistered
    | CleanedUp(quitCalled: set<int>, killCalled: set<int>, quitFailed: set<int>, killFailed: set<int>)

  class ResourceManager {
    var sandboxes: map<int, SandboxHandle>
    var drivers: map<int, DriverHandle>
    var cleanupDone: bool

    constructor ()
      ensures sandboxes == map[] && drivers == map[] && !cleanupDone
    {
      sandboxes, drivers, cleanupDone := map[], map[], false;
    }

    method RegisterSandbox(unitId: int, sandbox: SandboxHandle)
      modifies this
      ensures sandboxes == old(sandboxes)[unitId := sandbox]
      ensures drivers == old(drivers) && cleanupDone == old(cleanupDone)
    {
      sandboxes := sandboxes[unitId := sandbox];
    }

    method RegisterDriver(unitId: int, driver: DriverHandle)
      modifies this
      ensures drivers == old(drivers)[unitId := driver]
      ensures sandboxes == old(sandboxes) && cleanupDone == old(cleanupDone)
    {
      drivers := drivers[unitId := driver];
    }

    /** `unregister`: forget the unit in both maps (a no-op where it is absent). */
    method Unregister(unitId: int)
      modifies this
      ensures sandboxes == old(sandboxes) - {unitId}
      ensures drivers == old(drivers) - {unitId}
      ensures cleanupDone == old(cleanupDone)
    {
      sandboxes := sandboxes - {unitId};
      drivers := drivers - {unitId};
    }

    /** `cleanup_all`: at most once per manager, quit every registered driver,
        then kill every registered sandbox, ignoring the failures of individual
        calls (`quitFails` and `killFails` name the units whose call raises),
        and empty both maps. A later call does nothing. */
    method CleanupAll(quitFails: set<int>, killFails: set<int>) returns (report: CleanupReport)
      modifies this
      ensures old(cleanupDone) ==> report == AlreadyDone
      ensures old(cleanupDone) ==> sandboxes == old(sandboxes) && drivers == old(drivers) && cleanupDone
      ensures !old(cleanupDone) ==> cleanupDone && sandboxes == map[] && drivers == map[]
      ensures !old(cleanupDone) && old(sandboxes) == map[] && old(drivers) == map[] ==> report == NothingRegistered
      ensures !old(cleanupDone) && (old(sandboxes) != map[] || old(drivers) != map[]) ==>
        report == CleanedUp(old(drivers).Keys, old(sandboxes).Keys,
                            old(drivers).Keys * quitFails, old(sandboxes).Keys * killFails)
    {
      if cleanupDone {
        return AlreadyDone;
      }
      cleanupDone := true;
      if sandboxes == map[] && drivers == map[] {
        return NothingRegistered;
      }
      var quitCalled, quitFailed := CallEach(drivers.Keys, quitFails);
      var killCalled, killFailed := CallEach(sandboxes.Keys, killFails);
      report := CleanedUp(quitCalled, killCalled, quitFailed, killFailed);
      sandboxes := map[];
      drivers := map[];
    }
  }

  /** One best-effort pass over registered units (the `quit` loop or the
      `kill` loop of `cleanup_all`): every unit's call is made once, and the
      ones in `fails` raise and are passed over. */
  method CallEach(units: set<int>, fails: set<int>) returns (called: set<int>, failed: set<int>)
    ensures called == units
    ensures failed == units * fails
  {
    var pending := units;
    called, failed := {}, {};
    while pending != {}
      invariant pending + called == units && pending !! called
      invariant failed == called * fails
      decreases pending
    {
      if forall u :: u !in pending {
        assert false;
      }
      var unitId :| unitId in pending;
      if unitId in fails {
        failed := failed + {unitId};
      }
      called := called + {unitId};
      pending := pending - {unitId};
    }
  }

  /** Two calls of cleanup in a row have the effect of one: the second finds
      the flag set and changes nothing. */
  method CleanupTwice(rm: ResourceManager, quitFails: set<int>, killFails: set<int>)
    returns (first: CleanupReport, second: CleanupReport)
    modifies rm
    ensures second == AlreadyDone
    ensures rm.cleanupDone
    ensures !old(rm.cleanupDone) ==> rm.sandboxes == map[] && rm.drivers == map[]
    ensures old(rm.cleanupDone) ==> first == AlreadyDone && rm.sandboxes == old(rm.sandboxes)
  {
    first := rm.CleanupAll(quitFails, killFails);
    ghost var afterFirst := (rm.sandboxes, rm.drivers);
    second := rm.CleanupAll(quitFails, killFails);
    assert (rm.sandboxes, rm.drivers) == afterFirst;
  }
}
