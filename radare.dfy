/**
 * The address-resolution engine: one cache slot per resolved function, six getters
 * that fill a slot on first success and answer from it afterwards, and the three
 * backend queries they are built on.
 */
module Engine {
  import opened Wrappers
  import opened Records
  import opened Oracle
  import opened Heuristics

  /** What a getter leaves in its slot: the address on success, nothing on failure. */
  function Settled(r: Result<U64, Error>): Option<U64>
  {
    match r
    case Success(a) => Some(a)
    case Failure(_) => None
  }

  /** The queries a step issues when its slot is still empty, none when it is cached. */
  function Pending(slot: Option<U64>, queries: seq<Command>): seq<Command>
  {
    if slot.Some? then [] else queries
  }

  class Radare {
    /** The analysis backend this engine talks to. */
    const pipe: Backend

    var updateAddr: Option<U64>
    var createAddr: Option<U64>
    var shutdownAddr: Option<U64>
    var notifyAddr: Option<U64>
    var waitAddr: Option<U64>
    var getInstanceAddr: Option<U64>

    /** Every backend query issued so far, oldest first. */
    ghost var log: seq<Command>

    /**
     * Every cached address is what its heuristic yields from the backend, and a
     * dependent slot is filled only after the slot it depends on.
     */
    ghost predicate Valid()
      reads this
    {
      && (updateAddr.Some? ==> ResolveUpdate(pipe) == Success(updateAddr.value))
      && (createAddr.Some? ==> ResolveCreate(pipe) == Success(createAddr.value))
      && (shutdownAddr.Some? ==> ResolveShutdown(pipe) == Success(shutdownAddr.value))
      && (notifyAddr.Some? ==> updateAddr.Some? && NotifyOutcome(pipe, updateAddr.value, Success(notifyAddr.value)))
      && (waitAddr.Some? ==> WaitOutcome(pipe, Success(waitAddr.value)))
      && (getInstanceAddr.Some? ==> waitAddr.Some? && ResolveInstance(pipe, waitAddr.value) == Success(getInstanceAddr.value))
    }

    constructor (pipe: Backend)
      ensures this.pipe == pipe
      ensures Valid()
      ensures updateAddr == createAddr == shutdownAddr == None
      ensures notifyAddr == waitAddr == getInstanceAddr == None
      ensures log == []
    {
      this.pipe := pipe;
      updateAddr, createAddr, shutdownAddr := None, None, None;
      notifyAddr, waitAddr, getInstanceAddr := None, None, None;
      log := [];
    }

    /** `axtj <target>`: the references to `target`. */
    method Axtj(target: string) returns (r: Result<seq<Reference>, Fault>)
      modifies this`log
      ensures r == pipe.xrefs(target)
      ensures log == old(log) + [XrefsTo(target)]
    {
      r := pipe.xrefs(target);
      log := log + [XrefsTo(target)];
    }

    /** `s <target>` then `pdgj`: the decompilation of the function at `target`. */
    method Pdgj(target: string) returns (r: Result<Decompile, Fault>)
      modifies this`log
      ensures r == pipe.decompile(target)
      ensures log == old(log) + [DecompileAt(target)]
    {
      r := pipe.decompile(target);
      log := log + [DecompileAt(target)];
    }

    /** `iij`: the import table. */
    method Iij() returns (r: Result<seq<Import>, Fault>)
      modifies this`log
      ensures r == pipe.imports
      ensures log == old(log) + [ListImports]
    {
      r := pipe.imports;
      log := log + [ListImports];
    }

    /** The function that references the invalid-waveform error string. */
    method GetUpdateAddress() returns (r: Result<U64, Error>)
      requires Valid()
      modifies this`updateAddr, this`log
      ensures Valid()
      ensures old(updateAddr).Some? ==> r == Success(old(updateAddr).value)
      ensures r == ResolveUpdate(pipe)
      ensures log == old(log) + Pending(old(updateAddr), [XrefsTo(UPDATE_ANCHOR)])
      ensures updateAddr == Settled(r)
    {
      match updateAddr {
        case Some(addr) => return Success(addr);
        case None =>
      }
      var refs := Axtj(UPDATE_ANCHOR);
      if refs.Failure? {
        return Failure(Wrapped(UpdateQuery, QueryFault(refs.error)));
      }
      if refs.value == [] {
        return Failure(Absent(UpdateEmpty));
      }
      var addr := refs.value[0].fcnAddr;
      updateAddr := Some(addr);
      return Success(addr);
    }

    /** The function that references the generator-thread error string. */
    method GetCreateAddress() returns (r: Result<U64, Error>)
      requires Valid()
      modifies this`createAddr, this`log
      ensures Valid()
      ensures old(createAddr).Some? ==> r == Success(old(createAddr).value)
      ensures r == ResolveCreate(pipe)
      ensures log == old(log) + Pending(old(createAddr), [XrefsTo(CREATE_ANCHOR)])
      ensures createAddr == Settled(r)
    {
      match createAddr {
        case Some(addr) => return Success(addr);
        case None =>
      }
      var refs := Axtj(CREATE_ANCHOR);
      if refs.Failure? {
        return Failure(Wrapped(CreateQuery, QueryFault(refs.error)));
      }
      if refs.value == [] {
        return Failure(Absent(CreateEmpty));
      }
      var addr := refs.value[0].fcnAddr;
      createAddr := Some(addr);
      return Success(addr);
    }

    /** The function that references the shutdown log string. */
    method GetShutdownAddress() returns (r: Result<U64, Error>)
      requires Valid()
      modifies this`shutdownAddr, this`log
      ensures Valid()
      ensures old(shutdownAddr).Some? ==> r == Success(old(shutdownAddr).value)
      ensures r == ResolveShutdown(pipe)
      ensures log == old(log) + Pending(old(shutdownAddr), [XrefsTo(SHUTDOWN_ANCHOR)])
      ensures shutdownAddr == Settled(r)
    {
      match shutdownAddr {
        case Some(addr) => return Success(addr);
        case None =>
      }
      var refs := Axtj(SHUTDOWN_ANCHOR);
      if refs.Failure? {
        return Failure(Wrapped(ShutdownQuery, QueryFault(refs.error)));
      }
      if refs.value == [] {
        return Failure(Absent(ShutdownEmpty));
      }
      var addr := refs.value[0].fcnAddr;
      shutdownAddr := Some(addr);
      return Success(addr);
    }

    /**
     * The callee the update function mentions exactly twice. Resolves update first;
     * its failure is passed on unchanged.
     */
    method GetNotifyAddress() returns (r: Result<U64, Error>)
      requires Valid()
      modifies this`updateAddr, this`notifyAddr, this`log
      ensures Valid()
      ensures old(notifyAddr).Some? ==> r == Success(old(notifyAddr).value) && log == old(log)
      ensures notifyAddr == Settled(r)
      ensures updateAddr == Settled(ResolveUpdate(pipe))
      ensures old(notifyAddr).None? && ResolveUpdate(pipe).Failure? ==>
        r == ResolveUpdate(pipe) && log == old(log) + [XrefsTo(UPDATE_ANCHOR)]
      ensures old(notifyAddr).None? && ResolveUpdate(pipe).Success? ==>
        && NotifyOutcome(pipe, ResolveUpdate(pipe).value, r)
        && log == old(log) + Pending(old(updateAddr), [XrefsTo(UPDATE_ANCHOR)])
                          + [DecompileAt(Decimal(ResolveUpdate(pipe).value))]
    {
      match notifyAddr {
        case Some(addr) => return Success(addr);
        case None =>
      }
      var update := GetUpdateAddress();
      if update.Failure? {
        return Failure(update.error);
      }
      var dec := Pdgj(Decimal(update.value));
      if dec.Failure? {
        return Failure(Wrapped(NotifyDecompile, QueryFault(dec.error)));
      }
      var found := CalleeMentionedTwice(dec.value.annotations);
      if found.None? {
        return Failure(Absent(NotifyNoTwice));
      }
      notifyAddr := Some(found.value);
      return Success(found.value);
    }

    /** The caller of `usleep` with the most call sites. */
    method GetWaitAddress() returns (r: Result<U64, Error>)
      requires Valid()
      modifies this`waitAddr, this`log
      ensures Valid()
      ensures old(waitAddr).Some? ==> r == Success(old(waitAddr).value)
      ensures WaitOutcome(pipe, r)
      ensures log == old(log) + Pending(old(waitAddr), WaitTrace(pipe))
      ensures waitAddr == Settled(r)
    {
      match waitAddr {
        case Some(addr) => return Success(addr);
        case None =>
      }
      var imports := Iij();
      if imports.Failure? {
        return Failure(Wrapped(WaitImports, QueryFault(imports.error)));
      }
      var sleep := FirstNamed(imports.value, SLEEP_IMPORT);
      if sleep.None? {
        return Failure(Absent(WaitNoSleep));
      }
      var refs := Axtj(Decimal(imports.value[sleep.value].plt));
      if refs.Failure? {
        return Failure(QueryFault(refs.error));
      }
      var best := BusiestCaller(refs.value);
      if best.None? {
        return Failure(Absent(WaitNoCaller));
      }
      waitAddr := Some(best.value);
      return Success(best.value);
    }

    /**
     * The first function, two hops up from wait, that the backend knows references to.
     * Resolves wait first; its failure is passed on with this step's context.
     */
    method GetInstanceAddress() returns (r: Result<U64, Error>)
      requires Valid()
      modifies this`waitAddr, this`getInstanceAddr, this`log
      ensures Valid()
      ensures old(getInstanceAddr).Some? ==>
        r == Success(old(getInstanceAddr).value) && waitAddr == old(waitAddr) && log == old(log)
      ensures getInstanceAddr == Settled(r)
      ensures old(waitAddr).Some? ==> waitAddr == old(waitAddr)
      ensures old(getInstanceAddr).None? && waitAddr.None? ==>
        && SleepCallers(pipe).Failure?
        && r == Failure(Wrapped(InstanceWait, SleepCallers(pipe).error))
        && log == old(log) + WaitTrace(pipe)
      ensures old(getInstanceAddr).None? && waitAddr.Some? ==>
        && r == ResolveInstance(pipe, waitAddr.value)
        && log == old(log) + Pending(old(waitAddr), WaitTrace(pipe)) + InstanceTrace(pipe, waitAddr.value)
    {
      match getInstanceAddr {
        case Some(addr) => return Success(addr);
        case None =>
      }
      var wait := GetWaitAddress();
      if wait.Failure? {
        assert SleepCallers(pipe) == Failure(wait.error);
        return Failure(Wrapped(InstanceWait, wait.error));
      }
      r := InstanceFromWait(wait.value);
      if r.Success? {
        getInstanceAddr := Some(r.value);
      }
    }

    /** The two-hop search from wait at `wait`: its callers, then their own references. */
    method InstanceFromWait(wait: U64) returns (r: Result<U64, Error>)
      modifies this`log
      ensures r == ResolveInstance(pipe, wait)
      ensures log == old(log) + InstanceTrace(pipe, wait)
    {
      var callers := Axtj(Decimal(wait));
      if callers.Failure? {
        return Failure(QueryFault(callers.error));
      }
      var found := FindInstanceCaller(callers.value);
      if found.None? {
        return Failure(Absent(InstanceNoCaller));
      }
      return Success(found.value);
    }

    /**
     * Tries the callers of wait in order: asks for the references to each caller's name,
     * skips a failing or empty answer, and stops at the first non-empty one.
     */
    method FindInstanceCaller(callers: seq<Reference>) returns (found: Option<U64>)
      modifies this`log
      ensures found == SecondHop(pipe, callers)
      ensures log == old(log) + SecondHopTrace(pipe, callers)
    {
      var i := 0;
      while i < |callers|
        invariant 0 <= i <= |callers|
        invariant forall j :: 0 <= j < i ==> !Answers(pipe, callers[j])
        invariant log == old(log) + HopQueries(callers[..i])
      {
        var hop := Axtj(callers[i].fcnName);
        assert callers[..i + 1][..i] == callers[..i];
        if hop.Success? && hop.value != [] {
          FirstAnsweringAt(pipe, callers, i);
          return Some(hop.value[0].fcnAddr);
        }
        i := i + 1;
      }
      assert callers[..i] == callers;
      return None;
    }
  }
}
