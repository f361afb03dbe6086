/**
 * The command-line run: the six getters in their fixed order, stopping at the first
 * failure, and a whole run of the engine against a small backend.
 */
module Session {
  import opened Wrappers
  import opened Records
  import opened Oracle
  import opened Heuristics
  import opened Engine

  /** The six addresses a successful run writes out. */
  datatype Addresses = Addresses(update: U64, create: U64, shutdown: U64, notify: U64, wait: U64, getInstance: U64)

  /**
   * Resolves update, create, shutdown, notify, wait and getInstance in that order.
   * On success each address is what its heuristic yields from the backend; on failure
   * some slot is left empty and some step's heuristic has no answer.
   */
  method ResolveAll(radare: Radare) returns (r: Result<Addresses, Error>)
    requires radare.Valid()
    modifies radare
    ensures radare.Valid()
    ensures r.Success? ==>
      && ResolveUpdate(radare.pipe) == Success(r.value.update)
      && ResolveCreate(radare.pipe) == Success(r.value.create)
      && ResolveShutdown(radare.pipe) == Success(r.value.shutdown)
      && NotifyOutcome(radare.pipe, r.value.update, Success(r.value.notify))
      && WaitOutcome(radare.pipe, Success(r.value.wait))
      && ResolveInstance(radare.pipe, r.value.wait) == Success(r.value.getInstance)
    ensures r.Failure? ==>
      || radare.updateAddr.None? || radare.createAddr.None? || radare.shutdownAddr.None?
      || radare.notifyAddr.None? || radare.waitAddr.None? || radare.getInstanceAddr.None?
    ensures r.Failure? ==>
      || ResolveUpdate(radare.pipe).Failure?
      || ResolveCreate(radare.pipe).Failure?
      || ResolveShutdown(radare.pipe).Failure?
      || NotifyFails(radare.pipe, ResolveUpdate(radare.pipe).value)
      || SleepCallers(radare.pipe).Failure?
      || (radare.waitAddr.Some? && ResolveInstance(radare.pipe, radare.waitAddr.value).Failure?)
  {
    var update := radare.GetUpdateAddress();
    if update.Failure? { return Failure(update.error); }
    var create := radare.GetCreateAddress();
    if create.Failure? { return Failure(create.error); }
    var shutdown := radare.GetShutdownAddress();
    if shutdown.Failure? { return Failure(shutdown.error); }
    var notify := radare.GetNotifyAddress();
    if notify.Failure? { return Failure(notify.error); }
    var wait := radare.GetWaitAddress();
    if wait.Failure? { return Failure(wait.error); }
    var getInstance := radare.GetInstanceAddress();
    if getInstance.Failure? { return Failure(getInstance.error); }
    return Success(Addresses(update.value, create.value, shutdown.value, notify.value, wait.value, getInstance.value));
  }

  // ---------------------------------------------------------------------------
  // A whole run against a small backend

  /** A call reference from inside the function at `fcnAddr`. */
  function CallFrom(fcnAddr: U64, fcnName: string): Reference
  {
    Reference(0, "CALL", "--x", "bl", fcnAddr, fcnName, "")
  }

  /** A call-site marker for the unnamed function at `offset`. */
  function CallTo(offset: U64): Annotation
  {
    Annotation(0, 0, "function_name", None, Some(offset), Some("fcn.callee"))
  }

  /** The references the small backend knows; any other target has none. */
  function DemoXrefs(target: string): Result<seq<Reference>, Fault>
  {
    if target == UPDATE_ANCHOR then Success([CallFrom(0x1000, "fcn.1000")])
    else if target == CREATE_ANCHOR then Success([CallFrom(0x1100, "fcn.1100")])
    else if target == SHUTDOWN_ANCHOR then Success([CallFrom(0x1200, "fcn.1200")])
    else if target == Decimal(0x4000) then Success(seq(5, _ => CallFrom(0x5000, "fcn.5000")))
    else if target == Decimal(0x5000) then Success([CallFrom(0x6100, "fcn.6100"), CallFrom(0x6000, "fcn.6000")])
    else if target == "fcn.6000" then Success([CallFrom(0x7000, "fcn.7000")])
    else Success([])
  }

  /** The only function the small backend decompiles: 0x1000. */
  function DemoDecompile(target: string): Result<Decompile, Fault>
  {
    if target == Decimal(0x1000) then Success(Decompile("", [CallTo(0x2000), CallTo(0x3000), CallTo(0x2000)]))
    else Failure(CommandFailed)
  }

  /**
   * The update string is referenced from 0x1000, create's from 0x1100 and shutdown's from
   * 0x1200; 0x1000 calls 0x2000 twice and 0x3000 once; `usleep` has its stub at 0x4000,
   * called five times from 0x5000; 0x5000 is called from 0x6100, which nothing references,
   * and from 0x6000, which 0x7000 references.
   */
  function DemoBackend(): Backend
  {
    Backend(DemoXrefs, DemoDecompile, Success([Import(1, "GLOBAL", "FUNC", "usleep", 0x4000)]))
  }

  /** The query text of an address is none of the string anchors. */
  lemma AddressIsNoAnchor(n: nat)
    ensures Decimal(n) != UPDATE_ANCHOR && Decimal(n) != CREATE_ANCHOR && Decimal(n) != SHUTDOWN_ANCHOR
  {
    assert UPDATE_ANCHOR[0] == CREATE_ANCHOR[0] == SHUTDOWN_ANCHOR[0] == '@';
  }

  /** The three string-anchored lookups find 0x1000, 0x1100 and 0x1200. */
  lemma DemoAnchored()
    ensures ResolveUpdate(DemoBackend()) == Success(0x1000)
    ensures ResolveCreate(DemoBackend()) == Success(0x1100)
    ensures ResolveShutdown(DemoBackend()) == Success(0x1200)
  {
  }

  /** Notify in the small backend can only be 0x2000, and 0x2000 qualifies. */
  lemma DemoNotify()
    ensures NotifyOutcome(DemoBackend(), 0x1000, Success(0x2000))
    ensures forall r :: NotifyOutcome(DemoBackend(), 0x1000, r) ==> r == Success(0x2000)
  {
    var anns := [CallTo(0x2000), CallTo(0x3000), CallTo(0x2000)];
    assert DemoBackend().decompile(Decimal(0x1000)) == Success(Decompile("", anns));
    assert NamesCallee(CallTo(0x2000)) && NamesCallee(CallTo(0x3000)) by {
      assert CALLEE_PREFIX <= "fcn.callee";
    }
    assert anns[..2] == [CallTo(0x2000), CallTo(0x3000)] && anns[..2][..1] == [CallTo(0x2000)];
    assert [CallTo(0x2000)][..0] == [];
    assert Mentions(anns, 0x2000) == 2;
    forall a: U64 | a != 0x2000
      ensures Mentions(anns, a) != 2
    {
      assert Mentions([CallTo(0x2000)], a) == 0;
    }
  }

  /** Wait in the small backend can only be 0x5000, and 0x5000 qualifies. */
  lemma DemoWait()
    ensures WaitOutcome(DemoBackend(), Success(0x5000))
    ensures forall r :: WaitOutcome(DemoBackend(), r) ==> r == Success(0x5000)
  {
    var b := DemoBackend();
    AddressIsNoAnchor(0x4000);
    var sleepers := seq(5, _ => CallFrom(0x5000, "fcn.5000"));
    assert b.xrefs(Decimal(0x4000)) == Success(sleepers);
    assert SleepCallers(b) == Success(sleepers);
    forall a: U64 | a != 0x5000
      ensures CallCount(sleepers, a) == 0
    {
      CallCountPositive(sleepers, a);
    }
    CallCountPositive(sleepers, 0x5000);
    assert sleepers[0].fcnAddr == 0x5000;
  }

  /** getInstance in the small backend skips 0x6100, which nothing references, and answers 0x7000. */
  lemma DemoInstance()
    ensures ResolveInstance(DemoBackend(), 0x5000) == Success(0x7000)
  {
    var b := DemoBackend();
    AddressIsNoAnchor(0x5000);
    AddressIsNoAnchor(0x4000);
    if Decimal(0x5000) == Decimal(0x4000) {
      DecimalInjective(0x5000, 0x4000);
    }
    var callers := [CallFrom(0x6100, "fcn.6100"), CallFrom(0x6000, "fcn.6000")];
    assert b.xrefs(Decimal(0x5000)) == Success(callers);
    assert "fcn.6100" != Decimal(0x4000) && "fcn.6100" != Decimal(0x5000) by {
      assert "fcn.6100"[0] == 'f';
    }
    assert "fcn.6000" != Decimal(0x4000) && "fcn.6000" != Decimal(0x5000) by {
      assert "fcn.6000"[0] == 'f';
    }
    assert "fcn.6100" != "fcn.6000" by {
      assert "fcn.6100"[5] != "fcn.6000"[5];
    }
    assert UPDATE_ANCHOR[0] == CREATE_ANCHOR[0] == SHUTDOWN_ANCHOR[0] == '@';
    assert !Answers(b, callers[0]);
    assert Answers(b, callers[1]);
    InstanceChoice(b, 0x5000, 1);
  }

  /** A whole run of the engine on the small backend writes out these six addresses. */
  method DemoRun() returns (r: Result<Addresses, Error>)
    ensures r == Success(Addresses(0x1000, 0x1100, 0x1200, 0x2000, 0x5000, 0x7000))
  {
    var radare := new Radare(DemoBackend());
    r := ResolveAll(radare);
    DemoAnchored();
    DemoNotify();
    DemoWait();
    DemoInstance();
  }
}
