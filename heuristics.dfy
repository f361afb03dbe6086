/**
 * The six resolution heuristics as specifications over the backend's answers,
 * the counting and selection steps the getters run, and what is proved of them.
 */
module Heuristics {
  import opened Wrappers
  import opened Records
  import opened Oracle

  /** Cross-reference labels of the three string literals that anchor the simple lookups. */
  const UPDATE_ANCHOR: string := "@str.Unable_to_complete_update:_invalid_waveform__"
  const CREATE_ANCHOR: string := "@str.Unable_to_start_generator_thread"
  const SHUTDOWN_ANCHOR: string := "@str.Shutting_down..."

  /** Name prefix the backend gives to functions it has no symbol for. */
  const CALLEE_PREFIX: string := "fcn."

  /** The import whose callers the wait heuristic counts. */
  const SLEEP_IMPORT: string := "usleep"

  // ---------------------------------------------------------------------------
  // update, create, shutdown: first reference to a string anchor

  /**
   * A string-anchored lookup: the containing function of the first reference,
   * a backend fault wrapped with `onQuery`, or `onEmpty` when nothing refers to the anchor.
   */
  function Anchored(reply: Result<seq<Reference>, Fault>, onQuery: Step, onEmpty: Step): Result<U64, Error>
  {
    match reply
    case Failure(f) => Failure(Wrapped(onQuery, QueryFault(f)))
    case Success(refs) => if refs == [] then Failure(Absent(onEmpty)) else Success(refs[0].fcnAddr)
  }

  function ResolveUpdate(b: Backend): Result<U64, Error>
  {
    Anchored(b.xrefs(UPDATE_ANCHOR), UpdateQuery, UpdateEmpty)
  }

  function ResolveCreate(b: Backend): Result<U64, Error>
  {
    Anchored(b.xrefs(CREATE_ANCHOR), CreateQuery, CreateEmpty)
  }

  function ResolveShutdown(b: Backend): Result<U64, Error>
  {
    Anchored(b.xrefs(SHUTDOWN_ANCHOR), ShutdownQuery, ShutdownEmpty)
  }

  /** `a` is the containing function of some reference in `refs`. */
  ghost predicate Referenced(refs: seq<Reference>, a: U64)
  {
    exists i :: 0 <= i < |refs| && refs[i].fcnAddr == a
  }

  /**
   * A string-anchored lookup succeeds exactly when the anchor has a reference,
   * returns the first one's function, and keeps the step of each failure.
   */
  lemma AnchoredMeaning(reply: Result<seq<Reference>, Fault>, onQuery: Step, onEmpty: Step)
    ensures Anchored(reply, onQuery, onEmpty).Success? <==> reply.Success? && reply.value != []
    ensures Anchored(reply, onQuery, onEmpty).Success? ==>
      Anchored(reply, onQuery, onEmpty).value == reply.value[0].fcnAddr &&
      Referenced(reply.value, Anchored(reply, onQuery, onEmpty).value)
    ensures reply.Failure? ==> Anchored(reply, onQuery, onEmpty) == Failure(Wrapped(onQuery, QueryFault(reply.error)))
    ensures reply == Success([]) ==> Anchored(reply, onQuery, onEmpty) == Failure(Absent(onEmpty))
  {
  }

  // ---------------------------------------------------------------------------
  // notify: the callee the update function mentions exactly twice

  /** The annotation names a function the backend has no symbol for (`fcn.` prefix). */
  predicate NamesCallee(ann: Annotation)
  {
    match ann.name
    case Some(name) => CALLEE_PREFIX <= name
    case None => false
  }

  /** The annotation is a call-site marker for the function at `a`. */
  predicate MentionsAt(ann: Annotation, a: U64)
  {
    NamesCallee(ann) && ann.offset == Some(a)
  }

  /** How many annotations of `anns` mark a call to the function at `a`. */
  function Mentions(anns: seq<Annotation>, a: U64): nat
  {
    if anns == [] then 0
    else Mentions(anns[..|anns| - 1], a) + (if MentionsAt(anns[|anns| - 1], a) then 1 else 0)
  }

  /** Positions of the annotations that mark a call to `a`. */
  ghost function MentionIndices(anns: seq<Annotation>, a: U64): set<nat>
  {
    set i: nat | i < |anns| && MentionsAt(anns[i], a)
  }

  /** `Mentions` counts exactly the annotations that name `a` with the `fcn.` prefix. */
  lemma {:induction false} MentionsCountsMarkers(anns: seq<Annotation>, a: U64)
    ensures Mentions(anns, a) == |MentionIndices(anns, a)|
  {
    if anns != [] {
      var n := |anns| - 1;
      MentionsCountsMarkers(anns[..n], a);
      var earlier := MentionIndices(anns[..n], a);
      if MentionsAt(anns[n], a) {
        assert MentionIndices(anns, a) == earlier + {n};
      } else {
        assert MentionIndices(anns, a) == earlier;
      }
    }
  }

  /**
   * An annotation without a name, with a name lacking the `fcn.` prefix, or without
   * an offset counts for no address, wherever it stands.
   */
  lemma {:induction false} UnmarkedIgnored(pre: seq<Annotation>, x: Annotation, post: seq<Annotation>, a: U64)
    requires !NamesCallee(x) || x.offset.None?
    ensures Mentions(pre + [x] + post, a) == Mentions(pre + post, a)
  {
    if post == [] {
      assert pre + [x] + post == pre + [x] && pre + post == pre;
      assert (pre + [x])[..|pre|] == pre;
    } else {
      var init := post[..|post| - 1];
      UnmarkedIgnored(pre, x, init, a);
      assert (pre + [x] + post)[..|pre + [x] + post| - 1] == pre + [x] + init;
      assert (pre + post)[..|pre + post| - 1] == pre + init;
    }
  }

  /** Every counted address is the offset of some `fcn.` annotation. */
  lemma {:induction false} MentionsProvenance(anns: seq<Annotation>, a: U64)
    requires Mentions(anns, a) > 0
    ensures exists i :: 0 <= i < |anns| && MentionsAt(anns[i], a) && anns[i].offset == Some(a)
  {
    var n := |anns| - 1;
    if MentionsAt(anns[n], a) {
      assert MentionsAt(anns[n], a) && anns[n].offset == Some(a);
    } else {
      MentionsProvenance(anns[..n], a);
      var i :| 0 <= i < n && MentionsAt(anns[..n][i], a);
      assert anns[i] == anns[..n][i];
    }
  }

  /**
   * The annotation loop of the notify heuristic: one map entry per mentioned
   * address, holding how often it is mentioned.
   */
  method CountCallees(annotations: seq<Annotation>) returns (fnMap: map<U64, nat>)
    ensures forall a :: a in fnMap ==> fnMap[a] == Mentions(annotations, a) && fnMap[a] > 0
    ensures forall a: U64 :: a !in fnMap ==> Mentions(annotations, a) == 0
  {
    fnMap := map[];
    for i := 0 to |annotations|
      invariant forall a :: a in fnMap ==> fnMap[a] == Mentions(annotations[..i], a) && fnMap[a] > 0
      invariant forall a: U64 :: a !in fnMap ==> Mentions(annotations[..i], a) == 0
    {
      assert annotations[..i + 1][..i] == annotations[..i];
      var ann := annotations[i];
      if NamesCallee(ann) {
        match ann.offset {
          case None =>
          case Some(offset) =>
            if offset in fnMap {
              fnMap := fnMap[offset := fnMap[offset] + 1];
            } else {
              fnMap := fnMap[offset := 1];
            }
        }
      }
    }
    assert annotations[..|annotations|] == annotations;
  }

  /** Some entry of `fnMap` whose count is exactly 2, in whatever order the map is walked. */
  method FindExactlyTwice(fnMap: map<U64, nat>) returns (found: Option<U64>)
    ensures found.Some? ==> found.value in fnMap && fnMap[found.value] == 2
    ensures found.None? ==> forall a :: a in fnMap ==> fnMap[a] != 2
  {
    var unseen := fnMap.Keys;
    while unseen != {}
      invariant unseen <= fnMap.Keys
      invariant forall a :: a in fnMap && a !in unseen ==> fnMap[a] != 2
      decreases unseen
    {
      var a :| a in unseen;
      if fnMap[a] == 2 {
        return Some(a);
      }
      unseen := unseen - {a};
    }
    return None;
  }

  /**
   * The notify selection: count the `fcn.` call sites per callee, then take some
   * callee counted exactly twice.
   */
  method CalleeMentionedTwice(annotations: seq<Annotation>) returns (found: Option<U64>)
    ensures found.Some? ==> Mentions(annotations, found.value) == 2
    ensures found.None? ==> forall a: U64 :: Mentions(annotations, a) != 2
  {
    var fnMap := CountCallees(annotations);
    found := FindExactlyTwice(fnMap);
  }

  /**
   * What the notify heuristic may answer once the update function is at `update`:
   * a decompilation fault, some callee mentioned exactly twice when there is one,
   * and a failure otherwise.
   */
  ghost predicate NotifyOutcome(b: Backend, update: U64, r: Result<U64, Error>)
  {
    match b.decompile(Decimal(update))
    case Failure(f) => r == Failure(Wrapped(NotifyDecompile, QueryFault(f)))
    case Success(dec) =>
      if exists a: U64 :: Mentions(dec.annotations, a) == 2 then
        r.Success? && Mentions(dec.annotations, r.value) == 2
      else
        r == Failure(Absent(NotifyNoTwice))
  }

  /** The notify heuristic has no answer once update is at `update`. */
  ghost predicate NotifyFails(b: Backend, update: U64)
  {
    match b.decompile(Decimal(update))
    case Failure(_) => true
    case Success(dec) => forall a: U64 :: Mentions(dec.annotations, a) != 2
  }

  /** Notify fails exactly when its decompilation fails or no callee is mentioned exactly twice. */
  lemma NotifyFailure(b: Backend, update: U64, r: Result<U64, Error>)
    requires NotifyOutcome(b, update, r)
    ensures r.Failure? <==> NotifyFails(b, update)
  {
  }

  /** A successful notify answer is the offset of a `fcn.` annotation of the decompiled update function. */
  lemma NotifyProvenance(b: Backend, update: U64, r: Result<U64, Error>)
    requires NotifyOutcome(b, update, r) && r.Success?
    ensures b.decompile(Decimal(update)).Success?
    ensures exists i :: (0 <= i < |b.decompile(Decimal(update)).value.annotations| &&
      MentionsAt(b.decompile(Decimal(update)).value.annotations[i], r.value))
  {
    MentionsProvenance(b.decompile(Decimal(update)).value.annotations, r.value);
  }

  // ---------------------------------------------------------------------------
  // wait: the caller of `usleep` with the most call sites

  /** Position of the first import called `name`, as `Iterator::find` picks it. */
  function FirstNamed(imports: seq<Import>, name: string): (r: Option<nat>)
    ensures r.Some? ==> r.value < |imports| && imports[r.value].name == name
    ensures r.Some? ==> forall j :: 0 <= j < r.value ==> imports[j].name != name
    ensures r.None? ==> forall j :: 0 <= j < |imports| ==> imports[j].name != name
  {
    if imports == [] then None
    else if imports[0].name == name then Some(0)
    else match FirstNamed(imports[1..], name)
      case None => None
      case Some(i) => Some(i + 1)
  }

  /** How many references of `refs` sit inside the function at `a`. */
  function CallCount(refs: seq<Reference>, a: U64): nat
  {
    if refs == [] then 0
    else CallCount(refs[..|refs| - 1], a) + (if refs[|refs| - 1].fcnAddr == a then 1 else 0)
  }

  /** Positions of the references inside the function at `a`. */
  ghost function CallIndices(refs: seq<Reference>, a: U64): set<nat>
  {
    set i: nat | i < |refs| && refs[i].fcnAddr == a
  }

  /** `CallCount` is the number of references whose containing function is `a`. */
  lemma {:induction false} CallCountCountsSites(refs: seq<Reference>, a: U64)
    ensures CallCount(refs, a) == |CallIndices(refs, a)|
  {
    if refs != [] {
      var n := |refs| - 1;
      CallCountCountsSites(refs[..n], a);
      var earlier := CallIndices(refs[..n], a);
      if refs[n].fcnAddr == a {
        assert CallIndices(refs, a) == earlier + {n};
      } else {
        assert CallIndices(refs, a) == earlier;
      }
    }
  }

  /** A function has a positive count exactly when some reference sits inside it. */
  lemma {:induction false} CallCountPositive(refs: seq<Reference>, a: U64)
    ensures CallCount(refs, a) > 0 <==> Referenced(refs, a)
  {
    if refs != [] {
      var n := |refs| - 1;
      CallCountPositive(refs[..n], a);
      if Referenced(refs[..n], a) {
        var i :| 0 <= i < n && refs[..n][i].fcnAddr == a;
        assert refs[i].fcnAddr == a;
      }
      if Referenced(refs, a) && refs[n].fcnAddr != a {
        var i :| 0 <= i < |refs| && refs[i].fcnAddr == a;
        assert refs[..n][i].fcnAddr == a;
      }
    }
  }

  /** The reference loop of the wait heuristic: call sites per calling function. */
  method CountCallers(refs: seq<Reference>) returns (fnMap: map<U64, nat>)
    ensures forall a :: a in fnMap ==> fnMap[a] == CallCount(refs, a) && fnMap[a] > 0
    ensures forall a: U64 :: a !in fnMap ==> CallCount(refs, a) == 0
  {
    fnMap := map[];
    for i := 0 to |refs|
      invariant forall a :: a in fnMap ==> fnMap[a] == CallCount(refs[..i], a) && fnMap[a] > 0
      invariant forall a: U64 :: a !in fnMap ==> CallCount(refs[..i], a) == 0
    {
      assert refs[..i + 1][..i] == refs[..i];
      var offset := refs[i].fcnAddr;
      if offset in fnMap {
        fnMap := fnMap[offset := fnMap[offset] + 1];
      } else {
        fnMap := fnMap[offset := 1];
      }
    }
    assert refs[..|refs|] == refs;
  }

  /**
   * An entry of `fnMap` with the largest count, in whatever order the map is walked
   * (`Iterator::max_by`, which keeps the later of two equal counts); none for an empty map.
   */
  method MaxByCount(fnMap: map<U64, nat>) returns (best: Option<U64>)
    ensures best.None? <==> fnMap == map[]
    ensures best.Some? ==> best.value in fnMap && forall a :: a in fnMap ==> fnMap[a] <= fnMap[best.value]
  {
    var unseen := fnMap.Keys;
    best := None;
    while unseen != {}
      invariant unseen <= fnMap.Keys
      invariant best.None? <==> unseen == fnMap.Keys
      invariant best.Some? ==> best.value in fnMap
      invariant best.Some? ==> forall a :: a in fnMap && a !in unseen ==> fnMap[a] <= fnMap[best.value]
      decreases unseen
    {
      var a :| a in unseen;
      if best.None? || fnMap[best.value] <= fnMap[a] {
        best := Some(a);
      }
      unseen := unseen - {a};
    }
    if best.None? {
      assert fnMap.Keys == {};
    }
  }

  /** `a` calls the sleep stub at least once and no function calls it more often. */
  ghost predicate IsBusiest(refs: seq<Reference>, a: U64)
  {
    CallCount(refs, a) > 0 && forall x: U64 :: CallCount(refs, x) <= CallCount(refs, a)
  }

  /**
   * The wait selection: count the call sites per calling function, then take one
   * with the largest count; none exactly when there are no references.
   */
  method BusiestCaller(refs: seq<Reference>) returns (best: Option<U64>)
    ensures best.None? <==> refs == []
    ensures best.Some? ==> IsBusiest(refs, best.value)
  {
    var fnMap := CountCallers(refs);
    if refs != [] {
      assert refs[0].fcnAddr in fnMap by {
        CallCountPositive(refs, refs[0].fcnAddr);
      }
    }
    best := MaxByCount(fnMap);
  }

  /**
   * The deterministic part of the wait heuristic: the references to the first
   * `usleep` import's stub, or the step that failed (no references is a failure).
   */
  function SleepCallers(b: Backend): Result<seq<Reference>, Error>
  {
    match b.imports
    case Failure(f) => Failure(Wrapped(WaitImports, QueryFault(f)))
    case Success(imports) =>
      match FirstNamed(imports, SLEEP_IMPORT)
      case None => Failure(Absent(WaitNoSleep))
      case Some(i) =>
        match b.xrefs(Decimal(imports[i].plt))
        case Failure(f) => Failure(QueryFault(f))
        case Success(refs) => if refs == [] then Failure(Absent(WaitNoCaller)) else Success(refs)
  }

  /** The queries the wait heuristic issues. */
  function WaitTrace(b: Backend): seq<Command>
  {
    [ListImports] +
    match b.imports
    case Failure(_) => []
    case Success(imports) =>
      match FirstNamed(imports, SLEEP_IMPORT)
      case None => []
      case Some(i) => [XrefsTo(Decimal(imports[i].plt))]
  }

  /** What the wait heuristic may answer: a failure of its lookups, or a busiest caller of `usleep`. */
  ghost predicate WaitOutcome(b: Backend, r: Result<U64, Error>)
  {
    match SleepCallers(b)
    case Failure(e) => r == Failure(e)
    case Success(refs) => r.Success? && IsBusiest(refs, r.value)
  }

  /**
   * The wait lookup fails when no import is named `usleep`, and otherwise asks for
   * the references to the first such import's stub.
   */
  lemma SleepLookup(b: Backend)
    requires b.imports.Success?
    ensures (forall j :: 0 <= j < |b.imports.value| ==> b.imports.value[j].name != SLEEP_IMPORT) ==>
      SleepCallers(b) == Failure(Absent(WaitNoSleep)) && WaitTrace(b) == [ListImports]
    ensures forall k :: (0 <= k < |b.imports.value| && b.imports.value[k].name == SLEEP_IMPORT &&
      (forall j :: 0 <= j < k ==> b.imports.value[j].name != SLEEP_IMPORT)) ==>
      WaitTrace(b) == [ListImports, XrefsTo(Decimal(b.imports.value[k].plt))]
  {
  }

  /** A wait answer is a function that contains a reference to the `usleep` stub. */
  lemma WaitProvenance(b: Backend, r: Result<U64, Error>)
    requires WaitOutcome(b, r) && r.Success?
    ensures SleepCallers(b).Success? && Referenced(SleepCallers(b).value, r.value)
  {
    CallCountPositive(SleepCallers(b).value, r.value);
  }

  // ---------------------------------------------------------------------------
  // getInstance: two hops up the call graph from wait

  /** Asking for references to the caller's name succeeds with at least one reference. */
  predicate Answers(b: Backend, caller: Reference)
  {
    b.xrefs(caller.fcnName).Success? && b.xrefs(caller.fcnName).value != []
  }

  /** Position of the first caller whose second-hop query answers, failing queries skipped. */
  function FirstAnswering(b: Backend, callers: seq<Reference>): (r: Option<nat>)
    ensures r.Some? ==> r.value < |callers| && Answers(b, callers[r.value])
    ensures r.Some? ==> forall j :: 0 <= j < r.value ==> !Answers(b, callers[j])
    ensures r.None? ==> forall j :: 0 <= j < |callers| ==> !Answers(b, callers[j])
  {
    if callers == [] then None
    else if Answers(b, callers[0]) then Some(0)
    else match FirstAnswering(b, callers[1..])
      case None => None
      case Some(i) => Some(i + 1)
  }

  /** The second-hop queries for `callers`, in order. */
  function HopQueries(callers: seq<Reference>): (qs: seq<Command>)
    ensures |qs| == |callers|
    ensures forall j :: 0 <= j < |callers| ==> qs[j] == XrefsTo(callers[j].fcnName)
  {
    if callers == [] then [] else HopQueries(callers[..|callers| - 1]) + [XrefsTo(callers[|callers| - 1].fcnName)]
  }

  /** A caller that answers, after callers that all did not, is the one `FirstAnswering` picks. */
  lemma FirstAnsweringAt(b: Backend, callers: seq<Reference>, k: nat)
    requires k < |callers| && Answers(b, callers[k])
    requires forall j :: 0 <= j < k ==> !Answers(b, callers[j])
    ensures FirstAnswering(b, callers) == Some(k)
  {
  }

  /** The second hop: the first reference of the first caller whose query answers. */
  function SecondHop(b: Backend, callers: seq<Reference>): Option<U64>
  {
    match FirstAnswering(b, callers)
    case None => None
    case Some(i) => Some(b.xrefs(callers[i].fcnName).value[0].fcnAddr)
  }

  /** The second-hop queries: one per caller up to and including the first that answers. */
  function SecondHopTrace(b: Backend, callers: seq<Reference>): seq<Command>
  {
    match FirstAnswering(b, callers)
    case None => HopQueries(callers)
    case Some(i) => HopQueries(callers[..i + 1])
  }

  /** The getInstance heuristic once wait is at `wait`. */
  function ResolveInstance(b: Backend, wait: U64): Result<U64, Error>
  {
    match b.xrefs(Decimal(wait))
    case Failure(f) => Failure(QueryFault(f))
    case Success(callers) =>
      match SecondHop(b, callers)
      case None => Failure(Absent(InstanceNoCaller))
      case Some(a) => Success(a)
  }

  /** The queries the getInstance heuristic issues once wait is at `wait`. */
  function InstanceTrace(b: Backend, wait: U64): seq<Command>
  {
    [XrefsTo(Decimal(wait))] +
    match b.xrefs(Decimal(wait))
    case Failure(_) => []
    case Success(callers) => SecondHopTrace(b, callers)
  }

  /**
   * getInstance answers with the first reference of the first caller (in the order
   * returned) whose second-hop query answers; callers before it failed or were empty.
   */
  lemma InstanceChoice(b: Backend, wait: U64, k: nat)
    requires b.xrefs(Decimal(wait)).Success?
    requires k < |b.xrefs(Decimal(wait)).value|
    requires Answers(b, b.xrefs(Decimal(wait)).value[k])
    requires forall j :: 0 <= j < k ==> !Answers(b, b.xrefs(Decimal(wait)).value[j])
    ensures ResolveInstance(b, wait) == Success(b.xrefs(b.xrefs(Decimal(wait)).value[k].fcnName).value[0].fcnAddr)
    ensures InstanceTrace(b, wait) == [XrefsTo(Decimal(wait))] + HopQueries(b.xrefs(Decimal(wait)).value[..k + 1])
  {
  }

  /** getInstance fails, without a second-hop answer, exactly when no caller's query answers. */
  lemma InstanceExhausted(b: Backend, wait: U64)
    requires b.xrefs(Decimal(wait)).Success?
    ensures ResolveInstance(b, wait) == Failure(Absent(InstanceNoCaller)) <==>
      forall j :: 0 <= j < |b.xrefs(Decimal(wait)).value| ==> !Answers(b, b.xrefs(Decimal(wait)).value[j])
  {
  }

  /**
   * A getInstance answer is the function holding the first reference to the first
   * caller of wait whose own query answers.
   */
  lemma InstanceProvenance(b: Backend, wait: U64)
    requires ResolveInstance(b, wait).Success?
    ensures b.xrefs(Decimal(wait)).Success? && FirstAnswering(b, b.xrefs(Decimal(wait)).value).Some?
    ensures
      var callers := b.xrefs(Decimal(wait)).value;
      var name := callers[FirstAnswering(b, callers).value].fcnName;
      && b.xrefs(name).Success? && b.xrefs(name).value != []
      && ResolveInstance(b, wait).value == b.xrefs(name).value[0].fcnAddr
      && Referenced(b.xrefs(name).value, ResolveInstance(b, wait).value)
  {
  }
}
