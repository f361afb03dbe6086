/**
 * The typed records the analysis backend answers with, and the engine's errors.
 * Field names are the Rust records' field names in camelCase (`fcn_addr` is `fcnAddr`, `refname` is `refName`);
 * `ref_type`, `a_type` and `i_type` become `refType` and `kind`.
 */
module Records {
  import opened Wrappers

  /** A Rust `u64`: every address is one. */
  type U64 = x: int | 0 <= x < 0x1_0000_0000_0000_0000

  /** A Rust `u32`. */
  type U32 = x: int | 0 <= x < 0x1_0000_0000

  /** One cross-reference edge, as listed by `axtj`. */
  datatype Reference = Reference(
    from: U64,
    refType: string,
    perm: string,
    opcode: string,
    fcnAddr: U64,
    fcnName: string,
    refName: string)

  /** A decompiled function, as returned by `pdgj`. */
  datatype Decompile = Decompile(code: string, annotations: seq<Annotation>)

  /** A span of decompiled code; call sites carry the callee's `offset` and `name`. */
  datatype Annotation = Annotation(
    start: U32,
    end: U32,
    kind: string,
    syntaxHighlight: Option<string>,
    offset: Option<U64>,
    name: Option<string>)

  /** One dynamically linked symbol, as listed by `iij`; `plt` is its call stub. */
  datatype Import = Import(ordinal: U32, bind: string, kind: string, name: string, plt: U64)

  /** Why a backend round trip failed: the command itself, or decoding its JSON answer. */
  datatype Fault = CommandFailed | Malformed

  /** The step an error is attributed to; each is one `.context(...)` message of the source. */
  datatype Step =
    | UpdateQuery       // "Failed to get update function reference"
    | UpdateEmpty       // "No update references found"
    | CreateQuery       // "Failed to get create function reference"
    | CreateEmpty       // "No create references found"
    | ShutdownQuery     // "Failed to get shutdown function reference"
    | ShutdownEmpty     // "No shutdown references found"
    | NotifyDecompile   // "Failed to decompile notify function"
    | NotifyNoTwice     // "No notify address found"
    | WaitImports       // "Failed to list imports"
    | WaitNoSleep       // "No usleep function found"
    | WaitNoCaller      // "Failed to find function with max calls"
    | InstanceWait      // "Failed to get wait address"
    | InstanceNoCaller  // "Failed to find getInstance caller"

  /**
   * An `anyhow::Error`: a backend fault passed on by `?`, a fault or earlier error
   * wrapped with a step's context, or a missing value turned into an error by that context.
   */
  datatype Error =
    | QueryFault(fault: Fault)
    | Wrapped(step: Step, cause: Error)
    | Absent(step: Step)
}
