/**
 * The import registry: the table of `(namespace, name, import)` entries
 * that `generate_emscripten_env` hands to the engine's linker. The engine's
 * `Imports` object is modelled as the append-only list of the entries added
 * to it, in order; how the engine resolves two entries with the same key
 * is not part of this model, and the table does contain such pairs.
 */
module Registry {
  import opened Ints
  import opened Layout

  /** The value types a function signature may name. */
  datatype ValueType = I32 | I64 | F32 | F64

  /** A function signature: parameter types, then result types. */
  datatype FuncSig = FuncSig(params: seq<ValueType>, results: seq<ValueType>)

  /**
   * An opaque tag standing for a native function pointer: either the host
   * function `path::symbol`, or the stub that `mock_external!` generates
   * for the given identifier.
   */
  datatype Handler =
    | Native(path: string, symbol: string)
    | Mocked(identifier: string)

  /** The payload of a global import; every global of the table is an `i64`. */
  datatype Value = I64Value(v: i64)

  datatype Import =
    | Global(value: Value)
    | Func(handler: Handler, sig: FuncSig)

  datatype Entry = Entry(namespace: string, name: string, item: Import)

  datatype Option<T> = None | Some(value: T)

  /**
   * What the function behind a handler is known to return. The stub
   * `mock_external!` generates always returns -1; the bodies of the host
   * functions are not part of this model, so nothing is known of them.
   */
  function StubReturn(h: Handler): (r: Option<i32>)
  {
    match h
    case Mocked(_) => Some(-1)
    case Native(_, _) => None
  }

  /** The entry `mock_external!(imports, name)` adds. */
  function MockEntry(name: string): (e: Entry)
  {
    Entry("env", name, Func(Mocked(name), FuncSig([], [I32])))
  }

  /** The IEEE-754 binary64 encoding of positive infinity (`f64::INFINITY.to_bits()`). */
  const F64_INFINITY_BITS: u64 := 0x7FF0_0000_0000_0000
  /** The quiet NaN that Rust's `f64::NAN` evaluates to, as bits. */
  const F64_NAN_BITS: u64 := 0x7FF8_0000_0000_0000

  /** The six globals, first in the table: the planner's values at the hard-wired static bump, the float constants and `tableBase`. */
  function GlobalImports(align: u32 -> u32): (g: seq<Entry>)
    requires PlanFits(align, STATIC_BUMP)
  {
    [
      Entry("env", "STACKTOP", Global(I64Value(Stacktop(align, STATIC_BUMP)))),
      Entry("env", "STACK_MAX", Global(I64Value(StackMax(align, STATIC_BUMP)))),
      Entry("env", "DYNAMICTOP_PTR", Global(I64Value(DynamictopPtr(STATIC_BUMP)))),
      Entry("global", "Infinity", Global(I64Value(ReinterpretU64AsI64(F64_INFINITY_BITS)))),
      Entry("global", "NaN", Global(I64Value(ReinterpretU64AsI64(F64_NAN_BITS)))),
      Entry("env", "tableBase", Global(I64Value(0)))
    ]
  }

  /** Print functions: `lib/emscripten/src/lib.rs` lines 161-182. */
  const PRINT_IMPORTS: seq<Entry> := [
    Entry("env", "printf", Func(Native("io", "printf"), FuncSig([I32, I32], [I32]))),
    Entry("env", "putchar", Func(Native("io", "putchar"), FuncSig([I32], [])))
  ]

  /** Lock: `lib/emscripten/src/lib.rs` lines 184-216. */
  const LOCK_IMPORTS: seq<Entry> := [
    Entry("env", "___lock", Func(Native("lock", "___lock"), FuncSig([I32, I32], []))),
    Entry("env", "___unlock", Func(Native("lock", "___unlock"), FuncSig([I32, I32], []))),
    Entry("env", "___wait", Func(Native("lock", "___wait"), FuncSig([I32, I32], [])))
  ]

  /** Environment variables and user/group lookup: `lib/emscripten/src/lib.rs` lines 218-294. */
  const ENV_IMPORTS: seq<Entry> := [
    Entry("env", "_getenv", Func(Native("env", "_getenv"), FuncSig([I32], [I32]))),
    Entry("env", "_setenv", Func(Native("env", "_setenv"), FuncSig([I32, I32, I32], []))),
    Entry("env", "_putenv", Func(Native("env", "_putenv"), FuncSig([I32], []))),
    Entry("env", "_unsetenv", Func(Native("env", "_unsetenv"), FuncSig([I32], []))),
    Entry("env", "_getpwnam", Func(Native("env", "_getpwnam"), FuncSig([I32], [I32]))),
    Entry("env", "_getgrnam", Func(Native("env", "_getgrnam"), FuncSig([I32], [I32]))),
    Entry("env", "___buildEnvironment", Func(Native("env", "___build_environment"), FuncSig([I32], [])))
  ]

  /** Errno: `lib/emscripten/src/lib.rs` lines 296-306. */
  const ERRNO_IMPORTS: seq<Entry> := [
    Entry("env", "___setErrNo", Func(Native("errno", "___seterrno"), FuncSig([I32], [I32])))
  ]

  /** Syscalls 1 to 39: `lib/emscripten/src/lib.rs` lines 308-395. */
  const SYSCALL_IMPORTS_1: seq<Entry> := [
    Entry("env", "___syscall1", Func(Native("syscalls", "___syscall1"), FuncSig([I32, I32], []))),
    Entry("env", "___syscall3", Func(Native("syscalls", "___syscall3"), FuncSig([I32, I32], [I32]))),
    Entry("env", "___syscall4", Func(Native("syscalls", "___syscall4"), FuncSig([I32, I32], [I32]))),
    Entry("env", "___syscall5", Func(Native("syscalls", "___syscall5"), FuncSig([I32, I32], [I32]))),
    Entry("env", "___syscall6", Func(Native("syscalls", "___syscall6"), FuncSig([I32, I32], [I32]))),
    Entry("env", "___syscall12", Func(Native("syscalls", "___syscall12"), FuncSig([I32, I32], [I32]))),
    Entry("env", "___syscall20", Func(Native("syscalls", "___syscall20"), FuncSig([], [I32]))),
    Entry("env", "___syscall39", Func(Native("syscalls", "___syscall39"), FuncSig([I32, I32], [I32])))
  ]

  /** Syscalls 40 to 114: `lib/emscripten/src/lib.rs` lines 396-472. */
  const SYSCALL_IMPORTS_2: seq<Entry> := [
    Entry("env", "___syscall40", Func(Native("syscalls", "___syscall40"), FuncSig([I32, I32], [I32]))),
    Entry("env", "___syscall54", Func(Native("syscalls", "___syscall54"), FuncSig([I32, I32], [I32]))),
    Entry("env", "___syscall57", Func(Native("syscalls", "___syscall57"), FuncSig([I32, I32], [I32]))),
    Entry("env", "___syscall63", Func(Native("syscalls", "___syscall63"), FuncSig([I32, I32], [I32]))),
    Entry("env", "___syscall64", Func(Native("syscalls", "___syscall64"), FuncSig([], [I32]))),
    Entry("env", "___syscall102", Func(Native("syscalls", "___syscall102"), FuncSig([I32, I32], [I32]))),
    Entry("env", "___syscall114", Func(Native("syscalls", "___syscall114"), FuncSig([I32, I32], [I32])))
  ]

  /** Syscalls 122 to 181: `lib/emscripten/src/lib.rs` lines 473-549. */
  const SYSCALL_IMPORTS_3: seq<Entry> := [
    Entry("env", "___syscall122", Func(Native("syscalls", "___syscall122"), FuncSig([I32, I32], [I32]))),
    Entry("env", "___syscall140", Func(Native("syscalls", "___syscall140"), FuncSig([I32, I32], [I32]))),
    Entry("env", "___syscall142", Func(Native("syscalls", "___syscall142"), FuncSig([I32, I32], [I32]))),
    Entry("env", "___syscall145", Func(Native("syscalls", "___syscall145"), FuncSig([I32, I32], [I32]))),
    Entry("env", "___syscall146", Func(Native("syscalls", "___syscall146"), FuncSig([I32, I32], [I32]))),
    Entry("env", "___syscall180", Func(Native("syscalls", "___syscall180"), FuncSig([I32, I32], [I32]))),
    Entry("env", "___syscall181", Func(Native("syscalls", "___syscall181"), FuncSig([I32, I32], [I32])))
  ]

  /** Syscalls 192 to 340: `lib/emscripten/src/lib.rs` lines 550-648. */
  const SYSCALL_IMPORTS_4: seq<Entry> := [
    Entry("env", "___syscall192", Func(Native("syscalls", "___syscall192"), FuncSig([I32, I32], [I32]))),
    Entry("env", "___syscall195", Func(Native("syscalls", "___syscall195"), FuncSig([I32, I32], [I32]))),
    Entry("env", "___syscall197", Func(Native("syscalls", "___syscall197"), FuncSig([I32, I32], [I32]))),
    Entry("env", "___syscall201", Func(Native("syscalls", "___syscall201"), FuncSig([], [I32]))),
    Entry("env", "___syscall202", Func(Native("syscalls", "___syscall202"), FuncSig([], [I32]))),
    Entry("env", "___syscall212", Func(Native("syscalls", "___syscall212"), FuncSig([I32, I32], [I32]))),
    Entry("env", "___syscall221", Func(Native("syscalls", "___syscall221"), FuncSig([I32, I32], [I32]))),
    Entry("env", "___syscall330", Func(Native("syscalls", "___syscall330"), FuncSig([I32, I32], [I32]))),
    Entry("env", "___syscall340", Func(Native("syscalls", "___syscall340"), FuncSig([I32, I32], [I32])))
  ]

  /** Process: `lib/emscripten/src/lib.rs` lines 650-737. */
  const PROCESS_IMPORTS: seq<Entry> := [
    Entry("env", "abort", Func(Native("process", "em_abort"), FuncSig([I32], []))),
    Entry("env", "_abort", Func(Native("process", "_abort"), FuncSig([], []))),
    Entry("env", "abortStackOverflow", Func(Native("process", "abort_stack_overflow"), FuncSig([], []))),
    Entry("env", "_llvm_trap", Func(Native("process", "_llvm_trap"), FuncSig([], []))),
    Entry("env", "_fork", Func(Native("process", "_fork"), FuncSig([], [I32]))),
    Entry("env", "_exit", Func(Native("process", "_exit"), FuncSig([I32], []))),
    Entry("env", "_system", Func(Native("process", "_system"), FuncSig([], [I32]))),
    Entry("env", "_popen", Func(Native("process", "_popen"), FuncSig([], [I32])))
  ]

  /** Signal: `lib/emscripten/src/lib.rs` lines 739-793. */
  const SIGNAL_IMPORTS: seq<Entry> := [
    Entry("env", "_sigemptyset", Func(Native("signal", "_sigemptyset"), FuncSig([I32], [I32]))),
    Entry("env", "_sigaddset", Func(Native("signal", "_sigaddset"), FuncSig([I32, I32], [I32]))),
    Entry("env", "_sigprocmask", Func(Native("signal", "_sigprocmask"), FuncSig([], [I32]))),
    Entry("env", "_sigaction", Func(Native("signal", "_sigaction"), FuncSig([I32, I32, I32], [I32]))),
    Entry("env", "_signal", Func(Native("signal", "_signal"), FuncSig([I32], [I32])))
  ]

  /** Memory: `lib/emscripten/src/lib.rs` lines 795-849. */
  const MEMORY_IMPORTS: seq<Entry> := [
    Entry("env", "abortOnCannotGrowMemory", Func(Native("memory", "abort_on_cannot_grow_memory"), FuncSig([], []))),
    Entry("env", "_emscripten_memcpy_big", Func(Native("memory", "_emscripten_memcpy_big"), FuncSig([I32, I32, I32], [I32]))),
    Entry("env", "enlargeMemory", Func(Native("memory", "enlarge_memory"), FuncSig([], []))),
    Entry("env", "getTotalMemory", Func(Native("memory", "get_total_memory"), FuncSig([], [I32]))),
    Entry("env", "___map_file", Func(Native("memory", "___map_file"), FuncSig([], [I32])))
  ]

  /** Exception: `lib/emscripten/src/lib.rs` lines 851-883. */
  const EXCEPTION_IMPORTS: seq<Entry> := [
    Entry("env", "___cxa_allocate_exception", Func(Native("exception", "___cxa_allocate_exception"), FuncSig([I32], [I32]))),
    Entry("env", "___cxa_allocate_exception", Func(Native("exception", "___cxa_throw"), FuncSig([I32, I32, I32], []))),
    Entry("env", "___cxa_throw", Func(Native("exception", "___cxa_throw"), FuncSig([I32, I32, I32], [])))
  ]

  /** Null function-pointer traps returning a value: `lib/emscripten/src/lib.rs` lines 885-939. */
  const NULLFUNC_IMPORTS_1: seq<Entry> := [
    Entry("env", "nullFunc_ii", Func(Native("nullfunc", "nullfunc_ii"), FuncSig([I32], []))),
    Entry("env", "nullFunc_iii", Func(Native("nullfunc", "nullfunc_iii"), FuncSig([I32], []))),
    Entry("env", "nullFunc_iiii", Func(Native("nullfunc", "nullfunc_iiii"), FuncSig([I32], []))),
    Entry("env", "nullFunc_iiiii", Func(Native("nullfunc", "nullfunc_iiiii"), FuncSig([I32], []))),
    Entry("env", "nullFunc_iiiiii", Func(Native("nullfunc", "nullfunc_iiiiii"), FuncSig([I32], [])))
  ]

  /** Null function-pointer traps returning nothing: `lib/emscripten/src/lib.rs` lines 940-1016. */
  const NULLFUNC_IMPORTS_2: seq<Entry> := [
    Entry("env", "nullFunc_v", Func(Native("nullfunc", "nullfunc_v"), FuncSig([I32], []))),
    Entry("env", "nullFunc_vi", Func(Native("nullfunc", "nullfunc_vi"), FuncSig([I32], []))),
    Entry("env", "nullFunc_vii", Func(Native("nullfunc", "nullfunc_vii"), FuncSig([I32], []))),
    Entry("env", "nullFunc_viii", Func(Native("nullfunc", "nullfunc_viii"), FuncSig([I32], []))),
    Entry("env", "nullFunc_viiii", Func(Native("nullfunc", "nullfunc_viiii"), FuncSig([I32], []))),
    Entry("env", "nullFunc_viiiii", Func(Native("nullfunc", "nullfunc_viiiii"), FuncSig([I32], []))),
    Entry("env", "nullFunc_viiiiii", Func(Native("nullfunc", "nullfunc_viiiiii"), FuncSig([I32], [])))
  ]

  /** Time: `lib/emscripten/src/lib.rs` lines 1018-1138. */
  const TIME_IMPORTS: seq<Entry> := [
    Entry("env", "_gettimeofday", Func(Native("time", "_gettimeofday"), FuncSig([I32, I32], [I32]))),
    Entry("env", "_clock_gettime", Func(Native("time", "_clock_gettime"), FuncSig([I32, I32], [I32]))),
    Entry("env", "___clock_gettime", Func(Native("time", "___clock_gettime"), FuncSig([I32, I32], [I32]))),
    Entry("env", "_clock", Func(Native("time", "_clock"), FuncSig([], [I32]))),
    Entry("env", "_difftime", Func(Native("time", "_difftime"), FuncSig([I32, I32], [I32]))),
    Entry("env", "_asctime", Func(Native("time", "_asctime"), FuncSig([I32], [I32]))),
    Entry("env", "_asctime_r", Func(Native("time", "_asctime_r"), FuncSig([I32, I32], [I32]))),
    Entry("env", "_localtime", Func(Native("time", "_localtime"), FuncSig([I32], [I32]))),
    Entry("env", "_time", Func(Native("time", "_time"), FuncSig([I32], [I32]))),
    Entry("env", "_strftime", Func(Native("time", "_strftime"), FuncSig([I32, I32, I32, I32], [I32]))),
    Entry("env", "_localtime_r", Func(Native("time", "_localtime_r"), FuncSig([I32, I32], [I32])))
  ]

  /** Page size and `sysconf`, registered after the time functions: `lib/emscripten/src/lib.rs` lines 1139-1160. */
  const SYSTEM_CONFIG_IMPORTS: seq<Entry> := [
    Entry("env", "_getpagesize", Func(Native("env", "_getpagesize"), FuncSig([], [I32]))),
    Entry("env", "_sysconf", Func(Native("env", "_sysconf"), FuncSig([I32], [I32])))
  ]

  /** Math: `lib/emscripten/src/lib.rs` lines 1162-1194. */
  const MATH_IMPORTS: seq<Entry> := [
    Entry("env", "_llvm_log10_f64", Func(Native("math", "_llvm_log10_f64"), FuncSig([F64], [F64]))),
    Entry("env", "_llvm_log2_f64", Func(Native("math", "_llvm_log2_f64"), FuncSig([F64], [F64]))),
    Entry("asm2wasm", "f64-rem", Func(Native("math", "f64_rem"), FuncSig([F64, F64], [F64])))
  ]

  /** setjmp/longjmp: `lib/emscripten/src/lib.rs` lines 1196-1217. */
  const JMP_IMPORTS: seq<Entry> := [
    Entry("env", "__setjmp", Func(Native("jmp", "__setjmp"), FuncSig([I32], [I32]))),
    Entry("env", "__longjmp", Func(Native("jmp", "__longjmp"), FuncSig([I32, I32], [])))
  ]

  /** Mocked imports, first nine: `lib/emscripten/src/lib.rs` lines 1219-1234. */
  const MOCKED_NAMES_1: seq<string> := [
    "_waitpid",
    "_utimes",
    "_usleep",
    "_sigsuspend",
    "_setitimer",
    "_setgroups",
    "_setgrent",
    "_sem_wait",
    "_sem_post"
  ]

  /** Mocked imports, second nine: `lib/emscripten/src/lib.rs` lines 1235-1247. */
  const MOCKED_NAMES_2: seq<string> := [
    "_sem_init",
    "_sched_yield",
    "_raise",
    "_mktime",
    "_llvm_stacksave",
    "_llvm_stackrestore",
    "_kill",
    "_gmtime_r",
    "_getgrent"
  ]

  /** Mocked imports, third nine: `lib/emscripten/src/lib.rs` lines 1248-1264. */
  const MOCKED_NAMES_3: seq<string> := [
    "_getaddrinfo",
    "_execve",
    "_endgrent",
    "___syscall97",
    "___syscall91",
    "___syscall85",
    "___syscall75",
    "___syscall66",
    "___syscall38"
  ]

  /** Mocked imports, fourth nine: `lib/emscripten/src/lib.rs` lines 1266-1279. */
  const MOCKED_NAMES_4: seq<string> := [
    "___syscall334",
    "___syscall300",
    "___syscall295",
    "___syscall272",
    "___syscall268",
    "___syscall220",
    "___syscall199",
    "___syscall196",
    "___syscall194"
  ]

  /** Mocked imports, fifth nine: `lib/emscripten/src/lib.rs` lines 1280-1296. */
  const MOCKED_NAMES_5: seq<string> := [
    "___syscall191",
    "___syscall168",
    "___syscall140",
    "___syscall15",
    "___syscall10",
    "_dlopen",
    "_dlclose",
    "_dlsym",
    "_dlerror"
  ]

  /** Print, lock, environment and errno functions. */
  function BasicImports(): (s: seq<Entry>) {
    PRINT_IMPORTS + LOCK_IMPORTS + ENV_IMPORTS + ERRNO_IMPORTS
  }

  /** The syscalls with a host implementation. */
  function SyscallImports(): (s: seq<Entry>) {
    SYSCALL_IMPORTS_1 + SYSCALL_IMPORTS_2 + SYSCALL_IMPORTS_3 + SYSCALL_IMPORTS_4
  }

  /** Process, signal, memory, exception and null-function imports. */
  function RuntimeImports(): (s: seq<Entry>) {
    PROCESS_IMPORTS + SIGNAL_IMPORTS + MEMORY_IMPORTS + EXCEPTION_IMPORTS + NULLFUNC_IMPORTS_1 + NULLFUNC_IMPORTS_2
  }

  /** Time, system configuration, math and setjmp/longjmp imports. */
  function TimeAndMathImports(): (s: seq<Entry>) {
    TIME_IMPORTS + SYSTEM_CONFIG_IMPORTS + MATH_IMPORTS + JMP_IMPORTS
  }

  /** The host functions, in the order they are added. */
  function HostImports(): (s: seq<Entry>) {
    BasicImports() + SyscallImports() + RuntimeImports() + TimeAndMathImports()
  }

  /** The `mock_external!` entries, in the order they are added. */
  function MockedImports(): (s: seq<Entry>) {
    MockEntries(MOCKED_NAMES_1) + MockEntries(MOCKED_NAMES_2) + MockEntries(MOCKED_NAMES_3) + MockEntries(MOCKED_NAMES_4) + MockEntries(MOCKED_NAMES_5)
  }

  /** The function imports, in the order they are added. */
  function FunctionImports(): (s: seq<Entry>) {
    HostImports() + MockedImports()
  }

  /** Every entry `generate_emscripten_env` adds, in order. */
  function EnvTable(align: u32 -> u32): (t: seq<Entry>)
    requires PlanFits(align, STATIC_BUMP)
  {
    GlobalImports(align) + FunctionImports()
  }

  /** Only `I32` and `F64` occur in the signature. */
  predicate UsesI32OrF64(sig: FuncSig) {
    forall t :: (t in sig.params || t in sig.results) ==> t == I32 || t == F64
  }

  /**
   * The shape every entry of the table is expected to have: a function
   * signature uses only `I32` and `F64`, and a mocked function sits in
   * `env` under its own identifier with no parameters and one `I32` result.
   */
  predicate WellFormed(e: Entry) {
    match e.item
    case Global(_) => true
    case Func(h, sig) =>
      UsesI32OrF64(sig) &&
      (h.Mocked? ==> e.namespace == "env" && e.name == h.identifier && sig == FuncSig([], [I32]))
  }

  predicate AllWellFormed(s: seq<Entry>) {
    forall i :: 0 <= i < |s| ==> WellFormed(s[i])
  }

  /** `WellFormed` checked entry by entry from index `k`, in a form that unfolds on a literal table. */
  predicate WellFormedFrom(s: seq<Entry>, k: nat)
    decreases |s| - k
  {
    k >= |s| || (WellFormed(s[k]) && WellFormedFrom(s, k + 1))
  }

  lemma {:induction false} WellFormedFromAll(s: seq<Entry>, k: nat)
    requires WellFormedFrom(s, k)
    ensures forall i :: k <= i < |s| ==> WellFormed(s[i])
    decreases |s| - k
  {
    if k < |s| {
      WellFormedFromAll(s, k + 1);
    }
  }

  /** A table section whose literal entries are checked one by one. */
  lemma SectionWellFormed(s: seq<Entry>)
    requires WellFormedFrom(s, 0)
    ensures AllWellFormed(s)
  {
    WellFormedFromAll(s, 0);
  }

  lemma ConcatWellFormed(a: seq<Entry>, b: seq<Entry>)
    requires AllWellFormed(a) && AllWellFormed(b)
    ensures AllWellFormed(a + b)
  {
    forall i | 0 <= i < |a + b|
      ensures WellFormed((a + b)[i])
    {
      if i >= |a| {
        assert (a + b)[i] == b[i - |a|];
      }
    }
  }

  /**
   * The entries `mock_external!` adds for the identifiers `names`, one per
   * identifier and in the same order.
   */
  function MockEntries(names: seq<string>): (s: seq<Entry>)
  {
    seq(|names|, i requires 0 <= i < |names| => MockEntry(names[i]))
  }

  /** Whatever the identifier, the entry `mock_external!` adds has the expected shape, and its stub returns -1. */
  lemma MockEntryWellFormed(name: string)
    ensures MockEntry(name).name == name && WellFormed(MockEntry(name))
    ensures MockEntry(name).item.Func? && MockEntry(name).item.handler.Mocked?
    ensures StubReturn(MockEntry(name).item.handler) == Some(-1)
  {
  }

  /** Every entry `mock_external!` adds, for any list of identifiers, has the expected shape. */
  lemma MockEntriesWellFormed(names: seq<string>)
    ensures |MockEntries(names)| == |names|
    ensures forall i :: 0 <= i < |names| ==>
      MockEntries(names)[i] == MockEntry(names[i]) &&
      MockEntries(names)[i].namespace == "env" && MockEntries(names)[i].name == names[i] &&
      MockEntries(names)[i].item == Func(Mocked(names[i]), FuncSig([], [I32])) &&
      StubReturn(MockEntries(names)[i].item.handler) == Some(-1)
    ensures AllWellFormed(MockEntries(names))
  {
    forall i | 0 <= i < |names|
      ensures WellFormed(MockEntries(names)[i])
    {
      MockEntryWellFormed(names[i]);
    }
  }

  // Each section is checked entry by entry, one section per proof.
  lemma PrintImportsWellFormed() ensures AllWellFormed(PRINT_IMPORTS) { SectionWellFormed(PRINT_IMPORTS); }
  lemma LockImportsWellFormed() ensures AllWellFormed(LOCK_IMPORTS) { SectionWellFormed(LOCK_IMPORTS); }
  lemma EnvImportsWellFormed() ensures AllWellFormed(ENV_IMPORTS) { SectionWellFormed(ENV_IMPORTS); }
  lemma ErrnoImportsWellFormed() ensures AllWellFormed(ERRNO_IMPORTS) { SectionWellFormed(ERRNO_IMPORTS); }
  lemma SyscallImports1WellFormed() ensures AllWellFormed(SYSCALL_IMPORTS_1) { SectionWellFormed(SYSCALL_IMPORTS_1); }
  lemma SyscallImports2WellFormed() ensures AllWellFormed(SYSCALL_IMPORTS_2) { SectionWellFormed(SYSCALL_IMPORTS_2); }
  lemma SyscallImports3WellFormed() ensures AllWellFormed(SYSCALL_IMPORTS_3) { SectionWellFormed(SYSCALL_IMPORTS_3); }
  lemma SyscallImports4WellFormed() ensures AllWellFormed(SYSCALL_IMPORTS_4) { SectionWellFormed(SYSCALL_IMPORTS_4); }
  lemma ProcessImportsWellFormed() ensures AllWellFormed(PROCESS_IMPORTS) { SectionWellFormed(PROCESS_IMPORTS); }
  lemma SignalImportsWellFormed() ensures AllWellFormed(SIGNAL_IMPORTS) { SectionWellFormed(SIGNAL_IMPORTS); }
  lemma MemoryImportsWellFormed() ensures AllWellFormed(MEMORY_IMPORTS) { SectionWellFormed(MEMORY_IMPORTS); }
  lemma ExceptionImportsWellFormed() ensures AllWellFormed(EXCEPTION_IMPORTS) { SectionWellFormed(EXCEPTION_IMPORTS); }
  lemma NullfuncImports1WellFormed() ensures AllWellFormed(NULLFUNC_IMPORTS_1) { SectionWellFormed(NULLFUNC_IMPORTS_1); }
  lemma NullfuncImports2WellFormed() ensures AllWellFormed(NULLFUNC_IMPORTS_2) { SectionWellFormed(NULLFUNC_IMPORTS_2); }
  lemma TimeImportsWellFormed() ensures AllWellFormed(TIME_IMPORTS) { SectionWellFormed(TIME_IMPORTS); }
  lemma SystemConfigImportsWellFormed() ensures AllWellFormed(SYSTEM_CONFIG_IMPORTS) { SectionWellFormed(SYSTEM_CONFIG_IMPORTS); }
  lemma MathImportsWellFormed() ensures AllWellFormed(MATH_IMPORTS) { SectionWellFormed(MATH_IMPORTS); }
  lemma JmpImportsWellFormed() ensures AllWellFormed(JMP_IMPORTS) { SectionWellFormed(JMP_IMPORTS); }
  lemma MockedImports1WellFormed() ensures AllWellFormed(MockEntries(MOCKED_NAMES_1)) { MockEntriesWellFormed(MOCKED_NAMES_1); }
  lemma MockedImports2WellFormed() ensures AllWellFormed(MockEntries(MOCKED_NAMES_2)) { MockEntriesWellFormed(MOCKED_NAMES_2); }
  lemma MockedImports3WellFormed() ensures AllWellFormed(MockEntries(MOCKED_NAMES_3)) { MockEntriesWellFormed(MOCKED_NAMES_3); }
  lemma MockedImports4WellFormed() ensures AllWellFormed(MockEntries(MOCKED_NAMES_4)) { MockEntriesWellFormed(MOCKED_NAMES_4); }
  lemma MockedImports5WellFormed() ensures AllWellFormed(MockEntries(MOCKED_NAMES_5)) { MockEntriesWellFormed(MOCKED_NAMES_5); }

  lemma BasicImportsWellFormed()
    ensures AllWellFormed(BasicImports())
  {
    PrintImportsWellFormed();
    LockImportsWellFormed();
    EnvImportsWellFormed();
    ErrnoImportsWellFormed();
    var acc := PRINT_IMPORTS;
    ConcatWellFormed(acc, LOCK_IMPORTS); acc := acc + LOCK_IMPORTS;
    ConcatWellFormed(acc, ENV_IMPORTS); acc := acc + ENV_IMPORTS;
    ConcatWellFormed(acc, ERRNO_IMPORTS); acc := acc + ERRNO_IMPORTS;
  }

  lemma SyscallImportsWellFormed()
    ensures AllWellFormed(SyscallImports())
  {
    SyscallImports1WellFormed();
    SyscallImports2WellFormed();
    SyscallImports3WellFormed();
    SyscallImports4WellFormed();
    var acc := SYSCALL_IMPORTS_1;
    ConcatWellFormed(acc, SYSCALL_IMPORTS_2); acc := acc + SYSCALL_IMPORTS_2;
    ConcatWellFormed(acc, SYSCALL_IMPORTS_3); acc := acc + SYSCALL_IMPORTS_3;
    ConcatWellFormed(acc, SYSCALL_IMPORTS_4); acc := acc + SYSCALL_IMPORTS_4;
  }

  lemma RuntimeImportsWellFormed()
    ensures AllWellFormed(RuntimeImports())
  {
    ProcessImportsWellFormed();
    SignalImportsWellFormed();
    MemoryImportsWellFormed();
    ExceptionImportsWellFormed();
    NullfuncImports1WellFormed();
    NullfuncImports2WellFormed();
    var acc := PROCESS_IMPORTS;
    ConcatWellFormed(acc, SIGNAL_IMPORTS); acc := acc + SIGNAL_IMPORTS;
    ConcatWellFormed(acc, MEMORY_IMPORTS); acc := acc + MEMORY_IMPORTS;
    ConcatWellFormed(acc, EXCEPTION_IMPORTS); acc := acc + EXCEPTION_IMPORTS;
    ConcatWellFormed(acc, NULLFUNC_IMPORTS_1); acc := acc + NULLFUNC_IMPORTS_1;
    ConcatWellFormed(acc, NULLFUNC_IMPORTS_2); acc := acc + NULLFUNC_IMPORTS_2;
  }

  lemma TimeAndMathImportsWellFormed()
    ensures AllWellFormed(TimeAndMathImports())
  {
    TimeImportsWellFormed();
    SystemConfigImportsWellFormed();
    MathImportsWellFormed();
    JmpImportsWellFormed();
    var acc := TIME_IMPORTS;
    ConcatWellFormed(acc, SYSTEM_CONFIG_IMPORTS); acc := acc + SYSTEM_CONFIG_IMPORTS;
    ConcatWellFormed(acc, MATH_IMPORTS); acc := acc + MATH_IMPORTS;
    ConcatWellFormed(acc, JMP_IMPORTS); acc := acc + JMP_IMPORTS;
  }

  lemma HostImportsWellFormed()
    ensures AllWellFormed(HostImports())
  {
    BasicImportsWellFormed();
    SyscallImportsWellFormed();
    RuntimeImportsWellFormed();
    TimeAndMathImportsWellFormed();
    var acc := BasicImports();
    ConcatWellFormed(acc, SyscallImports()); acc := acc + SyscallImports();
    ConcatWellFormed(acc, RuntimeImports()); acc := acc + RuntimeImports();
    ConcatWellFormed(acc, TimeAndMathImports()); acc := acc + TimeAndMathImports();
  }

  lemma MockedImportsWellFormed()
    ensures AllWellFormed(MockedImports())
  {
    MockedImports1WellFormed();
    MockedImports2WellFormed();
    MockedImports3WellFormed();
    MockedImports4WellFormed();
    MockedImports5WellFormed();
    var acc := MockEntries(MOCKED_NAMES_1);
    ConcatWellFormed(acc, MockEntries(MOCKED_NAMES_2)); acc := acc + MockEntries(MOCKED_NAMES_2);
    ConcatWellFormed(acc, MockEntries(MOCKED_NAMES_3)); acc := acc + MockEntries(MOCKED_NAMES_3);
    ConcatWellFormed(acc, MockEntries(MOCKED_NAMES_4)); acc := acc + MockEntries(MOCKED_NAMES_4);
    ConcatWellFormed(acc, MockEntries(MOCKED_NAMES_5)); acc := acc + MockEntries(MOCKED_NAMES_5);
  }

  lemma FunctionImportsWellFormed()
    ensures AllWellFormed(FunctionImports())
  {
    HostImportsWellFormed();
    MockedImportsWellFormed();
    var acc := HostImports();
    ConcatWellFormed(acc, MockedImports()); acc := acc + MockedImports();
  }

  /**
   * Every signature in the table uses only `I32` and `F64`, and every
   * mocked function is registered in `env` under its own identifier with
   * no parameters and one `I32` result.
   */
  lemma EnvTableWellFormed(align: u32 -> u32)
    requires PlanFits(align, STATIC_BUMP)
    ensures forall i :: 0 <= i < |EnvTable(align)| && EnvTable(align)[i].item.Func? ==>
      UsesI32OrF64(EnvTable(align)[i].item.sig)
    ensures forall i :: 0 <= i < |EnvTable(align)| && EnvTable(align)[i].item.Func? && EnvTable(align)[i].item.handler.Mocked? ==>
      EnvTable(align)[i].namespace == "env" &&
      EnvTable(align)[i].name == EnvTable(align)[i].item.handler.identifier &&
      EnvTable(align)[i].item.sig == FuncSig([], [I32])
  {
    var g := GlobalImports(align);
    assert AllWellFormed(g) by {
      forall i | 0 <= i < |g| ensures WellFormed(g[i]) {
        assert g[i].item.Global?;
      }
    }
    FunctionImportsWellFormed();
    ConcatWellFormed(g, FunctionImports());
  }

  /**
   * Every mocked function in the table returns -1 when the guest calls it,
   * and its signature declares exactly that one `I32` result.
   */
  lemma MockedEntriesReturnMinusOne(align: u32 -> u32)
    requires PlanFits(align, STATIC_BUMP)
    ensures forall i :: 0 <= i < |EnvTable(align)| && EnvTable(align)[i].item.Func? && EnvTable(align)[i].item.handler.Mocked? ==>
      StubReturn(EnvTable(align)[i].item.handler) == Some(-1) &&
      EnvTable(align)[i].item.sig.results == [I32]
  {
    EnvTableWellFormed(align);
  }

  lemma FunctionImportsLength()
    ensures |HostImports()| == 95 && |MockedImports()| == 45
    ensures |FunctionImports()| == 140
  {
  }

  /**
   * The table starts with the six globals: the planner's values at the
   * hard-wired static bump, widened to `i64` with their value unchanged;
   * the bit patterns of infinity and NaN, which are below 2^63 and so keep
   * their value as `i64`; and `tableBase`, which is 0.
   */
  lemma EnvTableGlobals(align: u32 -> u32)
    requires PlanFits(align, STATIC_BUMP)
    ensures |EnvTable(align)| == 146
    ensures EnvTable(align)[0].namespace == "env" && EnvTable(align)[0].name == "STACKTOP"
    ensures EnvTable(align)[0].item == Global(I64Value(Stacktop(align, STATIC_BUMP)))
    ensures EnvTable(align)[1].namespace == "env" && EnvTable(align)[1].name == "STACK_MAX"
    ensures EnvTable(align)[1].item == Global(I64Value(StackMax(align, STATIC_BUMP)))
    ensures EnvTable(align)[2].namespace == "env" && EnvTable(align)[2].name == "DYNAMICTOP_PTR"
    ensures EnvTable(align)[2].item == Global(I64Value(DynamictopPtr(STATIC_BUMP)))
    ensures EnvTable(align)[3].namespace == "global" && EnvTable(align)[3].name == "Infinity"
    ensures EnvTable(align)[3].item == Global(I64Value(0x7FF0_0000_0000_0000))
    ensures EnvTable(align)[4].namespace == "global" && EnvTable(align)[4].name == "NaN"
    ensures EnvTable(align)[4].item == Global(I64Value(0x7FF8_0000_0000_0000))
    ensures EnvTable(align)[5].namespace == "env" && EnvTable(align)[5].name == "tableBase"
    ensures EnvTable(align)[5].item == Global(I64Value(0))
  {
    FunctionImportsLength();
  }

  /** `___syscall140` is added twice: once with its host implementation and once more, near the end, as a mock. */
  lemma Syscall140Duplicate(align: u32 -> u32)
    requires PlanFits(align, STATIC_BUMP)
    ensures var t := EnvTable(align);
      |t| == 146 &&
      t[35].namespace == t[139].namespace == "env" &&
      t[35].name == t[139].name == "___syscall140" &&
      t[35].item == Func(Native("syscalls", "___syscall140"), FuncSig([I32, I32], [I32])) &&
      t[139].item == Func(Mocked("___syscall140"), FuncSig([], [I32]))
  {
    FunctionImportsLength();
    assert HostImports()[29] == SyscallImports()[16] == SYSCALL_IMPORTS_3[1];
    assert MockedImports()[38] == MockEntries(MOCKED_NAMES_5)[2] == MockEntry(MOCKED_NAMES_5[2]);
    assert FunctionImports()[29] == HostImports()[29];
    assert FunctionImports()[133] == MockedImports()[38];
    assert EnvTable(align)[35] == FunctionImports()[29];
    assert EnvTable(align)[139] == FunctionImports()[133];
  }

  /** `___cxa_allocate_exception` is added twice in a row: first with its own handler, then with the handler of `___cxa_throw`. */
  lemma CxaAllocateExceptionDuplicate(align: u32 -> u32)
    requires PlanFits(align, STATIC_BUMP)
    ensures var t := EnvTable(align);
      |t| == 146 &&
      t[68].namespace == t[69].namespace == "env" &&
      t[68].name == t[69].name == "___cxa_allocate_exception" &&
      t[68].item == Func(Native("exception", "___cxa_allocate_exception"), FuncSig([I32], [I32])) &&
      t[70].name == "___cxa_throw" && t[69].item == t[70].item && t[69].item != t[68].item
  {
    FunctionImportsLength();
    assert HostImports()[62] == RuntimeImports()[18] == EXCEPTION_IMPORTS[0];
    assert HostImports()[63] == RuntimeImports()[19] == EXCEPTION_IMPORTS[1];
    assert HostImports()[64] == RuntimeImports()[20] == EXCEPTION_IMPORTS[2];
    assert FunctionImports()[62] == HostImports()[62];
    assert FunctionImports()[63] == HostImports()[63];
    assert FunctionImports()[64] == HostImports()[64];
    assert EnvTable(align)[68..71] == FunctionImports()[62..65];
  }

  /** The engine's `Imports` object, as the list of entries added to it. */
  class Imports {
    var entries: seq<Entry>

    /** `Imports::new()`. */
    constructor ()
      ensures entries == []
    {
      entries := [];
    }

    /** `Imports::add`: the entry is appended; no earlier entry is looked at or replaced. */
    method Add(namespace: string, name: string, item: Import)
      modifies this
      ensures entries == old(entries) + [Entry(namespace, name, item)]
    {
      entries := entries + [Entry(namespace, name, item)];
    }
  }

  /** `mock_external!(imports, name)`. */
  method MockExternal(imports: Imports, name: string)
    modifies imports
    ensures imports.entries == old(imports.entries) + [MockEntry(name)]
  {
    var e := MockEntry(name);
    imports.Add(e.namespace, e.name, e.item);
  }

  /** The additions of `lib/emscripten/src/lib.rs` lines 161-182. */
  method AddPrintImports(imports: Imports)
    modifies imports
    ensures imports.entries == old(imports.entries) + PRINT_IMPORTS
  {
    imports.Add("env", "printf", Func(Native("io", "printf"), FuncSig([I32, I32], [I32])));
    imports.Add("env", "putchar", Func(Native("io", "putchar"), FuncSig([I32], [])));
  }

  /** The additions of `lib/emscripten/src/lib.rs` lines 184-216. */
  method AddLockImports(imports: Imports)
    modifies imports
    ensures imports.entries == old(imports.entries) + LOCK_IMPORTS
  {
    imports.Add("env", "___lock", Func(Native("lock", "___lock"), FuncSig([I32, I32], [])));
    imports.Add("env", "___unlock", Func(Native("lock", "___unlock"), FuncSig([I32, I32], [])));
    imports.Add("env", "___wait", Func(Native("lock", "___wait"), FuncSig([I32, I32], [])));
  }

  /** The additions of `lib/emscripten/src/lib.rs` lines 218-294. */
  method AddEnvImports(imports: Imports)
    modifies imports
    ensures imports.entries == old(imports.entries) + ENV_IMPORTS
  {
    imports.Add("env", "_getenv", Func(Native("env", "_getenv"), FuncSig([I32], [I32])));
    imports.Add("env", "_setenv", Func(Native("env", "_setenv"), FuncSig([I32, I32, I32], [])));
    imports.Add("env", "_putenv", Func(Native("env", "_putenv"), FuncSig([I32], [])));
    imports.Add("env", "_unsetenv", Func(Native("env", "_unsetenv"), FuncSig([I32], [])));
    imports.Add("env", "_getpwnam", Func(Native("env", "_getpwnam"), FuncSig([I32], [I32])));
    imports.Add("env", "_getgrnam", Func(Native("env", "_getgrnam"), FuncSig([I32], [I32])));
    imports.Add("env", "___buildEnvironment", Func(Native("env", "___build_environment"), FuncSig([I32], [])));
  }

  /** The additions of `lib/emscripten/src/lib.rs` lines 296-306. */
  method AddErrnoImports(imports: Imports)
    modifies imports
    ensures imports.entries == old(imports.entries) + ERRNO_IMPORTS
  {
    imports.Add("env", "___setErrNo", Func(Native("errno", "___seterrno"), FuncSig([I32], [I32])));
  }

  /** The additions of `lib/emscripten/src/lib.rs` lines 308-395. */
  method AddSyscallImports1(imports: Imports)
    modifies imports
    ensures imports.entries == old(imports.entries) + SYSCALL_IMPORTS_1
  {
    imports.Add("env", "___syscall1", Func(Native("syscalls", "___syscall1"), FuncSig([I32, I32], [])));
    imports.Add("env", "___syscall3", Func(Native("syscalls", "___syscall3"), FuncSig([I32, I32], [I32])));
    imports.Add("env", "___syscall4", Func(Native("syscalls", "___syscall4"), FuncSig([I32, I32], [I32])));
    imports.Add("env", "___syscall5", Func(Native("syscalls", "___syscall5"), FuncSig([I32, I32], [I32])));
    imports.Add("env", "___syscall6", Func(Native("syscalls", "___syscall6"), FuncSig([I32, I32], [I32])));
    imports.Add("env", "___syscall12", Func(Native("syscalls", "___syscall12"), FuncSig([I32, I32], [I32])));
    imports.Add("env", "___syscall20", Func(Native("syscalls", "___syscall20"), FuncSig([], [I32])));
    imports.Add("env", "___syscall39", Func(Native("syscalls", "___syscall39"), FuncSig([I32, I32], [I32])));
  }

  /** The additions of `lib/emscripten/src/lib.rs` lines 396-472. */
  method AddSyscallImports2(imports: Imports)
    modifies imports
    ensures imports.entries == old(imports.entries) + SYSCALL_IMPORTS_2
  {
    imports.Add("env", "___syscall40", Func(Native("syscalls", "___syscall40"), FuncSig([I32, I32], [I32])));
    imports.Add("env", "___syscall54", Func(Native("syscalls", "___syscall54"), FuncSig([I32, I32], [I32])));
    imports.Add("env", "___syscall57", Func(Native("syscalls", "___syscall57"), FuncSig([I32, I32], [I32])));
    imports.Add("env", "___syscall63", Func(Native("syscalls", "___syscall63"), FuncSig([I32, I32], [I32])));
    imports.Add("env", "___syscall64", Func(Native("syscalls", "___syscall64"), FuncSig([], [I32])));
    imports.Add("env", "___syscall102", Func(Native("syscalls", "___syscall102"), FuncSig([I32, I32], [I32])));
    imports.Add("env", "___syscall114", Func(Native("syscalls", "___syscall114"), FuncSig([I32, I32], [I32])));
  }

  /** The additions of `lib/emscripten/src/lib.rs` lines 473-549. */
  method AddSyscallImports3(imports: Imports)
    modifies imports
    ensures imports.entries == old(imports.entries) + SYSCALL_IMPORTS_3
  {
    imports.Add("env", "___syscall122", Func(Native("syscalls", "___syscall122"), FuncSig([I32, I32], [I32])));
    imports.Add("env", "___syscall140", Func(Native("syscalls", "___syscall140"), FuncSig([I32, I32], [I32])));
    imports.Add("env", "___syscall142", Func(Native("syscalls", "___syscall142"), FuncSig([I32, I32], [I32])));
    imports.Add("env", "___syscall145", Func(Native("syscalls", "___syscall145"), FuncSig([I32, I32], [I32])));
    imports.Add("env", "___syscall146", Func(Native("syscalls", "___syscall146"), FuncSig([I32, I32], [I32])));
    imports.Add("env", "___syscall180", Func(Native("syscalls", "___syscall180"), FuncSig([I32, I32], [I32])));
    imports.Add("env", "___syscall181", Func(Native("syscalls", "___syscall181"), FuncSig([I32, I32], [I32])));
  }

  /** The additions of `lib/emscripten/src/lib.rs` lines 550-648. */
  method AddSyscallImports4(imports: Imports)
    modifies imports
    ensures imports.entries == old(imports.entries) + SYSCALL_IMPORTS_4
  {
    imports.Add("env", "___syscall192", Func(Native("syscalls", "___syscall192"), FuncSig([I32, I32], [I32])));
    imports.Add("env", "___syscall195", Func(Native("syscalls", "___syscall195"), FuncSig([I32, I32], [I32])));
    imports.Add("env", "___syscall197", Func(Native("syscalls", "___syscall197"), FuncSig([I32, I32], [I32])));
    imports.Add("env", "___syscall201", Func(Native("syscalls", "___syscall201"), FuncSig([], [I32])));
    imports.Add("env", "___syscall202", Func(Native("syscalls", "___syscall202"), FuncSig([], [I32])));
    imports.Add("env", "___syscall212", Func(Native("syscalls", "___syscall212"), FuncSig([I32, I32], [I32])));
    imports.Add("env", "___syscall221", Func(Native("syscalls", "___syscall221"), FuncSig([I32, I32], [I32])));
    imports.Add("env", "___syscall330", Func(Native("syscalls", "___syscall330"), FuncSig([I32, I32], [I32])));
    imports.Add("env", "___syscall340", Func(Native("syscalls", "___syscall340"), FuncSig([I32, I32], [I32])));
  }

  /** The additions of `lib/emscripten/src/lib.rs` lines 650-737. */
  method AddProcessImports(imports: Imports)
    modifies imports
    ensures imports.entries == old(imports.entries) + PROCESS_IMPORTS
  {
    imports.Add("env", "abort", Func(Native("process", "em_abort"), FuncSig([I32], [])));
    imports.Add("env", "_abort", Func(Native("process", "_abort"), FuncSig([], [])));
    imports.Add("env", "abortStackOverflow", Func(Native("process", "abort_stack_overflow"), FuncSig([], [])));
    imports.Add("env", "_llvm_trap", Func(Native("process", "_llvm_trap"), FuncSig([], [])));
    imports.Add("env", "_fork", Func(Native("process", "_fork"), FuncSig([], [I32])));
    imports.Add("env", "_exit", Func(Native("process", "_exit"), FuncSig([I32], [])));
    imports.Add("env", "_system", Func(Native("process", "_system"), FuncSig([], [I32])));
    imports.Add("env", "_popen", Func(Native("process", "_popen"), FuncSig([], [I32])));
  }

  /** The additions of `lib/emscripten/src/lib.rs` lines 739-793. */
  method AddSignalImports(imports: Imports)
    modifies imports
    ensures imports.entries == old(imports.entries) + SIGNAL_IMPORTS
  {
    imports.Add("env", "_sigemptyset", Func(Native("signal", "_sigemptyset"), FuncSig([I32], [I32])));
    imports.Add("env", "_sigaddset", Func(Native("signal", "_sigaddset"), FuncSig([I32, I32], [I32])));
    imports.Add("env", "_sigprocmask", Func(Native("signal", "_sigprocmask"), FuncSig([], [I32])));
    imports.Add("env", "_sigaction", Func(Native("signal", "_sigaction"), FuncSig([I32, I32, I32], [I32])));
    imports.Add("env", "_signal", Func(Native("signal", "_signal"), FuncSig([I32], [I32])));
  }

  /** The additions of `lib/emscripten/src/lib.rs` lines 795-849. */
  method AddMemoryImports(imports: Imports)
    modifies imports
    ensures imports.entries == old(imports.entries) + MEMORY_IMPORTS
  {
    imports.Add("env", "abortOnCannotGrowMemory", Func(Native("memory", "abort_on_cannot_grow_memory"), FuncSig([], [])));
    imports.Add("env", "_emscripten_memcpy_big", Func(Native("memory", "_emscripten_memcpy_big"), FuncSig([I32, I32, I32], [I32])));
    imports.Add("env", "enlargeMemory", Func(Native("memory", "enlarge_memory"), FuncSig([], [])));
    imports.Add("env", "getTotalMemory", Func(Native("memory", "get_total_memory"), FuncSig([], [I32])));
    imports.Add("env", "___map_file", Func(Native("memory", "___map_file"), FuncSig([], [I32])));
  }

  /** The additions of `lib/emscripten/src/lib.rs` lines 851-883. */
  method AddExceptionImports(imports: Imports)
    modifies imports
    ensures imports.entries == old(imports.entries) + EXCEPTION_IMPORTS
  {
    imports.Add("env", "___cxa_allocate_exception", Func(Native("exception", "___cxa_allocate_exception"), FuncSig([I32], [I32])));
    imports.Add("env", "___cxa_allocate_exception", Func(Native("exception", "___cxa_throw"), FuncSig([I32, I32, I32], [])));
    imports.Add("env", "___cxa_throw", Func(Native("exception", "___cxa_throw"), FuncSig([I32, I32, I32], [])));
  }

  /** The additions of `lib/emscripten/src/lib.rs` lines 885-939. */
  method AddNullfuncImports1(imports: Imports)
    modifies imports
    ensures imports.entries == old(imports.entries) + NULLFUNC_IMPORTS_1
  {
    imports.Add("env", "nullFunc_ii", Func(Native("nullfunc", "nullfunc_ii"), FuncSig([I32], [])));
    imports.Add("env", "nullFunc_iii", Func(Native("nullfunc", "nullfunc_iii"), FuncSig([I32], [])));
    imports.Add("env", "nullFunc_iiii", Func(Native("nullfunc", "nullfunc_iiii"), FuncSig([I32], [])));
    imports.Add("env", "nullFunc_iiiii", Func(Native("nullfunc", "nullfunc_iiiii"), FuncSig([I32], [])));
    imports.Add("env", "nullFunc_iiiiii", Func(Native("nullfunc", "nullfunc_iiiiii"), FuncSig([I32], [])));
  }

  /** The additions of `lib/emscripten/src/lib.rs` lines 940-1016. */
  method AddNullfuncImports2(imports: Imports)
    modifies imports
    ensures imports.entries == old(imports.entries) + NULLFUNC_IMPORTS_2
  {
    imports.Add("env", "nullFunc_v", Func(Native("nullfunc", "nullfunc_v"), FuncSig([I32], [])));
    imports.Add("env", "nullFunc_vi", Func(Native("nullfunc", "nullfunc_vi"), FuncSig([I32], [])));
    imports.Add("env", "nullFunc_vii", Func(Native("nullfunc", "nullfunc_vii"), FuncSig([I32], [])));
    imports.Add("env", "nullFunc_viii", Func(Native("nullfunc", "nullfunc_viii"), FuncSig([I32], [])));
    imports.Add("env", "nullFunc_viiii", Func(Native("nullfunc", "nullfunc_viiii"), FuncSig([I32], [])));
    imports.Add("env", "nullFunc_viiiii", Func(Native("nullfunc", "nullfunc_viiiii"), FuncSig([I32], [])));
    imports.Add("env", "nullFunc_viiiiii", Func(Native("nullfunc", "nullfunc_viiiiii"), FuncSig([I32], [])));
  }

  /** The additions of `lib/emscripten/src/lib.rs` lines 1018-1138. */
  method AddTimeImports(imports: Imports)
    modifies imports
    ensures imports.entries == old(imports.entries) + TIME_IMPORTS
  {
    imports.Add("env", "_gettimeofday", Func(Native("time", "_gettimeofday"), FuncSig([I32, I32], [I32])));
    imports.Add("env", "_clock_gettime", Func(Native("time", "_clock_gettime"), FuncSig([I32, I32], [I32])));
    imports.Add("env", "___clock_gettime", Func(Native("time", "___clock_gettime"), FuncSig([I32, I32], [I32])));
    imports.Add("env", "_clock", Func(Native("time", "_clock"), FuncSig([], [I32])));
    imports.Add("env", "_difftime", Func(Native("time", "_difftime"), FuncSig([I32, I32], [I32])));
    imports.Add("env", "_asctime", Func(Native("time", "_asctime"), FuncSig([I32], [I32])));
    imports.Add("env", "_asctime_r", Func(Native("time", "_asctime_r"), FuncSig([I32, I32], [I32])));
    imports.Add("env", "_localtime", Func(Native("time", "_localtime"), FuncSig([I32], [I32])));
    imports.Add("env", "_time", Func(Native("time", "_time"), FuncSig([I32], [I32])));
    imports.Add("env", "_strftime", Func(Native("time", "_strftime"), FuncSig([I32, I32, I32, I32], [I32])));
    imports.Add("env", "_localtime_r", Func(Native("time", "_localtime_r"), FuncSig([I32, I32], [I32])));
  }

  /** The additions of `lib/emscripten/src/lib.rs` lines 1139-1160. */
  method AddSystemConfigImports(imports: Imports)
    modifies imports
    ensures imports.entries == old(imports.entries) + SYSTEM_CONFIG_IMPORTS
  {
    imports.Add("env", "_getpagesize", Func(Native("env", "_getpagesize"), FuncSig([], [I32])));
    imports.Add("env", "_sysconf", Func(Native("env", "_sysconf"), FuncSig([I32], [I32])));
  }

  /** The additions of `lib/emscripten/src/lib.rs` lines 1162-1194. */
  method AddMathImports(imports: Imports)
    modifies imports
    ensures imports.entries == old(imports.entries) + MATH_IMPORTS
  {
    imports.Add("env", "_llvm_log10_f64", Func(Native("math", "_llvm_log10_f64"), FuncSig([F64], [F64])));
    imports.Add("env", "_llvm_log2_f64", Func(Native("math", "_llvm_log2_f64"), FuncSig([F64], [F64])));
    imports.Add("asm2wasm", "f64-rem", Func(Native("math", "f64_rem"), FuncSig([F64, F64], [F64])));
  }

  /** The additions of `lib/emscripten/src/lib.rs` lines 1196-1217. */
  method AddJmpImports(imports: Imports)
    modifies imports
    ensures imports.entries == old(imports.entries) + JMP_IMPORTS
  {
    imports.Add("env", "__setjmp", Func(Native("jmp", "__setjmp"), FuncSig([I32], [I32])));
    imports.Add("env", "__longjmp", Func(Native("jmp", "__longjmp"), FuncSig([I32, I32], [])));
  }

  /** The additions of `lib/emscripten/src/lib.rs` lines 1219-1234. */
  method AddMockedImports1(imports: Imports)
    modifies imports
    ensures imports.entries == old(imports.entries) + MockEntries(MOCKED_NAMES_1)
  {
    MockExternal(imports, "_waitpid");
    MockExternal(imports, "_utimes");
    MockExternal(imports, "_usleep");
    MockExternal(imports, "_sigsuspend");
    MockExternal(imports, "_setitimer");
    MockExternal(imports, "_setgroups");
    MockExternal(imports, "_setgrent");
    MockExternal(imports, "_sem_wait");
    MockExternal(imports, "_sem_post");
  }

  /** The additions of `lib/emscripten/src/lib.rs` lines 1235-1247. */
  method AddMockedImports2(imports: Imports)
    modifies imports
    ensures imports.entries == old(imports.entries) + MockEntries(MOCKED_NAMES_2)
  {
    MockExternal(imports, "_sem_init");
    MockExternal(imports, "_sched_yield");
    MockExternal(imports, "_raise");
    MockExternal(imports, "_mktime");
    MockExternal(imports, "_llvm_stacksave");
    MockExternal(imports, "_llvm_stackrestore");
    MockExternal(imports, "_kill");
    MockExternal(imports, "_gmtime_r");
    MockExternal(imports, "_getgrent");
  }

  /** The additions of `lib/emscripten/src/lib.rs` lines 1248-1264. */
  method AddMockedImports3(imports: Imports)
    modifies imports
    ensures imports.entries == old(imports.entries) + MockEntries(MOCKED_NAMES_3)
  {
    MockExternal(imports, "_getaddrinfo");
    MockExternal(imports, "_execve");
    MockExternal(imports, "_endgrent");
    MockExternal(imports, "___syscall97");
    MockExternal(imports, "___syscall91");
    MockExternal(imports, "___syscall85");
    MockExternal(imports, "___syscall75");
    MockExternal(imports, "___syscall66");
    MockExternal(imports, "___syscall38");
  }

  /** The additions of `lib/emscripten/src/lib.rs` lines 1266-1279. */
  method AddMockedImports4(imports: Imports)
    modifies imports
    ensures imports.entries == old(imports.entries) + MockEntries(MOCKED_NAMES_4)
  {
    MockExternal(imports, "___syscall334");
    MockExternal(imports, "___syscall300");
    MockExternal(imports, "___syscall295");
    MockExternal(imports, "___syscall272");
    MockExternal(imports, "___syscall268");
    MockExternal(imports, "___syscall220");
    MockExternal(imports, "___syscall199");
    MockExternal(imports, "___syscall196");
    MockExternal(imports, "___syscall194");
  }

  /** The additions of `lib/emscripten/src/lib.rs` lines 1280-1296. */
  method AddMockedImports5(imports: Imports)
    modifies imports
    ensures imports.entries == old(imports.entries) + MockEntries(MOCKED_NAMES_5)
  {
    MockExternal(imports, "___syscall191");
    MockExternal(imports, "___syscall168");
    MockExternal(imports, "___syscall140");
    MockExternal(imports, "___syscall15");
    MockExternal(imports, "___syscall10");
    MockExternal(imports, "_dlopen");
    MockExternal(imports, "_dlclose");
    MockExternal(imports, "_dlsym");
    MockExternal(imports, "_dlerror");
  }

  /** Print, lock, environment and errno functions. */
  method AddBasicImports(imports: Imports)
    modifies imports
    ensures imports.entries == old(imports.entries) + BasicImports()
  {
    AddPrintImports(imports);
    AddLockImports(imports);
    AddEnvImports(imports);
    AddErrnoImports(imports);
  }

  /** The syscalls with a host implementation. */
  method AddSyscallImports(imports: Imports)
    modifies imports
    ensures imports.entries == old(imports.entries) + SyscallImports()
  {
    AddSyscallImports1(imports);
    AddSyscallImports2(imports);
    AddSyscallImports3(imports);
    AddSyscallImports4(imports);
  }

  /** Process, signal, memory, exception and null-function imports. */
  method AddRuntimeImports(imports: Imports)
    modifies imports
    ensures imports.entries == old(imports.entries) + RuntimeImports()
  {
    AddProcessImports(imports);
    AddSignalImports(imports);
    AddMemoryImports(imports);
    AddExceptionImports(imports);
    AddNullfuncImports1(imports);
    AddNullfuncImports2(imports);
  }

  /** Time, system configuration, math and setjmp/longjmp imports. */
  method AddTimeAndMathImports(imports: Imports)
    modifies imports
    ensures imports.entries == old(imports.entries) + TimeAndMathImports()
  {
    AddTimeImports(imports);
    AddSystemConfigImports(imports);
    AddMathImports(imports);
    AddJmpImports(imports);
  }

  /** The host functions, in the order they are added. */
  method AddHostImports(imports: Imports)
    modifies imports
    ensures imports.entries == old(imports.entries) + HostImports()
  {
    AddBasicImports(imports);
    AddSyscallImports(imports);
    AddRuntimeImports(imports);
    AddTimeAndMathImports(imports);
  }

  /** The `mock_external!` entries, in the order they are added. */
  method AddMockedImports(imports: Imports)
    modifies imports
    ensures imports.entries == old(imports.entries) + MockedImports()
  {
    AddMockedImports1(imports);
    AddMockedImports2(imports);
    AddMockedImports3(imports);
    AddMockedImports4(imports);
    AddMockedImports5(imports);
  }

  /** The function imports, in the order they are added. */
  method AddFunctionImports(imports: Imports)
    modifies imports
    ensures imports.entries == old(imports.entries) + FunctionImports()
  {
    AddHostImports(imports);
    AddMockedImports(imports);
  }

  /** `generate_emscripten_env`: the registry is built by successive additions. */
  method GenerateEmscriptenEnv(align: u32 -> u32) returns (imports: Imports)
    requires PlanFits(align, STATIC_BUMP)
    ensures fresh(imports)
    ensures imports.entries == EnvTable(align)
  {
    imports := new Imports();
    AddGlobalImports(imports, align);
    AddFunctionImports(imports);
  }

  /** The six globals of `lib/emscripten/src/lib.rs` lines 129-158. */
  method AddGlobalImports(imports: Imports, align: u32 -> u32)
    requires PlanFits(align, STATIC_BUMP)
    modifies imports
    ensures imports.entries == old(imports.entries) + GlobalImports(align)
  {
    imports.Add("env", "STACKTOP", Global(I64Value(Stacktop(align, STATIC_BUMP))));
    imports.Add("env", "STACK_MAX", Global(I64Value(StackMax(align, STATIC_BUMP))));
    imports.Add("env", "DYNAMICTOP_PTR", Global(I64Value(DynamictopPtr(STATIC_BUMP))));
    imports.Add("global", "Infinity", Global(I64Value(ReinterpretU64AsI64(F64_INFINITY_BITS))));
    imports.Add("global", "NaN", Global(I64Value(ReinterpretU64AsI64(F64_NAN_BITS))));
    imports.Add("env", "tableBase", Global(I64Value(0)));
  }
}
