# Emscripten environment for a WebAssembly runtime — a verified model

This project models the core of the runtime's Emscripten support layer,
`lib/emscripten/src/lib.rs`: the memory layout planner, the bootstrap write into guest memory,
and the import table that `generate_emscripten_env` builds for the engine's
linker.

- **Layout planner** (`layout.dfy`, module `Layout`). It decides where the
  guest's stack and heap begin, given the size of the static data segment
  (the "static bump", hard-wired to 215 536). The heap bookkeeping word
  `DYNAMICTOP_PTR` sits 1088 bytes past the static data. `STACKTOP` is that
  address plus 4, rounded up by `align_memory`. `STACK_MAX` is `STACKTOP`
  plus the 5 MiB stack budget. The heap base `DYNAMIC_BASE` is `STACK_MAX`
  rounded up. `align_memory` belongs to the storage module, which is not
  part of this model. It is therefore a parameter `align`, and the ordering
  facts hold for every `align` that meets the stated contract `AlignsTo`:
  it rounds up to a multiple of a power-of-two boundary of at most one
  64 KiB page.
- **Bootstrap** (`bootstrap.dfy`, module `Bootstrap`). `emscripten_set_up_memory`
  stores the heap base, little-endian, into the four bytes at
  `DYNAMICTOP_PTR`. When those bytes lie past the end of memory, it returns
  without writing. Memory is a class over a byte array written in place.
  The method is proved equal to the function `SetUpMemory`, and the
  function's properties are proved: the word reads back, no other byte
  changes, the length is kept and the bootstrap is idempotent. The byte
  order is in `little_endian.dfy`.
- **Import table** (`registry.dfy`, module `Registry`). `Imports` is the
  engine's registry, a class holding the list of entries added so far.
  `generate_emscripten_env` adds 146 entries, in the source's order:
  - six globals;
  - 95 host functions;
  - 45 `mock_external!` stubs, each with no parameters, one `I32` result
    and a return value of −1.

  The method is proved to produce exactly the table `EnvTable`. Lemmas
  about that table state its shape, its globals and the two keys it
  registers twice.
- **Instantiation** (`instantiation.dfy`). Lemmas linking the two halves:
  the exported globals and the memory written at bootstrap describe the
  same layout.

Fixed-width integers (`ints.dfy`) are subsets of `int`. A `u32` addition
of the planner that overflowed would panic in a debug build and wrap in a
release build; the model forbids it by a precondition instead, and proves
that at the hard-wired static bump no such addition overflows. Widening a
planner value from `u32` to `i64` keeps it, so the globals carry the
planner's values unchanged. The program exports six globals, including
`tableBase = 0`.

## Model

| member | source | states |
|---|---|---|
| Ints.ReinterpretU64AsI64 | lib/emscripten/src/lib.rs:144-153 | the `u64 as i64` cast applied to `to_bits()` keeps the value modulo 2^64, and keeps it exactly below 2^63 |
| LittleEndian.EncodeU32 | lib/emscripten/src/lib.rs:82 | `LittleEndian::write_u32` produces four bytes that decode back to the stored word |
| LittleEndian.EncodeDecode | lib/emscripten/src/lib.rs:82 | the other direction of the round trip: encoding the decoded value of any four bytes gives those bytes back |
| Layout.FixedDistances | lib/emscripten/src/lib.rs:45-55 | `dynamictop_ptr(b) == b + 1088` and `stack_max - stacktop == TOTAL_STACK` (5 242 880) for every static bump without overflow |
| Layout.LayoutOrdered | lib/emscripten/src/lib.rs:41-55 | under the assumed contract of `align_memory`, the bookkeeping word ends at or before `stacktop`, then `stacktop <= stack_max <= dynamic_base`; stack top, stack max and heap base are all aligned |
| Layout.LayoutMonotonic | lib/emscripten/src/lib.rs:41-55 | a larger static bump never moves any planned boundary down, and one that fits implies every smaller one fits |
| Layout.StaticBumpFits | lib/emscripten/src/lib.rs:39-55 | at the hard-wired static bump 215 536, no planner addition or rounding overflows `u32` for any admissible `align`; `dynamictop_ptr` is 216 624 and `stacktop` lies within one page above 216 628 |
| Bootstrap.StoreU32 | lib/emscripten/src/lib.rs:81-82 | writing a word into a four-byte window keeps the length, makes the window decode to the word and leaves every other byte unchanged |
| Bootstrap.SetUpMemory | lib/emscripten/src/lib.rs:66-83 | memory after the bootstrap: same length; unchanged when `dynamictop_ptr + 4 > len`; otherwise the window at `dynamictop_ptr` decodes to `dynamic_base(STATIC_BUMP)` and no other byte changes |
| Bootstrap.StoreU32Idempotent | lib/emscripten/src/lib.rs:81-82 | storing the same word twice at the same offset equals storing it once |
| Bootstrap.SetUpMemoryIdempotent | lib/emscripten/src/lib.rs:66-83 | running the bootstrap twice leaves memory as running it once does |
| Bootstrap.LinearMemory.WriteU32 | lib/emscripten/src/lib.rs:81-82 | the in-place store into `memory[ptr..ptr + 4]` leaves the buffer equal to `StoreU32` of its old contents |
| Bootstrap.EmscriptenSetUpMemory | lib/emscripten/src/lib.rs:66-83 | the method's effect on the memory buffer is exactly `SetUpMemory` of its old contents, so the properties proved of that function hold for it |
| Registry.MockEntryWellFormed | lib/emscripten/src/lib.rs:85-105 | for every identifier, the entry `mock_external!` adds is in `env` under that identifier, has signature `[] -> [I32]`, and its stub returns −1 |
| Registry.MockEntriesWellFormed | lib/emscripten/src/lib.rs:85-105 | for any list of identifiers, the generated entries are one per identifier, in order; entry `i` is the `mock_external!` entry for `names[i]`: in `env`, under that identifier, a mocked handler with signature `[] -> [I32]` and stub result −1 |
| Registry.MockedEntriesReturnMinusOne | lib/emscripten/src/lib.rs:88-104 | every entry of the table with a mocked handler returns −1 when called and declares exactly one `I32` result |
| Registry.Imports.constructor | lib/emscripten/src/lib.rs:108 | `Imports::new()` holds no entries |
| Registry.Imports.Add | lib/emscripten/src/lib.rs:129-133 | `add` appends the `(namespace, name, import)` entry and changes nothing else |
| Registry.MockExternal | lib/emscripten/src/lib.rs:85-105 | `mock_external!(imports, name)` appends exactly one entry: namespace `env`, the identifier as the name, the generated stub, signature `[] -> [I32]` |
| Registry.AddGlobalImports | lib/emscripten/src/lib.rs:129-158 | the six global additions append, in order, `STACKTOP`, `STACK_MAX`, `DYNAMICTOP_PTR` (the planner values at the static bump as `i64`), `Infinity` and `NaN` (their bits as `i64`) and `tableBase = 0` |
| Registry.AddPrintImports | lib/emscripten/src/lib.rs:161-182 | these lines append exactly their 2 entries (print functions) to the imports, in order, each with its handler and signature |
| Registry.AddLockImports | lib/emscripten/src/lib.rs:184-216 | these lines append exactly their 3 entries (lock) to the imports, in order, each with its handler and signature |
| Registry.AddEnvImports | lib/emscripten/src/lib.rs:218-294 | these lines append exactly their 7 entries (environment variables and user/group lookup) to the imports, in order, each with its handler and signature |
| Registry.AddErrnoImports | lib/emscripten/src/lib.rs:296-306 | these lines append exactly their one entry (errno) to the imports, with its handler and signature |
| Registry.AddSyscallImports1 | lib/emscripten/src/lib.rs:308-395 | these lines append exactly their 8 entries (syscalls 1 to 39) to the imports, in order, each with its handler and signature |
| Registry.AddSyscallImports2 | lib/emscripten/src/lib.rs:396-472 | these lines append exactly their 7 entries (syscalls 40 to 114) to the imports, in order, each with its handler and signature |
| Registry.AddSyscallImports3 | lib/emscripten/src/lib.rs:473-549 | these lines append exactly their 7 entries (syscalls 122 to 181) to the imports, in order, each with its handler and signature |
| Registry.AddSyscallImports4 | lib/emscripten/src/lib.rs:550-648 | these lines append exactly their 9 entries (syscalls 192 to 340) to the imports, in order, each with its handler and signature |
| Registry.AddProcessImports | lib/emscripten/src/lib.rs:650-737 | these lines append exactly their 8 entries (process) to the imports, in order, each with its handler and signature |
| Registry.AddSignalImports | lib/emscripten/src/lib.rs:739-793 | these lines append exactly their 5 entries (signal) to the imports, in order, each with its handler and signature |
| Registry.AddMemoryImports | lib/emscripten/src/lib.rs:795-849 | these lines append exactly their 5 entries (memory) to the imports, in order, each with its handler and signature |
| Registry.AddExceptionImports | lib/emscripten/src/lib.rs:851-883 | these lines append exactly their 3 entries (exception) to the imports, in order, each with its handler and signature |
| Registry.AddNullfuncImports1 | lib/emscripten/src/lib.rs:885-939 | these lines append exactly their 5 entries (null function-pointer traps returning a value) to the imports, in order, each with its handler and signature |
| Registry.AddNullfuncImports2 | lib/emscripten/src/lib.rs:940-1016 | these lines append exactly their 7 entries (null function-pointer traps returning nothing) to the imports, in order, each with its handler and signature |
| Registry.AddTimeImports | lib/emscripten/src/lib.rs:1018-1138 | these lines append exactly their 11 entries (time) to the imports, in order, each with its handler and signature |
| Registry.AddSystemConfigImports | lib/emscripten/src/lib.rs:1139-1160 | these lines append exactly their 2 entries (page size and `sysconf`, registered after the time functions) to the imports, in order, each with its handler and signature |
| Registry.AddMathImports | lib/emscripten/src/lib.rs:1162-1194 | these lines append exactly their 3 entries (math) to the imports, in order, each with its handler and signature |
| Registry.AddJmpImports | lib/emscripten/src/lib.rs:1196-1217 | these lines append exactly their 2 entries (setjmp/longjmp) to the imports, in order, each with its handler and signature |
| Registry.AddMockedImports1 | lib/emscripten/src/lib.rs:1219-1234 | the `mock_external!` calls of these lines append exactly their 9 entries to the imports, in order |
| Registry.AddMockedImports2 | lib/emscripten/src/lib.rs:1235-1247 | the `mock_external!` calls of these lines append exactly their 9 entries to the imports, in order |
| Registry.AddMockedImports3 | lib/emscripten/src/lib.rs:1248-1264 | the `mock_external!` calls of these lines append exactly their 9 entries to the imports, in order |
| Registry.AddMockedImports4 | lib/emscripten/src/lib.rs:1266-1279 | the `mock_external!` calls of these lines append exactly their 9 entries to the imports, in order |
| Registry.AddMockedImports5 | lib/emscripten/src/lib.rs:1280-1296 | the `mock_external!` calls of these lines append exactly their 9 entries to the imports, in order |
| Registry.AddHostImports | lib/emscripten/src/lib.rs:159-1217 | all host-function additions together append exactly the 95 entries of `HostImports()`, in order |
| Registry.AddMockedImports | lib/emscripten/src/lib.rs:1219-1296 | all `mock_external!` calls together append exactly the 45 entries of `MockedImports()`, in order |
| Registry.AddFunctionImports | lib/emscripten/src/lib.rs:159-1296 | the function additions append the host functions followed by the mocks |
| Registry.GenerateEmscriptenEnv | lib/emscripten/src/lib.rs:107-1299 | `generate_emscripten_env` returns a fresh `Imports` whose entries are exactly `EnvTable(align)`: the globals, then the function imports, in source order |
| Registry.FunctionImportsLength | lib/emscripten/src/lib.rs:159-1296 | 140 function imports are registered: 95 host functions followed by 45 mocks |
| Registry.EnvTableGlobals | lib/emscripten/src/lib.rs:129-158 | the table has 146 entries; its first six are the globals, with `STACKTOP`, `STACK_MAX`, `DYNAMICTOP_PTR` equal to the planner values widened to `i64`, `Infinity` = 0x7FF0000000000000, `NaN` = 0x7FF8000000000000 and `tableBase` = 0 |
| Registry.EnvTableWellFormed | lib/emscripten/src/lib.rs:85-105 | every function signature in the table uses only `I32` and `F64`; every mocked entry is in `env` under its own identifier with signature `[] -> [I32]` |
| Registry.Syscall140Duplicate | lib/emscripten/src/lib.rs:484-494 | `env.___syscall140` is registered twice: at entry 35 with its host handler and signature `[I32, I32] -> [I32]` (these lines), and at entry 139 as the mock of line 1287 |
| Registry.CxaAllocateExceptionDuplicate | lib/emscripten/src/lib.rs:851-883 | `env.___cxa_allocate_exception` is registered twice in a row: first with its own handler, then with exactly the import of `___cxa_throw`, which follows |
| Instantiation.DynamictopGlobalAddressesHeapBase | lib/emscripten/src/lib.rs:66-83 | in a memory of at least 216 628 bytes, the word at the address exported as `DYNAMICTOP_PTR` is the planned heap base after the bootstrap |
| Instantiation.ExportedGlobalsOrdered | lib/emscripten/src/lib.rs:129-143 | for every admissible `align`, the exported globals satisfy `DYNAMICTOP_PTR + 4 <= STACKTOP <= STACK_MAX <= dynamic_base` |

## Left out

- The handler modules `env`, `errno`, `exception`, `io`, `jmp`, `lock`, `math`, `memory`, `nullfunc`, `process`, `signal`, `storage`, `syscalls`, `time`, `utils` and `varargs` are not part of this model. A registered host function is represented by an opaque tag naming its module path and symbol; `FuncRef::new` and the pointer casts have no counterpart.
- Layout.LayoutOrdered: `align_memory` (in the storage module) is not part of this model. The ordering and alignment facts hold for every `align` meeting the contract `AlignsTo` (round up to a multiple of a power of two of at most one page), not for its concrete body.
- Guest memory is created by the engine, not by this file. `Bootstrap.LinearMemory` has a constructor only so that the model can build one; it promises nothing about the initial contents.
- The bodies of the host functions are not part of this model, so `Registry.StubReturn` knows the result only of the mocked stubs.
- `EmscriptenData` (`lib/emscripten/src/lib.rs:57-64`) holds five allocator and stack function pointers (`malloc`, `free`, `memalign`, `memset`, `stack_alloc`) and the pool of setjmp/longjmp jump buffers used by the `jmp` module. None of it is used by the functions modelled here.
- How the engine's `Imports` resolves two entries with the same key is not visible in this file. The model keeps every added entry in order and proves which keys occur twice. It does not claim which entry the linker binds.
- `debug!` logging in the mocked stubs and the commented-out `println!`/`debug!` lines have no effect on state and are left out.
- Growth of `LinearMemory` is driven by the engine. The model's memory is a fixed-length byte array.
- Layout.FixedDistances: the `u32` additions of the planner are not wrapped (this holds for every planner lemma). Each one carries a precondition that it does not overflow, so the release-build wrap-around is not modelled. At the hard-wired static bump none of them overflows (`Layout.StaticBumpFits`).
- Registry.EnvTableGlobals: the `NaN` pattern 0x7FF8000000000000 is the value `f64::NAN` evaluates to; the language does not guarantee a particular NaN payload, and the model fixes this one.
- The table is split into sections so that each proof stays small. The sections follow the source's comment headings, with these exceptions. The syscall entries and the null-function entries are cut into pieces at entry boundaries. The entries under the `// Time` heading are cut in two: `TIME_IMPORTS` and `SYSTEM_CONFIG_IMPORTS`, which holds `_getpagesize` and `_sysconf` (lines 1139-1160). `JMP_IMPORTS` follows a bare `//` comment at line 1195, not a heading. The 45 mocked identifiers are kept in five lists, from which `Registry.MockEntries` builds the entries. None of this grouping changes what the source does.
- Commented-out imports in the source (for example the `spectest` entries at `lib/emscripten/src/lib.rs:110-126` and the other disabled blocks) are not registered and are not modelled.
