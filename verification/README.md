# A verified model of the distributed kernel

The repository simulates an operating system as a set of processes that talk over
sockets: a Kernel Memory that owns segments, holes and swap; Memory Sticks that hold
the bytes; CPUs that translate addresses and run instructions; and a Kernel Scheduler
that moves processes between queues, hands out CPUs and mutexes, and stops the CPUs
while memory is compacted. This project models those components in Dafny and proves
what they promise each other. `dafny verify dfyconfig.toml` checks everything.

## How it is organised

- **Kernel Memory** (`Intervals`, `Sticks`, `PhysicalMemory`, `Contexto`, `KmEstado`,
  `KmAsignacion`, `KmCompactacion`, `KmSwap`, `KmReanudar`, `KmOperaciones`,
  `KmCorridas`, `KmIdentidades`, `KmRastro`, `KmRespuestas`, `SwapDevice`, `KernelMemory`). The class `KernelMemory.KernelMemory`
  changes its lists and arrays in place as the source does; each request handler is
  proved to be a step `Paso` of the value-level machine of `KmCorridas`, and that
  machine is proved to refine one in which a process is a bag of pieces (an id and its
  bytes) with no addresses, holes, blocks or sticks. Everything a process can notice
  is said about that bag: `Vista`. `KmRespuestas` says of every request exactly when it is granted.
- **CPU** (`Mmu`, `CpuMemorySticks`, `CpuInstrucciones`, `CpuTransparencia`, `CpuAlcance`,
  `Cpu`). Translation, the range cache with its fragmenting loops, registers and
  instructions, and the burst loop. `CpuTransparencia` puts CPU and Kernel Memory
  together; `CpuAlcance` says how far a CPU's cache reaches.
- **Kernel Scheduler** (`KsMutex`, `KsEstado`, `KsInvariantes`, `KsHandlers`,
  `KsPlanificador`, `KsPasos`, `KsCorridas`, `KsEfectos`, `KsTraslados`, `KsCiclo`, `KsTareas`, `KsDespertares`,
  `KsRetornos`, `KsHallazgos`, `KsDesalojo`, `KernelScheduler`). `KsPasos` is the scheduler as a step system;
  `KsEfectos` says what each step moves, posts, asks for and marks, and that everything else stays; the class
  `KernelScheduler.KernelScheduler` pops and pushes queues, sets flags and posts
  semaphores, and each of its handlers is proved to be one of those steps.
- **The connections** (`KmChannel`, `KmJunto`, `Sockets`). Pairing of requests and
  answers on the single connection between the two kernels, Kernel Memory and that
  connection as one machine, the context codec, and framing over a stream that moves
  bytes in pieces of any size.
- **The whole system** (`Sistema`, `SistemaEscritura`, `SistemaArranque`, `KmFragmentada`, `SistemaPerdida`).
  Scheduler, Kernel Memory and all CPUs as one machine. CPUs restore contexts, execute
  instructions, make syscalls, are interrupted or fault, and store contexts; the scheduler
  takes a step about a process only on what its CPU has said; its requests to Kernel Memory
  carry the parameters of the process' own syscall, are served one at a time, and its
  handlers go on with what Kernel Memory did. The main theorems, `SistemaSolo` and
  `SistemaTransparente`, are about every process in every run; `SistemaEscritura` is about
  STDIN. `SistemaPerdida` is a run
  that shows why they need their one hypothesis about the scheduler.

Names follow the source; comments are in English.

## What is assumed

- **Granularity of the scheduler.** One message handler is one atomic step, cut only
  where it waits for Kernel Memory (`km_request`) and in the waits of a compaction. The
  planner's gate and its dispatch are one step; so are setting `compactando` and the
  marking loop; so are the return of `km_request` and what the handler does next, up to
  its next wait. Finer interleavings break several of the properties below.
- **Kernel Memory's requests** are atomic too, and so is one instruction of a CPU; all
  Memory Sticks stay active. What a
  swap device or the network does is a parameter (`Destino`, `averia`, `Red`,
  `trozos`): every outcome is covered, including operations that happen although their
  answer is lost.
- **Configuration.** `SEGMENT_MAX_SIZE` is a C int; the scheduler's `n` queues are those
  of the configuration, one unless the algorithm is CMN; queue preemption exists only
  under CMN.
- **The order of messages in `Sistema`.** A CPU moves the program counter past a syscall,
  sends it, stores the context and then hands the process back (`cpu/src/cpu_ciclo.c`,
  `cpu/src/main.c`); after INIT_PROC it waits for the answer before it stores. For SLEEP,
  STDOUT, STDIN, MUTEX_LOCK, the syscalls that do not block, interruptions and faults the
  scheduler takes the process out of EXEC once it has been handed back, so with its
  context stored; MUTEX_CREATE, MUTEX_UNLOCK and INIT_PROC do their work before that.
  MEM_ALLOC and MEM_FREE take the process out of EXEC first and wait for that before they
  ask Kernel Memory; EXIT takes it out and never waits, so its context may be stored after
  the end, or after Kernel Memory has forgotten the process. Those are the guards of
  `Sistema.Dicho`. A CPU can go away at any time between a dispatch and a return; what
  becomes of the process it had is part of `Sistema.TranscurreEs`. The connections between
  the programs do not fail otherwise; one that fails in the middle of a store ends the
  process, with at most a first part stored (`Cpu`), which in `Sistema` is the end of the
  burst in error without that part.
- `CpuTransparencia` looks at one process and lets its environment do anything, except
  compact or move that process to swap or back while it is on a CPU, which are the only
  requests of others that can move its segments (`CpuTransparencia.TablaQuieta`); in
  `Sistema` that is no longer assumed but proved (`Sistema.SistemaQuieto`).
- **Processes are not marked for a compaction while one runs and a return is left over**
  from an earlier one. `Sistema.SistemaSolo` and `Sistema.SistemaTransparente` need this of
  runs with queue preemption; without it, it always holds (`Sistema.SinDesalojo`). What it
  excludes is the first point below.

## What the proofs turned up

- **FIN_COMPACTACION can be sent while a process still runs**, with `QUEUE_PREEMPTION`:
  a process marked by `verificar_preemption` after Kernel Memory has answered, and
  stopped before `handle_compactar` clears `compactando`, posts `sem_cpus_devueltas`
  once too often; the next compaction takes that post for the return it waits for
  (`SistemaPerdida.FinConAlguienCorriendo`, a complete run of the whole system).
  It is decided when the processes are marked: every course of the wait ends with EXEC
  empty if and only if the semaphore was at 0 then, or nobody was running
  (`KsRetornos.AlMarcar`); so a run in which every marking is of that kind always sends it
  with EXEC empty (`KsRetornos.SinEstorbo`). Only a marked process that leaves EXEC between
  Kernel Memory's answer and the end of a compaction leaves a post behind (`KsRetornos.SinDejarNadieCorre`,
  `KsRetornos.EstorbaSoloSiDeja`). What it costs: in that run PID 1 runs on with the table
  of before the compaction, stores a byte, and the byte is not in its memory afterwards, as
  it would be had PID 1 run alone (`SistemaPerdida.EscrituraPerdida`).
- **A wakeup may be owed for a while.** After an EXIT the CPU is free and a process may
  be READY with no token for the planner until Kernel Memory has acknowledged
  FINALIZAR_PROCESO (`KsHallazgos.DespertarDebido`). That tokens and pass cover the free
  CPUs that have work is lost by a step if and only if it ends a process (EXIT, ERROR or
  SEG_FAULT, a refused MEM_ALLOC, MUTEX_LOCK on an unknown name) while more processes are
  READY than CPUs free and there is no wakeup to spare; so it holds throughout a run if
  and only if no step does that (`KsDespertares.PasoCubre`, `KsDespertares.CorridaCubre`). Counting the
  posts that pending handlers still owe, none is ever lost
  (`KsCorridas.SinDespertadosPerdidos`).
- **Segment ids can be duplicated.** `crear_segmento` looks only at the resident table;
  creating on a suspended process an id it has in swap gives it two segments with that id
  (`KmIdentidades.IdDuplicado`, a complete run of Kernel Memory). Over whole runs that is
  the only way: ids stay unique if and only if no allocation repeats an id its process has
  in swap (`KmIdentidades.CorridaUnicos`). The scheduler never asks for it: in the
  runs of the whole system that `SistemaTransparente` covers, ids stay unique
  (`Sistema.SistemaUnicos`).
- **A CPU cannot reach sticks beyond id 4096**: it reaches all of memory if and only if at
  most 4097 sticks have registered (`CpuAlcance.TodaAlcanzable`), and Kernel Memory does
  not stop there (`CpuAlcance.ByteInalcanzable`, a complete run). An access is served
  exactly when none of its bytes lies beyond (`Servible`).
- **A context message whose announced size wraps around 32 bits** passes the size check
  without having the segments it announces; exactly those do
  (`Sockets.DeserializarContexto`).
- **The two translators can disagree** about success in one case only, an access that
  would start at address UINT32_MAX, which no valid table allows (`Mmu.Desacuerdo`,
  `Mmu.AcuerdoValido`).
- `ks_mutex.h` says `owner_a_elevar` is -1 when nothing is inherited; the code always
  reports the owner of a taken mutex, and so does the model.

## Model

| member | source | states |
|---|---|---|
| `Intervals.CoalescedIsCanonical` | kernel_memory/src/main.c:845-854 | two coalesced lists of disjoint holes that cover the same addresses hold the same holes: why giving reserved ranges back restores the very same holes |
| `Intervals.PartitionSum` | kernel_memory/src/main.c:136-141 | if ranges cover every address below n exactly once, their sizes add up to n |
| `Intervals.MergeKeepsCover` | kernel_memory/src/main.c:163-166 | merging two adjacent holes changes the coverage of no address |
| `KernelMemory.KernelMemory.FusionarHuecos` | kernel_memory/src/main.c:154-174 | terminates with no two holes adjacent, the same addresses covered, no empty hole and no 32-bit overflow |
| `KernelMemory.KernelMemory.BestFit` | kernel_memory/src/main.c:177-187 | the chosen hole fits, no fitting hole is smaller, and it is the first such; none exactly if no hole fits |
| `KernelMemory.KernelMemory.WorstFit` | kernel_memory/src/main.c:190-200 | the chosen hole fits, no hole is larger, and it is the first such; none exactly if no hole fits |
| `KernelMemory.KernelMemory.SeleccionarHueco` | kernel_memory/src/main.c:202-207 | the hole the configured strategy asks for |
| `KernelMemory.KernelMemory.CrearSegmento` | kernel_memory/src/main.c:455-538 | the three outcomes and their states: created in the elected hole, compaction asked for exactly when the free bytes suffice but no hole does, or refused with nothing changed |
| `KmAsignacion.TomarCover` | kernel_memory/src/main.c:511-523 | taking the front of a hole leaves every other address as free as it was |
| `KmAsignacion.TomarCoalesced` | kernel_memory/src/main.c:511-523 | the holes left stay coalesced |
| `KmAsignacion.ConSegmentoInv` | kernel_memory/src/main.c:455-538 | after an allocation segments and holes still partition memory, and the entry names the stick that holds its base |
| `KmAsignacion.CrearPreserva` | kernel_memory/src/main.c:455-538 | whatever the answer, only the requester can change, and only by one new piece of the requested id and size |
| `KernelMemory.KernelMemory.EliminarSegmento` | kernel_memory/src/main.c:543-569 | the first segment with the id goes and exactly its addresses become free; without one nothing changes |
| `KmAsignacion.EliminarPreserva` | kernel_memory/src/main.c:543-569 | deleting takes one piece with that id from its process and touches no other process |
| `KmCompactacion.OrdenarOrdena` | kernel_memory/src/main.c:636-642 | segments are visited in ascending base order |
| `KmCompactacion.Despejado` | kernel_memory/src/main.c:646-662 | the place a segment is copied to meets no segment still to be moved |
| `KmCompactacion.MoverPaso` | kernel_memory/src/main.c:646-662 | moving one segment keeps what is stored in every segment, moved or not |
| `KmCompactacion.CompactarPreserva` | kernel_memory/src/main.c:628-677 | after compaction the whole invariant holds, every process stores the same ids and bytes, and segments are packed from address 0 with unchanged ids and limits |
| `KmCompactacion.CompactarVista` | kernel_memory/src/main.c:628-677 | no process can tell that memory was compacted |
| `KmOperaciones.CompactadoHueco` | kernel_memory/src/main.c:666-671 | what is left is one hole whose size is the total minus what the segments use, or none |
| `KernelMemory.KernelMemory.Compactar` | kernel_memory/src/main.c:628-677 | the loop over sorted segments, with its reads and writes across sticks, computes the compacted state |
| `KernelMemory.KernelMemory.SwapBloqueLibre` | kernel_memory/src/main.c:365-370 | the first free block, if there is one |
| `KernelMemory.KernelMemory.ReservarMetas` | kernel_memory/src/main.c:742-776 | each segment gets ceil(size / block size) blocks that were free and are nobody else's, and exactly their bits are set |
| `KernelMemory.KernelMemory.CopiarSegmentos` | kernel_memory/src/main.c:778-798 | on success every segment's bytes are in its blocks; in any case no block in use is disturbed |
| `KernelMemory.KernelMemory.SuspenderProceso` | kernel_memory/src/main.c:682-832 | succeeds exactly when there is a context and an active swap, and the process has no segments or enough blocks are free and the device does not fail; then segments, holes, metadata, bitmap and disk are those of a suspension; otherwise the rollback leaves all as it was |
| `KmSwap.SuspenderPreserva` | kernel_memory/src/main.c:682-832 | suspending loses no byte of any process; a failure leaves tables, holes, metadata, bitmap and memory unchanged |
| `KmSwap.SuspendidoSwapOk` | kernel_memory/src/main.c:742-776 | after a suspension a bit is still set exactly when one metadata entry owns the block, and every entry has the blocks its size needs |
| `KmSwap.JuntarBloques` | kernel_memory/src/main.c:784-796 | the bytes read back from blocks written in pieces, the last one padded, begin with the bytes that were written |
| `KmSwap.DeshacerReserva` | kernel_memory/src/main.c:815-826 | freeing the reserved blocks after a failure gives the original bitmap back, bit by bit |
| `KmReanudar.ColocarCover` | kernel_memory/src/main.c:916-945 | the ranges reserved for the segments were free, meet no other, and with the remaining holes cover what the holes covered |
| `KernelMemory.KernelMemory.RecolectarMetas` | kernel_memory/src/main.c:867-914 | exactly the entries of the process, in order |
| `KernelMemory.KernelMemory.DessuspenderProceso` | kernel_memory/src/main.c:856-1016 | all is back exactly when the context is known and empty, swap is active, and either the process has no entry in swap, when nothing changes, or every size is placed and the device does not fail; it does not fit exactly when there is an entry and some size is not placed; each with its exact state |
| `KmReanudar.DesuspenderPreserva` | kernel_memory/src/main.c:856-1016 | a desuspension of any outcome keeps the invariant and every byte of every process; a failed one leaves tables, metadata, bitmap, disk and the very same holes |
| `KmReanudar.DeshechoPreserva` | kernel_memory/src/main.c:998-1015 | after the rollback every live byte and every hole is what it was, though free memory may hold other bytes |
| `KmReanudar.DevolverReserva` | kernel_memory/src/main.c:917-933 | the reserved ranges and the remaining holes cover exactly the holes there were |
| `KmReanudar.ReanudadoContenido` | kernel_memory/src/main.c:947-990 | the process has the ids, limits and bytes it had in swap, and no other process changed |
| `KmReanudar.ReanudadoInv` | kernel_memory/src/main.c:947-990 | after a desuspension memory is still partitioned and every block has at most one owner |
| `KernelMemory.KernelMemory.FinalizarProceso` | kernel_memory/src/main.c:577-619 | the context, its ranges, its metadata and its blocks are gone |
| `KmReanudar.FinalizarPreserva` | kernel_memory/src/main.c:577-619 | the finished process stores nothing and every other stores what it stored |
| `KmReanudar.FinalizarLibera` | kernel_memory/src/main.c:577-619 | exactly its own addresses become free and exactly its own blocks are released |
| `KmOperaciones.CrearProcesoPreserva` | kernel_memory/src/main.c:1355-1382 | a new process starts with no segments; a known pid is refused and nothing changes |
| `KmOperaciones.GuardarContextoPreserva` | kernel_memory/src/main.c:1435-1473 | saving a context stores registers only: no segment, byte or other process changes |
| `KmOperaciones.LeerDatosLee` | kernel_memory/src/main.c:1557-1589 | the bytes answered for STDOUT are the bytes of the named segment at the named offset |
| `KmOperaciones.EscribirDatosPreserva` | kernel_memory/src/main.c:1592-1636 | the bytes of STDIN land in the named segment at the named offset and nowhere else |
| `KmOperaciones.RegistrarStickPreserva` | kernel_memory/src/main.c:1192-1221 | a new stick adds one hole at the end, keeps the stick ids of all entries right, and changes nothing that is stored |
| `KmOperaciones.IdentificarSwapPreserva` | kernel_memory/src/main.c:1251-1313 | a swap that connects, reconnects with the same sizes or is refused changes nothing that is stored |
| `KmOperaciones.FinCompactacionResponde` | kernel_memory/src/main.c:1639-1666 | the retry after compaction succeeds: the deferred request is answered with the table, never with an error |
| `KmOperaciones.FinCompactacionPreserva` | kernel_memory/src/main.c:1639-1666 | compacting and retrying adds the one requested piece and changes nothing else |
| `KernelMemory.KernelMemory.AtenderCrearProceso` | kernel_memory/src/main.c:1355-1382 | the in-place handler is the creation step, granted exactly if the pid is new, of the value-level machine and keeps the invariant |
| `KernelMemory.KernelMemory.AtenderGuardarContexto` | kernel_memory/src/main.c:1435-1473 | the in-place handler is the save step: only registers, and only of a known process of the value-level machine and keeps the invariant |
| `KernelMemory.KernelMemory.AtenderCrearSegmento` | kernel_memory/src/main.c:1493-1539 | the in-place handler is the allocation step: granted exactly if the request is valid and one hole has room, remembered exactly if only all holes together have, of the value-level machine and keeps the invariant |
| `KernelMemory.KernelMemory.AtenderEliminarSegmento` | kernel_memory/src/main.c:1542-1554 | the in-place handler is the deletion step, answered OK in any case of the value-level machine and keeps the invariant |
| `KernelMemory.KernelMemory.AtenderFinCompactacion` | kernel_memory/src/main.c:1639-1666 | the in-place handler is the compaction step, with an answer exactly if a request was waiting of the value-level machine and keeps the invariant |
| `KernelMemory.KernelMemory.AtenderSuspender` | kernel_memory/src/main.c:1669-1679 | the in-place handler is the suspension step, answered OK exactly for a known process with an active swap and no segments or blocks enough and a device that does not fail, of the value-level machine and keeps the invariant |
| `KernelMemory.KernelMemory.AtenderDessuspender` | kernel_memory/src/main.c:1682-1703 | the in-place handler is the desuspension step, answered OK exactly when all is back: for a known, empty process with an active swap, if it has nothing in swap or all of it is placed and the device does not fail, of the value-level machine and keeps the invariant |
| `KernelMemory.KernelMemory.AtenderFinalizar` | kernel_memory/src/main.c:1706-1711 | the in-place handler is the finishing step of the value-level machine and keeps the invariant |
| `KernelMemory.KernelMemory.AtenderLeerDatos` | kernel_memory/src/main.c:1557-1589 | the in-place handler is the read step, served exactly if the named segment has room for the access, of the value-level machine and keeps the invariant |
| `KernelMemory.KernelMemory.AtenderEscribirDatos` | kernel_memory/src/main.c:1592-1636 | the in-place handler is the write step, served exactly if the declared size matches and the named segment has room for the access, of the value-level machine and keeps the invariant |
| `KernelMemory.KernelMemory.AtenderMemoryStick` | kernel_memory/src/main.c:1147-1249 | the in-place handler is the step in which memory grows by the bytes of a stick, unless it is empty or 32 bits do not suffice, of the value-level machine and keeps the invariant |
| `KernelMemory.KernelMemory.AtenderSwap` | kernel_memory/src/main.c:1251-1313 | the in-place handler is the step in which a swap device identifies itself, accepted exactly if its sizes are whole, none is connected and nothing is in swap; then all of it is free, of the value-level machine and keeps the invariant |
| `KmRespuestas.CrearProcesoResponde` | kernel_memory/src/main.c:1355-1382 | a process is created exactly when its pid is new, with registers at zero and no segments |
| `KmRespuestas.PedirSegmentoResponde` | kernel_memory/src/main.c:1493-1539 | granted at once if and only if the process is known, the id new, the size within limits and one hole has room; kept for a compaction if and only if only all holes together have; otherwise refused and nothing changes |
| `KmRespuestas.SuspenderResponde` | kernel_memory/src/main.c:682-740 | granted if and only if the process is known, swap is active, and it has no segments or its blocks are free and the device does not fail; without segments nothing changes |
| `KmRespuestas.DesuspenderResponde` | kernel_memory/src/main.c:856-945 | back if and only if the process is known, nothing of it is in memory, swap is active, and it has no entry in swap or every size is placed and the device does not fail; with no entry nothing changes |
| `KmRespuestas.LeerDatosResponde` | kernel_memory/src/main.c:1557-1589 | served if and only if the segment the address names has room for the access |
| `KmRespuestas.EscribirDatosResponde` | kernel_memory/src/main.c:1592-1636 | the same for a write; a refused one changes nothing |
| `KmRespuestas.RegistrarStickResponde` | kernel_memory/src/main.c:1192-1213 | a stick joins if and only if it is not empty and 32 bits suffice; its bytes follow the others |
| `KmRespuestas.IdentificarSwapResponde` | kernel_memory/src/main.c:1251-1313 | a device is accepted if and only if its sizes are whole, none is connected and nothing is in swap; then every block is free; memory and tables stay in any case |
| `KmCorridas.PasoRefina` | kernel_memory/src/main.c:1352-1730 | every request keeps the partition of memory, the coalesced holes, stick ids and block ownership, and for every process is a step of the simple machine of ids and bytes |
| `KmCorridas.CorridaInv` | kernel_memory/src/main.c:1192-1221 | the tiling, coalescing, stick and swap-ownership invariant holds in every state of every run |
| `KmCorridas.CorridaAisla` | kernel_memory/src/main.c:1352-1730 | a run in which nobody asks to change a process leaves its ids and bytes alone, whatever is done to the others |
| `KmCorridas.IdaYVuelta` | kernel_memory/src/main.c:682-1016 | suspend, anything at all, desuspend: the process has the same segment ids, limits and bytes |
| `KmCorridas.SuspendidoSinMemoria` | kernel_memory/src/main.c:742-811 | in between it occupies no memory |
| `KmCorridas.CrearIds` | kernel_memory/src/main.c:457-465 | one successful allocation keeps the ids of its process unique if and only if the process has no segment with that id in swap |
| `KmIdentidades.PasoUnicos` | kernel_memory/src/main.c:457-465 | any step keeps the ids of all processes unique if and only if it does not allocate an id its process has in swap |
| `KmIdentidades.CorridaUnicos` | kernel_memory/src/main.c:457-465 | in a run from the start all ids are unique in every state if and only if no allocation in it does that |
| `KmRastro.MetasTras` | kernel_memory/src/main.c:742-776 | an entry for a process appears in swap only by suspending that process, and a process that has been brought back has none |
| `KmIdentidades.IdDuplicado` | kernel_memory/src/main.c:457-474 | a reachable state in which a process has two segments with one id |
| `MemoryStick.MemoryStick.ResolverRango` | memory_stick/src/main.c:59-74 | a request is served exactly when its non-empty range lies in the own buffer, with global or local addresses |
| `MemoryStick.MemoryStick.ManejarWrite` | memory_stick/src/main.c:418-458 | served exactly when sizes agree and the range is own; then that range holds the data and nothing else changed; otherwise nothing changed |
| `MemoryStick.MemoryStick.ManejarRead` | memory_stick/src/main.c:460-501 | served exactly when the range is own, with the bytes of that range |
| `PhysicalMemory.PhysicalMemory.LeerFisico` | kernel_memory/src/main.c:272-296 | across any sticks, a read is a slice of one flat array, and succeeds exactly when the range is inside it and not empty |
| `PhysicalMemory.PhysicalMemory.EscribirFisico` | kernel_memory/src/main.c:298-316 | across any sticks, a write replaces a slice of the flat array; a failed one has written at most a first part |
| `PhysicalMemory.PhysicalMemory.RegistrarStick` | kernel_memory/src/main.c:1192-1213 | the new stick's bytes follow the old ones; refused when empty or when the total would not fit in 32 bits |
| `PhysicalMemory.PhysicalMemory.FlatIsTheSticks` | kernel_memory/src/main.c:111-125 | every address of memory belongs to one stick, and holds the byte that stick keeps at its offset |
| `PhysicalMemory.PhysicalMemory.MsParaDireccion` | kernel_memory/src/main.c:111-125 | the one stick that holds the address, if any |
| `PhysicalMemory.PhysicalMemory.EndpointPorId` | kernel_memory/src/main.c:1040-1056 | the stick registered with that id |
| `PhysicalMemory.PhysicalMemory.EndpointPorDireccion` | kernel_memory/src/main.c:1058-1075 | the stick that holds that address |
| `Sticks.StickAtUnique` | kernel_memory/src/main.c:111-125 | sticks laid end to end hold each address once |
| `SwapDevice.SwapDevice.Leer` | kernel_memory/src/main.c:388-416 | the block, or a refusal, or no answer |
| `SwapDevice.SwapDevice.Escribir` | kernel_memory/src/main.c:418-449 | the block is replaced when served, and may or may not be when no answer comes |
| `Mmu.Mmu.TraducirDireccionLogica` | cpu/src/cpu_mmu.c:31-72 | computes the translation, with both overflow guards |
| `Mmu.Acuerdo` | kernel_memory/src/main.c:322-360 | both translators give the same address for every 32-bit input and table, UINT32_MAX standing for a fault (immediate from the definitions) |
| `Mmu.Desacuerdo` | cpu/src/cpu_mmu.c:55-66 | they differ about success if and only if the access would start at UINT32_MAX (immediate from the definitions) |
| `Mmu.DesacuerdoPosible` | cpu/src/cpu_mmu.c:55-66 | a table and an access for which they do differ (immediate from the definitions) |
| `Mmu.AcuerdoValido` | kernel_memory/src/main.c:322-360 | for the tables of a valid state they always agree, and the whole access lies in memory |
| `Mmu.Aislamiento` | cpu/src/cpu_mmu.c:31-72 | distinct valid logical bytes, of one process or two, are distinct physical bytes |
| `Mmu.NoAlcanzaAjeno` | cpu/src/cpu_mmu.c:31-72 | no translated access reaches a byte of another process' segment |
| `CpuMemorySticks.CpuMemorySticks.AsegurarCapacidad` | cpu/src/cpu_memory_sticks.c:21-54 | grows until the id fits, exactly for ids up to 4096, keeping old entries and leaving new ones empty |
| `CpuMemorySticks.CpuMemorySticks.CachearEndpoint` | cpu/src/cpu_memory_sticks.c:234-264 | what is cached is the range Kernel Memory published |
| `CpuMemorySticks.CpuMemorySticks.ResolverId` | cpu/src/cpu_memory_sticks.c:278-308 | the stick with that id and Kernel Memory's range for it; found, if the network holds, exactly when it exists and its id is allowed |
| `CpuMemorySticks.CpuMemorySticks.ResolverDireccion` | cpu/src/cpu_memory_sticks.c:310-334 | the stick Kernel Memory would return for that address, from the cache or not |
| `CpuAlcance.StickNuevo` | kernel_memory/src/main.c:1147-1249 | a stick that registers later, through the handler of Kernel Memory with its holes, leaves every cached range of a CPU right |
| `CpuMemorySticks.CpuMemorySticks.InvalidarSocket` | cpu/src/cpu_memory_sticks.c:336-349 | drops the connection of that entry if it is still the socket that failed, and nothing else; the range stays |
| `CpuAlcance.TodaAlcanzable` | cpu/src/cpu_memory_sticks.c:21-54 | every byte of memory can be reached if and only if at most 4097 sticks have registered |
| `CpuAlcance.ByteInalcanzable` | cpu/src/cpu_memory_sticks.c:278-308 | a reachable state of Kernel Memory with a free byte that no access of any CPU can be served at |
| `CpuMemorySticks.CpuMemorySticks.TamanioFragmento` | cpu/src/cpu_memoria.c:156-170 | the fragment is not empty, fits the stick, and never exceeds what is left |
| `CpuMemorySticks.CpuMemorySticks.MemoriaReadFragmentada` | cpu/src/cpu_memoria.c:172-213 | over any stick sizes and cache contents, a slice of the flat array; served, if the network holds, whenever no byte lies in an unreachable stick |
| `CpuMemorySticks.CpuMemorySticks.MemoriaWriteFragmentada` | cpu/src/cpu_memoria.c:215-261 | replaces a slice of the flat array; a failure has written at most a first part; served, if the network holds, whenever no byte lies in an unreachable stick |
| `CpuInstrucciones.ParsearTexto` | cpu/src/cpu_execute.c:14-16 | decimal text of any 32-bit number is read back as that number |
| `CpuInstrucciones.ParsearConSigno` | cpu/src/cpu_execute.c:14-16 | a number of any size with any sign, followed by anything but a digit: saturated at 64 bits, negated by a minus, cut to 32 |
| `CpuInstrucciones.ParsearSinNumero` | cpu/src/cpu_execute.c:14-16 | white space before a number is skipped; what is no number is 0 |
| `CpuInstrucciones.LeerEscrito` | cpu/src/cpu_registros.c:14-55 | a register written is read back modulo its width and no other register changes (immediate from the definitions) |
| `CpuInstrucciones.SumaYResta` | cpu/src/cpu_execute.c:57-101 | SUB undoes SUM whatever wrapped around, in 8 and 32 bits, and both advance the PC |
| `CpuInstrucciones.BasicaSignifica` | cpu/src/cpu_execute.c:57-121 | NOOP, SET, SUM, SUB and JNZ succeed exactly with the right number of parameters and register names, and end in the one state in which the named register reads the number, the sum, or the difference modulo its width, no other register has changed, and the PC is the next one or, for JNZ on a register that is not 0, the number |
| `CpuInstrucciones.BytesEnOrden` | cpu/src/cpu_memoria.c:21-39 | a register of four bytes is stored and read with its most significant byte first |
| `CpuInstrucciones.CorrerMotivo` | cpu/src/cpu_ciclo.c:150-230 | why a burst ends: the state it stops in explains its end, whichever it is |
| `CpuInstrucciones.IdaYVueltaBytes` | cpu/src/cpu_memoria.c:21-39 | what MOV_OUT stores MOV_IN reads back, in one byte or four (immediate from the definitions) |
| `CpuInstrucciones.CorrerEsPasos` | cpu/src/cpu_ciclo.c:150-230 | a burst has done exactly the instructions it counted; only a syscall advances the PC once more |
| `CpuInstrucciones.CorrerPartido` | cpu/src/cpu_ciclo.c:212-230 | cutting a burst at an interruption and going on is the same as not cutting it |
| `CpuTransparencia.CopyMemEsMemmove` | cpu/src/cpu_memoria.c:372-452 | COPY_MEM leaves in the destination what the source held before, even if they overlap, and changes nothing else |
| `CpuTransparencia.MovInLee` | cpu/src/cpu_memoria.c:263-317 | MOV_IN leaves in the register, and nowhere else, the one byte or four at the translated SI, most significant first; it fails as the translation does |
| `CpuTransparencia.MovOutEscribe` | cpu/src/cpu_memoria.c:319-370 | MOV_OUT leaves the register at the translated DI, most significant byte first, and changes no other byte; it fails as the translation does |
| `CpuTransparencia.CopyMemResponde` | cpu/src/cpu_memoria.c:372-452 | COPY_MEM succeeds exactly when both accesses translate, the source being asked first; otherwise nothing changes |
| `CpuTransparencia.PasoIgual` | cpu/src/cpu_memoria.c:263-452 | an instruction on physical memory through the table and the same instruction on the process' own pieces have the same outcome, registers and memory |
| `CpuTransparencia.PasoSincronizado` | kernel_memory/src/main.c:1444-1453 | only an executed instruction or a syscall moves the process, and as it would alone |
| `CpuTransparencia.TablaQuieta` | kernel_memory/src/main.c:1352-1730 | the segments of a process stay where they are unless it asks for a change, memory is compacted, or it is taken to swap or back |
| `CpuTransparencia.Arranque` | kernel_memory/src/main.c:1444-1453 | a process in any state of a run that repeats no id in swap can begin a history: it is exactly its saved registers and what it stores |
| `CpuTransparencia.Transparencia` | cpu/src/cpu_ciclo.c:141-231 | after any history of bursts, with the syscalls between them, saves, compactions, swaps and other processes' work, with no compaction or swap of the process while it is on a CPU, the process is where the same number of instructions run without interruption would have taken it |
| `CpuTransparencia.MismoResultado` | cpu/src/cpu_ciclo.c:141-231 | two histories with as many instructions end with the same saved registers and memory |
| `Sistema.SistemaSolo` | cpu/src/main.c:240-303 | in every run of scheduler, Kernel Memory and all CPUs from the start in which processes are never marked while one runs and a return is left over: each movement is, for each process, an instruction or syscall of its own done as it would be alone, a request of its own (registers kept, memory changed as the machine of ids and bytes says), or nothing at all, unless its CPU goes away |
| `Sistema.SistemaTransparente` | cpu/src/main.c:240-303 | so between two moments of such a run at which a process has asked for nothing that changes it and lost no CPU, blocked, suspended and brought back or not, its registers and memory have moved exactly as the instructions and syscalls its CPUs executed would have moved it alone |
| `Sistema.TranscurreEs` | cpu/src/cpu_ciclo.c:164-174 | the same for one step from any state that meets the invariants; and a process whose CPU goes away has its stored registers and all it has in memory |
| `Sistema.SistemaFalla` | cpu/src/cpu_memoria.c:105-135 | in such a run a process on a CPU faults, fails or goes on at its next instruction exactly when it would alone |
| `Sistema.NadieCortado` | kernel_scheduler/src/main.c:1373-1745 | no step of the scheduler takes a process out of EXEC in the middle of a burst, unless its CPU is gone |
| `Sistema.MarchaKs` | kernel_scheduler/src/main.c:1334-1941 | what the scheduler does in a run of the whole system is a run of the scheduler, so all that is proved of those holds in it |
| `Sistema.TranscurreFirme` | kernel_memory/src/main.c:1352-1730 | every step of the whole system other than such a marking keeps the invariants of both kernels and what ties them: who may have entries in swap, what waits on the channel, the table each CPU runs with, and whose burst has ended |
| `Sistema.SistemaUnicos` | kernel_memory/src/main.c:457-465 | in every such run, which without queue preemption is every run, no process ever has two segments with one id |
| `Sistema.SinDesalojo` | kernel_scheduler/src/main.c:140-180 | without queue preemption processes are never marked while one runs and a return is left over, in every run of the whole system |
| `Sistema.SistemaQuieto` | kernel_scheduler/src/main.c:640-694 | in every such run each running process is in memory and its CPU has its present table, and when Kernel Memory compacts EXEC is empty |
| `SistemaEscritura.EscritoAntesDeListo` | kernel_scheduler/src/main.c:1853-1937 | in every run of the whole system: once STDIN bytes have come for a process in BLOCK, or one that has some comes back to memory, it is READY only after Kernel Memory has served the write of its bytes, at the address and of the size of its syscall |
| `SistemaArranque.PrimeraInstruccion` | cpu/src/main.c:240-265 | a run of the whole system from the start of the program to the first instruction of PID 0 |
| `SistemaPerdida.FinConAlguienCorriendo` | kernel_scheduler/src/main.c:664-680 | that run continued: PID 0 creates PID 1 and sleeps, PID 1 takes and gives memory until an allocation waits for a compaction, and at the next compaction FIN_COMPACTACION is sent while PID 1 runs |
| `SistemaPerdida.EscrituraPerdida` | kernel_memory/src/main.c:646-662 | and continued: Kernel Memory compacts with an allocation waiting, PID 1 stores a byte through the table it was given, and its step is not one it could take alone, so the hypothesis of SistemaSolo cannot be dropped |
| `CpuTransparencia.MismaFalla` | cpu/src/cpu_memoria.c:105-135 | an instruction faults in the history exactly when it faults alone |
| `Cpu.Cpu.EscribirValorRegistro` | cpu/src/cpu_registros.c:30-55 | writes the named register, truncated to its width, or refuses an unknown name |
| `Cpu.Cpu.EjecutarInstruccion` | cpu/src/cpu_execute.c:123-150 | succeeds exactly for a well-formed instruction, and otherwise touches nothing; JNZ with a register that is not 0 jumps to the number, and otherwise goes on at the next instruction; SET, SUM and SUB leave in the register the number, the sum or the difference modulo its width, and change no other |
| `Cpu.Cpu.EjecutarMovIn` | cpu/src/cpu_memoria.c:263-317 | does what MOV_IN means on the flat array, or reports why not |
| `Cpu.Cpu.EjecutarMovOut` | cpu/src/cpu_memoria.c:319-370 | does what MOV_OUT means on the flat array; a failure of the network leaves the registers and has stored at most a first part |
| `Cpu.Cpu.EjecutarCopyMem` | cpu/src/cpu_memoria.c:372-452 | does what COPY_MEM means on the flat array; a failure of the network leaves the registers and has stored at most a first part |
| `Cpu.Cpu.EjecutarCiclo` | cpu/src/cpu_ciclo.c:141-231 | without failures of the network the loop is the burst function: same end, same memory, same registers, same count; with failures it still ends at the state of the instructions it counted, plus at most a first part of the store of the one that failed |
| `KsMutex.MutexesKs.Create` | kernel_scheduler/src/ks_mutex.c:33-52 | adds a free mutex, or reports that the name exists |
| `KsMutex.MutexesKs.Lock` | kernel_scheduler/src/ks_mutex.c:57-95 | takes a free mutex or queues at the end, and always reports the owner of a taken one |
| `KsMutex.MutexesKs.Unlock` | kernel_scheduler/src/ks_mutex.c:100-138 | hands the mutex to the first waiter, frees it, or refuses who does not own it |
| `KsMutex.MutexesKs.PrioridadHeredada` | kernel_scheduler/src/ks_mutex.c:143-164 | the least recorded priority over all waiters of all mutexes the process owns |
| `KsMutex.Fifo` | kernel_scheduler/src/ks_mutex.c:57-138 | in every run the requests for a mutex are its grants followed by its queue, in order, and the owner is the last grant |
| `KsMutex.LibreSinEspera` | kernel_scheduler/src/ks_mutex.c:123-137 | a free mutex has no waiters |
| `KsHandlers.SacarExecInv` | kernel_scheduler/src/main.c:925-955 | a process taken from EXEC by any way frees its CPU, loses its socket, and if marked is counted once |
| `KsHandlers.SacarExecMemInv` | kernel_scheduler/src/main.c:1169-1191 | for a memory syscall the CPU stays bound and a mark is counted and cleared |
| `KsHandlers.PonerReadyInv` | kernel_scheduler/src/main.c:129-136 | putting a process in READY posts a token that covers it |
| `KsPlanificador.EncolarInv` | kernel_scheduler/src/main.c:182-190 | queueing and perhaps marking a victim keeps the invariant; nobody is marked twice |
| `KsPlanificador.VerificarPreemptionInv` | kernel_scheduler/src/main.c:140-180 | marking a victim keeps every account, also during the wait of a compaction, where nobody is left to mark |
| `KsPlanificador.DespacharInv` | kernel_scheduler/src/main.c:887-916 | a dispatch binds one free CPU to one READY process and spends the pass it was worth |
| `KsPlanificador.RecalcularInv` | kernel_scheduler/src/main.c:1064-1110 | recalculating a priority moves a READY process to the queue of its new priority and loses nobody |
| `KsPlanificador.MarcarInv` | kernel_scheduler/src/main.c:643-662 | after the marking loop everything in EXEC is marked and the accounts of the handshake are open |
| `KsPasos.PasoInv` | kernel_scheduler/src/main.c:1334-1941 | every step keeps process conservation, CPU binding, wakeups, the handshake's accounts, the channel and the priority queues |
| `KsPasos.AsignadoInv` | kernel_scheduler/src/main.c:1252-1288 | the answer to MEM_ALLOC sends the process back to its CPU or ends it and frees the CPU, and lets a compaction end |
| `KsPasos.BloqueandoInv` | kernel_scheduler/src/main.c:1588-1625 | MUTEX_LOCK takes, queues or ends |
| `KsPasos.DesbloqueandoInv` | kernel_scheduler/src/main.c:1683-1724 | MUTEX_UNLOCK recalculates both owners and wakes the next one |
| `KsCorridas.UnSoloLugar` | kernel_scheduler/src/main.c:362-416 | in every state of every run each process is in exactly one queue or held by exactly one pending handler, and its state is that of the place |
| `KsCorridas.CadaCpuUnProceso` | kernel_scheduler/src/main.c:803-814 | each busy CPU has exactly one process and each free one none; the bound processes are those in EXEC and those with a memory syscall pending |
| `KsDespertares.PasoCubre` | kernel_scheduler/src/main.c:863-922 | tokens and the planner's pass are at least min(free CPUs, READY processes) after a step if and only if it does not end a process with more processes READY than CPUs free and no wakeup to spare |
| `KsDespertares.CorridaCubre` | kernel_scheduler/src/main.c:1383-1390 | in a run they are in every state if and only if no step does that |
| `KsCorridas.SinDespertadosPerdidos` | kernel_scheduler/src/main.c:438-447 | in every run, whatever it does, tokens, the pass and the posts still owed by pending handlers are at least min(free CPUs, READY processes) |
| `KsCorridas.NingunaOciosa` | kernel_scheduler/src/main.c:863-922 | with no token left, no pass under way and no post owed, no CPU is idle while a process is READY |
| `KsCorridas.NadieEntra` | kernel_scheduler/src/main.c:640-694 | while a compaction waits nobody enters EXEC and only the wait itself moves the handshake on |
| `KsCorridas.CadaMarcadoUnaVez` | kernel_scheduler/src/main.c:945-952 | in each step of the wait the semaphore gains exactly what EXEC loses: a marked process signals once, whichever way it leaves |
| `KsCorridas.LaEsperaTermina` | kernel_scheduler/src/main.c:664-667 | the wait is never for a process that has left: there is a post to take or a marked process running |
| `KsCorridas.FinConExecVacia` | kernel_scheduler/src/main.c:678-682 | from FIN_COMPACTACION to the answer what runs is what the wait counted without a return; without queue preemption EXEC is empty |
| `KsRetornos.Devueltas` | kernel_scheduler/src/main.c:945-952 | the semaphore of returns changes in two ways only: a marked process leaves EXEC during a compaction, or the wait takes one |
| `KsRetornos.SinDejarNadieCorre` | kernel_scheduler/src/main.c:640-694 | in a run in which no marked process leaves EXEC between the answer and the end of a compaction, FIN_COMPACTACION is always sent with EXEC empty |
| `KsRetornos.SinEstorbo` | kernel_scheduler/src/main.c:640-682 | in a run in which at every marking the semaphore is at 0 or nobody runs, FIN_COMPACTACION is always sent with EXEC empty |
| `KsRetornos.EstorbaSoloSiDeja` | kernel_scheduler/src/main.c:664-693 | a marking with somebody running and a return left over happens only after a marked process has left EXEC between the answer and the end of a compaction, and never without queue preemption |
| `KsRetornos.HastaElFin` | kernel_scheduler/src/main.c:664-680 | with a return left over and someone marked, the wait can go on until FIN_COMPACTACION is sent while a process runs |
| `KsRetornos.AlMarcar` | kernel_scheduler/src/main.c:640-682 | when the processes are marked: every course of the wait will send FIN_COMPACTACION with EXEC empty if and only if the semaphore is at 0 or nobody runs |
| `KsCorridas.LockHereda` | kernel_scheduler/src/main.c:1604-1611 | a lock that waits leaves a reachable owner with priority min(base, inherited), at least as urgent as the waiter, and no other priority changed |
| `KsCorridas.UnlockRecalcula` | kernel_scheduler/src/main.c:1683-1702 | an unlock leaves the old and the new owner with priority min(base, inherited) and no other priority changed |
| `KsCorridas.ColaPorPrioridad` | kernel_scheduler/src/main.c:1064-1090 | under CMN every READY process waits in the queue of its priority, in every state of every run |
| `KsCorridas.MutexesDeLaCorrida` | kernel_scheduler/src/main.c:1579-1724 | the scheduler's mutexes are those of the run of its mutex operations |
| `KsCorridas.FifoDelScheduler` | kernel_scheduler/src/ks_mutex.c:57-138 | FIFO hand-off over whole runs of the scheduler |
| `KsEfectos.Efectos` | kernel_scheduler/src/main.c:1334-1941 | every step does what its row of a table says and nothing else: one process moves, to the back of the queue of its new state, or to the front of its ready queue if it was evicted; every queue keeps its order otherwise; nobody else changes but for the mark of a victim; and the posts, the requests opened and answered, the channel and the CPUs are those of the row |
| `KsEfectos.MarcaUna` | kernel_scheduler/src/main.c:140-180 | a newcomer marks somebody if and only if queue preemption is on, no CPU is free and an unmarked less urgent process runs: the first of the least urgent; nothing else changes |
| `KsEfectos.OrdenTrasMutex` | kernel_scheduler/src/main.c:1588-1724 | when a lock or an unlock recalculates priorities nobody else changes places in the ready queues, and who takes the mutex over joins the back of the queue of its priority |
| `KsTraslados.Lleva` | kernel_scheduler/src/main.c:1334-1941 | the process a step is about goes from the queue or handler it was in to that of the table, every other queue stays the same, and the mark is cleared on the way out of EXEC unless the process ends |
| `KsTraslados.RetenidaHastaEscribir` | kernel_scheduler/src/main.c:1922-1935 | in every run: from the moment STDIN bytes come for a process in BLOCK, or it comes back to memory with some, until the answer to their writing, a handler holds it to write them, and it is in no queue |
| `KsCiclo.UnaTransicion` | kernel_scheduler/src/main.c:205-209 | a step changes the state of at most one living process, the one and to the state the table says, only along an edge of the seven-state diagram, and only if it runs, is ready, waits, or the answer it was held for has come |
| `KsTareas.Tareas` | kernel_scheduler/src/main.c:418-506 | the channel to Kernel Memory changes hands only by being taken and by an answer, notices of an end are for buried processes, and STDIN bytes are left to be written exactly from the two steps that receive them or bring their process back, until they are answered |
| `KsTareas.Retenido` | kernel_scheduler/src/main.c:362-416 | a process a pending handler holds is in no queue, in the state of that handler, and no other handler holds it |
| `KsCiclo.NadieSePierde` | kernel_scheduler/src/main.c:362-416 | EXIT is final, and only a creation Kernel Memory refuses makes a process disappear, over every run |
| `KsCiclo.DespachaAlMejor` | kernel_scheduler/src/main.c:872-903 | under CMN the process dispatched is at least as urgent as every READY process, and gets the first free CPU |
| `KsCiclo.VictimaPeor` | kernel_scheduler/src/main.c:156-167 | the process a newcomer evicts is running, unmarked and less urgent, and none such is less urgent than it; nobody is evicted only if there is none such |
| `KsHallazgos.DespertarDebido` | kernel_scheduler/src/main.c:1383-1390 | a run from the creation of PID 0 to a state in which tokens and pass do not cover the free CPUs that have work |
| `KernelScheduler.KernelScheduler.VerificarPreemption` | kernel_scheduler/src/main.c:140-180 | marks exactly the first of the least urgent unmarked processes in EXEC that are less urgent than the newcomer, if preemption is on and no CPU is free, and nobody otherwise |
| `KernelScheduler.KernelScheduler.EncolarEnReady` | kernel_scheduler/src/main.c:182-190 | back of the queue of its priority, one post, perhaps one mark |
| `KernelScheduler.KernelScheduler.SacarDeExec` | kernel_scheduler/src/main.c:925-955 | the rotation takes out that process alone; its CPU is freed; a marked one is counted |
| `KernelScheduler.KernelScheduler.SacarProcDeExecParaMem` | kernel_scheduler/src/main.c:1169-1191 | the same with the CPU kept |
| `KernelScheduler.KernelScheduler.BuscarProcesoActivo` | kernel_scheduler/src/main.c:1032-1059 | true exactly for a process in EXEC, READY, BLOCK or suspended |
| `KernelScheduler.KernelScheduler.AplicarCambioPrioridad` | kernel_scheduler/src/main.c:1064-1090 | the new priority; under CMN a READY process leaves its queue for the back of that of the priority, and nobody else changes places |
| `KernelScheduler.KernelScheduler.RecalcularPrioridadEfectiva` | kernel_scheduler/src/main.c:1098-1110 | min(base, inherited) for an active process |
| `KernelScheduler.KernelScheduler.AtenderFin` | kernel_scheduler/src/main.c:1375-1408 | EXIT, ERROR and SEG_FAULT: from EXEC to the back of EXIT, every other queue the same, and a notice for Kernel Memory opened; the in-place handler is that step of the step system and keeps the invariant |
| `KernelScheduler.KernelScheduler.AtenderInterrupcion` | kernel_scheduler/src/main.c:1375-1420 | a marked process leaves EXEC for the front of the ready queue of its level, which is it followed by the old queue, and loses its mark; an unmarked one for the back; all other queues are the same; about a process that does not run nothing changes; the in-place handler is that step of the step system and keeps the invariant |
| `KernelScheduler.KernelScheduler.AtenderSyscall` | kernel_scheduler/src/main.c:1422-1427 | a syscall that does not block: from EXEC to the back of the ready queue of its level, every other queue the same; the in-place handler is that step of the step system and keeps the invariant |
| `KernelScheduler.KernelScheduler.AtenderBloqueo` | kernel_scheduler/src/main.c:1431-1577 | SLEEP, STDOUT and STDIN: from EXEC to the back of BLOCK, with a read asked for STDOUT; without an interface to EXIT, with a notice; the in-place handler is that step of the step system and keeps the invariant |
| `KernelScheduler.KernelScheduler.AtenderMemoria` | kernel_scheduler/src/main.c:1626-1682 | MEM_ALLOC and MEM_FREE: out of EXEC into no queue, and the request opened; the in-place handler is that step of the step system and keeps the invariant |
| `KernelScheduler.KernelScheduler.AtenderMutexLock` | kernel_scheduler/src/main.c:1588-1625 | MUTEX_LOCK: from EXEC to READY if the mutex is free, to the back of BLOCK if it is taken, to EXIT if there is none; the in-place handler is that step of the step system and keeps the invariant |
| `KernelScheduler.KernelScheduler.AtenderMutexUnlock` | kernel_scheduler/src/main.c:1683-1724 | MUTEX_UNLOCK: who takes the mutex over leaves BLOCK for the back of the ready queue of its priority; without one no queue of blocked or suspended processes changes; the in-place handler is that step of the step system and keeps the invariant |
| `KernelScheduler.KernelScheduler.AtenderIoFin` | kernel_scheduler/src/main.c:1807-1851 | the end of an IO: from BLOCK to the back of READY, or from SUSP_BLOCK to SUSP_READY; to EXIT if the bytes it waited for did not come; the in-place handler is that step of the step system and keeps the invariant |
| `KernelScheduler.KernelScheduler.AtenderStdinDatos` | kernel_scheduler/src/main.c:1853-1937 | valid bytes that are not empty, for a process in BLOCK: a write is opened for it, and it is neither in BLOCK nor in a ready queue; otherwise it wakes up, in memory or in swap, or ends if they are not valid; the in-place handler is that step of the step system and keeps the invariant |
| `KernelScheduler.KernelScheduler.IniciarSuspension` | kernel_scheduler/src/main.c:1122-1131 | the timer takes a process out of BLOCK, into no queue, and a suspension is opened; the in-place handler is that step of the step system and keeps the invariant |
| `KernelScheduler.KernelScheduler.TerminarSuspension` | kernel_scheduler/src/main.c:1132-1152 | to the back of SUSP_BLOCK, or of BLOCK when refused; the in-place handler is that step of the step system and keeps the invariant |
| `KernelScheduler.KernelScheduler.IniciarDesuspension` | kernel_scheduler/src/main.c:362-382 | a candidate leaves SUSP_READY, into no queue, and a desuspension is opened; the in-place handler is that step of the step system and keeps the invariant |
| `KernelScheduler.KernelScheduler.TerminarDesuspension` | kernel_scheduler/src/main.c:384-411 | to the back of READY, into no queue with a write opened for its STDIN bytes, to EXIT, or to the back of SUSP_READY; the in-place handler is that step of the step system and keeps the invariant |
| `KernelScheduler.KernelScheduler.TerminarEscritura` | kernel_scheduler/src/main.c:1922-1935 | to the back of READY, or to EXIT with a notice; the in-place handler is that step of the step system and keeps the invariant |
| `KernelScheduler.KernelScheduler.TerminarLectura` | kernel_scheduler/src/main.c:1491-1525 | the read for STDOUT: if it failed, from BLOCK to EXIT; otherwise no queue changes; the in-place handler is that step of the step system and keeps the invariant |
| `KernelScheduler.KernelScheduler.IniciarCreacion` | kernel_scheduler/src/main.c:696-740 | a new pid, never used before, in NEW; the in-place handler is that step of the step system and keeps the invariant |
| `KernelScheduler.KernelScheduler.TerminarCreacion` | kernel_scheduler/src/main.c:743-752 | to the back of READY, or gone when refused; the in-place handler is that step of the step system and keeps the invariant |
| `KernelScheduler.KernelScheduler.TerminarAlloc` | kernel_scheduler/src/main.c:1264-1288 | back to EXEC, or to EXIT with a notice; a waiting compaction is released; the in-place handler is that step of the step system and keeps the invariant |
| `KernelScheduler.KernelScheduler.TerminarFree` | kernel_scheduler/src/main.c:1301-1317 | back to EXEC; the in-place handler is that step of the step system and keeps the invariant |
| `KernelScheduler.KernelScheduler.TerminarAviso` | kernel_scheduler/src/main.c:438-447 | the acknowledgement of an end and the post that follows; the in-place handler is that step of the step system and keeps the invariant |
| `KernelScheduler.KernelScheduler.Planificar` | kernel_scheduler/src/main.c:872-917 | the front of the first ready queue that is not empty leaves it for the back of EXEC and gets the first free CPU, which is busy from then on; without one of both nothing moves; the in-place handler is that step of the step system and keeps the invariant |
| `KernelScheduler.KernelScheduler.ConectarCpu` | kernel_scheduler/src/main.c:763-778 | a CPU joins, free, with a post; the in-place handler is that step of the step system and keeps the invariant |
| `KernelScheduler.KernelScheduler.DesconectarCpu` | kernel_scheduler/src/main.c:1337-1371 | a CPU leaves and its process goes from EXEC to the back of READY; the in-place handler is that step of the step system and keeps the invariant |
| `KernelScheduler.KernelScheduler.InterrumpirCpus` | kernel_scheduler/src/main.c:643-662 | the marking loop: everybody in EXEC is marked and nobody else; the in-place handler is that step of the step system and keeps the invariant |
| `KernelScheduler.KernelScheduler.EsperarDevuelta` | kernel_scheduler/src/main.c:664-667 | one wait; the in-place handler is that step of the step system and keeps the invariant |
| `KernelScheduler.KernelScheduler.EnviarFinCompactacion` | kernel_scheduler/src/main.c:674-680 | FIN_COMPACTACION; the in-place handler is that step of the step system and keeps the invariant |
| `KernelScheduler.KernelScheduler.ReanudarPlanificador` | kernel_scheduler/src/main.c:682-693 | the gate reopens with a post; the in-place handler is that step of the step system and keeps the invariant |
| `KmChannel.CadaUnoLaSuya` | kernel_scheduler/src/main.c:418-506 | every km_request takes the answer made for it, in order, and the slot is never overwritten while full |
| `KmChannel.SoloFin` | kernel_memory/src/main.c:1511-1539 | while an allocation is deferred the connection carries only FIN_COMPACTACION to Kernel Memory, once |
| `KmChannel.Disciplina` | kernel_memory/src/main.c:1514-1521 | with both ends agreed on what waits, a request that reaches Kernel Memory while an allocation waits can only be FIN_COMPACTACION |
| `KmJunto.AvanzaAcorde` | kernel_memory/src/main.c:1511-1539 | Kernel Memory and the connection agree at every step on whether an allocation waits, and what waits can be served |
| `KmJunto.SiempreAtendido` | kernel_memory/src/main.c:1639-1666 | in every run of both from the start, FIN_COMPACTACION finds an allocation waiting, its process gets the piece it asked for, and the answer that goes out is the one to that request |
| `KmChannel.SinRespuestaAntesDelFin` | kernel_scheduler/src/main.c:669-682 | no answer is on its way before FIN_COMPACTACION has been sent |
| `Sockets.IdaYVueltaContexto` | utils/src/utils/sockets.c:219-292 | a context saved and restored is the same context: pid, registers and table, whatever follows it |
| `Sockets.VueltaEIda` | utils/src/utils/sockets.c:219-292 | a message of the announced size is the serialization of what is read from it |
| `Sockets.SerializadoEnRed` | utils/src/utils/sockets.c:219-248 | byte by byte: of the messages of that size exactly one is the context, with pid, PC, the one-byte registers, the four-byte registers, the count and each segment at their offsets, every word with its most significant byte first |
| `Sockets.LeidoEnRed` | utils/src/utils/sockets.c:250-292 | a context is read from a message exactly when the message has that layout |
| `Sockets.NombresEnRed` | utils/src/utils/sockets.c:219-248 | the registers a program names are those of these offsets |
| `Sockets.PrimeraEnRed` | utils/src/utils/sockets.c:154-175 | a first message is read exactly when code and length stand at 0 and 4, most significant byte first, and the payload follows |
| `Sockets.SerializarContexto` | utils/src/utils/sockets.c:219-248 | the buffer filled through the moving pointer is the serialization: every field of the context at its offset, most significant byte first |
| `Sockets.DeserializarContexto` | utils/src/utils/sockets.c:250-292 | reads exactly the messages that have all they announce, and what it returns stands at its offsets, most significant byte first; of the others it refuses those shorter than the 32-bit size it computes, and the rest, whose announced size wraps around, lack a segment it goes on to read |
| `Sockets.Corriente.EnviarBytes` | utils/src/utils/sockets.c:19-27 | all the bytes in order however send cuts them; a failure has sent a proper first part |
| `Sockets.Corriente.RecibirBytes` | utils/src/utils/sockets.c:32-40 | exactly that many bytes in order however recv cuts them; without errors it fails only if the stream ends |
| `Sockets.Corriente.EnviarMensaje` | utils/src/utils/sockets.c:126-149 | the message with its code and length, most significant byte first, whole |
| `Sockets.Corriente.RecibirMensaje` | utils/src/utils/sockets.c:154-175 | the first message of the stream, its code and length read most significant byte first, leaving what follows it |
| `Sockets.EnOrden` | utils/src/utils/sockets.c:126-175 | messages sent one after the other are read whole, in order, and none else |
| `Sockets.Conversar` | utils/src/utils/sockets.c:126-175 | for any cuts in both directions, what is received is what was sent |

## Left out

- KsPasos.PasoInv: assumes the step granularity stated above; interleavings inside a handler are not modelled, and several properties fail for them.
- KmJunto.SiempreAtendido: relies on all sticks staying active.
- Sistema.SistemaSolo: leaves out runs in which processes are marked while one runs and a return is left over (`SistemaPerdida.EscrituraPerdida` is one), and the step in which the CPU of the process goes away, which `Sistema.TranscurreEs` covers.
- Sistema.SistemaTransparente: the same, and a failed connection between a CPU and a stick or Kernel Memory is only the end of a burst in error.
- Sistema.TranscurreFirme: the connection is the scheduler's one request at a time; that answers are paired with requests on it is `KmChannel`'s part.
- KernelMemory.KernelMemory.Compactar: the case in which a stick fails in the middle and `seg->base` is updated although the bytes were not moved is excluded with the sticks that fail.
- KmChannel.CadaUnoLaSuya: the connection is a value with FIFO sequences; the mutexes around the sends are its atomic steps.
- Contexts and processes are values kept in lists and maps that the classes update; aliasing of pointers to them is not modelled.
- Disconnection of sticks, BSOD, and a CPU that disconnects during a memory syscall.
- Deadlock freedom: SLEEP takes `mutex_transiciones_io` before leaving EXEC while other handlers hold it across a request, which can stall a compaction.
- Progress of mutex waiters: processes that end never release their mutexes.
- The quantum and suspension timers as clocks: an interruption or a suspension may come at any time, so `gen_despacho` and `gen_bloqueo` are not needed for safety.
- The order in which the long-term worker tries suspended processes (`cmp_suspension`) and its own semaphore.
- The pending STDIN bytes themselves: that they arrived, are valid, or are empty is part of the event.
- Threads, sockets as such, polling, logging, configuration files, delays, shutdown.
- Endpoints with port 0 or an unreachable address, and the hand-shake by which a CPU gets a socket: a socket of entry i reaches stick i or fails.
- Decoding of instruction text, script files and the payloads of syscalls.
- `ks_compact.c`, `ks_cmn.c` and `ks_queue_search.c`: not called, or only searches.
- The swap process itself beyond a map from block number to bytes, and the IO devices.
