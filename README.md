# Loopback programs for libaxidma: resource ownership and teardown

This project models the two example programs that drive the AXI DMA engine
through libaxidma, and proves what they do with what they own.

- `examples/loopback_txt.c` opens an input and an output file. It initialises
  the DMA device, sizes and allocates two DMA buffers, reads the input file
  into one, and runs a two-way transfer. Then it writes the received buffer
  to the output file and tears everything down through a chain of goto
  cleanup labels.
- `examples/loopback_data.c` does the same with a fixed pattern of ten ints
  and no files. It keeps four defects, which the model records as written:
  - it stores through NULL after a failed allocation;
  - it overwrites the `-ENOMEM` it set;
  - it never frees its buffers;
  - it calls `axidma_destroy` even when `axidma_init` returned NULL.

Everything the programs call but do not define is the class
`Platform.Host`: libaxidma, `open`, `close`, `fstat`, `robust_read` and
`robust_write`. Its ghost state is:
- the live device handles;
- the live DMA buffers, each with its size;
- the open descriptors;
- the log of every call.

Every outcome of a foreign call is a parameter chosen by the caller of the
model. That covers a NULL or non-NULL pointer, a return code, and the
reported channel lists. The outcomes of one run are bundled in
`FileOutcomes` and `MainOutcomes` (loopback_txt) or in `DataOutcomes` and
`MainOutcomes` (loopback_data).

Each program's C functions are methods that update the `struct dma_transfer`
object (`FileTransfer`, `DataTransfer`) and the host, step by step. Each method
states the log it appends as a function of its inputs:
- loopback_txt.c is one goto cleanup chain (module `Cleanup`), whose list of
  stages is built by `TransferChain`, `MainChain` and the functions between
  them;
- loopback_data.c, which has no such chain, has the flat call lists
  `DataCalls` and `MainCalls`.

The resource properties are then lemmas about those logs in the theory of
module `Trace`:
- an `Event` acquires, releases or does neither;
- `Held` replays the trace as a stack;
- `Balanced` means every release gives back the most recently acquired
  resource still held, and nothing is left held;
- `Nested` adds that the releases are the acquisitions reversed.

The general result `Cleanup.ChainNests` says that any goto cleanup chain whose
stages undo exactly what they acquired releases everything in reverse order.
The release properties of loopback_txt.c (`TransferFileReleases` and
`MainReleases`) rest on it. `Cleanup.CallsAlong` is its companion for single
calls: a property that holds of every call a chain reaches holds of every call
it makes. `MainHandsNoNull` uses it to show that loopback_txt.c never passes
NULL to the library; loopback_data.c does.

The comment above the channel defaulting in both programs calls the
default channels "the lowest numbered ones". The code takes the first entry
of each reported list, and the model follows the code.
`Channels.DefaultIsLowest` shows when the two agree: when the lists are
ascending. `Channels.FirstIsNotAlwaysLowest` shows that they need not
agree otherwise.

## Model

| member | source | states |
|---|---|---|
| Common.Int32 | examples/loopback_txt.c:177 | storing `st_size` in the `int` `input_size` gives a value in the 32-bit range, equal to the size when the size fits |
| Common.Int32Wraps | examples/loopback_txt.c:177 | the conversion keeps the size modulo 2^32 |
| Cleanup.CallsAlong | examples/loopback_txt.c:83-122 | a property that holds of each call up to the first failure, and of the undo calls of the stages that succeeded, holds of every call the chain makes |
| Cleanup.ChainNests | examples/loopback_txt.c:117-122 | a goto cleanup chain whose stages acquire one resource and undo exactly that one is balanced. It releases in the reverse of the order of acquisition, and acquires exactly the resources of the stages that succeeded before the first failure |
| Platform.Fresh | examples/loopback_txt.c:83-84 | a call that hands out a handle returns a non-NULL handle exactly when it succeeds |
| Platform.Host.Open | examples/loopback_txt.c:147-159 | `open` returns a fresh descriptor on success, -1 otherwise, and records it |
| Platform.Host.Close | examples/loopback_txt.c:214-217 | `close` forgets exactly the descriptor it closes |
| Platform.Host.Init | examples/loopback_txt.c:162-167 | `axidma_init` returns a fresh live handle or NULL |
| Platform.Host.Destroy | examples/loopback_txt.c:212-213 | `axidma_destroy` of a live handle makes it dead; on NULL it only records the call |
| Platform.Host.Malloc | examples/loopback_txt.c:83 | `axidma_malloc` returns a fresh live buffer of the requested size, or NULL and nothing changes |
| Platform.Host.Free | examples/loopback_txt.c:118-120 | `axidma_free` requires a live buffer and its allocated size, and kills exactly that buffer |
| Platform.Host.Transfer | examples/loopback_txt.c:105-107 | `axidma_twoway_transfer` requires each non-NULL buffer to be live and at least as large as its transfer size |
| Platform.Host.Fstat | examples/loopback_txt.c:170 | `fstat` of an open descriptor returns its code and the file's `st_size`, records the call, and changes nothing else |
| Platform.Host.GetTx | examples/loopback_txt.c:183 | `axidma_get_dma_tx` returns the transmit channels the library reports, records the call, and changes nothing else |
| Platform.Host.GetRx | examples/loopback_txt.c:189 | `axidma_get_dma_rx` returns the receive channels the library reports, records the call, and changes nothing else |
| Platform.Host.Fault | examples/loopback_data.c:65-89 | a store or load through NULL by the program itself is recorded as an `Undefined` event; no device, buffer or descriptor changes |
| Platform.Host.Read | examples/loopback_txt.c:89 | `robust_read` reads into a live buffer no smaller than the read |
| Platform.Host.Write | examples/loopback_txt.c:115 | `robust_write` writes from a live buffer no smaller than the write |
| Channels.ResolveChannels | examples/loopback_txt.c:183-201 | an error (-ENODEV) exactly when a list is empty. With both channels unset, the first entry of each list; otherwise the given pair unchanged |
| Channels.DefaultIsLowest | examples/loopback_txt.c:196-201 | with ascending lists, the default channels are the lowest ones |
| Channels.FirstIsNotAlwaysLowest | examples/loopback_txt.c:196-201 | without that assumption the default need not be the lowest channel |
| Channels.ExitCode | examples/loopback_txt.c:210 | the exit code is never negative: 0 exactly when the code is not negative, otherwise its negation |
| LoopbackTxt.ParseArgs | examples/loopback_txt.c:43-72 | both channels and the output size come back unset (-1), so the both-or-neither check never fails and 0 is returned with the fixed paths |
| LoopbackTxt.FileTransfer.constructor | examples/loopback_txt.c:139 | the structure starts all zero with NULL buffers |
| LoopbackTxt.TransferOutput | examples/loopback_txt.c:96-118 | the output half returns -ENOMEM, the failed transfer's code or the write's code. It appends the calls of its chain, sets `output_buf` to what `axidma_malloc` returned, and frees the buffer it allocated |
| LoopbackTxt.TransferFile | examples/loopback_txt.c:78-123 | transfer_file returns the code of its first failing call, or the write's code. It appends the calls of `TransferChain`, sets both buffer pointers to what `axidma_malloc` returned, leaves the live buffers as it found them, and touches no device or file |
| LoopbackTxt.OutputChainProper | examples/loopback_txt.c:97-120 | the output half is a proper cleanup chain that acquires the output buffer exactly when it is allocated |
| LoopbackTxt.TransferChainProper | examples/loopback_txt.c:83-120 | transfer_file is a proper cleanup chain that acquires the input buffer, then the output buffer when the read succeeded |
| LoopbackTxt.TransferFileReleases | examples/loopback_txt.c:83-122 | on every path each buffer `axidma_malloc` returned is freed exactly once, with its size; nothing else is freed; the output buffer is freed before the input buffer |
| LoopbackTxt.TransferFileWrites | examples/loopback_txt.c:105-122 | the output file is written at most once, from the output buffer, right after a successful transfer into it. It is written exactly when every earlier call succeeded; no call gets a NULL pointer; the result is not negative exactly when the write happened and succeeded |
| LoopbackTxt.EarlyExitWrites | examples/loopback_txt.c:83-101 | when an allocation or the read fails, nothing is written |
| LoopbackTxt.FailedTransferWrites | examples/loopback_txt.c:108-111 | when the transfer fails, nothing is written |
| LoopbackTxt.FullTransferWrites | examples/loopback_txt.c:113-115 | when the transfer succeeds, the one write comes right after it |
| LoopbackTxt.InputAllocFails | examples/loopback_txt.c:83-88 | a failed input allocation returns -ENOMEM after that single call, freeing nothing |
| LoopbackTxt.ReadFails | examples/loopback_txt.c:89-94 | a failed read frees the input buffer, never allocates the output buffer, and returns the read's code |
| LoopbackTxt.OutputAllocFails | examples/loopback_txt.c:97-101 | a failed output allocation frees the input buffer and returns -ENOMEM |
| LoopbackTxt.TransferFails | examples/loopback_txt.c:105-111 | a failed transfer skips the write, frees both buffers (output first) and returns the transfer's code |
| LoopbackTxt.TransferSucceeds | examples/loopback_txt.c:113-122 | a successful transfer is followed by the write; both buffers are freed and the write's code is returned |
| LoopbackTxt.RunTransfer | examples/loopback_txt.c:182-210 | -ENODEV after an empty list, with no transfer and the structure unchanged. Otherwise unset channels become the first entries, transfer_file runs, and its code becomes the exit code. The new channels and buffer pointers are given |
| LoopbackTxt.RunSession | examples/loopback_txt.c:169-210 | 1 when fstat fails, leaving the structure unchanged. Otherwise the input size becomes the file's size, an unset output size becomes the input size, and the channels and the transfer follow |
| LoopbackTxt.RunDevice | examples/loopback_txt.c:161-213 | 1 without a destroy when `axidma_init` returns NULL; otherwise the session, then `axidma_destroy` of that handle |
| LoopbackTxt.RunOutputFile | examples/loopback_txt.c:153-215 | opens the path `parse_args` returned. -1 when it cannot be opened, with `output_fd` set to -1; otherwise `output_fd` is the new descriptor, the device part runs, and the output file is closed |
| LoopbackTxt.ProgramMain | examples/loopback_txt.c:129-220 | main returns `MainRc`, appends the calls of `MainChain`, and leaves devices, buffers and descriptors as it found them |
| LoopbackTxt.SessionChainProper | examples/loopback_txt.c:169-209 | from fstat on, main is a proper chain that acquires transfer_file's buffers exactly when fstat succeeded and both lists are non-empty |
| LoopbackTxt.MainChainProper | examples/loopback_txt.c:147-217 | main is a proper cleanup chain acquiring, in order, the input file, the output file, the device and the buffers, each only when everything before it was acquired |
| LoopbackTxt.MainReleases | examples/loopback_txt.c:147-217 | every descriptor opened is closed, the device is destroyed exactly when `axidma_init` returned non-NULL, and every buffer is freed. Each happens exactly once, in the reverse of acquisition: destroy, then close output, then close input. Calls that release nothing, such as a destroy of NULL, are covered by `MainHandsNoNull` |
| LoopbackTxt.TransferAlong | examples/loopback_txt.c:83-120 | with a device handle that is not NULL, no call of transfer_file hands the library NULL, and none destroys anything |
| LoopbackTxt.MainHandsNoNull | examples/loopback_txt.c:147-217 | no call of main hands the library a NULL handle or buffer. The only destroy is of the handle `axidma_init` returned, and it happens exactly when both files opened and that handle is not NULL |
| LoopbackTxt.MainResourcesDistinct | examples/loopback_txt.c:147-209 | main never acquires the same resource twice |
| LoopbackTxt.NoChannels | examples/loopback_txt.c:183-194 | an empty channel list gives -ENODEV before transfer_file, so no buffer is allocated |
| LoopbackTxt.TransferGetsFile | examples/loopback_txt.c:147-201 | transfer_file gets both descriptors, both sizes equal to the file's size as an `int`, and the first channel of each list |
| LoopbackTxt.MainExit | examples/loopback_txt.c:208-210 | main exits with 0 exactly when every call up to transfer_file succeeded and transfer_file's code is not negative; a negative code is returned negated |
| LoopbackData.ParseArgs | examples/loopback_data.c:37-49 | both channels come back unset (-1) and 0 is returned |
| LoopbackData.DataTransfer.constructor | examples/loopback_data.c:102 | the structure starts with zero channels and NULL buffers |
| LoopbackData.FillTx | examples/loopback_data.c:65-67 | the first LEN ints become VALUE + i; no other int changes |
| LoopbackData.ClearRx | examples/loopback_data.c:74-76 | the first LEN ints become 0; no other int changes |
| LoopbackData.Allocated | examples/loopback_data.c:60 | after a non-NULL allocation the buffer is live with MAX_LEN bytes and every other live buffer keeps its size; after NULL nothing changes |
| LoopbackData.PrepareTx | examples/loopback_data.c:60-67 | allocates MAX_LEN bytes. A fresh buffer of MAX_LEN / 4 ints is filled (so the LEN stores fit); after NULL a store through NULL is recorded |
| LoopbackData.PrepareRx | examples/loopback_data.c:69-76 | allocates MAX_LEN bytes. A fresh buffer of MAX_LEN / 4 ints has its first LEN ints cleared to 0; after NULL a store through NULL is recorded |
| LoopbackData.TransferData | examples/loopback_data.c:55-92 | returns the transfer's code whatever the allocations gave. It sends MAX_LEN bytes each way, faults as `DataCalls` says, and leaves both buffers live |
| LoopbackData.RunSession | examples/loopback_data.c:115-139 | -ENODEV after an empty list; otherwise the channels default to the first entries and the transfer's code is returned |
| LoopbackData.ProgramMain | examples/loopback_data.c:94-145 | the code is -ENODEV or the transfer's code (a failed init's 1 is overwritten). `axidma_destroy` ends every run, and the buffers stay live |
| LoopbackData.AllocEffects | examples/loopback_data.c:60-67 | an allocation acquires its buffer when non-NULL and releases nothing |
| LoopbackData.DataCallsEffects | examples/loopback_data.c:55-92 | transfer_data acquires the buffers it got and releases nothing |
| LoopbackData.SessionEffects | examples/loopback_data.c:115-139 | after `axidma_init` main acquires only transfer_data's buffers, and only when both lists are non-empty |
| LoopbackData.MainReleases | examples/loopback_data.c:94-145 | main releases only the device (when `axidma_init` succeeded): no buffer is ever freed |
| LoopbackData.MainBalance | examples/loopback_data.c:109-142 | the calls balance exactly when no buffer was allocated. With a live device and a buffer, the destroy releases the device under a held buffer; after a failed init the buffers are held at the end |
| LoopbackData.DestroyAlways | examples/loopback_data.c:109-142 | `axidma_destroy` is the last call and the only destroy, even when `axidma_init` returned NULL. Then NULL goes to `axidma_get_dma_tx` and to `axidma_destroy` |
| LoopbackData.DataFaults | examples/loopback_data.c:60-89 | transfer_data stores through NULL exactly when an allocation failed and loads through NULL exactly when the receive allocation failed; it never destroys |
| LoopbackData.NullAccesses | examples/loopback_data.c:60-89 | the same for all of main, and none of it happens when a channel list is empty |
| LoopbackData.TransferUsesFirstChannels | examples/loopback_data.c:79-80 | with both lists non-empty, the transfer uses the first channel of each list, both buffers and MAX_LEN bytes each way |

## Left out

- The internals of libaxidma are not modelled: how it sets up the device, lists channels, maps buffers and runs transfers. Each call is an abstract step whose outcome is a parameter.
- Calls given a NULL handle or buffer: what libaxidma does with them is not known. The model only records the call.
- What `robust_read` and `robust_write` move is not modelled: data, partial reads and writes, or short counts. Only their return codes are.
- The data the transfer places in the receive buffer is not modelled, nor the loopback identity of the two buffers.
- `LoopbackData.TransferData`: says nothing about the receive buffer's contents after the transfer, because the hardware writes them.
- The command line: neither `parse_args` reads `argv`. Both always set the defaults, which the model reproduces.
- The `-s`/`-o` check of loopback_txt.c is kept, but its flags are always false.
- `printf`, `fprintf` and `perror` output is not modelled. That includes loopback_data.c's print loop, except for its load through NULL.
- `BYTE_TO_MB`, a print-only floating-point conversion, is not modelled.
- `fstat` is reduced to its code and `st_size`.
- `close` is modelled as succeeding. The source wraps it in `assert`: a failed close would abort, and with `NDEBUG` the close would not happen at all.
- A store or load through NULL is undefined behaviour. The model records it as an `Undefined` event and carries on with the rest of the code as written; it does not simulate memory.
- Channels.ExitCode: codes are unbounded integers here, so `-rc` at examples/loopback_txt.c:210 never overflows. In C it would overflow for `INT_MIN`. The model takes it that `robust_read`, `axidma_twoway_transfer` and `robust_write` return -errno values or byte counts, so `INT_MIN` never reaches that line; their code is not part of this model.
- `sizeof(int)` is taken to be 4 (`LoopbackData.INT_SIZE`).
- Descriptor, handle and buffer identities come from one counter. Real values differ, but only their freshness matters here.
- Concurrency inside the DMA engine is not modelled: the send and receive streams overlap, and the blocking transfer is one step.
