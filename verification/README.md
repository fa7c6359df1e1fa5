# Process syscalls of the os4 kernel: mmap / munmap front end

This project models the argument-checking front end of the two memory-mapping
syscalls of the teaching kernel `os4` (`os4/src/syscall/process.rs`), and the
fixed results of the unfinished process syscalls beside them.

- `Machine` — the ABI word types `Usize` and `Isize`.
- `Wrappers` — the `Option` type the kernel's helpers return.
- `Permission` — `MapPermission` as a set of flags `R`, `W`, `X`, `U`, and
  `change_port_to_permission` as `Decode`: the 3-bit `port` mask (bit 0 read,
  bit 1 write, bit 2 execute) becomes a flag set with `U` always added; only
  the masks 1..=7 decode. `Requested` is an independent bit-by-bit reading of
  the mask and `Encode` is the inverse of `Decode` on user permissions; lemmas connect
  the case table to both.
- `Process` — `sys_mmap` and `sys_munmap` as `Mmap` and `Munmap`: refuse a
  start that is not page-aligned, decode the mask (mmap only), compute
  `end = start + len`, hand `[start, end)` to the collaborator and turn its
  success bit into 0 or -1. The current task's address space is a type
  parameter `S`; `map_address_current_task` and `unmap_address_current_task`
  are oracle parameters returning a success bit and the new space, so the
  model says nothing about what they do. Each result records the request
  handed to the collaborator, or `None` when the front end refused the call
  before reaching it. The page size is a positive parameter.

In `process.rs` the end of the range is `start + len` as given (lines 59 and
78), not rounded up to a page boundary; the end is computed before the mask is
decoded, which only matters for the overflow left out below; and
`sys_task_info` reads nothing and returns -1.

## Model

| member | source | states |
|---|---|---|
| `Permission.Decode` | os4/src/syscall/process.rs:90-104 | The mask decodes iff it is in 1..=7; a decoded set always holds U, and holds R, W, X exactly when bits 0, 1, 2 of the mask are set. |
| `Permission.DecodeMatchesBits` | os4/src/syscall/process.rs:93-101 | For every mask the case table equals the bit-by-bit reading: `Some(bits' flags + U)` for 1..=7, `None` for 0 and every value from 8 up. |
| `Permission.EncodeDecode` | os4/src/syscall/process.rs:93-101 | Every mask that decodes is recovered by encoding its permission set. |
| `Permission.DecodeEncode` | os4/src/syscall/process.rs:93-100 | Every user permission (U plus at least one of R, W, X) is what its own mask decodes to. |
| `Permission.DecodeImage` | os4/src/syscall/process.rs:91-100 | The decoded sets are exactly the user permissions: some mask yields p iff p holds U and one of R, W, X. |
| `Permission.DecodeInjective` | os4/src/syscall/process.rs:93-101 | Two masks that decode to the same set are the same mask. |
| `Permission.DecodeExamples` | os4/src/syscall/process.rs:97-101 | 3 decodes to {R, W, U}, 7 to {R, W, X, U}; 0 and 8 do not decode. |
| `Process.Code` | os4/src/syscall/process.rs:63-67 | The syscall code is 0 iff the collaborator reported success, and is always 0 or -1. |
| `Process.Mmap` | os4/src/syscall/process.rs:52-71 | Returns 0 or -1; the mapper is asked iff the start is aligned and the mask is in 1..=7, then with `[start, start + len)` and the requested flags plus U, and the code is 0 iff it succeeds; a refused call returns -1 with the space unchanged. |
| `Process.Munmap` | os4/src/syscall/process.rs:73-83 | Returns 0 or -1; the unmapper is asked iff the start is aligned, then with `[start, start + len)`, and the code is 0 iff it succeeds; a refused call returns -1 with the space unchanged. |
| `Process.MmapSucceedsIff` | os4/src/syscall/process.rs:54-70 | mmap returns 0 exactly when the start is aligned, the mask is in 1..=7 and the mapper accepts the range with the requested flags. |
| `Process.MmapRefusalIgnoresMapper` | os4/src/syscall/process.rs:54-70 | When the start is misaligned or the mask does not decode, the result is -1 with no request and the same space whatever the mapper would do. |
| `Process.MisalignedRefused` | os4/src/syscall/process.rs:54-77 | A misaligned start makes mmap and munmap return -1 for every length, without a request, and repeating mmap gives the same refusal. |
| `Process.MunmapSucceedsIff` | os4/src/syscall/process.rs:74-82 | munmap returns 0 exactly when the start is aligned and the unmapper accepts `[start, start + len)`. |
| `Process.GetTime` | os4/src/syscall/process.rs:35-44 | `sys_get_time` always returns 0. |
| `Process.SetPriority` | os4/src/syscall/process.rs:47-49 | `sys_set_priority` always returns -1. |
| `Process.TaskInfo` | os4/src/syscall/process.rs:86-88 | `sys_task_info` always returns -1. |

## Left out

- `sys_exit` and `sys_yield`: they only hand control to the scheduler (`sys_exit` never returns); there is no local logic.
- The bodies of `map_address_current_task` and `unmap_address_current_task` are not part of this model: overlap rejection, atomicity and "unmapping an unmapped page fails" belong to them, so they are oracles and nothing is assumed of them.
- `VirtAddr`: the `usize` to `VirtAddr` conversion (which may cut an address to the hardware width) is not part of this model; the collaborators receive the raw start and end, and `aligned()` is a multiple-of-page-size test with the page size as a parameter.
- Process.Mmap: `start + len` is an unbounded integer; the Rust `usize` sum overflows when it reaches 2^64 (a panic in a debug build, a wrap-around in a release build), which the model does not represent.
- Process.Munmap: same unbounded `start + len` as `Mmap`.
- `sys_get_time`: reading the timer and writing the `TimeVal` through the user pointer (the write is commented out) are I/O; only the return value is modelled. The layouts of `TimeVal` and `TaskInfo` are likewise not modelled.
- The `info!` and `trace!` logging calls.
