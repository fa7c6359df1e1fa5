/** The process syscalls of the kernel: the argument-checking front end of
    `sys_mmap` and `sys_munmap`, and the fixed results of the unfinished
    `sys_get_time`, `sys_set_priority` and `sys_task_info`.

    The address space of the current task is a value of the type parameter
    `S`; the collaborators that insert and remove mapped areas are oracles
    that report success or failure and may change the space either way. */
module Process {
  import opened Wrappers
  import opened Machine
  import opened Permission

  /** `map_address_current_task(start, end, perm)`: success bit and new space. */
  type Mapper<!S> = (S, Usize, nat, MapPermission) -> (bool, S)

  /** `unmap_address_current_task(start, end)`: success bit and new space. */
  type Unmapper<!S> = (S, Usize, nat) -> (bool, S)

  /** A request handed to a collaborator, over the half-open range [start, end). */
  datatype Request =
    | MapArea(start: Usize, end: nat, perm: MapPermission)
    | UnmapArea(start: Usize, end: nat)

  /** The result of one syscall: the code returned to the user, the address
      space afterwards, and the request passed to the collaborator, if any. */
  datatype Return<S> = Return(code: Isize, space: S, request: Option<Request>)

  /** `VirtAddr::aligned`: the address is a multiple of the page size. */
  predicate Aligned(addr: nat, pageSize: nat)
    requires pageSize > 0
  {
    addr % pageSize == 0
  }

  /** Turns a collaborator's `Option<()>` into the syscall code. */
  function Code(ok: bool): (c: Isize)
    ensures c == 0 <==> ok
    ensures c == 0 || c == -1
  {
    if ok then 0 else -1
  }

  /** `sys_mmap(start, len, port)`. */
  function Mmap<S>(pageSize: nat, space: S, start: Usize, len: Usize, port: Usize,
                   mapper: Mapper<S>): (r: Return<S>)
    requires pageSize > 0
    ensures r.code == 0 || r.code == -1
    ensures r.request.Some? <==> Aligned(start, pageSize) && 1 <= port <= 7
    ensures r.request.None? ==> r.code == -1 && r.space == space
    ensures r.request.Some? ==>
      && r.request.value == MapArea(start, start + len, Requested(port))
      && (r.code == 0 <==> mapper(space, start, start + len, Requested(port)).0)
      && r.space == mapper(space, start, start + len, Requested(port)).1
  {
    if !Aligned(start, pageSize) then
      Return(-1, space, None)
    else
      var end := start + len;
      match Decode(port)
      case None => Return(-1, space, None)
      case Some(perm) =>
        DecodeMatchesBits(port);
        var (ok, space') := mapper(space, start, end, perm);
        Return(Code(ok), space', Some(MapArea(start, end, perm)))
  }

  /** `sys_munmap(start, len)`. */
  function Munmap<S>(pageSize: nat, space: S, start: Usize, len: Usize,
                     unmapper: Unmapper<S>): (r: Return<S>)
    requires pageSize > 0
    ensures r.code == 0 || r.code == -1
    ensures r.request.Some? <==> Aligned(start, pageSize)
    ensures r.request.None? ==> r.code == -1 && r.space == space
    ensures r.request.Some? ==>
      && r.request.value == UnmapArea(start, start + len)
      && (r.code == 0 <==> unmapper(space, start, start + len).0)
      && r.space == unmapper(space, start, start + len).1
  {
    if !Aligned(start, pageSize) then
      Return(-1, space, None)
    else
      var end := start + len;
      var (ok, space') := unmapper(space, start, end);
      Return(Code(ok), space', Some(UnmapArea(start, end)))
  }

  /** `sys_get_time`: the write of the time value is unfinished; it reports 0. */
  function GetTime(ts: Usize, tz: Usize): (r: Isize)
    ensures r == 0
  {
    0
  }

  /** `sys_set_priority`: scheduling priorities are not supported; it reports -1. */
  function SetPriority(prio: Isize): (r: Isize)
    ensures r == -1
  {
    -1
  }

  /** `sys_task_info`: the write of the task info is unfinished; it reports -1. */
  function TaskInfo(ti: Usize): (r: Isize)
    ensures r == -1
  {
    -1
  }

  /** `sys_mmap` succeeds exactly when the start is page-aligned, the mask is
      one of 1..=7 and the mapper accepts [start, start + len) with the flags
      the mask's bits request plus U. */
  lemma MmapSucceedsIff<S>(pageSize: nat, space: S, start: Usize, len: Usize, port: Usize,
                           mapper: Mapper<S>)
    requires pageSize > 0
    ensures Mmap(pageSize, space, start, len, port, mapper).code == 0
        <==> && Aligned(start, pageSize)
             && 1 <= port <= 7
             && mapper(space, start, start + len, Requested(port)).0
  {
  }

  /** A request refused by the front end does not depend on the mapper: any
      two mappers give the same result, and the space is unchanged. */
  lemma MmapRefusalIgnoresMapper<S>(pageSize: nat, space: S, start: Usize, len: Usize,
                                    port: Usize, m1: Mapper<S>, m2: Mapper<S>)
    requires pageSize > 0
    requires !Aligned(start, pageSize) || Decode(port).None?
    ensures Mmap(pageSize, space, start, len, port, m1)
         == Mmap(pageSize, space, start, len, port, m2)
         == Return(-1, space, None)
  {
  }

  /** A misaligned start makes both mapping syscalls fail whatever the length,
      and repeating the call fails again on the unchanged space. */
  lemma MisalignedRefused<S>(pageSize: nat, space: S, start: Usize, len: Usize, port: Usize,
                             mapper: Mapper<S>, unmapper: Unmapper<S>)
    requires pageSize > 0
    requires !Aligned(start, pageSize)
    ensures var first := Mmap(pageSize, space, start, len, port, mapper);
            && first == Return(-1, space, None)
            && Mmap(pageSize, first.space, start, len, port, mapper) == first
    ensures Munmap(pageSize, space, start, len, unmapper) == Return(-1, space, None)
  {
  }

  /** `sys_munmap` succeeds exactly when the start is page-aligned and the
      unmapper accepts [start, start + len). */
  lemma MunmapSucceedsIff<S>(pageSize: nat, space: S, start: Usize, len: Usize,
                             unmapper: Unmapper<S>)
    requires pageSize > 0
    ensures Munmap(pageSize, space, start, len, unmapper).code == 0
        <==> Aligned(start, pageSize) && unmapper(space, start, start + len).0
  {
  }
}
