/** Machine words of the syscall ABI on a 64-bit target. */
module Machine {

  /** Rust `usize`: addresses, lengths and the permission mask. */
  type Usize = x: int | 0 <= x < 0x1_0000_0000_0000_0000

  /** Rust `isize`: syscall arguments such as a priority, and return codes. */
  type Isize = x: int | -0x8000_0000_0000_0000 <= x < 0x8000_0000_0000_0000
}
