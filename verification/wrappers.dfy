/** The `Option` type the kernel's Rust code returns from its helpers
    (`Some(value)` on success, `None` on failure). */
module Wrappers {

  datatype Option<+T> = None | Some(value: T)
}
