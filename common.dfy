/** Machine integer types of the Windows x64 ABI and the failure wrappers the model uses. */
module Common {

  /** Rust `u8`. */
  newtype uint8 = x: int | 0 <= x < 0x100

  /** Rust `u32` and the Win32 `DWORD`. */
  newtype uint32 = x: int | 0 <= x < 0x1_0000_0000

  /** Rust `usize`, Win32 `SIZE_T` and `ULONG_PTR`: 64 bits wide on x64 Windows. */
  newtype usize = x: int | 0 <= x < 0x1_0000_0000_0000_0000

  datatype Option<+T> = None | Some(value: T)

  /** Rust's `Result<T, E>`. */
  datatype Result<+T, +E> = Ok(value: T) | Err(error: E)
}
