/** Bytes, paths and the I/O errors of std::io, as far as the TLS configuration uses them. */
module Io {
  import opened Wrappers

  type uint8 = x: int | 0 <= x < 0x100

  /** A Vec<u8> or &[u8]. */
  type Bytes = seq<uint8>

  /** A PathBuf. */
  type Path = string

  /** The kinds of std::io::ErrorKind that the model tells apart. */
  datatype ErrorKind = NotFound | PermissionDenied | InvalidData | UnexpectedEof | Other

  /** An std::io::Error: its kind and its message. */
  datatype IoError = IoError(kind: ErrorKind, message: string)

  /**
   * Opening a file and reading it to its end (File::open followed by read_to_end):
   * the whole contents of the file, or the error the operating system reported.
   */
  type FileSystem = Path -> Result<Bytes, IoError>
}
