/** How a write of a whole file (`mkdir` then `writeFile`) can fail. */
module FileSystem {
  /**
   * A failed write with the error's message. `truncated` is false when
   * `mkdir` or opening the file failed, so the old file is untouched; it is
   * true when `writeFile` failed after opening the file with truncation, so
   * the file now holds a proper prefix of the new text, which never parses.
   */
  datatype WriteFault = WriteFault(message: string, truncated: bool)
}
