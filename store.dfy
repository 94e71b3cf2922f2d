/** The flat-file record store: each table lives in one JSON file that is
    read whole and rewritten whole. */
module Store {

  /** What `readJSONFile` finds on disk: no file, a file whose read or
      JSON parse throws, or a file that parses to a table. */
  datatype JsonFile<V> = Missing | Unreadable | Stored(value: V)

  /** `readJSONFile(filePath, defaultValue)`: the parsed contents when the
      file exists and parses, the default otherwise. A failure is never
      passed on to the caller. */
  function ReadJSONFile<V>(file: JsonFile<V>, defaultValue: V): (r: V)
    ensures file.Stored? ==> r == file.value
    ensures file.Missing? || file.Unreadable? ==> r == defaultValue
  {
    match file
    case Stored(v) => v
    case Missing => defaultValue
    case Unreadable => defaultValue
  }

  /** How one `fs.writeFileSync` call ends. It opens the file with flag 'w',
      which empties it, and then writes the text: it can succeed, fail
      before the file is opened (the file keeps what it held), or fail after
      the truncation (the file is left empty or half-written). */
  datatype WriteOutcome = Written | NotOpened | Truncated

  /** `writeJSONFile(filePath, data)`: the whole file is replaced when the
      write succeeds; a failure is only logged, and what the file then holds
      depends on where the write stopped. The boolean is the handler's
      return value, which no caller looks at. */
  function WriteJSONFile<V>(file: JsonFile<V>, data: V, disk: WriteOutcome): (r: (JsonFile<V>, bool))
    ensures r.1 <==> disk == Written
    ensures disk == Written ==> r.0.Stored? && r.0.value == data
    ensures disk == NotOpened ==> r.0 == file
    ensures disk == Truncated ==> r.0.Unreadable?
  {
    match disk
    case Written => (Stored(data), true)
    case NotOpened => (file, false)
    case Truncated => (Unreadable, false)
  }

  /** A successful write is read back exactly, whatever default the reader
      passes; a write that failed before opening leaves every later read as
      it was; one that failed after the truncation makes every later read
      fall back to the default, so the whole table is lost. */
  lemma ReadAfterWrite<V>(file: JsonFile<V>, data: V, disk: WriteOutcome, defaultValue: V)
    ensures ReadJSONFile(WriteJSONFile(file, data, disk).0, defaultValue)
         == match disk
            case Written => data
            case NotOpened => ReadJSONFile(file, defaultValue)
            case Truncated => defaultValue
  {
  }
}
