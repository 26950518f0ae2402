/** Values shared by every part of the logging model: an Option type, the
    standard logging levels, the record handed to a handler and the row a
    columnar handler stores for it. */
module Common {

  datatype Option<+T> = None | Some(value: T)

  /** A string a truth test accepts: present and non-empty. */
  predicate Truthy(t: Option<string>)
  {
    t.Some? && t.value != ""
  }

  /** Regrouping after two appends. */
  lemma ConcatStep<T>(x: seq<T>, a: seq<T>, b: seq<T>, y: seq<T>, z: seq<T>)
    requires y == x + a && z == y + b
    ensures z == x + (a + b)
  {
  }

  lemma ConsSplit<T>(s: seq<T>)
    requires s != []
    ensures s == [s[0]] + s[1..]
  {
  }

  lemma FullPrefix<T>(s: seq<T>)
    ensures s[..|s|] == s
  {
  }

  /** A prefix one element longer. */
  lemma PrefixSnoc<T>(s: seq<T>, i: nat)
    requires i < |s|
    ensures s[..i + 1] == s[..i] + [s[i]]
  {
  }

  /** Numeric levels of the standard `logging` module. */
  const DEBUG: int := 10
  const INFO: int := 20
  const WARNING: int := 30
  const ERROR: int := 40
  const CRITICAL: int := 50

  /** A log record as the standard library builds it at the call site. The
      message is the already interpolated `getMessage()` text, and
      `excText` the already rendered traceback when the record carries
      exception information. `created` is the timestamp, kept opaque. */
  datatype LogRecord = LogRecord(
    created: int,
    levelno: int,
    levelname: string,
    name: string,
    message: string,
    pathname: string,
    lineno: int,
    funcName: string,
    excText: Option<string>)

  /** One row of the columnar log file, with the columns the handler writes;
      the `exception` column is present only for records with exception
      information. */
  datatype LogEntry = LogEntry(
    datetime: int,
    levelname: string,
    name: string,
    message: string,
    rawMessage: string,
    pathname: string,
    lineno: int,
    funcName: string,
    exception: Option<string>)

  /** The row `emit` builds from a record and the text its formatter
      rendered for it. */
  function MakeEntry(record: LogRecord, formatted: string): (e: LogEntry)
    ensures e.message == formatted && e.rawMessage == record.message
    ensures e.levelname == record.levelname && e.name == record.name
    ensures e.exception.Some? <==> record.excText.Some?
  {
    LogEntry(record.created, record.levelname, record.name, formatted, record.message,
             record.pathname, record.lineno, record.funcName, record.excText)
  }

  /** The record a row was built from, given the numeric level, which the
      row does not store. */
  function RecordOf(e: LogEntry, levelno: int): LogRecord
  {
    LogRecord(e.datetime, levelno, e.levelname, e.name, e.rawMessage, e.pathname, e.lineno, e.funcName, e.exception)
  }

  /** The row loses nothing of the record but the numeric level: the record
      and the rendered text can be read back from it, and every row is the
      row of the record read back from it. */
  lemma EntryRoundTrip(record: LogRecord, formatted: string, e: LogEntry)
    ensures RecordOf(MakeEntry(record, formatted), record.levelno) == record
    ensures MakeEntry(record, formatted).message == formatted
    ensures MakeEntry(RecordOf(e, record.levelno), e.message) == e
  {
  }
}
