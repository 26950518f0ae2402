# ineeji_logging core, modelled in Dafny

This project models the core of `ineeji_logging/logger.py`, a logging
facade over Python's standard `logging` package. The model covers:

- **The columnar handler** (`ParquetLogHandler`). It keeps an ordered buffer
  of rows. `emit` appends one row and flushes once the buffer reaches the
  flush threshold. `flush` drains the buffer into the file of the current
  partition: existing readable rows first, then the batch. Every I/O failure
  is swallowed and the batch is dropped. `close` flushes, and so does the
  exit hook `_flush_all_on_exit`, for every handler ever created.
- **Partition paths**: `<expanded base>/<project>/<env>/<YYYY-MM-DD>/log.parquet`.
- **Template tiering** in `DetailedFormatter` and `ColoredDetailedFormatter`.
  A record at WARNING or above is rendered with the detailed template. The
  formatter's active template is swapped in place for that and then restored.
- **Colour tagging** of `ColoredFormatter`: `[LEVEL]` is wrapped in an ANSI
  colour code and the reset code, for known level names only.
- **The `Logger` constructor**. It sets the level and turns off propagation,
  removes old handlers, and detaches the listener registered under the same
  name. It builds the console, text-file and columnar sinks a configuration
  asks for, and attaches them behind a fresh queue listener
  (`_setup_async_logging`) or directly.
- **The exit hook** `_stop_all_listeners`, and the dictionary of
  per-environment defaults `get_default_config`.

Modules follow the source's structure:

| module | file | what it holds |
|---|---|---|
| `Common` | common.dfy | `Option`, the level constants, log records, the row `emit` builds, small sequence lemmas |
| `Colors` | colors.dfy | the colour table, left-to-right string replacement, colour tagging and its inverse |
| `Formatters` | formatters.dfy | the two tiered formatter classes and the template choice |
| `Partition` | partition.dfy | date stamps, `expanduser`, the partition file path and its injectivity |
| `Storage` | storage.dfy | the handler's buffer and the partition files as values; the batching properties |
| `ParquetHandler` | parquet_handler.dfy | the handler class, the handler registry, the exit flush loop |
| `Logging` | logging.dfy | configuration, sinks, the stdlib logger, the listener registry, the `Logger` class |

The handler is an imperative class with a `seq` buffer. Its methods are
proved against the pure functions `Storage.Emit` and `Storage.Flush`. The
delivery properties are lemmas about those functions: conservation,
at-most-once delivery, and the buffer length after a run of emits. The
storage is a `Disk` object holding a map from path to `File(rows, readable)`.
The failure points of `flush` are a `Fault` parameter: `DirFault` covers
composing the path and creating the directory, `WriteFault` covers building
and writing the file. The current date, the user's home directory, the other
users' homes and the name of the working directory are parameters too.

Rendering a record through a template (`logging.Formatter.format`, with its
interpolation) is an opaque function parameter, `Renderer`. It takes the
template, the style character and the record. It returns `None` when
rendering raises, as it does when a record's message cannot be interpolated
with its arguments.

## Model

| member | source | states |
|---|---|---|
| Common.EntryRoundTrip | ineeji_logging/logger.py:100-116 | the row `emit` builds keeps everything the record carries except the numeric level: record and rendered text read back from the row, and every row is the row of the record read back from it |
| Colors.ColorCode | ineeji_logging/logger.py:25-32 | every code in the colour table is an escape sequence: it starts with the escape character and contains no other |
| Colors.ReplaceFirst | ineeji_logging/logger.py:43 | `str.replace`: when the pattern first occurs right after a prefix `a`, `a` is copied, that occurrence is replaced and replacement carries on after it |
| Colors.AbsentUnchanged | ineeji_logging/logger.py:43 | replacement leaves a line in which the pattern does not occur unchanged; with `ReplaceFirst` this determines every replacement |
| Colors.Colorize | ineeji_logging/logger.py:39-45 | a level name missing from the colour table leaves the line unchanged |
| Colors.ColorizeFirstTag | ineeji_logging/logger.py:39-45 | for a known level, the first `[LEVEL]` of a line becomes the colour code, `[LEVEL]` and the reset code; the text before it is kept and the rest of the line is coloured in turn |
| Colors.ColorizeNoTag | ineeji_logging/logger.py:39-45 | a line without `[LEVEL]` is unchanged, for a known level too |
| Colors.ColorizeRoundTrip | ineeji_logging/logger.py:39-45 | for a known level and a line without escape characters, replacing each coloured tag back by the plain tag restores the line: colouring adds only the colour codes |
| Colors.ColorizeInfoExample | ineeji_logging/logger.py:27-43 | `[INFO] hi` becomes the green code, `[INFO]`, the reset code, then ` hi` |
| Colors.ReplaceBack | ineeji_logging/logger.py:43 | replacing `pat` by `rep` and then `rep` by `pat` is the identity when `rep` starts with a character the string lacks |
| Formatters.StyleCharNormal | ineeji_logging/logger.py:182-186 | the base formatter always receives one of the styles `%`, `{`, `$`, and normalising a normalised style changes nothing |
| Formatters.ActiveTemplate | ineeji_logging/logger.py:188 | the base formatter's template is `fmt` when present and non-empty, otherwise the style's default (`%(message)s`, `{message}` or `${message}`); it is never empty |
| Formatters.DetailedOrFmt | ineeji_logging/logger.py:189 | the detailed template is `detailed_fmt` when truthy, otherwise `fmt`; it is truthy exactly when one of the two is |
| Formatters.TierChoice | ineeji_logging/logger.py:193-200 | the template `TemplateFor` picks by the test `UsesDetailed`: with a distinct non-empty detailed template, the detailed one iff the level is at least WARNING and the compact one iff it is below |
| Formatters.TierMonotone | ineeji_logging/logger.py:193 | a level that gets the detailed template passes that to every higher level |
| Formatters.DetailedFormatter.constructor | ineeji_logging/logger.py:180-189 | the style character, the active template for that style and the detailed template are the ones the constructor derives from its arguments |
| Formatters.DetailedFormatter.Format | ineeji_logging/logger.py:191-200 | as written: the line is rendered with the template the level selects; after a successful rendering, or one with the compact template, the active template is as before; when rendering with the detailed template raises, the detailed template stays active |
| Formatters.DetailedFormatter.FormatRestoring | ineeji_logging/logger.py:191-200 | corrected: the same line, and the active template is as before in every case |
| Formatters.ColoredDetailedFormatter.constructor | ineeji_logging/logger.py:208-217 | the same derivation of style and templates as the plain formatter |
| Formatters.ColoredDetailedFormatter.BaseFormat | ineeji_logging/logger.py:34-45 | the base rendering with the level tag coloured; a failed rendering fails before any tagging |
| Formatters.ColoredDetailedFormatter.Format | ineeji_logging/logger.py:219-228 | as written: the coloured rendering with the template the level selects, the active template restored only when rendering succeeds or uses the compact template |
| Formatters.ColoredDetailedFormatter.FormatRestoring | ineeji_logging/logger.py:219-228 | corrected: the same line, and the active template is as before in every case |
| Formatters.SameTiering | ineeji_logging/logger.py:219-228 | built from the same templates, the coloured formatter's line is the plain formatter's line with coloured tags, both fail together, and the plain line uses the level-selected template |
| Formatters.StickyTemplateWitness | ineeji_logging/logger.py:194-198 | as written: after a WARNING record whose rendering fails, the next INFO record is rendered with the detailed template |
| Formatters.RestoredTemplateWitness | ineeji_logging/logger.py:194-198 | corrected: after the same failure, the INFO record is rendered with the compact template |
| Partition.DateStamp | ineeji_logging/logger.py:143 | the stamp is ten characters with dashes at positions 4 and 7 |
| Partition.StampRoundTrip | ineeji_logging/logger.py:143 | the date stamp has no separator and parses back to the date |
| Partition.StampInjective | ineeji_logging/logger.py:143 | distinct dates give distinct stamps |
| Partition.StripTrailingSlashes | ineeji_logging/logger.py:144 | the result is a prefix of the input, does not end in a separator, and everything removed is a separator |
| Partition.ExpandUser | ineeji_logging/logger.py:144 | a path not starting with `~` is unchanged, and a non-empty path never expands to the empty string |
| Partition.PartitionFileInjective | ineeji_logging/logger.py:143-147 | under one base, the file determines project, environment and day, for project and environment names that are non-empty, not `.` and without separators |
| ParquetHandler.HandlersSeparateFiles | ineeji_logging/logger.py:143-147 | two handlers with one base path write different files when their projects, environments or days differ, for such names |
| Storage.MergedRows | ineeji_logging/logger.py:153-159 | the rows written are the rows a read of the file returns (none when it is absent or unreadable) followed by the batch |
| Storage.Flush | ineeji_logging/logger.py:127-165 | the buffer ends empty; an empty buffer or a fault leaves the files unchanged; otherwise the file is readable and reads as its old readable rows followed by the batch, and an unreadable file is replaced by the batch alone; no other file changes |
| Storage.Emit | ineeji_logging/logger.py:118-123 | the entry is appended, and the buffer is kept iff the new length is below the threshold (drained otherwise); a buffer below the threshold stays below it; with no fault, stored plus buffered rows grow by exactly the entry; no other file changes |
| Storage.FlushIdempotent | ineeji_logging/logger.py:130-132 | a second flush, on any day and with any fault, changes nothing |
| Storage.FiveAndTwoExample | ineeji_logging/logger.py:150-162 | a readable file of five rows and a batch of two give seven rows, the old five first |
| Storage.EmitAllConserves | ineeji_logging/logger.py:118-162 | with no fault, after a run of emits into one partition file (one handler, one day) the stored plus buffered rows are the earlier ones followed by every emitted entry in order, for any threshold; a buffer below the threshold stays below it |
| Storage.EmitAllRemainder | ineeji_logging/logger.py:118-123 | from a buffer of b rows below the threshold, after n emits into one partition file the buffer holds (b + n) mod threshold rows, whatever the faults |
| Storage.EmitAllDrains | ineeji_logging/logger.py:118-123 | with a threshold of at most one every emit flushes, so after a non-empty run of emits the buffer is empty, whatever the faults |
| Storage.EagerStoresAll | ineeji_logging/logger.py:118-123 | with a threshold of at most one (1, 0 or negative, none of which the handler rejects) and no fault, every entry is in the file, in arrival order, and the buffer is empty |
| Storage.EmitAllAtMostOnce | ineeji_logging/logger.py:141-165 | whatever the faults, the rows held for the file afterwards are a subsequence of the earlier rows followed by the emitted entries: rows may be lost, never duplicated or reordered |
| Storage.SubseqMultiset | ineeji_logging/logger.py:141-165 | a subsequence holds no element more often than the original and is no longer |
| Storage.EmitHeld | ineeji_logging/logger.py:118-165 | one emit keeps every held row with the entry last, except when the flush it triggers fails, which leaves only the stored rows |
| Storage.FlushJobsStoresAll | ineeji_logging/logger.py:81-88 | with no fault, after flushing handlers in order each file holds its earlier rows followed by the batches of the handlers writing to it, in creation order |
| Storage.FlushJobsFrame | ineeji_logging/logger.py:81-88 | a file no handler writes to is left as it was |
| ParquetHandler.HandlerRegistry.constructor | ineeji_logging/logger.py:53 | the handler list starts empty |
| ParquetHandler.ParquetLogHandler.constructor | ineeji_logging/logger.py:55-73 | the settings are stored, the buffer is empty, and the handler is appended to the list of all handlers, which stays free of repeats |
| ParquetHandler.ParquetLogHandler.Emit | ineeji_logging/logger.py:97-123 | the new buffer and storage are `Storage.Emit` of the old ones, for the row built from the record and the partition file of the day |
| ParquetHandler.ParquetLogHandler.Flush | ineeji_logging/logger.py:127-165 | the new buffer and storage are `Storage.Flush` of the old ones, for the partition file of the day |
| ParquetHandler.ParquetLogHandler.Close | ineeji_logging/logger.py:167-172 | the buffer ends empty and the storage is that of a flush |
| ParquetHandler.FlushNext | ineeji_logging/logger.py:83-88 | flushing one handler empties its buffer and extends the jobs done so far by its own job |
| ParquetHandler.FlushAllOnExit | ineeji_logging/logger.py:81-88 | every registered handler's buffer ends empty, and the storage is the result of flushing their batches one after another in creation order |
| Logging.DefaultConfig | ineeji_logging/logger.py:414-470 | an unknown environment falls back to development; the text log is `logs/<env>/<stamp>/app.log`; columnar and asynchronous logging are on with a positive threshold; console output is on exactly outside production, and the level is WARNING or more exactly in production |
| Logging.DefaultConfigFallback | ineeji_logging/logger.py:470 | an unknown environment gets exactly the development configuration |
| Logging.ProjectNameEmpty | ineeji_logging/logger.py:284 | the project name is empty exactly when none is given and the working directory has no name (it is the root) |
| Logging.PlannedSinksSelection | ineeji_logging/logger.py:306-344 | the sinks `PlannedSinks` lists: the console sink iff console output is on, the text file when a path is given, the columnar sink iff columnar logging is on, each with its settings, at most once each and in the order console, file, columnar |
| Logging.BuildSinks | ineeji_logging/logger.py:305-344 | the sinks built are the planned ones; the handler list grows only when columnar logging is on, by one fresh handler with an empty buffer, which is the last sink |
| Logging.Listener.Start | ineeji_logging/logger.py:364-365 | a started listener drains to the given sinks and is running |
| Logging.StdLogger.RemoveAllHandlers | ineeji_logging/logger.py:287-289 | the logger ends with no handlers; level and propagation are untouched |
| Logging.StdLogger.AddDirect | ineeji_logging/logger.py:350-352 | every sink is attached directly, in order, after the existing handlers |
| Logging.ListenerRegistry.constructor | ineeji_logging/logger.py:245 | the registry starts empty |
| Logging.ListenerRegistry.Detach | ineeji_logging/logger.py:291-295 | corrected: the entry of the name is removed and its listener stopped; no other listener changes and the registry stays consistent |
| Logging.ListenerRegistry.Register | ineeji_logging/logger.py:368 | the new listener is registered under its name and the registry stays consistent |
| Logging.ListenerRegistry.StopAll | ineeji_logging/logger.py:375-383 | corrected: every listener ever registered is stopped and the registry is empty |
| Logging.DetachAsWritten | ineeji_logging/logger.py:291-295 | as written: the entry is removed, no listener is stopped, and the call fails with `AttributeError` exactly when the name was registered |
| Logging.StopAllAsWritten | ineeji_logging/logger.py:375-383 | as written: the registry is cleared and no listener is stopped |
| Logging.ReconfigureLeakWitness | ineeji_logging/logger.py:291-295 | re-creating logger `app`, whose listener drains to the console, fails as written and leaves the first listener running outside the registry |
| Logging.ExitLeakWitness | ineeji_logging/logger.py:375-383 | the exit hook as written leaves a registered worker running with the registry empty |
| Logging.StopAllTwice | ineeji_logging/logger.py:375-383 | the corrected exit hook run twice leaves every worker stopped and the registry empty |
| Logging.OneWorkerPerName | ineeji_logging/logger.py:244-245 | in a consistent registry at most one running worker has a given logger name |
| Logging.Attach | ineeji_logging/logger.py:346-373 | asynchronous with sinks: a fresh listener over exactly these sinks is registered and is the only handler; otherwise the sinks are attached directly and no listener is registered |
| Logging.Install | ineeji_logging/logger.py:280-295 | corrected: level set, propagation off, the old listener of the name stopped, no other listener touched, other names' entries unchanged, and the sinks attached once as `Attach` states |
| Logging.Logger.constructor | ineeji_logging/logger.py:247-352 | corrected: everything `Install` and `BuildSinks` state, for the project name and the format defaults the constructor chooses: the logger's sinks are the planned ones, attached once, no old worker of the name keeps running, and with columnar logging the handler appended to the registry the exit hook flushes is fresh, empty and the logger's last sink |

## Left out

- Threads, the unbounded queue and the re-entrant lock: the model is sequential. The listener's FIFO delivery is not modelled; a listener is a running flag and its list of sinks.
- `Logging.Listener.Stop`: does not model draining the queue before the worker ends, because the queue and the thread are left out.
- Registration of the `atexit` and signal hooks (lines 74-78 and 371-372), and `_handle_signal` (lines 90-95), which flushes and then invokes the default interrupt handler: process-level side effects.
- `debug`, `info`, `warning`, `error`, `critical`, `exception` and `set_level` (lines 385-411): they delegate to the standard library's level filtering and record building.
- The console and text-file streams and the directory creation for the text log (lines 309-333): output I/O. Those sinks are kept only as `Console(colored)` and `TextFile(path)`.
- The formatter object attached to each sink (lines 313-322 and 343) is not stored on the sink. The `Logger` keeps the templates it passes to the formatters.
- Formatters.DetailedFormatter.constructor: does not model the template validation of the base `logging.Formatter` constructor, which raises `ValueError` for a template that names no field in its style (for example `plain` in `%` style). Validation is standard-library logic with its own pattern matching per style.
- Formatters.ColoredDetailedFormatter.constructor: does not model the same `ValueError` from template validation, for the same reason.
- The `datefmt` parameter of both formatter constructors (lines 180 and 208): the `Logger` never passes it, so the model's constructors do not take it.
- The keyword defaults of `Logger.__init__` (lines 250-260): level INFO, console on and coloured, no text file, asynchronous, columnar logging off, environment `development`, threshold 100. The model's `Config` is always given in full.
- Logging.Logger.constructor: does not model that a format string failing that validation makes the constructor raise at line 314, 316 or 322. At that point the old handlers are already removed and the old listener detached.
- pandas and fastparquet: a file is a sequence of rows. A failing write is modelled as leaving the file unchanged; a partially written file is not modelled.
- `handleError` (lines 124-125): building the row cannot fail in the model, because the rendered text is an input.
- `datetime.now()` and `Path.cwd()`: the date and the directory name are parameters. The timestamp column is an opaque integer.
- `ParquetLogHandler`'s settings are fields that are never reassigned, as in the code; a caller reassigning `base_path` from outside is not modelled.
- `Partition.PartitionFile`: joins with `/` as strings. It does not model `pathlib`: dropping empty and `.` components, collapsing repeated separators, a component that is an absolute path replacing what precedes it, and an empty base giving a relative path (`Path("")` is `.`), where the model gives `/<project>/...`. `Partition.PartitionFileInjective` and `ParquetHandler.HandlersSeparateFiles` therefore require plain component names.
- `Partition.ExpandUser`: its contract states only the untouched and non-empty cases. The tilde cases (home lookup with trailing separators dropped, an unknown user left as is) are in its body. Reading `HOME` and the password database is replaced by parameters.
- `Colors.Colorize`: its own contract states only the unknown-level case. The known-level case is stated by `Colors.ColorizeFirstTag` and `Colors.ColorizeNoTag`.
- The level name `RESET` is in the colour table, so it counts as a known level, as in the code.
- Some tests of the package disagree with the current code: a two-argument handler constructor with threshold 1, and a partition path without the project. The model follows the code (threshold 100 by default, project in the path).
- The number of flushes is not counted. `Storage.EmitAllRemainder` states the buffer length after n emits, (b + n) mod T. Counting the final flush on close, which takes the remainder, gives ⌈N/T⌉ flushes from an empty buffer.
- The comment at line 291 and the stop at lines 294-295 show that re-creating a logger under the same name is meant to stop the old worker. The code as written fails at that point (first finding below). The constructor model uses the corrected detach.

## Findings

| source | as written | input that shows it | evidently intended | confidence | as-written member | corrected member |
|---|---|---|---|---|---|---|
| ineeji_logging/logger.py:292-295 | after popping the old listener the constructor calls `listener.is_alive()`, but the standard library's `QueueListener` defines `start` and `stop` and no `is_alive`, so `AttributeError` is raised | create `Logger("app")` twice with asynchronous logging and at least one sink: the second constructor fails, and the first worker keeps running outside the registry | stop the old listener, then build and attach the new sinks | not executed; relies on `QueueListener` having no `is_alive` method | Logging.DetachAsWritten, Logging.ReconfigureLeakWitness | Logging.ListenerRegistry.Detach |
| ineeji_logging/logger.py:375-383 | the same `is_alive()` call raises for every listener, the bare `except` swallows it, and the registry is cleared | one asynchronous logger, then the exit hook: its worker is never stopped | stop every registered listener, then clear the registry | not executed; relies on `QueueListener` having no `is_alive` method | Logging.StopAllAsWritten, Logging.ExitLeakWitness | Logging.ListenerRegistry.StopAll |
| ineeji_logging/logger.py:194-198 | the detailed template is swapped into `_style._fmt` and restored only after `super().format` returns, with no `finally`; the same at lines 222-226 | a `Logger` built with `async_logging=False`, then `logger.warning("%d", "x")`: rendering raises `TypeError` in `getMessage`, the handler's `handleError` swallows it, and every later record, INFO included, is rendered with the detailed template by that formatter. With the default asynchronous logger that record fails earlier, in `QueueHandler.prepare`, and never reaches the listener; there a `detailed_format_string` naming a field records lack, such as `%(user)s %(message)s`, makes the first WARNING raise `ValueError` in the listener's formatter with the same effect | restore the active template whether or not rendering raises | not executed | Formatters.DetailedFormatter.Format, Formatters.ColoredDetailedFormatter.Format, Formatters.StickyTemplateWitness | Formatters.DetailedFormatter.FormatRestoring, Formatters.ColoredDetailedFormatter.FormatRestoring, Formatters.RestoredTemplateWitness |
