/** The tiered formatters: a record at WARNING or above is rendered with the
    detailed template, any other record with the formatter's own template.
    The template-driven rendering of the standard library is a parameter
    (`Renderer`), kept opaque; it may fail, as `Formatter.format` raises
    when a record's message cannot be interpolated. */
module Formatters {
  import opened Common
  import Colors

  /** `logging.Formatter.format` for a given template and style character:
      the rendered line, or `None` when rendering raises. */
  type Renderer = (string, char, LogRecord) -> Option<string>

  /** The style character the constructors pass on: '{' and '$' are kept,
      anything else becomes '%'. */
  function StyleChar(style: string): (c: char)
    ensures c == '{' <==> style == "{"
    ensures c == '$' <==> style == "$"
    ensures c == '%' <==> style != "{" && style != "$"
  {
    if style == "{" then '{' else if style == "$" then '$' else '%'
  }

  /** The base formatter always receives one of the three styles it knows,
      and normalising a normalised style changes nothing. */
  lemma StyleCharNormal(style: string)
    ensures StyleChar(style) in "%{$"
    ensures StyleChar([StyleChar(style)]) == StyleChar(style)
  {
  }

  /** The base formatter's default template for a style: the message field
      alone, in that style's syntax. */
  function DefaultTemplate(style: char): string
  {
    if style == '{' then "{message}" else if style == '$' then "${message}" else "%(message)s"
  }

  /** The active template of a base formatter: `fmt`, or the style's default
      when `fmt` is missing or empty. */
  function ActiveTemplate(fmt: Option<string>, style: char): (t: string)
    ensures t != ""
    ensures Truthy(fmt) ==> t == fmt.value
    ensures !Truthy(fmt) ==> t == DefaultTemplate(style)
  {
    if Truthy(fmt) then fmt.value else DefaultTemplate(style)
  }

  /** `detailed_fmt or fmt`: the detailed template falls back to `fmt`. */
  function DetailedOrFmt(detailed: Option<string>, fmt: Option<string>): (d: Option<string>)
    ensures Truthy(d) <==> Truthy(detailed) || Truthy(fmt)
    ensures Truthy(detailed) ==> d == detailed
    ensures !Truthy(detailed) ==> d == fmt
  {
    if Truthy(detailed) then detailed else fmt
  }

  /** The level test of `format`: the detailed template is used at WARNING and
      above, when there is one. */
  predicate UsesDetailed(levelno: int, detailed: Option<string>)
  {
    levelno >= WARNING && Truthy(detailed)
  }

  /** The template `format` renders a record with. */
  function TemplateFor(levelno: int, active: string, detailed: Option<string>): string
  {
    if UsesDetailed(levelno, detailed) then detailed.value else active
  }

  /** The tiers are ordered by level: once a level gets the detailed
      template, every higher level does too. */
  lemma TierMonotone(lo: int, hi: int, active: string, detailed: Option<string>)
    requires lo <= hi && Truthy(detailed)
    requires TemplateFor(lo, active, detailed) == detailed.value
    ensures TemplateFor(hi, active, detailed) == detailed.value
  {
  }

  /** With a distinct non-empty detailed template, the detailed template is
      chosen exactly for WARNING and above, and the compact one otherwise. */
  lemma TierChoice(levelno: int, active: string, detailed: string)
    requires detailed != "" && detailed != active
    ensures TemplateFor(levelno, active, Some(detailed)) == detailed <==> levelno >= WARNING
    ensures TemplateFor(levelno, active, Some(detailed)) == active <==> levelno < WARNING
  {
  }

  /** `ColoredFormatter.format` applied to a rendering that may have failed. */
  function ColorizeResult(levelname: string, r: Option<string>): Option<string>
  {
    if r.Some? then Some(Colors.Colorize(levelname, r.value)) else None
  }

  /** `DetailedFormatter`: `styleFmt` is the base formatter's mutable active
      template (`_style._fmt`). */
  class DetailedFormatter {
    var styleFmt: string
    const styleChar: char
    const detailedFmt: Option<string>

    constructor (fmt: Option<string>, style: string, detailed: Option<string>)
      ensures styleChar == StyleChar(style) && styleFmt == ActiveTemplate(fmt, styleChar)
      ensures detailedFmt == DetailedOrFmt(detailed, fmt)
    {
      styleChar := StyleChar(style);
      styleFmt := ActiveTemplate(fmt, StyleChar(style));
      detailedFmt := DetailedOrFmt(detailed, fmt);
    }

    /** `format` as written: the detailed template is swapped in and the
        active one restored after rendering, with no `finally`, so a
        rendering that raises leaves the detailed template active. */
    method Format(record: LogRecord, render: Renderer) returns (line: Option<string>)
      modifies this
      ensures line == render(TemplateFor(record.levelno, old(styleFmt), detailedFmt), styleChar, record)
      ensures line.Some? || !UsesDetailed(record.levelno, detailedFmt) ==> styleFmt == old(styleFmt)
      ensures line.None? && UsesDetailed(record.levelno, detailedFmt) ==> styleFmt == detailedFmt.value
    {
      if record.levelno >= WARNING && Truthy(detailedFmt) {
        var original := styleFmt;
        styleFmt := detailedFmt.value;
        line := render(styleFmt, styleChar, record);
        if line.None? {
          return;
        }
        styleFmt := original;
      } else {
        line := render(styleFmt, styleChar, record);
      }
    }

    /** `format` with the restore in a `finally`: the active template is the
        same afterwards, whether or not rendering raises. */
    method FormatRestoring(record: LogRecord, render: Renderer) returns (line: Option<string>)
      modifies this
      ensures styleFmt == old(styleFmt)
      ensures line == render(TemplateFor(record.levelno, old(styleFmt), detailedFmt), styleChar, record)
    {
      if record.levelno >= WARNING && Truthy(detailedFmt) {
        var original := styleFmt;
        styleFmt := detailedFmt.value;
        line := render(styleFmt, styleChar, record);
        styleFmt := original;
      } else {
        line := render(styleFmt, styleChar, record);
      }
    }
  }

  /** `ColoredDetailedFormatter`: the same tiering, with the colour tagging
      of `ColoredFormatter` applied to the rendered line. */
  class ColoredDetailedFormatter {
    var styleFmt: string
    const styleChar: char
    const detailedFmt: Option<string>

    constructor (fmt: Option<string>, style: string, detailed: Option<string>)
      ensures styleChar == StyleChar(style) && styleFmt == ActiveTemplate(fmt, styleChar)
      ensures detailedFmt == DetailedOrFmt(detailed, fmt)
    {
      styleChar := StyleChar(style);
      styleFmt := ActiveTemplate(fmt, StyleChar(style));
      detailedFmt := DetailedOrFmt(detailed, fmt);
    }

    /** The colour tagging of the level's name in the line rendered by the
        base formatter; a failed rendering raises before any tagging. */
    method BaseFormat(record: LogRecord, render: Renderer) returns (line: Option<string>)
      ensures line == ColorizeResult(record.levelname, render(styleFmt, styleChar, record))
    {
      line := render(styleFmt, styleChar, record);
      if line.Some? && Colors.ColorCode(record.levelname).Some? {
        line := Some(Colors.ReplaceAll(line.value, Colors.Tag(record.levelname), Colors.ColoredTag(record.levelname)));
      }
    }

    /** `format` as written, with the same missing restore on failure as the
        plain formatter. */
    method Format(record: LogRecord, render: Renderer) returns (line: Option<string>)
      modifies this
      ensures line == ColorizeResult(record.levelname,
                                     render(TemplateFor(record.levelno, old(styleFmt), detailedFmt), styleChar, record))
      ensures line.Some? || !UsesDetailed(record.levelno, detailedFmt) ==> styleFmt == old(styleFmt)
      ensures line.None? && UsesDetailed(record.levelno, detailedFmt) ==> styleFmt == detailedFmt.value
    {
      if record.levelno >= WARNING && Truthy(detailedFmt) {
        var original := styleFmt;
        styleFmt := detailedFmt.value;
        line := BaseFormat(record, render);
        if line.None? {
          return;
        }
        styleFmt := original;
      } else {
        line := BaseFormat(record, render);
      }
    }

    /** `format` with the restore in a `finally`. */
    method FormatRestoring(record: LogRecord, render: Renderer) returns (line: Option<string>)
      modifies this
      ensures styleFmt == old(styleFmt)
      ensures line == ColorizeResult(record.levelname,
                                     render(TemplateFor(record.levelno, old(styleFmt), detailedFmt), styleChar, record))
    {
      if record.levelno >= WARNING && Truthy(detailedFmt) {
        var original := styleFmt;
        styleFmt := detailedFmt.value;
        line := BaseFormat(record, render);
        styleFmt := original;
      } else {
        line := BaseFormat(record, render);
      }
    }
  }

  /** Tiering is applied identically to the coloured and plain variants: built
      from the same templates, the coloured formatter's line is the plain
      formatter's line with coloured tags, and both fail together. */
  method SameTiering(fmt: Option<string>, detailed: Option<string>, record: LogRecord, render: Renderer)
    returns (plain: Option<string>, colored: Option<string>)
    ensures colored == ColorizeResult(record.levelname, plain)
    ensures plain == render(TemplateFor(record.levelno, ActiveTemplate(fmt, '%'), DetailedOrFmt(detailed, fmt)), '%', record)
  {
    var p := new DetailedFormatter(fmt, "%", detailed);
    var c := new ColoredDetailedFormatter(fmt, "%", detailed);
    plain := p.FormatRestoring(record, render);
    colored := c.FormatRestoring(record, render);
  }

  /** A renderer that fails on the message "bad" and otherwise returns the
      template itself, so a line shows which template was used. */
  function ShowTemplate(t: string, c: char, r: LogRecord): Option<string>
  {
    if r.message == "bad" then None else Some(t)
  }

  /** The template stuck after a failure, as written: a WARNING record whose
      rendering raises leaves the detailed template active, and the next INFO
      record is rendered with the detailed template instead of the compact
      one. */
  method StickyTemplateWitness() returns (first: Option<string>, second: Option<string>)
    ensures first == None
    ensures second == Some("detailed")
  {
    var f := new DetailedFormatter(Some("compact"), "%", Some("detailed"));
    var warning := LogRecord(0, WARNING, "WARNING", "app", "bad", "m.py", 1, "f", None);
    var info := LogRecord(0, INFO, "INFO", "app", "ok", "m.py", 2, "f", None);
    first := f.Format(warning, ShowTemplate);
    second := f.Format(info, ShowTemplate);
  }

  /** The same two records with the restoring format: the INFO record gets
      the compact template. */
  method RestoredTemplateWitness() returns (first: Option<string>, second: Option<string>)
    ensures first == None
    ensures second == Some("compact")
  {
    var f := new DetailedFormatter(Some("compact"), "%", Some("detailed"));
    var warning := LogRecord(0, WARNING, "WARNING", "app", "bad", "m.py", 1, "f", None);
    var info := LogRecord(0, INFO, "INFO", "app", "ok", "m.py", 2, "f", None);
    first := f.FormatRestoring(warning, ShowTemplate);
    second := f.FormatRestoring(info, ShowTemplate);
  }
}
