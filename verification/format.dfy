/** The coloured fields of the log line (handler.go `fmtStatus`, `fmtMethod`,
    `fmtPath`). Colours are abstract classes rather than ANSI escape strings. */
module Format {

  /** Background class of the status field (its text is always white). */
  datatype Background = BgGreen | BgCyan | BgYellow | BgRed

  /** Foreground class of the method field. */
  datatype Foreground = FgGreen | FgCyan | FgBlue | FgRed | NoColor

  /** The status field: `%3d` of the status code on a coloured background. */
  datatype StatusField = StatusField(bg: Background, code: int)

  /** The method field: the method text in a foreground colour. */
  datatype MethodField = MethodField(fg: Foreground, text: string)

  /** The path field: the path text, always dimmed. */
  datatype PathField = PathField(text: string)

  /** The range of status codes each background stands for; red is every
      code outside 200..499, so 1xx, 5xx and negative codes land there. */
  predicate InBand(bg: Background, code: int) {
    match bg
    case BgGreen => 200 <= code <= 299
    case BgCyan => 300 <= code <= 399
    case BgYellow => 400 <= code <= 499
    case BgRed => code < 200 || 499 < code
  }

  /** The methods that get a colour; every other method gets none. */
  const MethodColors: map<string, Foreground> :=
    map["GET" := FgGreen, "POST" := FgCyan, "PUT" := FgBlue, "PATCH" := FgBlue, "DELETE" := FgRed]

  /** `fmtStatus`: the code is shown as is, on the one background whose band
      holds it. */
  function FmtStatus(status: int): (f: StatusField)
    ensures f.code == status
    ensures forall bg :: InBand(bg, status) <==> f.bg == bg
  {
    var bg :=
      if status >= 200 && status <= 299 then BgGreen
      else if status >= 300 && status <= 399 then BgCyan
      else if status >= 400 && status <= 499 then BgYellow
      else BgRed;
    StatusField(bg, status)
  }

  /** The bands are a partition of the integers: each code is in exactly one. */
  lemma BandsPartition(code: int)
    ensures exists bg :: InBand(bg, code)
    ensures forall b1, b2 :: InBand(b1, code) && InBand(b2, code) ==> b1 == b2
  {
    assert InBand(FmtStatus(code).bg, code);
  }

  /** `fmtMethod`: the method text unchanged, coloured by exact (case-sensitive)
      lookup in `MethodColors`, and without colour when it is not there. */
  function FmtMethod(verb: string): (f: MethodField)
    ensures f.text == verb
    ensures verb in MethodColors ==> f.fg == MethodColors[verb]
    ensures f.fg == NoColor <==> verb !in MethodColors
  {
    var fg :=
      if verb == "GET" then FgGreen
      else if verb == "POST" then FgCyan
      else if verb == "PUT" || verb == "PATCH" then FgBlue
      else if verb == "DELETE" then FgRed
      else NoColor;
    MethodField(fg, verb)
  }

  /** `fmtPath`: the path text unchanged. */
  function FmtPath(path: string): (f: PathField)
    ensures f.text == path
  {
    PathField(path)
  }
}
